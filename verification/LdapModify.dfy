/** Value-level LDAP modifications over a transport that retries, against a server that may lose any reply. */
module LdapModify {
  import opened Options
  import opened Order

  datatype Kind = Delete | Add | Replace

  datatype Op = Op(kind: Kind, attr: string, values: seq<string>)

  /** Attribute values by attribute, as the caller lists them. */
  type Lists = map<string, seq<string>>

  /** The attribute values an entry holds. */
  type Entry = set<(string, string)>

  /////////// The server: section 4.6 of RFC 4511 ///////////

  const ATTRIBUTE_OR_VALUE_EXISTS := 20
  const NO_SUCH_ATTRIBUTE := 16

  predicate Distinct(s: seq<string>) {
    forall i, j :: 0 <= i < j < |s| ==> s[i] != s[j]
  }

  function Pairs(attr: string, values: seq<string>): Entry {
    set v | v in values :: (attr, v)
  }

  function Without(e: Entry, attr: string): Entry {
    set p | p in e && p.0 != attr
  }

  /** A replace that lists a value twice is refused and has no effect. */
  function Effect(e: Entry, op: Op): Entry {
    match op.kind
    case Delete => if op.values == [] then Without(e, op.attr) else e - Pairs(op.attr, op.values)
    case Add => e + Pairs(op.attr, op.values)
    case Replace => if Distinct(op.values) then Without(e, op.attr) + Pairs(op.attr, op.values) else e
  }

  function EffectAll(e: Entry, ops: seq<Op>): Entry
    decreases |ops|
  {
    if ops == [] then e else EffectAll(Effect(e, ops[0]), ops[1..])
  }

  /** The result code with which the server refuses one modification, if it does. */
  function Refusal1(e: Entry, op: Op): Option<int> {
    if !Distinct(op.values) then Some(ATTRIBUTE_OR_VALUE_EXISTS)
    else
      match op.kind
      case Delete =>
        if op.values == [] then (if Without(e, op.attr) == e then Some(NO_SUCH_ATTRIBUTE) else None)
        else if Pairs(op.attr, op.values) <= e then None else Some(NO_SUCH_ATTRIBUTE)
      case Add => if Pairs(op.attr, op.values) * e == {} then None else Some(ATTRIBUTE_OR_VALUE_EXISTS)
      case Replace => None
  }

  /** A request is applied whole or, with the code of its first refused modification, not at all. */
  function Refusal(e: Entry, ops: seq<Op>): Option<int>
    decreases |ops|
  {
    if ops == [] then None
    else if Refusal1(e, ops[0]).Some? then Refusal1(e, ops[0])
    else Refusal(Effect(e, ops[0]), ops[1..])
  }

  lemma {:induction false} RefusalCodes(e: Entry, ops: seq<Op>)
    ensures Refusal(e, ops).Some? ==> Refusal(e, ops).value in {ATTRIBUTE_OR_VALUE_EXISTS, NO_SUCH_ATTRIBUTE}
    decreases |ops|
  {
    if ops != [] { RefusalCodes(Effect(e, ops[0]), ops[1..]); }
  }

  function Served(e: Entry, ops: seq<Op>): Entry {
    if Refusal(e, ops).None? then EffectAll(e, ops) else e
  }

  /////////// The client ///////////

  /** A result code that says nothing about values being there or not. */
  type OtherCode = c: int | c != ATTRIBUTE_OR_VALUE_EXISTS && c != NO_SUCH_ATTRIBUTE witness 1

  /** What becomes of one attempt. */
  datatype Fate =
    | NoConnection             // nothing is sent
    | Lost(reached: bool)      // the reply is lost, and perhaps the request
    | Refused(code: OtherCode) // another result code, nothing applied
    | Answered                 // the server's own answer arrives

  datatype Error = Code(code: int) | Transport | Aborted

  predicate IsAlreadyConverged(e: Option<Error>) {
    e == Some(Code(ATTRIBUTE_OR_VALUE_EXISTS)) || e == Some(Code(NO_SUCH_ATTRIBUTE))
  }

  /** The attempt may succeed when it is repeated: no reply came, or a refusal that is not about the request itself. */
  ghost predicate Passing(f: Fate) {
    match f
    case NoConnection => true
    case Lost(_) => true
    case Refused(code) => code != 32 && code != 34 && code != 49 && code != 50 && code != 65
    case Answered => false
  }

  /** `isLDAPErrorRetryable`. */
  predicate Retryable(e: Error) {
    e.Transport? || (e.Code? && e.code !in {32, 34, 49, 50, 65, ATTRIBUTE_OR_VALUE_EXISTS, NO_SUCH_ATTRIBUTE})
  }

  /** Sending the same request again changes nothing more. */
  ghost predicate Idempotent(ops: seq<Op>) {
    forall e :: EffectAll(EffectAll(e, ops), ops) == EffectAll(e, ops)
  }

  function Group(kind: Kind, keys: seq<string>, lists: Lists): seq<Op>
    requires forall k :: k in keys ==> k in lists
  {
    if keys == [] then [] else [Op(kind, keys[0], lists[keys[0]])] + Group(kind, keys[1..], lists)
  }

  /** Deletes, adds, replaces; each by attribute name. */
  function Ops(add: Lists, del: Lists, replace: Lists): seq<Op> {
    Group(Delete, SortedKeys(del.Keys), del) + Group(Add, SortedKeys(add.Keys), add) +
    Group(Replace, SortedKeys(replace.Keys), replace)
  }

  function Singles(kind: Kind, attr: string, values: seq<string>): seq<Op> {
    if values == [] then [] else [Op(kind, attr, [values[0]])] + Singles(kind, attr, values[1..])
  }

  function Split1(op: Op): seq<Op> {
    if op.kind.Replace? || |op.values| <= 1 then [op] else Singles(op.kind, op.attr, op.values)
  }

  function Split(ops: seq<Op>): seq<Op> {
    if ops == [] then [] else Split1(ops[0]) + Split(ops[1..])
  }

  /////////// What a request does, attribute by attribute ///////////

  /** The promised content: replaced attributes hold the listed values, the others lose the deleted and gain the added. */
  ghost predicate Promised(e: Entry, add: Lists, del: Lists, replace: Lists, a: string, v: string) {
    if a in replace then v in replace[a]
    else (a in add && v in add[a]) || ((a, v) in e && !(a in del && (del[a] == [] || v in del[a])))
  }

  /** The replaces the server honours. */
  ghost function Honoured(replace: Lists): Lists {
    map a | a in replace && Distinct(replace[a]) :: replace[a]
  }

  lemma {:induction false} EffectAllConcat(e: Entry, a: seq<Op>, b: seq<Op>)
    ensures EffectAll(e, a + b) == EffectAll(EffectAll(e, a), b)
    decreases |a|
  {
    if a == [] {
      assert a + b == b;
    } else {
      assert (a + b)[1..] == a[1..] + b;
      EffectAllConcat(Effect(e, a[0]), a[1..], b);
    }
  }

  lemma {:induction false} DeleteGroup(e: Entry, keys: seq<string>, del: Lists, a: string, v: string)
    requires forall k :: k in keys ==> k in del
    ensures (a, v) in EffectAll(e, Group(Delete, keys, del)) <==>
            (a, v) in e && !(a in keys && (del[a] == [] || v in del[a]))
    decreases |keys|
  {
    if keys != [] {
      DeleteGroup(Effect(e, Op(Delete, keys[0], del[keys[0]])), keys[1..], del, a, v);
      assert keys == [keys[0]] + keys[1..];
    }
  }

  lemma {:induction false} AddGroup(e: Entry, keys: seq<string>, add: Lists, a: string, v: string)
    requires forall k :: k in keys ==> k in add
    ensures (a, v) in EffectAll(e, Group(Add, keys, add)) <==> (a, v) in e || (a in keys && v in add[a])
    decreases |keys|
  {
    if keys != [] {
      AddGroup(Effect(e, Op(Add, keys[0], add[keys[0]])), keys[1..], add, a, v);
      assert keys == [keys[0]] + keys[1..];
    }
  }

  lemma {:induction false} ReplaceGroup(e: Entry, keys: seq<string>, replace: Lists, a: string, v: string)
    requires forall k :: k in keys ==> k in replace
    ensures (a, v) in EffectAll(e, Group(Replace, keys, replace)) <==>
            if a in keys && Distinct(replace[a]) then v in replace[a] else (a, v) in e
    decreases |keys|
  {
    hide Distinct;
    if keys != [] {
      ReplaceGroup(Effect(e, Op(Replace, keys[0], replace[keys[0]])), keys[1..], replace, a, v);
      assert keys == [keys[0]] + keys[1..];
    }
  }

  /** A request leaves exactly the promised content, apart from replaces that list a value twice. */
  lemma {:induction false} RequestMeans(e: Entry, add: Lists, del: Lists, replace: Lists, a: string, v: string)
    ensures (a, v) in EffectAll(e, Ops(add, del, replace)) <==> Promised(e, add, del, Honoured(replace), a, v)
  {
    hide EffectAll, Group, Distinct;
    var d, p, r := Group(Delete, SortedKeys(del.Keys), del), Group(Add, SortedKeys(add.Keys), add),
      Group(Replace, SortedKeys(replace.Keys), replace);
    EffectAllConcat(e, d + p, r);
    EffectAllConcat(e, d, p);
    DeleteGroup(e, SortedKeys(del.Keys), del, a, v);
    AddGroup(EffectAll(e, d), SortedKeys(add.Keys), add, a, v);
    ReplaceGroup(EffectAll(e, d + p), SortedKeys(replace.Keys), replace, a, v);
  }

  /** Repeating a request changes nothing more. */
  lemma {:induction false} RequestIdempotent(add: Lists, del: Lists, replace: Lists)
    ensures Idempotent(Ops(add, del, replace))
  {
    hide EffectAll, Ops, Honoured;
    var ops := Ops(add, del, replace);
    forall e ensures EffectAll(EffectAll(e, ops), ops) == EffectAll(e, ops) {
      forall p | true ensures p in EffectAll(EffectAll(e, ops), ops) <==> p in EffectAll(e, ops) {
        RequestMeans(e, add, del, replace, p.0, p.1);
        RequestMeans(EffectAll(e, ops), add, del, replace, p.0, p.1);
      }
    }
  }

  lemma {:induction false} OneOp(e: Entry, op: Op)
    ensures EffectAll(e, [op]) == Effect(e, op) && Refusal(e, [op]) == Refusal1(e, op)
  {
    hide Effect, Refusal1;
    assert EffectAll(Effect(e, op), []) == Effect(e, op);
  }

  lemma {:induction false} OneOpIdempotent(op: Op)
    ensures Idempotent([op])
  {
    forall e ensures EffectAll(EffectAll(e, [op]), [op]) == EffectAll(e, [op]) {
      OneOp(e, op);
      OneOp(Effect(e, op), op);
      hide Distinct;
      assert Effect(Effect(e, op), op) == Effect(e, op);
    }
  }

  /** Singles that are refused have nothing to do. */
  lemma {:induction false} RefusedSingle(e: Entry, op: Op)
    requires (op.kind.Replace? || |op.values| <= 1) && Refusal1(e, op).Some?
    ensures Effect(e, op) == e
  {}

  lemma {:induction false} SinglesEffect(e: Entry, kind: Kind, attr: string, values: seq<string>)
    requires !kind.Replace?
    ensures EffectAll(e, Singles(kind, attr, values)) ==
            if kind.Delete? then e - Pairs(attr, values) else e + Pairs(attr, values)
    decreases |values|
  {
    if values != [] {
      SinglesEffect(Effect(e, Op(kind, attr, [values[0]])), kind, attr, values[1..]);
      assert values == [values[0]] + values[1..];
      assert Pairs(attr, values) == Pairs(attr, [values[0]]) + Pairs(attr, values[1..]);
    }
  }

  /** One value at a time comes to the same as whole modifications. */
  lemma {:induction false} SplitEffect(e: Entry, ops: seq<Op>)
    ensures EffectAll(e, Split(ops)) == EffectAll(e, ops)
    decreases |ops|
  {
    hide Distinct;
    if ops != [] {
      EffectAllConcat(e, Split1(ops[0]), Split(ops[1..]));
      if ops[0].kind.Replace? || |ops[0].values| <= 1 {
        OneOp(e, ops[0]);
      } else {
        SinglesEffect(e, ops[0].kind, ops[0].attr, ops[0].values);
      }
      SplitEffect(Effect(e, ops[0]), ops[1..]);
    }
  }

  lemma {:induction false} SplitIsSingle(ops: seq<Op>, op: Op)
    requires op in Split(ops)
    ensures op.kind.Replace? || |op.values| <= 1
  {
    if op in Split1(ops[0]) {
      if !ops[0].kind.Replace? && |ops[0].values| > 1 { SinglesAreSingle(ops[0].kind, ops[0].attr, ops[0].values, op); }
    } else {
      SplitIsSingle(ops[1..], op);
    }
  }

  lemma {:induction false} SinglesAreSingle(kind: Kind, attr: string, values: seq<string>, op: Op)
    requires op in Singles(kind, attr, values)
    ensures |op.values| == 1
  {
    if op != Op(kind, attr, [values[0]]) { SinglesAreSingle(kind, attr, values[1..], op); }
  }

  /////////// The imperative form ///////////

  /** `modifyOps`. */
  method ModifyOps(add: Lists, del: Lists, replace: Lists) returns (ops: seq<Op>)
    ensures ops == Ops(add, del, replace)
  {
    hide SortedKeys;
    ops := AppendGroup([], Delete, del);
    ops := AppendGroup(ops, Add, add);
    ops := AppendGroup(ops, Replace, replace);
  }

  lemma {:induction false} GroupStep(kind: Kind, keys: seq<string>, lists: Lists, i: nat)
    requires i < |keys| && forall k :: k in keys ==> k in lists
    ensures Group(kind, keys[i..], lists) == [Op(kind, keys[i], lists[keys[i]])] + Group(kind, keys[i + 1..], lists)
  {
    assert keys[i..][0] == keys[i] && keys[i..][1..] == keys[i + 1..];
  }

  method AppendGroup(before: seq<Op>, kind: Kind, lists: Lists) returns (ops: seq<Op>)
    ensures ops == before + Group(kind, SortedKeys(lists.Keys), lists)
  {
    hide SortedKeys, Group, Ascending;
    ops := before;
    var keys := SortedKeys(lists.Keys);
    assert keys[0..] == keys;
    for i := 0 to |keys|
      invariant ops + Group(kind, keys[i..], lists) == before + Group(kind, keys, lists)
    {
      GroupStep(kind, keys, lists, i);
      AppendAssociative(ops, [Op(kind, keys[i], lists[keys[i]])], Group(kind, keys[i + 1..], lists));
      ops := ops + [Op(kind, keys[i], lists[keys[i]])];
    }
    GroupEnd(kind, keys, lists);
  }

  lemma {:induction false} GroupEnd(kind: Kind, keys: seq<string>, lists: Lists)
    requires forall k :: k in keys ==> k in lists
    ensures Group(kind, keys[|keys|..], lists) == []
  {}

  method AppendSingles(before: seq<Op>, op: Op) returns (split: seq<Op>)
    ensures split == before + Singles(op.kind, op.attr, op.values)
  {
    split := before;
    for j := 0 to |op.values|
      invariant split + Singles(op.kind, op.attr, op.values[j..]) == before + Singles(op.kind, op.attr, op.values)
    {
      assert op.values[j..][1..] == op.values[j + 1..];
      split := split + [Op(op.kind, op.attr, [op.values[j]])];
    }
  }

  lemma {:induction false} SplitStep(ops: seq<Op>, i: nat)
    requires i < |ops|
    ensures Split(ops[i..]) == Split1(ops[i]) + Split(ops[i + 1..])
  {
    hide Split1;
    assert ops[i..][0] == ops[i] && ops[i..][1..] == ops[i + 1..];
  }

  lemma {:induction false} SplitEnds(ops: seq<Op>)
    ensures ops[0..] == ops && Split(ops[|ops|..]) == []
  {}

  /** `singleValueOps`. */
  method SingleValueOps(ops: seq<Op>) returns (split: seq<Op>)
    ensures split == Split(ops)
  {
    hide Singles, Split;
    SplitEnds(ops);
    split := [];
    for i := 0 to |ops|
      invariant split + Split(ops[i..]) == Split(ops)
    {
      SplitStep(ops, i);
      ghost var before := split;
      if ops[i].kind.Replace? || |ops[i].values| <= 1 {
        split := split + [ops[i]];
      } else {
        split := AppendSingles(split, ops[i]);
      }
      assert split == before + Split1(ops[i]);
      AppendAssociative(before, Split1(ops[i]), Split(ops[i + 1..]));
    }
  }

  lemma {:induction false} AppendAssociative(a: seq<Op>, b: seq<Op>, c: seq<Op>)
    ensures (a + b) + c == a + (b + c)
  {}

  /** A client of one directory entry; `fate` decides what becomes of each attempt it makes. */
  class Client {
    const maxRetries: nat
    const fate: nat -> Fate
    const closedAt: nat
    var attempts: nat
    var entry: Entry

    constructor (maxRetries: nat, fate: nat -> Fate, closedAt: nat, entry: Entry)
      ensures this.maxRetries == maxRetries && this.fate == fate && this.closedAt == closedAt
      ensures this.entry == entry && attempts == 0
    {
      this.maxRetries, this.fate, this.closedAt := maxRetries, fate, closedAt;
      this.entry, attempts := entry, 0;
    }

    /** Whatever starts at attempt `from` is answered after at most `maxRetries` attempts that are worth repeating: lost
        ones and refusals that may pass. */
    ghost predicate Recovers(from: nat, k: nat) {
      && k <= maxRetries && fate(from + k).Answered? && from + k < closedAt
      && forall j :: from <= j < from + k ==> Passing(fate(j))
    }

    ghost predicate Recoverable(from: nat) {
      exists k :: Recovers(from, k)
    }

    /** Some attempt in the range did not get the server's own answer. */
    ghost predicate Faulty(from: nat, until: nat) {
      exists n :: from <= n < until && !fate(n).Answered?
    }

    /** One attempt at a request. */
    method Attempt(ops: seq<Op>) returns (error: Option<Error>)
      modifies this
      ensures attempts == old(attempts) + 1
      ensures entry == old(entry) || entry == Served(old(entry), ops)
      ensures fate(old(attempts)).Answered? ==> error.None? || IsAlreadyConverged(error)
      ensures !fate(old(attempts)).Answered? ==>
                error == Some(if fate(old(attempts)).Refused? then Code(fate(old(attempts)).code) else Transport)
      ensures error.None? ==> Refusal(old(entry), ops).None? && entry == Served(old(entry), ops)
      ensures IsAlreadyConverged(error) ==> entry == old(entry) && Refusal(old(entry), ops).Some? && error == Some(Code(Refusal(old(entry), ops).value))
    {
      hide Refusal, EffectAll;
      var f := fate(attempts);
      attempts := attempts + 1;
      match f {
        case NoConnection => error := Some(Transport);
        case Lost(reached) =>
          if reached { entry := Served(entry, ops); }
          error := Some(Transport);
        case Refused(code) => error := Some(Code(code));
        case Answered =>
          var refusal := Refusal(entry, ops);
          if refusal.Some? {
            RefusalCodes(entry, ops);
            error := Some(Code(refusal.value));
          } else {
            entry := EffectAll(entry, ops);
            error := None;
          }
      }
    }

    /** `modify`: one request through `executeWithRetry`. */
    method Modify(ops: seq<Op>) returns (error: Option<Error>)
      modifies this
      ensures Refusal(old(entry), ops).Some? ==> entry == old(entry)
      ensures Idempotent(ops) ==> entry == old(entry) || entry == EffectAll(old(entry), ops)
      ensures Idempotent(ops) && error.None? ==> entry == EffectAll(old(entry), ops)
      ensures IsAlreadyConverged(error) ==> Refusal(entry, ops).Some?
      ensures old(attempts) <= attempts
      ensures error.Some? && !IsAlreadyConverged(error) ==> Faulty(old(attempts), attempts)
      ensures Recoverable(old(attempts)) ==> error.None? || IsAlreadyConverged(error)
      ensures attempts <= old(attempts) + maxRetries + 1
      ensures var f := fate(old(attempts)); f.Refused? && !Passing(f) ==> error == Some(Code(f.code)) && attempts == old(attempts) + 1
    {
      hide Refusal, EffectAll, Effect;
      var attempt := 0;
      error := Some(Aborted);
      while attempt <= maxRetries
        invariant 0 <= attempt <= maxRetries + 1
        invariant Refusal(old(entry), ops).Some? ==> entry == old(entry)
        invariant Idempotent(ops) ==> entry == old(entry) || entry == EffectAll(old(entry), ops)
        invariant error.Some? && !IsAlreadyConverged(error)
        invariant old(attempts) <= attempts && (attempt > 0 ==> Faulty(old(attempts), attempts))
        invariant attempts == old(attempts) + attempt && (attempt > 0 ==> Passing(fate(old(attempts))))
        invariant forall k :: Recovers(old(attempts), k) ==> attempt <= k
      {
        if attempt > 0 && attempts >= closedAt { return Some(Aborted); }
        error := Attempt(ops);
        if error.None? || !Retryable(error.value) { return; }
        attempt := attempt + 1;
      }
    }

    /** `ModifyValues`: the whole request, and one value at a time when the server finds part of it done. */
    method ModifyValues(add: Lists, del: Lists, replace: Lists) returns (error: Option<Error>)
      modifies this
      ensures error.None? ==> entry == EffectAll(old(entry), Ops(add, del, replace))
      ensures old(attempts) <= attempts && (error.Some? ==> Faulty(old(attempts), attempts))
      ensures error.Some? ==> exists n :: old(attempts) <= n <= attempts && !Recoverable(n)
    {
      hide Refusal, EffectAll, Effect, Split, Ops;
      var ops := ModifyOps(add, del, replace);
      if |ops| == 0 {
        NoOps(entry);
        return None;
      }
      RequestIdempotent(add, del, replace);
      error := Modify(ops);
      if !IsAlreadyConverged(error) { return; }
      ghost var start := entry;
      var singles := SingleValueOps(ops);
      for i := 0 to |singles|
        invariant EffectAll(entry, singles[i..]) == EffectAll(start, singles) && old(attempts) <= attempts
      {
        label before:
        assert singles[i..] == [singles[i]] + singles[i + 1..];
        EffectAllConcat(entry, [singles[i]], singles[i + 1..]);
        OneOpIdempotent(singles[i]);
        error := Modify([singles[i]]);
        if error.Some? && !IsAlreadyConverged(error) { return; }
        assert singles[i] in Split(ops);
        SingleDone(old@before(entry), entry, ops, singles[i], error);
      }
      NoOps(entry);
      SplitEffect(start, ops);
      return None;
    }
  }

  lemma {:induction false} NoOps(e: Entry)
    ensures EffectAll(e, []) == e
  {}

  /** A single modification that succeeded or was found done has had its effect. */
  lemma {:induction false} SingleDone(before: Entry, after: Entry, ops: seq<Op>, op: Op, error: Option<Error>)
    requires op in Split(ops)
    requires after == before || after == EffectAll(before, [op])
    requires error.None? ==> after == EffectAll(before, [op])
    requires error.Some? ==> Refusal(after, [op]).Some?
    ensures after == EffectAll(before, [op])
  {
    hide Effect, Refusal1, Refusal, EffectAll, Split;
    SplitIsSingle(ops, op);
    OneOp(before, op);
    OneOp(after, op);
    if error.Some? && after == before { RefusedSingle(after, op); }
  }

  /////////// What the caller gets ///////////

  ghost predicate DuplicateFree(replace: Lists) {
    forall a :: a in replace ==> Distinct(replace[a])
  }

  /** With duplicate-free replaces the content is exactly replace(add(delete(entry))). */
  lemma {:induction false} ConvergesOnPromise(e: Entry, add: Lists, del: Lists, replace: Lists, a: string, v: string)
    requires DuplicateFree(replace)
    ensures (a, v) in EffectAll(e, Ops(add, del, replace)) <==> Promised(e, add, del, replace, a, v)
  {
    hide EffectAll, Ops, Distinct;
    RequestMeans(e, add, del, replace, a, v);
    assert Honoured(replace) == replace;
  }

  /** Listing a value twice in a replace: every request is answered, the call reports success, and the attribute is
      not replaced. */
  method DuplicateReplaceIsDropped() returns (error: Option<Error>, before: Entry, after: Entry)
    ensures error.None? && before == after == {("a", "y")}
    ensures Promised(before, map[], map[], map["a" := ["x", "x"]], "a", "x") && ("a", "x") !in after
    ensures !Promised(before, map[], map[], map["a" := ["x", "x"]], "a", "y") && ("a", "y") in after
  {
    hide EffectAll, Ops, Effect;
    before := {("a", "y")};
    var client := new Client(3, _ => Answered, 100, before);
    error := client.ModifyValues(map[], map[], map["a" := ["x", "x"]]);
    after := client.entry;
    RepeatedHasNoEffect(before);
  }

  lemma {:induction false} RepeatedHasNoEffect(e: Entry)
    ensures EffectAll(e, Ops(map[], map[], map["a" := ["x", "x"]])) == e
  {
    hide EffectAll, Ops, Effect;
    var replace: Lists := map["a" := ["x", "x"]];
    assert !Distinct(replace["a"]) by { assert replace["a"][0] == replace["a"][1]; }
    assert Honoured(replace) == map[];
    forall p | true ensures p in EffectAll(e, Ops(map[], map[], replace)) <==> p in e {
      RequestMeans(e, map[], map[], replace, p.0, p.1);
    }
  }

  /** What a success leaves is the promised content. */
  ghost predicate Kept(e: Entry, add: Lists, del: Lists, replace: Lists) {
    forall a, v :: (a, v) in EffectAll(e, Ops(add, del, replace)) <==> Promised(e, add, del, replace, a, v)
  }

  /** The deletes clear the attribute and the adds list exactly the values of its replace. */
  ghost predicate Covered(add: Lists, del: Lists, replace: Lists, a: string)
    requires a in replace
  {
    a in del && del[a] == [] && a in add && (forall v :: v in add[a] <==> v in replace[a])
  }

  /** The promise is kept for every entry exactly when each replace that lists a value twice is covered by the deletes
      and adds of the same call. */
  lemma {:induction false} PromiseKeptIff(add: Lists, del: Lists, replace: Lists)
    ensures (forall e :: Kept(e, add, del, replace)) <==>
            (forall a :: a in replace && !Distinct(replace[a]) ==> Covered(add, del, replace, a))
  {
    hide Kept, Distinct, Covered;
    if forall e :: Kept(e, add, del, replace) {
      forall a | a in replace && !Distinct(replace[a]) ensures Covered(add, del, replace, a) {
        KeptIsCovered(add, del, replace, a);
      }
    }
    if forall a :: a in replace && !Distinct(replace[a]) ==> Covered(add, del, replace, a) {
      forall e ensures Kept(e, add, del, replace) { CoveredIsKept(e, add, del, replace); }
    }
  }

  lemma {:induction false} CoveredIsKept(e: Entry, add: Lists, del: Lists, replace: Lists)
    requires forall a :: a in replace && !Distinct(replace[a]) ==> Covered(add, del, replace, a)
    ensures Kept(e, add, del, replace)
  {
    hide EffectAll, Ops, Distinct;
    forall a, v | true
      ensures (a, v) in EffectAll(e, Ops(add, del, replace)) <==> Promised(e, add, del, replace, a, v)
    {
      RequestMeans(e, add, del, replace, a, v);
    }
  }

  /** The empty entry and the one with a value that no list mentions decide. */
  lemma {:induction false} KeptIsCovered(add: Lists, del: Lists, replace: Lists, a: string)
    requires a in replace && !Distinct(replace[a])
    requires forall e :: Kept(e, add, del, replace)
    ensures Covered(add, del, replace, a)
  {
    hide EffectAll, Ops, Distinct, Kept;
    forall v ensures v in replace[a] <==> a in add && v in add[a] {
      KeptAt({}, add, del, replace, a, v);
    }
    var z := Unlisted(replace[a] + if a in del then del[a] else []);
    KeptAt({(a, z)}, add, del, replace, a, z);
    RepeatedIsListed(replace[a]);
  }

  lemma {:induction false} KeptAt(e: Entry, add: Lists, del: Lists, replace: Lists, a: string, v: string)
    requires a in replace && !Distinct(replace[a])
    requires Kept(e, add, del, replace)
    ensures v in replace[a] <==> Promised(e, add, del, map[], a, v)
  {
    hide EffectAll, Ops, Distinct;
    RequestMeans(e, add, del, replace, a, v);
  }

  lemma {:induction false} RepeatedIsListed(values: seq<string>)
    requires !Distinct(values)
    ensures exists v :: v in values
  {
    assert values[0] in values;
  }

  /** A value longer than every listed one. */
  ghost function Unlisted(values: seq<string>): (z: string)
    ensures z !in values
  {
    LongerThanAll(values);
    seq(Longest(values) + 1, _ => 'x')
  }

  ghost function Longest(values: seq<string>): nat {
    if values == [] then 0 else
      var rest := Longest(values[1..]);
      if |values[0]| > rest then |values[0]| else rest
  }

  lemma {:induction false} LongerThanAll(values: seq<string>)
    ensures forall v :: v in values ==> |v| <= Longest(values)
  {
    if values != [] { LongerThanAll(values[1..]); }
  }
}
