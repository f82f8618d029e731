/** The in-place passes of `Interpolate`, and their agreement with recursive expansion. */
module Interpolation {
  import opened Template
  import opened LocalConfig

  /////////// One pass, in any key order ///////////

  /** What a reference becomes in a pass: the current value of its key, or itself. */
  predicate Resolves(cur: Config, n: string) {
    n in cur && cur[n] != Text(Ref(n))
  }

  function Substituted(cur: Config, toks: seq<Tok>): seq<Tok> {
    if toks == [] then []
    else
      var first :=
        match toks[0]
        case Ch(_) => [toks[0]]
        case Ref(n) => if Resolves(cur, n) then Parse(cur[n]) else [toks[0]];
      first + Substituted(cur, toks[1..])
  }

  function Count(cur: Config, toks: seq<Tok>): nat {
    if toks == [] then 0
    else (if toks[0].Ref? && Resolves(cur, toks[0].name) then 1 else 0) + Count(cur, toks[1..])
  }

  /** The value a key gets when the pass visits it. */
  function Rewritten(cur: Config, value: string): string {
    Render(Substituted(cur, Parse(value)))
  }

  function Pass(cur: Config, order: seq<string>): Config {
    if order == [] then cur
    else
      var before := Pass(cur, order[..|order| - 1]);
      var k := order[|order| - 1];
      if k in before then before[k := Rewritten(before, before[k])] else before
  }

  function PassCount(cur: Config, order: seq<string>): nat {
    if order == [] then 0
    else
      var before := Pass(cur, order[..|order| - 1]);
      var k := order[|order| - 1];
      PassCount(cur, order[..|order| - 1]) + if k in before then Count(before, Parse(before[k])) else 0
  }

  lemma {:induction false} SubstitutedConcat(cur: Config, a: Tok, rest: seq<Tok>)
    ensures Render(Substituted(cur, [a] + rest)) ==
            (if a.Ref? && Resolves(cur, a.name) then cur[a.name] else Text(a)) + Render(Substituted(cur, rest))
    ensures Count(cur, [a] + rest) == (if a.Ref? && Resolves(cur, a.name) then 1 else 0) + Count(cur, rest)
  {
    assert ([a] + rest)[1..] == rest;
    if a.Ref? && Resolves(cur, a.name) {
      RenderConcat(Parse(cur[a.name]), Substituted(cur, rest));
      RenderParse(cur[a.name]);
    } else {
      assert ([a] + Substituted(cur, rest))[1..] == Substituted(cur, rest);
    }
  }

  lemma {:induction false} ReferenceStep(cur: Config, s: string)
    requires IsRef(s)
    ensures var e := IndexFrom(s, '}', 2);
            var n, after := s[2..e], s[e + 1..];
            && s[..e + 1] == Text(Ref(n))
            && Rewritten(cur, s) == (if Resolves(cur, n) then cur[n] else Text(Ref(n))) + Rewritten(cur, after)
            && Count(cur, Parse(s)) == (if Resolves(cur, n) then 1 else 0) + Count(cur, Parse(after))
  {
    hide Substituted, Count, Render;
    var e := IndexFrom(s, '}', 2);
    SubstitutedConcat(cur, Ref(s[2..e]), Parse(s[e + 1..]));
  }

  lemma {:induction false} CharStep(cur: Config, s: string)
    requires s != "" && !IsRef(s)
    ensures Rewritten(cur, s) == [s[0]] + Rewritten(cur, s[1..]) && Count(cur, Parse(s)) == Count(cur, Parse(s[1..]))
  {
    hide Substituted, Count, Render;
    SubstitutedConcat(cur, Ch(s[0]), Parse(s[1..]));
  }

  /** `varPattern.ReplaceAllStringFunc` with `resolveVarRef`. */
  method Substitute(cur: Config, value: string) returns (out: string, subs: nat)
    ensures out == Rewritten(cur, value)
    ensures subs == Count(cur, Parse(value))
  {
    hide Rewritten, Count, Parse;
    out, subs := "", 0;
    var rest := value;
    while rest != ""
      invariant out + Rewritten(cur, rest) == Rewritten(cur, value)
      invariant subs + Count(cur, Parse(rest)) == Count(cur, Parse(value))
      decreases |rest|
    {
      if IsRef(rest) {
        ReferenceStep(cur, rest);
        var end := IndexFrom(rest, '}', 2);
        var reference, name := rest[..end + 1], rest[2..end];
        if name in cur && cur[name] != reference {
          out, subs := out + cur[name], subs + 1;
        } else {
          out := out + reference;
        }
        rest := rest[end + 1..];
      } else {
        CharStep(cur, rest);
        out := out + [rest[0]];
        rest := rest[1..];
      }
    }
    NothingLeft(cur);
  }

  lemma {:induction false} NothingLeft(cur: Config)
    ensures Rewritten(cur, "") == "" && Count(cur, Parse("")) == 0
  {}

  /** A value without "${" has no reference. */
  lemma {:induction false} Untouched(cur: Config, value: string)
    requires IndexOpen(value) < 0
    ensures Rewritten(cur, value) == value && Count(cur, Parse(value)) == 0
  {
    if value != "" {
      Untouched(cur, value[1..]);
      SubstitutedConcat(cur, Ch(value[0]), Parse(value[1..]));
    }
  }

  ghost function Elements(s: seq<string>): set<string> {
    set k | k in s
  }

  /** A pass visits every key once. */
  ghost predicate Visits(order: seq<string>, keys: set<string>) {
    Elements(order) == keys && |order| == |keys|
  }

  lemma {:induction false} PassStart(cur: Config)
    ensures Pass(cur, []) == cur && PassCount(cur, []) == 0 && Elements([]) == {}
  {}

  lemma {:induction false} PassSnoc(cur: Config, order: seq<string>, k: string)
    requires k in Pass(cur, order)
    ensures var before := Pass(cur, order);
            && Pass(cur, order + [k]) == before[k := Rewritten(before, before[k])]
            && PassCount(cur, order + [k]) == PassCount(cur, order) + Count(before, Parse(before[k]))
            && Elements(order + [k]) == Elements(order) + {k}
  {
    hide Rewritten, Count;
    assert (order + [k])[..|order + [k]| - 1] == order;
  }

  class Localconfig {
    var values: Config

    constructor (config: Config)
      ensures values == config
    {
      values := config;
    }

    /** Defaults are applied to missing keys only. */
    method MergeDefaults(defaults: Config)
      modifies this
      ensures values == defaults + old(values)
    {
      var todo := defaults.Keys;
      while todo != {}
        invariant todo <= defaults.Keys
        invariant values == (map k | k in defaults && k !in todo :: defaults[k]) + old(values)
        decreases |todo|
      {
        var key :| key in todo;
        if key !in values { values := values[key := defaults[key]]; }
        todo := todo - {key};
      }
    }

    /** `interpolatePass`: each key is visited once, in an order the map chooses. */
    method InterpolatePass() returns (subs: nat, ghost order: seq<string>)
      modifies this
      ensures Visits(order, old(values.Keys))
      ensures values == Pass(old(values), order)
      ensures subs == PassCount(old(values), order)
    {
      hide Rewritten, Count, Parse, IndexOpen, Pass, PassCount, Elements;
      var todo := values.Keys;
      PassStart(values);
      subs, order := 0, [];
      while todo != {}
        invariant values.Keys == old(values.Keys) && todo <= values.Keys
        invariant Elements(order) == values.Keys - todo && |order| == |values.Keys| - |todo|
        invariant values == Pass(old(values), order)
        invariant subs == PassCount(old(values), order)
        decreases |todo|
      {
        var key :| key in todo;
        var value := values[key];
        ghost var was := values;
        if IndexOpen(value) >= 0 {
          var replaced, n := Substitute(values, value);
          values := values[key := replaced];
          subs := subs + n;
        } else {
          Untouched(values, value);
        }
        PassSnoc(old(values), order, key);
        assert values == was[key := Rewritten(was, value)];
        order := order + [key];
        todo := todo - {key};
      }
    }

    /** `Interpolate`: at most ten passes, none after one that substitutes nothing. */
    method Interpolate() returns (total: nat, ghost orders: seq<seq<string>>)
      modifies this
      ensures Interpolated(old(values), orders) && |orders| <= MAX_DEPTH
      ensures values == Passes(old(values), orders)
      ensures total == Total(old(values), orders)
    {
      hide Pass, PassCount;
      total, orders := 0, [];
      var i := 0;
      PassesKeys(values, []);
      while i < MAX_DEPTH
        invariant 0 <= i <= MAX_DEPTH && |orders| == i
        invariant AllVisit(old(values), orders)
        invariant values == Passes(old(values), orders) && values.Keys == old(values.Keys)
        invariant total == Total(old(values), orders)
      {
        ghost var was := values;
        var subs, order := InterpolatePass();
        ghost var next := orders + [order];
        assert next[..|next| - 1] == orders;
        assert values == Pass(was, order);
        PassKeys(was, order);
        orders := next;
        total := total + subs;
        i := i + 1;
        if subs == 0 { break; }
      }
    }
  }

  /////////// All passes ///////////

  const MAX_DEPTH := 10

  function Passes(m: Config, orders: seq<seq<string>>): Config {
    if orders == [] then m else Pass(Passes(m, orders[..|orders| - 1]), orders[|orders| - 1])
  }

  function Total(m: Config, orders: seq<seq<string>>): nat {
    if orders == [] then 0
    else Total(m, orders[..|orders| - 1]) + PassCount(Passes(m, orders[..|orders| - 1]), orders[|orders| - 1])
  }

  ghost predicate AllVisit(m: Config, orders: seq<seq<string>>) {
    forall i :: 0 <= i < |orders| ==> Visits(orders[i], m.Keys)
  }

  /** Either all ten passes were made, or the last one substituted nothing. */
  ghost predicate Interpolated(m: Config, orders: seq<seq<string>>) {
    && |orders| >= 1 && AllVisit(m, orders)
    && (|orders| < MAX_DEPTH ==> PassCount(Passes(m, orders[..|orders| - 1]), orders[|orders| - 1]) == 0)
  }

  lemma {:induction false} PassKeys(cur: Config, order: seq<string>)
    ensures Pass(cur, order).Keys == cur.Keys
  {
    hide Rewritten;
    if order != [] { PassKeys(cur, order[..|order| - 1]); }
  }

  lemma {:induction false} PassesKeys(m: Config, orders: seq<seq<string>>)
    ensures Passes(m, orders).Keys == m.Keys
  {
    hide Pass;
    if orders != [] {
      PassesKeys(m, orders[..|orders| - 1]);
      PassKeys(Passes(m, orders[..|orders| - 1]), orders[|orders| - 1]);
    }
  }

  /////////// Every pass doubles the length of the chains that are left ///////////

  /** The key expands: no cycle and no key without a value is reachable from it. */
  ghost predicate Expands(m: Config, k: string) {
    Expand(m, k, []).Ok?
  }

  /** A reference chain of at least `d` references leads from `a` to `b`. */
  ghost predicate Reaches(m: Config, a: string, b: string, d: nat) {
    exists p :: Chain(m, p) && p[0] == a && p[|p| - 1] == b && |p| > d
  }

  ghost function Joined(p: seq<string>, q: seq<string>): seq<string>
    requires |q| >= 1
  {
    p + q[1..]
  }

  lemma {:induction false} ChainsJoin(m: Config, p: seq<string>, q: seq<string>)
    requires Chain(m, p) && Chain(m, q) && p[|p| - 1] == q[0]
    ensures Chain(m, Joined(p, q)) && Joined(p, q)[0] == p[0]
    ensures |Joined(p, q)| == |p| + |q| - 1 && Joined(p, q)[|p| + |q| - 2] == q[|q| - 1]
  {
    var r := Joined(p, q);
    forall i | 0 <= i < |r| - 1 ensures Edge(m, r[i], r[i + 1]) {
      if i < |p| - 1 {
        assert Edge(m, p[i], p[i + 1]);
      } else {
        assert Edge(m, q[i - |p| + 1], q[i - |p| + 2]);
      }
    }
  }

  lemma {:induction false} ReachesJoin(m: Config, a: string, b: string, c: string, d: nat, e: nat)
    requires Reaches(m, a, b, d) && Reaches(m, b, c, e)
    ensures Reaches(m, a, c, d + e)
  {
    var p :| Chain(m, p) && p[0] == a && p[|p| - 1] == b && |p| > d;
    var q :| Chain(m, q) && q[0] == b && q[|q| - 1] == c && |q| > e;
    ChainsJoin(m, p, q);
  }

  lemma {:induction false} ReachesLess(m: Config, a: string, b: string, d: nat, e: nat)
    requires Reaches(m, a, b, d) && e <= d
    ensures Reaches(m, a, b, e)
  {}

  /** What an expanding key refers to expands too, and is another key. */
  lemma {:induction false} ReachedExpands(m: Config, a: string, b: string, d: nat)
    requires Expands(m, a) && Reaches(m, a, b, d)
    ensures Expands(m, b) && b in m && (d >= 1 ==> a != b)
  {
    var p :| Chain(m, p) && p[0] == a && p[|p| - 1] == b && |p| > d;
    if !Expands(m, b) {
      var q := FailureHasDeadEnd(m, b, []);
      ChainsJoin(m, p, q);
      var r := Joined(p, q);
      assert DeadEnd(m, r, []) by {
        if q[|q| - 1] in q[..|q| - 1] {
          var i :| 0 <= i < |q| - 1 && q[i] == q[|q| - 1];
          assert r[|p| - 1 + i] == q[i];
        }
      }
      DeadEndFails(m, r, []);
    }
    if d >= 1 && a == b {
      assert p[0] in p[..|p| - 1];
      DeadEndFails(m, p, []);
    }
  }

  /** A value that still means what the key means, and whose references are at least `d` away. */
  ghost predicate Kept(m: Config, k: string, toks: seq<Tok>, d: nat) {
    && WellFormed(toks)
    && ExpandToks(m, toks, []) == Expand(m, k, [])
    && forall r :: Ref(r) in toks ==> Reaches(m, k, r, d)
  }

  ghost predicate Progress(m: Config, cur: Config, done: set<string>, d: nat) {
    && cur.Keys == m.Keys
    && forall k :: k in m && Expands(m, k) ==> Kept(m, k, Parse(cur[k]), if k in done then 2 * d else d)
  }

  lemma {:induction false} Start(m: Config)
    requires WellFormedConfig(m)
    ensures Progress(m, m, {}, 1)
  {
    forall k | k in m && Expands(m, k) ensures Kept(m, k, Parse(m[k]), 1) {
      assert [] + [k] == [k];
      ToksSeenIrrelevant(m, Parse(m[k]), [k], []);
      forall r | Ref(r) in Parse(m[k]) ensures Reaches(m, k, r, 1) {
        assert Edge(m, k, r) && Chain(m, [k, r]);
      }
    }
  }

  /** In an expanding key's value every reference is replaced. */
  lemma {:induction false} AllResolve(m: Config, cur: Config, done: set<string>, d: nat, k: string, n: string)
    requires Progress(m, cur, done, d) && d >= 1 && k in m && Expands(m, k) && Ref(n) in Parse(cur[k])
    ensures n in cur && Expands(m, n) && Resolves(cur, n)
    ensures Reaches(m, k, n, d) && Kept(m, n, Parse(cur[n]), d)
  {
    hide Expand, ExpandToks, Parse, Edge;
    var e := if k in done then 2 * d else d;
    assert Kept(m, k, Parse(cur[k]), e);
    ReachesLess(m, k, n, e, d);
    ReachedExpands(m, k, n, d);
    KeptLess(m, n, Parse(cur[n]), if n in done then 2 * d else d, d);
    if cur[n] == Text(Ref(n)) {
      assert WellFormedTok(Ref(n));
      OneReference(n);
      ReachedExpands(m, n, n, d);
    }
  }

  lemma {:induction false} OneReference(n: string)
    requires WellFormedTok(Ref(n))
    ensures Ref(n) in Parse(Text(Ref(n)))
  {
    assert Text(Ref(n)) + "" == Text(Ref(n));
    ParseRef(n, "");
  }

  lemma {:induction false} KeptLess(m: Config, k: string, toks: seq<Tok>, d: nat, e: nat)
    requires Kept(m, k, toks, d) && e <= d
    ensures Kept(m, k, toks, e)
  {
    forall r | Ref(r) in toks ensures Reaches(m, k, r, e) { ReachesLess(m, k, r, d, e); }
  }

  ghost predicate Replaceable(m: Config, cur: Config, n: string) {
    && n in cur && Resolves(cur, n) && WellFormed(Parse(cur[n]))
    && ExpandToks(m, Parse(cur[n]), []) == Expand(m, n, [])
  }

  /** Replacing references by values with the same meaning keeps the meaning. */
  lemma {:induction false} SubstitutionKeeps(m: Config, cur: Config, toks: seq<Tok>)
    requires WellFormed(toks) && forall n :: Ref(n) in toks ==> Replaceable(m, cur, n)
    ensures WellFormed(Substituted(cur, toks))
    ensures ExpandToks(m, Substituted(cur, toks), []) == ExpandToks(m, toks, [])
    ensures Count(cur, toks) == 0 ==> Plain(toks) && Substituted(cur, toks) == toks
  {
    hide Expand, Parse, Resolves;
    if toks != [] {
      assert toks == [toks[0]] + toks[1..];
      SubstitutionKeeps(m, cur, toks[1..]);
      var rest := Substituted(cur, toks[1..]);
      if toks[0].Ref? {
        assert Replaceable(m, cur, toks[0].name);
        ExpandConcat(m, Parse(cur[toks[0].name]), rest, []);
      } else {
        assert ([toks[0]] + rest)[1..] == rest;
      }
    }
  }

  /** Where the references of a rewritten value come from. */
  lemma {:induction false} SubstitutionSource(cur: Config, toks: seq<Tok>, r: string) returns (n: string)
    requires forall x :: Ref(x) in toks ==> x in cur && Resolves(cur, x)
    requires Ref(r) in Substituted(cur, toks)
    ensures Ref(n) in toks && Ref(r) in Parse(cur[n])
  {
    hide Parse, Resolves;
    assert toks == [toks[0]] + toks[1..];
    if toks[0].Ref? && Ref(r) in Parse(cur[toks[0].name]) {
      n := toks[0].name;
    } else {
      n := SubstitutionSource(cur, toks[1..], r);
    }
  }

  lemma {:induction false} RewrittenKept(m: Config, cur: Config, done: set<string>, d: nat, k: string)
    requires Progress(m, cur, done, d) && d >= 1 && k in m && Expands(m, k)
    ensures Kept(m, k, Parse(Rewritten(cur, cur[k])), 2 * d)
    ensures Count(cur, Parse(cur[k])) == 0 ==> Plain(Parse(cur[k])) && Rewritten(cur, cur[k]) == cur[k]
  {
    hide Expand, ExpandToks, Parse, Substituted, Count, Reaches, Resolves, Render;
    var toks := Parse(cur[k]);
    forall n | Ref(n) in toks ensures Replaceable(m, cur, n) { AllResolve(m, cur, done, d, k, n); }
    SubstitutionKeeps(m, cur, toks);
    var after := Substituted(cur, toks);
    ParseRender(after);
    RenderParse(cur[k]);
    forall r | Ref(r) in after ensures Reaches(m, k, r, 2 * d) {
      var n := SubstitutionSource(cur, toks, r);
      AllResolve(m, cur, done, d, k, n);
      ReachesJoin(m, k, n, r, d, d);
    }
  }

  lemma {:induction false} VisitKeeps(m: Config, cur: Config, done: set<string>, d: nat, k: string)
    requires Progress(m, cur, done, d) && d >= 1 && k in cur
    ensures Progress(m, cur[k := Rewritten(cur, cur[k])], done + {k}, d)
  {
    hide Expands, Kept, Parse, Rewritten;
    var next := cur[k := Rewritten(cur, cur[k])];
    forall j | j in m && Expands(m, j)
      ensures Kept(m, j, Parse(next[j]), if j in done + {k} then 2 * d else d)
    {
      if j == k { RewrittenKept(m, cur, done, d, k); }
    }
  }

  lemma {:induction false} PassKeeps(m: Config, cur: Config, order: seq<string>, d: nat)
    requires Progress(m, cur, {}, d) && d >= 1 && Elements(order) <= m.Keys
    ensures Progress(m, Pass(cur, order), Elements(order), d)
  {
    hide Progress, Rewritten;
    if order != [] {
      var prefix, k := order[..|order| - 1], order[|order| - 1];
      assert order == prefix + [k];
      assert Elements(order) == Elements(prefix) + {k};
      PassKeeps(m, cur, prefix, d);
      ProgressKeys(m, Pass(cur, prefix), Elements(prefix), d);
      VisitKeeps(m, Pass(cur, prefix), Elements(prefix), d, k);
    } else {
      assert Elements(order) == {};
    }
  }

  lemma {:induction false} ProgressKeys(m: Config, cur: Config, done: set<string>, d: nat)
    requires Progress(m, cur, done, d)
    ensures cur.Keys == m.Keys
  {}

  /** One pass in any order: the meaning is kept and the remaining chains are twice as long. */
  lemma {:induction false} PassDoubles(m: Config, cur: Config, order: seq<string>, d: nat)
    requires Progress(m, cur, {}, d) && d >= 1 && Visits(order, m.Keys)
    ensures Progress(m, Pass(cur, order), {}, 2 * d)
  {
    hide Pass, Kept, Expands, Parse;
    PassKeeps(m, cur, order, d);
  }

  function Pow2(n: nat): nat {
    if n == 0 then 1 else 2 * Pow2(n - 1)
  }

  lemma {:induction false} Pow2Positive(n: nat)
    ensures Pow2(n) >= 1
  {
    if n > 0 { Pow2Positive(n - 1); }
  }

  /** After p passes, each in any order, a remaining reference ends a chain of at least 2^p references. */
  lemma {:induction false} PassesProgress(m: Config, orders: seq<seq<string>>)
    requires WellFormedConfig(m) && AllVisit(m, orders)
    ensures Progress(m, Passes(m, orders), {}, Pow2(|orders|))
  {
    hide Progress, Pass, Visits;
    if orders == [] {
      Start(m);
    } else {
      var prefix := orders[..|orders| - 1];
      PassesProgress(m, prefix);
      Pow2Positive(|prefix|);
      PassDoubles(m, Passes(m, prefix), orders[|orders| - 1], Pow2(|prefix|));
    }
  }

  /** A pass that substitutes nothing leaves no reference in an expanding key. */
  lemma {:induction false} ZeroPassIsPlain(m: Config, cur: Config, order: seq<string>, d: nat, k: string)
    requires Progress(m, cur, {}, d) && d >= 1 && Elements(order) <= m.Keys
    requires PassCount(cur, order) == 0 && k in order && Expands(m, k)
    ensures k in Pass(cur, order) && Plain(Parse(Pass(cur, order)[k]))
  {
    hide Progress, Rewritten, Expands, Count, Parse, Plain;
    var prefix, j := order[..|order| - 1], order[|order| - 1];
    assert order == prefix + [j];
    assert Elements(prefix) <= Elements(order) && j in Elements(order);
    PassKeeps(m, cur, prefix, d);
    var before := Pass(cur, prefix);
    ProgressKeys(m, before, Elements(prefix), d);
    if j == k {
      RewrittenKept(m, before, Elements(prefix), d, k);
    } else {
      ZeroPassIsPlain(m, cur, prefix, d, k);
    }
  }

  /** Every chain that starts at the key has fewer than `bound` references. */
  ghost predicate ChainsBelow(m: Config, k: string, bound: nat) {
    forall p :: Chain(m, p) && p[0] == k ==> |p| - 1 < bound
  }

  lemma {:induction false} RemainingChain(m: Config, k: string, toks: seq<Tok>, d: nat) returns (p: seq<string>)
    requires Kept(m, k, toks, d) && !Plain(toks)
    ensures Chain(m, p) && p[0] == k && |p| - 1 >= d
  {
    var i := FirstRef(toks);
    assert Ref(toks[i].name) in toks;
    p :| Chain(m, p) && p[0] == k && p[|p| - 1] == toks[i].name && |p| > d;
  }

  lemma {:induction false} PlainIsExpanded(m: Config, cur: Config, d: nat, k: string)
    requires Progress(m, cur, {}, d) && k in m && Expands(m, k) && Plain(Parse(cur[k]))
    ensures cur[k] == Expand(m, k, []).text
  {
    hide Expand, Parse, ExpandToks;
    ExpandPlain(m, Parse(cur[k]), []);
    RenderParse(cur[k]);
  }

  /** p passes, in any key orders, resolve every key whose chains are shorter than 2^p. */
  lemma {:induction false} PassesResolve(m: Config, orders: seq<seq<string>>, k: string)
    requires WellFormedConfig(m) && AllVisit(m, orders)
    requires k in m && Expands(m, k) && ChainsBelow(m, k, Pow2(|orders|))
    ensures k in Passes(m, orders) && Passes(m, orders)[k] == Expand(m, k, []).text
  {
    hide Expand, Parse, ExpandToks, Passes, AllVisit, Pow2, Chain;
    PassesProgress(m, orders);
    var cur, d := Passes(m, orders), Pow2(|orders|);
    assert Kept(m, k, Parse(cur[k]), d);
    if !Plain(Parse(cur[k])) {
      var p := RemainingChain(m, k, Parse(cur[k]), d);
    }
    PlainIsExpanded(m, cur, d, k);
  }

  /**
   * `Interpolate` gives a key exactly the value recursive expansion gives it, in every map
   * iteration order, when the key expands and no chain from it has more than 1023 references.
   */
  lemma {:induction false} InterpolateIsExpand(m: Config, orders: seq<seq<string>>, k: string)
    requires WellFormedConfig(m) && Interpolated(m, orders) && |orders| <= MAX_DEPTH
    requires k in m && Expands(m, k) && ChainsBelow(m, k, 1024)
    ensures k in Passes(m, orders) && Passes(m, orders)[k] == Expand(m, k, []).text
  {
    hide Expands, Progress, Pass, PassCount, Elements, Expand, Parse, ChainsBelow;
    if |orders| == MAX_DEPTH {
      Pow2Ten();
      PassesResolve(m, orders, k);
    } else {
      var prefix, last := orders[..|orders| - 1], orders[|orders| - 1];
      PassesProgress(m, prefix);
      PassesProgress(m, orders);
      Pow2Positive(|prefix|);
      VisitedIn(last, m.Keys, k);
      ZeroPassIsPlain(m, Passes(m, prefix), last, Pow2(|prefix|), k);
      PlainIsExpanded(m, Passes(m, orders), Pow2(|orders|), k);
    }
  }

  lemma {:induction false} Pow2Ten()
    ensures Pow2(10) == 1024
  {
    assert Pow2(3) == 8;
    assert Pow2(6) == 64;
    assert Pow2(9) == 512;
  }

  lemma {:induction false} VisitedIn(order: seq<string>, keys: set<string>, k: string)
    requires Visits(order, keys) && k in keys
    ensures k in order
  {}
}
