/** Expanding localconfig references: recursive substitution, the recursive algorithm and the in-place passes. */
module LocalConfig {
  import opened Options
  import opened Order
  import opened Template

  type Config = map<string, string>

  datatype Error = Recursive(key: string, seen: seq<string>) | NullValued(key: string)

  datatype Result = Ok(text: string) | Err(error: Error)

  /** Every configured value is well formed. */
  ghost predicate WellFormedConfig(m: Config) {
    forall k :: k in m ==> WellFormed(Parse(m[k]))
  }

  /////////// Recursive substitution: the reference meaning ///////////

  function Unseen(m: Config, seen: seq<string>): nat {
    |m.Keys - set k | k in seen|
  }

  lemma {:induction false} SeenShrinks(m: Config, seen: seq<string>, key: string)
    requires key in m && key !in seen
    ensures Unseen(m, seen + [key]) < Unseen(m, seen)
  {
    var a, b := m.Keys - (set k | k in seen), m.Keys - (set k | k in seen + [key]);
    assert a == b + {key};
  }

  function Expand(m: Config, key: string, seen: seq<string>): Result
    decreases Unseen(m, seen), 0
  {
    if key in seen then Err(Recursive(key, seen))
    else if key !in m then Err(NullValued(key))
    else
      SeenShrinks(m, seen, key);
      ExpandToks(m, Parse(m[key]), seen + [key])
  }

  function ExpandToks(m: Config, toks: seq<Tok>, seen: seq<string>): Result
    decreases Unseen(m, seen), |toks| + 1
  {
    if toks == [] then Ok("")
    else
      var first := match toks[0] case Ch(c) => Ok([c]) case Ref(n) => Expand(m, n, seen);
      if first.Err? then first
      else
        var rest := ExpandToks(m, toks[1..], seen);
        if rest.Err? then rest else Ok(first.text + rest.text)
  }

  function Join(a: Result, b: Result): Result {
    if a.Err? then a else if b.Err? then b else Ok(a.text + b.text)
  }

  function ExpandTok(m: Config, t: Tok, seen: seq<string>): Result {
    match t case Ch(c) => Ok([c]) case Ref(n) => Expand(m, n, seen)
  }

  lemma {:induction false} ExpandHead(m: Config, toks: seq<Tok>, seen: seq<string>)
    ensures ExpandToks(m, [], seen) == Ok("")
    ensures toks != [] ==> ExpandToks(m, toks, seen) == Join(ExpandTok(m, toks[0], seen), ExpandToks(m, toks[1..], seen))
  {
    hide Expand;
  }

  lemma {:induction false} JoinAssociative(a: Result, b: Result, c: Result)
    ensures Join(Join(a, b), c) == Join(a, Join(b, c)) && Join(Ok(""), c) == c
  {
    assert a.Ok? && b.Ok? && c.Ok? ==> (a.text + b.text) + c.text == a.text + (b.text + c.text);
    assert c.Ok? ==> "" + c.text == c.text;
  }

  lemma {:induction false} ExpandConcat(m: Config, a: seq<Tok>, b: seq<Tok>, seen: seq<string>)
    ensures ExpandToks(m, a + b, seen) == Join(ExpandToks(m, a, seen), ExpandToks(m, b, seen))
  {
    hide Expand, ExpandToks, ExpandTok, Join;
    ExpandHead(m, a, seen);
    if a == [] {
      assert a + b == b;
      JoinAssociative(Ok(""), Ok(""), ExpandToks(m, b, seen));
    } else {
      assert (a + b)[1..] == a[1..] + b;
      ExpandHead(m, a + b, seen);
      ExpandConcat(m, a[1..], b, seen);
      JoinAssociative(ExpandTok(m, a[0], seen), ExpandToks(m, a[1..], seen), ExpandToks(m, b, seen));
    }
  }

  lemma {:induction false} ExpandPlain(m: Config, toks: seq<Tok>, seen: seq<string>)
    requires Plain(toks)
    ensures ExpandToks(m, toks, seen) == Ok(Render(toks))
  {
    if toks != [] { ExpandPlain(m, toks[1..], seen); }
  }

  /** The outcome of a successful expansion has no reference left. */
  lemma {:induction false} ExpandedIsPlain(m: Config, key: string, seen: seq<string>)
    requires WellFormedConfig(m) && Expand(m, key, seen).Ok?
    ensures '{' !in Expand(m, key, seen).text
    decreases Unseen(m, seen), 0
  {
    SeenShrinks(m, seen, key);
    ToksExpandPlain(m, Parse(m[key]), seen + [key]);
  }

  lemma {:induction false} ToksExpandPlain(m: Config, toks: seq<Tok>, seen: seq<string>)
    requires WellFormedConfig(m) && WellFormed(toks) && ExpandToks(m, toks, seen).Ok?
    ensures '{' !in ExpandToks(m, toks, seen).text
    decreases Unseen(m, seen), |toks| + 1
  {
    hide Expand;
    if toks != [] {
      if toks[0].Ref? { ExpandedIsPlain(m, toks[0].name, seen); }
      ToksExpandPlain(m, toks[1..], seen);
    }
  }

  /////////// When expansion fails ///////////

  ghost predicate Edge(m: Config, a: string, b: string) {
    a in m && Ref(b) in Parse(m[a])
  }

  /** A reference chain: each key refers to the next. */
  ghost predicate Chain(m: Config, p: seq<string>) {
    |p| >= 1 && forall i :: 0 <= i < |p| - 1 ==> Edge(m, p[i], p[i + 1])
  }

  /** A chain that ends in a key without a value, or in a key already met. */
  ghost predicate DeadEnd(m: Config, p: seq<string>, seen: seq<string>) {
    Chain(m, p) && (p[|p| - 1] !in m || p[|p| - 1] in seen || p[|p| - 1] in p[..|p| - 1])
  }

  lemma {:induction false} FailureHasDeadEnd(m: Config, key: string, seen: seq<string>) returns (p: seq<string>)
    requires Expand(m, key, seen).Err?
    ensures DeadEnd(m, p, seen) && p[0] == key
    decreases Unseen(m, seen), 0
  {
    if key in seen || key !in m {
      p := [key];
    } else {
      SeenShrinks(m, seen, key);
      var n, q := ToksFailure(m, Parse(m[key]), seen + [key]);
      p := [key] + q;
      assert Chain(m, p) by {
        forall i | 0 <= i < |p| - 1 ensures Edge(m, p[i], p[i + 1]) {
          if i > 0 { assert Edge(m, q[i - 1], q[i]); }
        }
      }
      assert p[..|p| - 1] == [key] + q[..|q| - 1];
    }
  }

  lemma {:induction false} ToksFailure(m: Config, toks: seq<Tok>, seen: seq<string>) returns (n: string, p: seq<string>)
    requires ExpandToks(m, toks, seen).Err?
    ensures Ref(n) in toks && DeadEnd(m, p, seen) && p[0] == n
    decreases Unseen(m, seen), |toks| + 1
  {
    hide Expand, DeadEnd;
    if toks[0].Ref? && Expand(m, toks[0].name, seen).Err? {
      n := toks[0].name;
      p := FailureHasDeadEnd(m, n, seen);
      assert toks[0] in toks;
    } else {
      n, p := ToksFailure(m, toks[1..], seen);
      assert toks == [toks[0]] + toks[1..];
    }
  }

  lemma {:induction false} DeadEndFails(m: Config, p: seq<string>, seen: seq<string>)
    requires DeadEnd(m, p, seen)
    ensures Expand(m, p[0], seen).Err?
    decreases |p|
  {
    if |p| > 1 && p[0] !in seen {
      var q := p[1..];
      assert Edge(m, p[0], p[1]);
      assert Chain(m, q) by {
        forall i | 0 <= i < |q| - 1 ensures Edge(m, q[i], q[i + 1]) { assert Edge(m, p[i + 1], p[i + 2]); }
      }
      assert p[..|p| - 1] == [p[0]] + q[..|q| - 1];
      DeadEndFails(m, q, seen + [p[0]]);
      SeenShrinks(m, seen, p[0]);
      FailingToken(m, Parse(m[p[0]]), seen + [p[0]], p[1]);
    }
  }

  lemma {:induction false} FailingToken(m: Config, toks: seq<Tok>, seen: seq<string>, n: string)
    requires Ref(n) in toks && Expand(m, n, seen).Err?
    ensures ExpandToks(m, toks, seen).Err?
  {
    hide Expand;
    if toks[0] != Ref(n) {
      assert toks == [toks[0]] + toks[1..];
      FailingToken(m, toks[1..], seen, n);
    }
  }

  /** Expansion fails exactly when a reference cycle or a key without a value is reachable. */
  lemma {:induction false} ExpandFailsIff(m: Config, key: string)
    ensures Expand(m, key, []).Err? <==> exists p :: DeadEnd(m, p, []) && p[0] == key
  {
    if Expand(m, key, []).Err? {
      var p := FailureHasDeadEnd(m, key, []);
      assert DeadEnd(m, p, []) && p[0] == key;
    }
    if p :| DeadEnd(m, p, []) && p[0] == key { DeadEndFails(m, p, []); }
  }

  /** A successful expansion does not depend on the keys met on the way to it. */
  lemma {:induction false} SeenIrrelevant(m: Config, key: string, seen: seq<string>, fewer: seq<string>)
    requires Expand(m, key, seen).Ok? && forall k :: k in fewer ==> k in seen
    ensures Expand(m, key, fewer) == Expand(m, key, seen)
    decreases Unseen(m, seen), 0
  {
    SeenShrinks(m, seen, key);
    ToksSeenIrrelevant(m, Parse(m[key]), seen + [key], fewer + [key]);
  }

  lemma {:induction false} ToksSeenIrrelevant(m: Config, toks: seq<Tok>, seen: seq<string>, fewer: seq<string>)
    requires ExpandToks(m, toks, seen).Ok? && forall k :: k in fewer ==> k in seen
    ensures ExpandToks(m, toks, fewer) == ExpandToks(m, toks, seen)
    decreases Unseen(m, seen), |toks| + 1
  {
    hide Expand;
    if toks != [] {
      if toks[0].Ref? { SeenIrrelevant(m, toks[0].name, seen, fewer); }
      ToksSeenIrrelevant(m, toks[1..], seen, fewer);
    }
  }

  /////////// The recursive algorithm ///////////

  function References(toks: seq<Tok>): nat {
    if toks == [] then 0 else (if toks[0].Ref? then 1 else 0) + References(toks[1..])
  }

  lemma {:induction false} ReplaceFacts(m: Config, toks: seq<Tok>, n: string, text: string, seen: seq<string>)
    requires WellFormed(toks) && '{' !in text && Expand(m, n, seen) == Ok(text)
    ensures WellFormed(ReplaceTok(toks, n, Chars(text)))
    ensures ExpandToks(m, ReplaceTok(toks, n, Chars(text)), seen) == ExpandToks(m, toks, seen)
    ensures References(ReplaceTok(toks, n, Chars(text))) <= References(toks)
    ensures Ref(n) in toks ==> References(ReplaceTok(toks, n, Chars(text))) < References(toks)
  {
    hide Expand;
    if toks != [] {
      var rest := ReplaceTok(toks[1..], n, Chars(text));
      ReplaceFacts(m, toks[1..], n, text, seen);
      assert toks == [toks[0]] + toks[1..];
      if toks[0] == Ref(n) {
        ExpandConcat(m, Chars(text), rest, seen);
        ExpandPlain(m, Chars(text), seen);
        RenderChars(text);
        NoReferences(Chars(text), rest);
      } else {
        assert ([toks[0]] + rest)[1..] == rest;
      }
    }
  }

  lemma {:induction false} NoReferences(a: seq<Tok>, b: seq<Tok>)
    requires Plain(a)
    ensures References(a + b) == References(b)
  {
    if a == [] {
      assert a + b == b;
    } else {
      assert (a + b)[1..] == a[1..] + b;
      NoReferences(a[1..], b);
    }
  }

  /** The first reference decides: when it fails, the value fails with the same error. */
  lemma {:induction false} FirstFailure(m: Config, toks: seq<Tok>, k: nat, seen: seq<string>)
    requires k < |toks| && Plain(toks[..k]) && toks[k].Ref? && Expand(m, toks[k].name, seen).Err?
    ensures ExpandToks(m, toks, seen) == Expand(m, toks[k].name, seen)
  {
    hide Expand;
    assert toks == toks[..k] + toks[k..];
    ExpandConcat(m, toks[..k], toks[k..], seen);
    ExpandPlain(m, toks[..k], seen);
  }

  lemma {:induction false} ExpandUnfolds(m: Config, key: string, seen: seq<string>)
    ensures key in seen ==> Expand(m, key, seen) == Err(Recursive(key, seen))
    ensures key !in seen && key !in m ==> Expand(m, key, seen) == Err(NullValued(key))
    ensures key !in seen && key in m ==>
              Unseen(m, seen + [key]) < Unseen(m, seen) &&
              Expand(m, key, seen) == ExpandToks(m, Parse(m[key]), seen + [key])
  {
    if key !in seen && key in m { SeenShrinks(m, seen, key); }
  }

  lemma {:induction false} NoneLeft(m: Config, toks: seq<Tok>, seen: seq<string>)
    requires WellFormed(toks) && IndexOpen(Render(toks)) < 0
    ensures ExpandToks(m, toks, seen) == Ok(Render(toks))
  {
    hide ExpandToks, Render, IndexOpen;
    NoOpenIsPlain(toks);
    ExpandPlain(m, toks, seen);
  }

  lemma {:induction false} FirstName(toks: seq<Tok>) returns (k: nat)
    requires WellFormed(toks) && IndexOpen(Render(toks)) >= 0
    ensures var s, i := Render(toks), IndexOpen(Render(toks));
            var e := IndexFrom(s, '}', i);
            k < |toks| && e >= i + 2 && Plain(toks[..k]) && toks[k] == Ref(s[i + 2..e])
  {
    hide Render, IndexOpen;
    if Plain(toks) { NoOpenInPlain(toks); }
    k := FirstReference(toks);
  }

  lemma {:induction false} ReplaceFirst(m: Config, toks: seq<Tok>, n: string, text: string, seen: seq<string>)
    requires WellFormedConfig(m) && WellFormed(toks) && Ref(n) in toks && Expand(m, n, seen) == Ok(text)
    ensures var after := ReplaceTok(toks, n, Chars(text));
            && WellFormed(after) && Render(after) == ReplaceAll(Render(toks), n, text)
            && ExpandToks(m, after, seen) == ExpandToks(m, toks, seen)
            && References(after) < References(toks)
  {
    hide Expand, ExpandToks, Render, ReplaceAll, ReplaceTok, References;
    ExpandedIsPlain(m, n, seen);
    ReplaceFacts(m, toks, n, text, seen);
    ReplaceAllIsReplaceTok(toks, n, text);
  }

  /** `expandDeep`: replace the first reference by its own expansion until none is left. */
  method ExpandDeep(m: Config, key: string, seen: seq<string>) returns (r: Result)
    requires WellFormedConfig(m)
    ensures r == Expand(m, key, seen)
    decreases Unseen(m, seen)
  {
    hide Expand, ExpandToks, Render, ReplaceAll, ReplaceTok, References, IndexOpen, Plain, Unseen;
    ExpandUnfolds(m, key, seen);
    if key in seen { return Err(Recursive(key, seen)); }
    var met := seen + [key];
    if key !in m { return Err(NullValued(key)); }
    var replacement := m[key];
    ghost var toks := Parse(replacement);
    RenderParse(replacement);
    while true
      invariant WellFormed(toks) && Render(toks) == replacement
      invariant ExpandToks(m, toks, met) == Expand(m, key, seen)
      decreases References(toks)
    {
      var begin := IndexOpen(replacement);
      if begin < 0 {
        NoneLeft(m, toks, met);
        break;
      }
      ghost var k := FirstName(toks);
      var end := IndexFrom(replacement, '}', begin);
      if end < 0 {
        assert false;
        break;
      }
      var nested := replacement[begin + 2..end];
      var expanded := ExpandDeep(m, nested, met);
      if expanded.Err? {
        FirstFailure(m, toks, k, met);
        return expanded;
      }
      ReplaceFirst(m, toks, nested, expanded.text, met);
      replacement := ReplaceAll(replacement, nested, expanded.text);
      toks := ReplaceTok(toks, nested, Chars(expanded.text));
    }
    return Ok(replacement);
  }

  lemma {:induction false} NoOpenIsPlain(toks: seq<Tok>)
    requires WellFormed(toks)
    ensures IndexOpen(Render(toks)) < 0 ==> Plain(toks)
  {
    if !Plain(toks) {
      var k := FirstReference(toks);
    }
  }

  /** Where the first "${" and the '}' after it are in a well-formed value that has references. */
  lemma {:induction false} FirstReference(toks: seq<Tok>) returns (k: nat)
    requires WellFormed(toks) && !Plain(toks)
    ensures k < |toks| && Plain(toks[..k]) && toks[k].Ref? && IndexOpen(Render(toks)) == k
    ensures var s, e := Render(toks), k + 2 + |toks[k].name|;
            e < |s| && IndexFrom(s, '}', k) == e && s[k + 2..e] == toks[k].name
  {
    hide Render, IndexOpen, IndexFrom, Text;
    k := FirstRef(toks);
    SplitAt(toks, k);
    assert toks[k] == Ref(toks[k].name) && WellFormedTok(toks[k]);
    OpensAt(toks[..k], toks[k].name, Render(toks[k + 1..]));
  }

  /////////// The view of configured keys over compiled-in defaults ///////////

  /** Configured values win over defaults. */
  function Merged(configured: Config, defaults: Config): Config {
    defaults + configured
  }

  lemma {:induction false} ConfiguredWins(configured: Config, defaults: Config, key: string)
    ensures key in Merged(configured, defaults) <==> key in configured || key in defaults
    ensures key in configured ==> Merged(configured, defaults)[key] == configured[key]
    ensures key !in configured && key in defaults ==> Merged(configured, defaults)[key] == defaults[key]
  {}

  /** `Raw`: the configured value, then the default. */
  function Raw(configured: Config, defaults: Config, key: string): (r: Option<string>)
    ensures r.Some? <==> key in Merged(configured, defaults)
    ensures r.Some? ==> r.value == Merged(configured, defaults)[key]
  {
    if key in configured then Some(configured[key]) else if key in defaults then Some(defaults[key]) else None
  }

  /** The first key, in key order, that does not expand, and its error. */
  ghost predicate FirstFailing(m: Config, k: string, e: Error) {
    && k in m && Expand(m, k, []) == Err(e)
    && forall j :: j in m && Le(j, k) && j != k ==> Expand(m, j, []).Ok?
  }

  ghost predicate AllExpand(m: Config) {
    forall k :: k in m ==> Expand(m, k, []).Ok?
  }

  ghost predicate ExpandUpTo(m: Config, keys: seq<string>, n: nat) {
    n <= |keys| && forall j :: 0 <= j < n ==> Expand(m, keys[j], []).Ok?
  }

  lemma {:induction false} FirstFound(m: Config, keys: seq<string>, i: nat, e: Error)
    requires keys == SortedKeys(m.Keys) && i < |keys| && ExpandUpTo(m, keys, i) && Expand(m, keys[i], []) == Err(e)
    ensures FirstFailing(m, keys[i], e) && !AllExpand(m)
  {
    hide Expand, SortedKeys, Le;
    assert keys[i] in keys;
    forall j | j in m && Le(j, keys[i]) && j != keys[i] ensures Expand(m, j, []).Ok? {
      assert j in keys;
      Before(keys, i, j);
    }
  }

  lemma {:induction false} NoneFound(m: Config, keys: seq<string>)
    requires keys == SortedKeys(m.Keys) && ExpandUpTo(m, keys, |keys|)
    ensures AllExpand(m)
  {
    hide Expand, SortedKeys;
    forall k | k in m ensures Expand(m, k, []).Ok? { assert k in keys; }
  }

  lemma {:induction false} OneMoreExpands(m: Config, keys: seq<string>, n: nat)
    requires n < |keys| && ExpandUpTo(m, keys, n) && Expand(m, keys[n], []).Ok?
    ensures ExpandUpTo(m, keys, n + 1)
  {
    hide Expand;
  }

  lemma {:induction false} NoneYet(m: Config, keys: seq<string>)
    ensures ExpandUpTo(m, keys, 0)
  {}

  lemma {:induction false} Before(keys: seq<string>, i: nat, j: string)
    requires Ascending(keys) && i < |keys| && j in keys && Le(j, keys[i]) && j != keys[i]
    ensures exists x :: 0 <= x < i && keys[x] == j
  {
    hide Le;
    var x :| 0 <= x < |keys| && keys[x] == j;
    if i < x { LeAntisymmetric(keys[i], j); }
  }

  /** `Validate`: the error of the first key, in key order, that does not expand. */
  method Validate(configured: Config, defaults: Config) returns (error: Option<Error>)
    requires WellFormedConfig(Merged(configured, defaults))
    ensures error.None? <==> AllExpand(Merged(configured, defaults))
    ensures error.Some? ==> exists k :: FirstFailing(Merged(configured, defaults), k, error.value)
  {
    hide Expand, SortedKeys, FirstFailing, AllExpand, ExpandUpTo, Ascending, WellFormedConfig, Merged;
    var m := Merged(configured, defaults);
    var keys := SortedKeys(m.Keys);
    NoneYet(m, keys);
    for i := 0 to |keys|
      invariant ExpandUpTo(m, keys, i)
    {
      var r := ExpandDeep(m, keys[i], []);
      if r.Err? {
        FirstFound(m, keys, i, r.error);
        return Some(r.error);
      }
      OneMoreExpands(m, keys, i);
    }
    NoneFound(m, keys);
    return None;
  }
}
