/** `${key}` references in localconfig values, at the level of text and at the level of tokens. */
module Template {

  /** A value is text with references in it: literal characters and `${name}`. */
  datatype Tok = Ch(c: char) | Ref(name: string)

  /** `strings.IndexByte(s[from:], c)`, counted from the start; -1 when there is none. */
  function IndexFrom(s: string, c: char, from: nat): (i: int)
    requires from <= |s|
    ensures i == -1 || (from <= i < |s| && s[i] == c)
    ensures i == -1 ==> forall j :: from <= j < |s| ==> s[j] != c
    ensures i >= 0 ==> forall j :: from <= j < i ==> s[j] != c
    decreases |s| - from
  {
    if from == |s| then -1 else if s[from] == c then from else IndexFrom(s, c, from + 1)
  }

  /** The pattern `\$\{([^}]+)\}` matches at the start of `s`. */
  predicate IsRef(s: string) {
    |s| >= 2 && s[0] == '$' && s[1] == '{' && IndexFrom(s, '}', 2) > 2
  }

  /** The leftmost non-overlapping matches of the pattern, and the characters between them. */
  function Parse(s: string): seq<Tok> {
    if s == "" then []
    else if IsRef(s) then
      var e := IndexFrom(s, '}', 2);
      [Ref(s[2..e])] + Parse(s[e + 1..])
    else [Ch(s[0])] + Parse(s[1..])
  }

  function Text(t: Tok): string {
    match t
    case Ch(c) => [c]
    case Ref(n) => "${" + n + "}"
  }

  function Render(toks: seq<Tok>): string {
    if toks == [] then "" else Text(toks[0]) + Render(toks[1..])
  }

  /** The literal text has no '{', and neither have the names. */
  predicate WellFormedTok(t: Tok) {
    match t
    case Ch(c) => c != '{'
    case Ref(n) => n != "" && '{' !in n && '}' !in n
  }

  predicate WellFormed(toks: seq<Tok>) {
    forall i :: 0 <= i < |toks| ==> WellFormedTok(toks[i])
  }

  lemma {:induction false} ReferenceText(s: string, e: nat)
    requires 2 <= e < |s| && s[0] == '$' && s[1] == '{' && s[e] == '}'
    ensures s == Text(Ref(s[2..e])) + s[e + 1..]
  {
    var t := Text(Ref(s[2..e]));
    assert |t| == e + 1;
    forall i | 0 <= i < |t| ensures t[i] == s[i] {
      if 2 <= i < e { assert t[i] == s[2..e][i - 2]; }
    }
    assert t == s[..e + 1];
  }

  lemma {:induction false} ParseSplits(s: string) returns (t: Tok, n: nat)
    requires s != ""
    ensures 0 < n <= |s| && Parse(s) == [t] + Parse(s[n..]) && s == Text(t) + s[n..]
  {
    if IsRef(s) {
      var e := IndexFrom(s, '}', 2);
      ReferenceText(s, e);
      n, t := e + 1, Ref(s[2..e]);
    } else {
      n, t := 1, Ch(s[0]);
      assert s == [s[0]] + s[1..];
    }
  }

  lemma {:induction false} RenderParse(s: string)
    ensures Render(Parse(s)) == s
  {
    hide Render, Text, Parse;
    if s == "" {
      ParseNone();
      RenderNone();
    } else {
      var t, n := ParseSplits(s);
      RenderParse(s[n..]);
      assert ([t] + Parse(s[n..]))[1..] == Parse(s[n..]);
      RenderHead([t] + Parse(s[n..]));
    }
  }

  lemma {:induction false} ParseNone()
    ensures Parse("") == []
  {}

  lemma {:induction false} ParseRef(n: string, r: string)
    requires n != "" && '}' !in n
    ensures Parse("${" + n + "}" + r) == [Ref(n)] + Parse(r)
  {
    var s := "${" + n + "}" + r;
    var e := 2 + |n|;
    assert s[e] == '}' && s[2..e] == n && s[e + 1..] == r;
    assert forall j :: 2 <= j < e ==> s[j] == n[j - 2];
    assert IndexFrom(s, '}', 2) == e;
  }

  lemma {:induction false} NoOpenFirst(toks: seq<Tok>)
    requires WellFormed(toks)
    ensures Render(toks) != "" ==> Render(toks)[0] != '{'
  {}

  /** Reading back a well-formed value gives its tokens. */
  lemma {:induction false} ParseRender(toks: seq<Tok>)
    requires WellFormed(toks)
    ensures Parse(Render(toks)) == toks
  {
    if toks != [] {
      var rest := toks[1..];
      ParseRender(rest);
      match toks[0] {
        case Ch(c) =>
          NoOpenFirst(rest);
          var s := [c] + Render(rest);
          assert s[1..] == Render(rest);
          assert !IsRef(s);
        case Ref(n) =>
          ParseRef(n, Render(rest));
      }
    }
  }

  lemma {:induction false} RenderConcat(a: seq<Tok>, b: seq<Tok>)
    ensures Render(a + b) == Render(a) + Render(b)
  {
    if a == [] {
      assert a + b == b;
    } else {
      assert (a + b)[1..] == a[1..] + b;
      RenderConcat(a[1..], b);
    }
  }

  function Chars(s: string): (r: seq<Tok>)
    ensures |r| == |s| && forall i :: 0 <= i < |s| ==> r[i] == Ch(s[i])
  {
    if s == "" then [] else [Ch(s[0])] + Chars(s[1..])
  }

  lemma {:induction false} RenderChars(s: string)
    ensures Render(Chars(s)) == s
  {
    if s != "" { RenderChars(s[1..]); }
  }

  predicate Plain(toks: seq<Tok>) {
    forall i :: 0 <= i < |toks| ==> toks[i].Ch?
  }

  /////////// The text operations ///////////

  /** `strings.Index(s, "${")`. */
  function IndexOpen(s: string): (i: int)
    ensures -1 <= i && (i >= 0 ==> i + 2 <= |s| && s[i] == '$' && s[i + 1] == '{')
  {
    if |s| < 2 then -1
    else if s[0] == '$' && s[1] == '{' then 0
    else
      var i := IndexOpen(s[1..]);
      if i < 0 then -1 else i + 1
  }

  predicate StartsWith(s: string, p: string) {
    |s| >= |p| && s[..|p|] == p
  }

  lemma {:induction false} SecondIsOpen(s: string, n: string)
    ensures StartsWith(s, Text(Ref(n))) ==> |s| >= 2 && s[1] == '{'
  {
    if StartsWith(s, Text(Ref(n))) { assert s[1] == s[..|n| + 3][1] == Text(Ref(n))[1]; }
  }

  /** `strings.ReplaceAll(s, "${" + n + "}", text)`. */
  function ReplaceAll(s: string, n: string, text: string): string {
    if s == "" then ""
    else if StartsWith(s, Text(Ref(n))) then text + ReplaceAll(s[|n| + 3..], n, text)
    else [s[0]] + ReplaceAll(s[1..], n, text)
  }

  function ReplaceTok(toks: seq<Tok>, n: string, text: seq<Tok>): seq<Tok> {
    if toks == [] then []
    else (if toks[0] == Ref(n) then text else [toks[0]]) + ReplaceTok(toks[1..], n, text)
  }

  lemma {:induction false} NoOpenInPlain(toks: seq<Tok>)
    requires WellFormed(toks) && Plain(toks)
    ensures IndexOpen(Render(toks)) == -1 && |Render(toks)| == |toks|
  {
    if toks != [] {
      NoOpenInPlain(toks[1..]);
      NoOpenFirst(toks[1..]);
      assert Render(toks)[1..] == Render(toks[1..]);
    }
  }

  lemma {:induction false} Associative(a: string, b: string, c: string)
    ensures (a + b) + c == a + (b + c)
  {}

  /** The first "${" after plain text starts the reference that follows it, and the first '}' from there ends it. */
  lemma {:induction false} OpensAt(pre: seq<Tok>, n: string, r: string)
    requires WellFormed(pre) && Plain(pre) && '}' !in n
    ensures |Render(pre)| == |pre|
    ensures var s, k, e := Render(pre) + Text(Ref(n)) + r, |pre|, |pre| + 2 + |n|;
            IndexOpen(s) == k && e < |s| && IndexFrom(s, '}', k) == e && s[k + 2..e] == n
  {
    hide Render, IndexOpen, IndexFrom, Text;
    NoOpenInPlain(pre);
    CloseIndex(Render(pre), n, r);
    Associative(Render(pre), Text(Ref(n)), r);
    TextOpens(n, r);
    OpenIndex(pre, Text(Ref(n)) + r);
  }

  lemma {:induction false} TextOpens(n: string, r: string)
    ensures |Text(Ref(n)) + r| >= 2 && (Text(Ref(n)) + r)[0] == '$' && (Text(Ref(n)) + r)[1] == '{'
  {}

  lemma {:induction false} CloseIndex(head: string, n: string, r: string)
    requires '}' !in n
    ensures var s, k, e := head + Text(Ref(n)) + r, |head|, |head| + 2 + |n|;
            e < |s| && IndexFrom(s, '}', k) == e && s[k + 2..e] == n
  {
    var s, k, e := head + Text(Ref(n)) + r, |head|, |head| + 2 + |n|;
    assert s[e] == '}' && s[k] == '$' && s[k + 1] == '{';
    assert s[k + 2..e] == n;
    forall i | k <= i < e ensures s[i] != '}' { if i >= k + 2 { assert s[i] == n[i - k - 2]; } }
  }

  lemma {:induction false} RenderHead(toks: seq<Tok>)
    requires toks != []
    ensures Render(toks) == Text(toks[0]) + Render(toks[1..])
  {}

  lemma {:induction false} IndexOpenStep(c: char, r: string)
    requires r != "" && !(c == '$' && r[0] == '{')
    ensures IndexOpen([c] + r) == if IndexOpen(r) < 0 then -1 else IndexOpen(r) + 1
  {
    assert ([c] + r)[1..] == r;
  }

  lemma {:induction false} OpenIndex(pre: seq<Tok>, r: string)
    requires WellFormed(pre) && Plain(pre) && |r| >= 2 && r[0] == '$' && r[1] == '{'
    ensures IndexOpen(Render(pre) + r) == |pre|
  {
    hide Render;
    if pre == [] {
      assert Render(pre) + r == r by { RenderNone(); }
    } else {
      var c, rest := pre[0].c, Render(pre[1..]);
      OpenIndex(pre[1..], r);
      NoOpenFirst(pre[1..]);
      RenderHead(pre);
      hide IndexOpen;
      assert Render(pre) + r == [c] + (rest + r);
      assert (rest + r)[0] == if rest == "" then r[0] else rest[0];
      IndexOpenStep(c, rest + r);
    }
  }

  lemma {:induction false} RenderNone()
    ensures Render([]) == ""
  {}

  /** The position of the first reference. */
  lemma {:induction false} FirstRef(toks: seq<Tok>) returns (k: nat)
    requires !Plain(toks)
    ensures k < |toks| && Plain(toks[..k]) && toks[k].Ref?
  {
    k := 0;
    while toks[k].Ch?
      decreases |toks| - k
      invariant 0 <= k < |toks| && Plain(toks[..k])
      invariant exists i :: k <= i < |toks| && !toks[i].Ch?
    {
      k := k + 1;
    }
  }

  lemma {:induction false} SplitAt(toks: seq<Tok>, k: nat)
    requires k < |toks| && toks[k].Ref?
    ensures Render(toks) == Render(toks[..k]) + Text(toks[k]) + Render(toks[k + 1..])
  {
    assert toks == toks[..k] + ([toks[k]] + toks[k + 1..]);
    RenderConcat(toks[..k], [toks[k]] + toks[k + 1..]);
    RenderConcat([toks[k]], toks[k + 1..]);
    assert Render([toks[k]]) == Text(toks[k]) + Render([]);
  }

  /** Replacing the text of a reference replaces exactly the references of that name. */
  lemma {:induction false} ReplaceAllIsReplaceTok(toks: seq<Tok>, n: string, text: string)
    requires WellFormed(toks) && WellFormedTok(Ref(n))
    ensures ReplaceAll(Render(toks), n, text) == Render(ReplaceTok(toks, n, Chars(text)))
  {
    if toks != [] {
      var rest, s := toks[1..], Render(toks);
      ReplaceAllIsReplaceTok(rest, n, text);
      match toks[0] {
        case Ch(c) =>
          NoOpenFirst(rest);
          assert s == [c] + Render(rest) && s[1..] == Render(rest);
          SecondIsOpen(s, n);
          assert s[0] == c && ReplaceTok(toks, n, Chars(text)) == [toks[0]] + ReplaceTok(rest, n, Chars(text));
        case Ref(x) =>
          NoOpenFirst(rest);
          assert s == Text(Ref(x)) + Render(rest);
          if x == n {
            assert StartsWith(s, Text(Ref(n))) && s[|n| + 3..] == Render(rest);
            RenderConcat(Chars(text), ReplaceTok(rest, n, Chars(text)));
            RenderChars(text);
          } else {
            OtherReference(x, n, text, Render(rest));
          }
      }
    }
  }

  function Tail(x: string): string {
    "{" + x + "}"
  }

  lemma {:induction false} TailHasOneOpen(x: string)
    requires '{' !in x
    ensures Text(Ref(x)) == ['$'] + Tail(x)
    ensures forall i :: 0 < i < |Tail(x)| ==> Tail(x)[i] != '{'
  {
    assert forall i :: 0 < i < |Tail(x)| - 1 ==> Tail(x)[i] == x[i - 1];
  }

  /** The text of another reference is copied unchanged. */
  lemma {:induction false} OtherReference(x: string, n: string, text: string, r: string)
    requires WellFormedTok(Ref(x)) && WellFormedTok(Ref(n)) && x != n && (r == "" || r[0] != '{')
    ensures ReplaceAll(Text(Ref(x)) + r, n, text) == Text(Ref(x)) + ReplaceAll(r, n, text)
  {
    hide ReplaceAll, StartsWith, Text, Tail;
    SameName(x, n, r);
    TailHasOneOpen(x);
    CopyUntilDollar(Tail(x), n, text, r);
    Associative(['$'], Tail(x), r);
    CopyOneMore('$', Tail(x) + r, n, text);
    Associative(['$'], Tail(x), ReplaceAll(r, n, text));
  }

  lemma {:induction false} CopyOneMore(c: char, r: string, n: string, text: string)
    requires !StartsWith([c] + r, Text(Ref(n)))
    ensures ReplaceAll([c] + r, n, text) == [c] + ReplaceAll(r, n, text)
  {
    assert ([c] + r)[1..] == r;
  }

  lemma {:induction false} SameName(x: string, n: string, r: string)
    requires '}' !in x && '}' !in n
    ensures StartsWith(Text(Ref(x)) + r, Text(Ref(n))) ==> x == n
  {
    var s, t := Text(Ref(x)) + r, Text(Ref(n));
    if StartsWith(s, t) {
      assert forall i :: 0 <= i < |t| ==> s[i] == s[..|t|][i] == t[i];
      assert forall i :: 2 <= i < |x| + 2 ==> s[i] == x[i - 2];
      assert forall i :: 0 <= i < |n| ==> t[i + 2] == n[i];
      assert s[|x| + 2] == '}' && forall i :: 0 <= i < |x| + 2 ==> s[i] != '}';
      assert IndexFrom(s, '}', 0) == |x| + 2;
      assert s[|n| + 2] == '}' && forall i :: 0 <= i < |n| + 2 ==> s[i] != '}';
      assert forall i :: 0 <= i < |x| ==> x[i] == n[i];
    }
  }

  /** No match starts in a piece of text where no '$' is followed by '{'. */
  lemma {:induction false} CopyUntilDollar(piece: string, n: string, text: string, r: string)
    requires forall i :: 0 < i < |piece| ==> piece[i] != '{'
    requires piece != "" ==> r == "" || r[0] != '{'
    ensures ReplaceAll(piece + r, n, text) == piece + ReplaceAll(r, n, text)
  {
    hide ReplaceAll, StartsWith, Text;
    if piece == "" {
      assert piece + r == r;
    } else {
      var c, rest := piece[0], piece[1..];
      assert piece == [c] + rest;
      Associative([c], rest, r);
      SecondIsOpen([c] + (rest + r), n);
      assert rest + r != "" ==> (rest + r)[0] == (if rest != "" then rest[0] else r[0]);
      CopyUntilDollar(rest, n, text, r);
      CopyOneMore(c, rest + r, n, text);
      Associative([c], rest, ReplaceAll(r, n, text));
    }
  }
}
