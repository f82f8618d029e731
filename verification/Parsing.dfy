/** The grammar of the configuration file, as functions over the tokens that are left. */
module Parsing {
  import opened Options
  import opened Lexing
  import Planner

  type Tokens = seq<Token>

  datatype ParseError = Expected(what: string) | UnknownDirective(text: string) | Unexpected(kind: Kind) | MissingFi(key: string)

  /** A conditional block of a section. */
  datatype Block = Block(
    typ: string, key: string, negated: bool, postconf: map<string, string>, postconfd: map<string, string>,
    requiredVars: map<string, string>)

  datatype Section = Section(
    depends: set<string>, rewrites: map<string, Planner.Target>, restarts: set<string>, requiredVars: map<string, string>,
    postconf: map<string, string>, postconfd: map<string, string>, ldap: map<string, string>, proxygen: bool,
    conditionals: seq<Block>)

  type Config = map<string, Section>

  const NO_SECTION := Section({}, map[], {}, map[], map[], map[], map[], false, [])

  datatype Got<+T> = Got(value: T, rest: Tokens)

  datatype Parsed<+T> = Good(value: T, rest: Tokens) | Bad(error: ParseError, rest: Tokens)

  /////////// The cursor ///////////

  function Cur(r: Tokens): Token {
    if r == [] then Token(Eof, "") else r[0]
  }

  predicate AtEnd(r: Tokens) { IsEnd(Cur(r)) }

  predicate AtNewline(r: Tokens) { Cur(r).kind == Newline }

  function SkipToNewline(r: Tokens): (q: Tokens)
    ensures |q| <= |r| && (AtNewline(q) || AtEnd(q))
    ensures !AtNewline(r) && !AtEnd(r) ==> |q| < |r|
  {
    if AtNewline(r) || AtEnd(r) then r else SkipToNewline(r[1..])
  }

  function SkipToSection(r: Tokens): (q: Tokens)
    ensures |q| <= |r| && (Cur(q).kind == SectionKw || AtEnd(q))
    ensures Cur(r).kind != SectionKw && !AtEnd(r) ==> |q| < |r|
  {
    if Cur(r).kind == SectionKw || AtEnd(r) then r else SkipToSection(r[1..])
  }

  function SkipNewlines(r: Tokens): (q: Tokens)
    ensures |q| <= |r| && !AtNewline(q)
    ensures AtNewline(r) ==> |q| < |r|
  {
    if AtNewline(r) then SkipNewlines(r[1..]) else r
  }

  /** The words at the cursor, and what follows them. */
  function Words(r: Tokens): (g: Got<set<string>>)
    ensures |g.rest| <= |r|
  {
    if Cur(r).kind != Identifier then Got({}, r)
    else var g := Words(r[1..]); Got({r[0].text} + g.value, g.rest)
  }

  predicate IsPath(t: Token) {
    t.kind == Str && t.text != "" && t.text[0] == '/'
  }

  /** A path: a string, or an identifier that a string starting with '/' may continue. */
  function ReadPath(r: Tokens): (g: Got<string>)
    ensures |g.rest| <= |r|
  {
    if Cur(r).kind == Str then Got(r[0].text, r[1..])
    else if Cur(r).kind != Identifier then Got("", r)
    else if IsPath(Cur(r[1..])) then Got(r[0].text + r[1].text, r[2..])
    else Got(r[0].text, r[1..])
  }

  /////////// Values ///////////

  function Join(parts: seq<string>): string {
    if parts == [] then "" else if |parts| == 1 then parts[0] else parts[0] + " " + Join(parts[1..])
  }

  function Prefixed(prefix: string, r: Tokens): (g: Got<seq<string>>)
    ensures |g.rest| <= |r|
  {
    if Cur(r).kind == Identifier then Got([prefix + ":" + r[0].text], r[1..]) else Got([], r)
  }

  /** One part of a value; a token that cannot be part of a value yields none and stays. */
  function Part(r: Tokens): (g: Got<seq<string>>)
    ensures |g.rest| <= |r|
  {
    match Cur(r).kind
    case VarKw => Prefixed("VAR", r[1..])
    case LocalKw => Prefixed("LOCAL", r[1..])
    case MaplocalKw => Prefixed("MAPLOCAL", r[1..])
    case FileKw => var p := ReadPath(r[1..]); Got(["FILE " + p.value], p.rest)
    case Identifier => Got([r[0].text], r[1..])
    case Str => Got([r[0].text], r[1..])
    case _ => Got([], r)
  }

  function Parts(r: Tokens): (g: Got<seq<string>>)
    ensures |g.rest| <= |r|
  {
    var p := Part(r);
    if |p.rest| == |r| then Got([], r) else var g := Parts(p.rest); Got(p.value + g.value, g.rest)
  }

  function Value(r: Tokens): (g: Got<string>)
    ensures |g.rest| <= |r|
  {
    Got(Join(Parts(r).value), Parts(r).rest)
  }

  /** A MAPLOCAL that is no lookup is a word of the value. */
  function Literal(r: Tokens, allowMaplocal: bool): (g: Got<string>)
    ensures |g.rest| <= |r|
  {
    if Cur(r).kind != MaplocalKw || allowMaplocal then Value(r)
    else
      var v := Value(r[1..]);
      Got(if v.value != "" then r[0].text + " " + v.value else r[0].text, v.rest)
  }

  /////////// POSTCONF lines ///////////

  predicate HasPrefix(s: string, p: string) {
    |p| <= |s| && s[..|p|] == p
  }

  /** The lookup type a value token names: the keyword, or a word that starts with an allowed type name. */
  function LookupType(t: Token, allowMaplocal: bool): Option<string> {
    match t.kind
    case VarKw => Some("VAR")
    case LocalKw => Some("LOCAL")
    case FileKw => Some("FILE")
    case MaplocalKw => if allowMaplocal then Some("MAPLOCAL") else None
    case Identifier => WordType(t.text, allowMaplocal)
    case Str => WordType(t.text, allowMaplocal)
    case _ => None
  }

  function WordType(word: string, allowMaplocal: bool): Option<string> {
    if HasPrefix(word, "VAR") || HasPrefix(word, "LOCAL") || HasPrefix(word, "FILE") ||
       (allowMaplocal && HasPrefix(word, "MAPLOCAL")) then Some(word) else None
  }

  predicate IsKeyword(t: Token) {
    t.kind != Identifier && t.kind != Str
  }

  function LookupKey(r: Tokens, typ: string, exact: bool): (g: Got<string>)
    ensures |g.rest| <= |r|
  {
    if exact && typ == "FILE" then ReadPath(r)
    else if Cur(r).kind != Identifier && Cur(r).kind != Str then Got("", r)
    else Got(r[0].text, r[1..])
  }

  function FormatLookup(typ: string, name: string, exact: bool): string {
    if exact && typ == "FILE" then "FILE " + name else typ + ":" + name
  }

  /** A parsed POSTCONF or POSTCONFD line, with the lookup it names. */
  datatype Line = Line(key: string, value: string, lookup: Option<Planner.Lookup>)

  function PostconfLine(r: Tokens, allowMaplocal: bool): (p: Parsed<Line>)
    requires !AtEnd(r)
    ensures |p.rest| < |r|
  {
    var k := r[1..];
    if Cur(k).kind != Identifier then Bad(Expected("parameter name"), k) else LineValue(k[0].text, k[1..], allowMaplocal)
  }

  function LineValue(key: string, v: Tokens, allowMaplocal: bool): (p: Parsed<Line>)
    ensures |p.rest| <= |v|
  {
    if AtNewline(v) || AtEnd(v) then Good(Line(key, "", None), v)
    else
      var typ := LookupType(v[0], allowMaplocal);
      if typ.None? then
        var g := Literal(v, allowMaplocal);
        Good(Line(key, g.value, None), g.rest)
      else
        var name := LookupKey(v[1..], typ.value, IsKeyword(v[0]));
        if name.value == "" then Bad(Expected("key"), name.rest)
        else
          Good(Line(key, FormatLookup(typ.value, name.value, IsKeyword(v[0])), Some(Planner.Lookup(typ.value, name.value))),
               name.rest)
  }

  /** A lookup becomes a required variable; a later type of the same name replaces an earlier one. */
  function Registered(vars: map<string, string>, l: Option<Planner.Lookup>): map<string, string> {
    if l.None? then vars else vars[l.value.key := l.value.typ]
  }

  /////////// Conditional blocks ///////////

  function BlockHeader(r: Tokens): (p: Parsed<Block>)
    requires !AtEnd(r)
    ensures |p.rest| < |r|
  {
    var t := r[1..];
    if Cur(t).kind != ServiceKw && Cur(t).kind != VarKw then Bad(Expected("SERVICE or VAR"), t)
    else
      var k := t[1..];
      if Cur(k).kind != Identifier then Bad(Expected("condition key"), k)
      else
        var negated := HasPrefix(k[0].text, "!");
        Good(Block(Upper(t[0].text), if negated then k[0].text[1..] else k[0].text, negated, map[], map[], map[]), k[1..])
  }

  /** One line of a block that starts with neither a newline, a fi, a SECTION nor the end. */
  function BlockLine(r: Tokens, b: Block): (p: Parsed<Block>)
    requires !AtEnd(r) && !AtNewline(r)
    ensures |p.rest| < |r|
  {
    match r[0].kind
    case PostconfKw =>
      var l := PostconfLine(r, false);
      if l.Bad? then Bad(l.error, l.rest)
      else Good(b.(postconf := b.postconf[l.value.key := l.value.value],
                   requiredVars := Registered(b.requiredVars, l.value.lookup)), SkipToNewline(l.rest))
    case PostconfdKw =>
      var l := PostconfLine(r, false);
      if l.Bad? then Bad(l.error, l.rest)
      else Good(b.(postconfd := b.postconfd[l.value.key := ""],
                   requiredVars := Registered(b.requiredVars, l.value.lookup)), SkipToNewline(l.rest))
    case VarKw => BlockVar(r, b, "VAR")
    case LocalKw => BlockVar(r, b, "LOCAL")
    case _ => Good(b, SkipToNewline(r))
  }

  /** The name after VAR or LOCAL; the cursor stays on it. */
  function BlockVar(r: Tokens, b: Block, typ: string): (p: Parsed<Block>)
    requires !AtEnd(r)
    ensures |p.rest| < |r|
  {
    var k := r[1..];
    if Cur(k).kind != Identifier then Bad(Expected("variable name"), k)
    else Good(b.(requiredVars := b.requiredVars[k[0].text := typ]), k)
  }

  function BlockBody(r: Tokens, b: Block): (p: Parsed<Block>)
    ensures |p.rest| <= |r|
    decreases |r|
  {
    if AtNewline(r) then BlockBody(r[1..], b)
    else if Cur(r).kind == FiKw then Good(b, SkipToNewline(r))
    else if AtEnd(r) || Cur(r).kind == SectionKw then Bad(MissingFi(b.key), r)
    else
      var l := BlockLine(r, b);
      if l.Bad? then l else BlockBody(l.rest, l.value)
  }

  /////////// Directives, sections, files ///////////

  function Mode(r: Tokens): (p: Parsed<string>)
    ensures |p.rest| <= |r|
  {
    if Cur(r).kind != ModeKw then Good("", r)
    else
      var m := r[1..];
      if Cur(m).kind != Str && Cur(m).kind != Identifier then Bad(Expected("mode value"), m) else Good(m[0].text, m[1..])
  }

  function Rewrite(r: Tokens, s: Section): (p: Parsed<Section>)
    requires !AtEnd(r)
    ensures |p.rest| < |r|
  {
    var source := ReadPath(r[1..]);
    if source.value == "" then Bad(Expected("source file"), source.rest)
    else
      var dest := ReadPath(source.rest);
      if dest.value == "" then Bad(Expected("destination file"), dest.rest)
      else
        var mode := Mode(dest.rest);
        if mode.Bad? then Bad(mode.error, mode.rest)
        else
          Good(s.(rewrites := s.rewrites[source.value := Planner.Target(dest.value, mode.value)]), SkipToNewline(mode.rest))
  }

  function RequiredVar(r: Tokens, s: Section, typ: string): (p: Parsed<Section>)
    requires !AtEnd(r)
    ensures |p.rest| < |r|
  {
    var k := r[1..];
    if Cur(k).kind != Identifier then Bad(Expected("variable name"), k)
    else Good(s.(requiredVars := s.requiredVars[k[0].text := typ]), SkipToNewline(k[1..]))
  }

  /** POSTCONF sets a parameter, POSTCONFD drops one; both depend on the lookup their line names. */
  function WithLine(s: Section, l: Line, drop: bool): Section {
    var vars := Registered(s.requiredVars, l.lookup);
    if drop then s.(postconfd := s.postconfd[l.key := ""], requiredVars := vars)
    else s.(postconf := s.postconf[l.key := l.value], requiredVars := vars)
  }

  function Postconf(r: Tokens, s: Section, drop: bool): (p: Parsed<Section>)
    requires !AtEnd(r)
    ensures |p.rest| < |r|
  {
    var l := PostconfLine(r, !drop);
    if l.Bad? then Bad(l.error, l.rest) else Good(WithLine(s, l.value, drop), SkipToNewline(l.rest))
  }

  function Ldap(r: Tokens, s: Section): (p: Parsed<Section>)
    requires !AtEnd(r)
    ensures |p.rest| < |r|
  {
    var k := r[1..];
    if Cur(k).kind != Identifier then Bad(Expected("LDAP key"), k)
    else
      var v := Value(k[1..]);
      var local := HasPrefix(v.value, "LOCAL:") || HasPrefix(v.value, "MAPLOCAL:");
      Good(if local then s.(ldap := s.ldap[k[0].text := v.value]) else s, SkipToNewline(v.rest))
  }

  function Conditional(r: Tokens, s: Section): (p: Parsed<Section>)
    requires !AtEnd(r)
    ensures |p.rest| < |r|
  {
    var h := BlockHeader(r);
    if h.Bad? then Bad(h.error, h.rest)
    else
      var b := BlockBody(SkipToNewline(h.rest), h.value);
      if b.Bad? then Bad(b.error, b.rest) else Good(s.(conditionals := s.conditionals + [b.value]), b.rest)
  }

  /** One directive; a fi outside a block is skipped with its line. */
  function Directive(r: Tokens, s: Section): (p: Parsed<Section>)
    ensures |p.rest| <= |r| && (p.Good? && !AtNewline(r) && !AtEnd(r) ==> |p.rest| < |r|)
  {
    match Cur(r).kind
    case RewriteKw => Rewrite(r, s)
    case VarKw => RequiredVar(r, s, "VAR")
    case LocalKw => RequiredVar(r, s, "LOCAL")
    case MapfileKw => RequiredVar(r, s, "MAPFILE")
    case MaplocalKw => RequiredVar(r, s, "MAPLOCAL")
    case PostconfKw => Postconf(r, s, false)
    case PostconfdKw => Postconf(r, s, true)
    case RestartKw => var w := Words(r[1..]); Good(s.(restarts := s.restarts + w.value), SkipToNewline(w.rest))
    case ProxygenKw => Good(s.(proxygen := true), SkipToNewline(r[1..]))
    case IfKw => Conditional(r, s)
    case FiKw => Good(s, SkipToNewline(r))
    case Identifier => if Upper(r[0].text) == "LDAP" then Ldap(r, s) else Bad(UnknownDirective(r[0].text), r)
    case k => Bad(Unexpected(k), r)
  }

  function Body(r: Tokens, s: Section): (p: Parsed<Section>)
    ensures |p.rest| <= |r| && (p.Good? ==> AtEnd(p.rest) || Cur(p.rest).kind == SectionKw)
    decreases |r|
  {
    if AtEnd(r) || Cur(r).kind == SectionKw then Good(s, r)
    else if AtNewline(r) then Body(r[1..], s)
    else
      var d := Directive(r, s);
      if d.Bad? then d else Body(d.rest, d.value)
  }

  /** The section header; the cursor is left after its newline. */
  function Header(r: Tokens): (p: Parsed<(string, Section)>)
    ensures |p.rest| <= |r| && (Cur(r).kind == SectionKw ==> |p.rest| < |r|) && (p.Bad? ==> Cur(r).kind == SectionKw || p.rest == r)
  {
    if Cur(r).kind != SectionKw then Bad(Expected("SECTION"), r)
    else
      var n := r[1..];
      if Cur(n).kind != Identifier then Bad(Expected("section name"), n)
      else
        var d := n[1..];
        var w := if Cur(d).kind == DependsKw then Words(d[1..]) else Got({}, d);
        if !AtNewline(w.rest) then Bad(Expected("newline"), w.rest)
        else Good((n[0].text, NO_SECTION.(depends := w.value)), w.rest[1..])
  }

  /** One section, added to the file; a file of newlines only adds nothing. */
  function OneSection(r: Tokens, c: Config): (p: Parsed<Config>)
    ensures |p.rest| <= |r|
    ensures !AtEnd(r) ==> |p.rest| < |r| || (p.Bad? && p.rest == r && Cur(r).kind != SectionKw)
  {
    var q := SkipNewlines(r);
    if AtEnd(q) then Good(c, q)
    else
      var h := Header(q);
      if h.Bad? then Bad(h.error, h.rest)
      else
        var b := Body(h.rest, h.value.1);
        if b.Bad? then Bad(b.error, b.rest) else Good(c[h.value.0 := b.value], b.rest)
  }

  /** The whole file: after an error the parser resumes at the next SECTION. */
  function File(r: Tokens, c: Config, errors: seq<ParseError>): (Config, seq<ParseError>)
    decreases |r|
  {
    if AtEnd(r) then (c, errors)
    else
      var p := OneSection(r, c);
      if p.Good? then File(p.rest, p.value, errors) else File(SkipToSection(p.rest), c, errors + [p.error])
  }
}
