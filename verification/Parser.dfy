/** The recursive-descent parser over the lexer, proved to follow the grammar and to stop on every content. */
module Parser {
  import opened Options
  import opened Lexing
  import P = Parsing
  import Planner

  class Parser {
    const lexer: Lexer
    var current: Token
    var errors: seq<P.ParseError>
    var section: P.Section

    ghost predicate Valid()
      reads lexer
    {
      lexer.Valid()
    }

    /** The tokens from the current one to the end of the text. */
    ghost function Rest(): (r: P.Tokens)
      requires Valid()
      reads `current, lexer
      ensures r != [] && r[0] == current
    {
      [current] + if IsEnd(current) then [] else Tokens(lexer.u, lexer.Left())
    }

    /** The number of parse errors so far, apart from that of the lexer, and the token the text ends with. */
    ghost function Status(): (int, Token)
      requires Valid()
      reads `current, `errors, lexer
    {
      (|errors| - (if current.kind == Error then 1 else 0), Rest()[|Rest()| - 1])
    }

    constructor (lexer: Lexer)
      requires lexer.Valid()
      modifies lexer
      ensures Valid() && this.lexer == lexer && Rest() == Tokens(lexer.u, old(lexer.Left())) && Status().0 == 0
    {
      this.lexer, section := lexer, P.NO_SECTION;
      var token, ok := lexer.NextToken();
      current := token;
      errors := if ok then [] else [P.Unexpected(Error)];
    }

    method Advance()
      requires Valid() && !IsEnd(current)
      modifies this`current, this`errors, lexer
      ensures Valid() && Rest() == old(Rest())[1..] && Status() == old(Status())
    {
      hide Next;
      ghost var rest := Rest();
      TokensBounded(lexer.u, lexer.Left());
      var token, ok := lexer.NextToken();
      current := token;
      if !ok { errors := errors + [P.Unexpected(Error)]; }
      assert Rest() == rest[1..];
    }

    method SkipToNewline()
      requires Valid()
      modifies this`current, this`errors, lexer
      ensures Valid() && Rest() == P.SkipToNewline(old(Rest())) && Status() == old(Status())
    {
      hide Rest, Status, Tokens;
      while current.kind != Newline && !IsEnd(current)
        invariant Valid() && P.SkipToNewline(Rest()) == P.SkipToNewline(old(Rest())) && Status() == old(Status())
        decreases |Rest()|
      {
        Advance();
      }
    }

    method SkipToSection()
      requires Valid()
      modifies this`current, this`errors, lexer
      ensures Valid() && Rest() == P.SkipToSection(old(Rest())) && Status() == old(Status())
    {
      hide Rest, Status, Tokens;
      while current.kind != SectionKw && !IsEnd(current)
        invariant Valid() && P.SkipToSection(Rest()) == P.SkipToSection(old(Rest())) && Status() == old(Status())
        decreases |Rest()|
      {
        Advance();
      }
    }

    method SkipNewlines()
      requires Valid()
      modifies this`current, this`errors, lexer
      ensures Valid() && Rest() == P.SkipNewlines(old(Rest())) && Status() == old(Status())
    {
      hide Rest, Status, Tokens;
      while current.kind == Newline
        invariant Valid() && P.SkipNewlines(Rest()) == P.SkipNewlines(old(Rest())) && Status() == old(Status())
        decreases |Rest()|
      {
        Advance();
      }
    }

    method ReadWords() returns (words: set<string>)
      requires Valid()
      modifies this`current, this`errors, lexer
      ensures Valid() && P.Got(words, Rest()) == P.Words(old(Rest())) && Status() == old(Status())
    {
      hide Rest, Status, Tokens;
      words := {};
      while current.kind == Identifier
        invariant Valid() && Status() == old(Status())
        invariant P.Words(old(Rest())).value == words + P.Words(Rest()).value
        invariant P.Words(old(Rest())).rest == P.Words(Rest()).rest
        decreases |Rest()|
      {
        words := words + {current.text};
        Advance();
      }
    }

    method ReadPath() returns (path: string)
      requires Valid()
      modifies this`current, this`errors, lexer
      ensures Valid() && P.Got(path, Rest()) == P.ReadPath(old(Rest())) && Status() == old(Status())
    {
      hide Rest, Status, Tokens;
      if current.kind == Newline || IsEnd(current) { return ""; }
      if P.IsPath(current) {
        path := current.text;
        Advance();
        return;
      }
      if current.kind == Identifier {
        path := current.text;
        Advance();
        if P.IsPath(current) {
          path := path + current.text;
          Advance();
        }
        return;
      }
      if current.kind == Str {
        path := current.text;
        Advance();
        return;
      }
      return "";
    }

    method ParsePrefixed(prefix: string) returns (part: seq<string>)
      requires Valid()
      modifies this`current, this`errors, lexer
      ensures Valid() && P.Got(part, Rest()) == P.Prefixed(prefix, old(Rest())) && Status() == old(Status())
    {
      hide Rest, Status, Tokens;
      part := [];
      if current.kind == Identifier {
        part := [prefix + ":" + current.text];
        Advance();
      }
    }

    /** One turn of the value loop. */
    method ParsePart() returns (part: seq<string>)
      requires Valid()
      modifies this`current, this`errors, lexer
      ensures Valid() && P.Got(part, Rest()) == P.Part(old(Rest())) && Status() == old(Status())
    {
      hide Rest, Status, Tokens, P.ReadPath;
      match current.kind {
        case VarKw =>
          Advance();
          part := ParsePrefixed("VAR");
        case LocalKw =>
          Advance();
          part := ParsePrefixed("LOCAL");
        case MaplocalKw =>
          Advance();
          part := ParsePrefixed("MAPLOCAL");
        case FileKw =>
          Advance();
          var path := ReadPath();
          part := ["FILE " + path];
        case Identifier =>
          part := [current.text];
          Advance();
        case Str =>
          part := [current.text];
          Advance();
        case _ => part := [];
      }
    }

    method ParseValue() returns (value: string)
      requires Valid()
      modifies this`current, this`errors, lexer
      ensures Valid() && P.Got(value, Rest()) == P.Value(old(Rest())) && Status() == old(Status())
    {
      hide Rest, Status, Tokens, P.Part, P.Join;
      var parts: seq<string> := [];
      while true
        invariant Valid() && Status() == old(Status())
        invariant P.Parts(old(Rest())).value == parts + P.Parts(Rest()).value
        invariant P.Parts(old(Rest())).rest == P.Parts(Rest()).rest
        decreases |Rest()|
      {
        ghost var was := Rest();
        var kind := current.kind;
        var part := ParsePart();
        NoPart(was);
        if !(kind in {VarKw, LocalKw, MaplocalKw, FileKw, Identifier, Str}) {
          assert parts + [] == parts;
          break;
        }
        parts := parts + part;
      }
      return P.Join(parts);
    }

    method ParseLiteral(allowMaplocal: bool) returns (value: string)
      requires Valid()
      modifies this`current, this`errors, lexer
      ensures Valid() && P.Got(value, Rest()) == P.Literal(old(Rest()), allowMaplocal) && Status() == old(Status())
    {
      hide Rest, Status, Tokens, P.Value;
      if current.kind != MaplocalKw || allowMaplocal {
        value := ParseValue();
        return;
      }
      var first := current.text;
      Advance();
      value := ParseValue();
      value := if value != "" then first + " " + value else first;
    }

    method ReadLookupKey(typ: string, exact: bool) returns (name: string)
      requires Valid()
      modifies this`current, this`errors, lexer
      ensures Valid() && P.Got(name, Rest()) == P.LookupKey(old(Rest()), typ, exact) && Status() == old(Status())
    {
      hide Rest, Status, Tokens, P.ReadPath;
      if exact && typ == "FILE" {
        name := ReadPath();
        return;
      }
      if current.kind != Identifier && current.kind != Str { return ""; }
      name := current.text;
      Advance();
    }

    method ParseLineValue(key: string, allowMaplocal: bool) returns (r: Result<P.Line>)
      requires Valid()
      modifies this`current, this`errors, lexer
      ensures Valid() && AsParsed(r, Rest()) == P.LineValue(key, old(Rest()), allowMaplocal) && Status() == old(Status())
    {
      hide Rest, Status, Tokens, P.Literal, P.LookupKey, P.LookupType, P.FormatLookup;
      if current.kind == Newline || IsEnd(current) { return Done(P.Line(key, "", None)); }
      var typ := P.LookupType(current, allowMaplocal);
      if typ.None? {
        var value := ParseLiteral(allowMaplocal);
        return Done(P.Line(key, value, None));
      }
      var exact := P.IsKeyword(current);
      Advance();
      var name := ReadLookupKey(typ.value, exact);
      if name == "" { return Failed(P.Expected("key")); }
      return Done(P.Line(key, P.FormatLookup(typ.value, name, exact), Some(Planner.Lookup(typ.value, name))));
    }

    /** `parsePostconfLine`. */
    method ParsePostconfLine(allowMaplocal: bool) returns (r: Result<P.Line>)
      requires Valid() && !IsEnd(current)
      modifies this`current, this`errors, lexer
      ensures Valid() && AsParsed(r, Rest()) == P.PostconfLine(old(Rest()), allowMaplocal) && Status() == old(Status())
    {
      hide Rest, Status, Tokens, P.LineValue;
      Advance();
      if current.kind != Identifier { return Failed(P.Expected("parameter name")); }
      var key := current.text;
      Advance();
      r := ParseLineValue(key, allowMaplocal);
    }

    /////////// Conditional blocks ///////////

    method ParseConditionalHeader() returns (r: Result<P.Block>)
      requires Valid() && !IsEnd(current)
      modifies this`current, this`errors, lexer
      ensures Valid() && AsParsed(r, Rest()) == P.BlockHeader(old(Rest())) && Status() == old(Status())
    {
      hide Rest, Status, Tokens, Upper;
      Advance();
      if current.kind != ServiceKw && current.kind != VarKw { return Failed(P.Expected("SERVICE or VAR")); }
      var typ := Upper(current.text);
      Advance();
      if current.kind != Identifier { return Failed(P.Expected("condition key")); }
      var key, negated := current.text, false;
      if P.HasPrefix(key, "!") { key, negated := key[1..], true; }
      Advance();
      return Done(P.Block(typ, key, negated, map[], map[], map[]));
    }

    method ParseConditionalVar(b: P.Block, typ: string) returns (r: Result<P.Block>)
      requires Valid() && !IsEnd(current)
      modifies this`current, this`errors, lexer
      ensures Valid() && AsParsed(r, Rest()) == P.BlockVar(old(Rest()), b, typ) && Status() == old(Status())
    {
      hide Rest, Status, Tokens;
      Advance();
      if current.kind != Identifier { return Failed(P.Expected("variable name")); }
      return Done(b.(requiredVars := b.requiredVars[current.text := typ]));
    }

    method ParseConditionalLine(b: P.Block) returns (r: Result<P.Block>)
      requires Valid() && !IsEnd(current) && current.kind != Newline
      modifies this`current, this`errors, lexer
      ensures Valid() && AsParsed(r, Rest()) == P.BlockLine(old(Rest()), b) && Status() == old(Status())
    {
      hide Rest, Status, Tokens, P.PostconfLine, P.SkipToNewline, P.Registered, P.BlockVar;
      match current.kind {
        case PostconfKw =>
          var line := ParsePostconfLine(false);
          if line.Failed? { return Failed(line.error); }
          r := Done(b.(postconf := b.postconf[line.value.key := line.value.value],
                       requiredVars := P.Registered(b.requiredVars, line.value.lookup)));
        case PostconfdKw =>
          var line := ParsePostconfLine(false);
          if line.Failed? { return Failed(line.error); }
          r := Done(b.(postconfd := b.postconfd[line.value.key := ""],
                       requiredVars := P.Registered(b.requiredVars, line.value.lookup)));
        case VarKw =>
          r := ParseConditionalVar(b, "VAR");
          return;
        case LocalKw =>
          r := ParseConditionalVar(b, "LOCAL");
          return;
        case _ => r := Done(b);
      }
      SkipToNewline();
    }

    /** `parseConditionalBody`: the block ends at the first fi. */
    method ParseConditionalBody(block: P.Block) returns (r: Result<P.Block>)
      requires Valid()
      modifies this`current, this`errors, lexer
      ensures Valid() && AsParsed(r, Rest()) == P.BlockBody(old(Rest()), block) && Status() == old(Status())
    {
      hide Rest, Status, Tokens, P.BlockLine, P.SkipToNewline;
      var b := block;
      while true
        invariant Valid() && P.BlockBody(Rest(), b) == P.BlockBody(old(Rest()), block) && Status() == old(Status())
        decreases |Rest()|
      {
        if current.kind == Newline {
          Advance();
        } else if current.kind == FiKw {
          SkipToNewline();
          return Done(b);
        } else if IsEnd(current) || current.kind == SectionKw {
          return Failed(P.MissingFi(b.key));
        } else {
          var line := ParseConditionalLine(b);
          if line.Failed? { return line; }
          b := line.value;
        }
      }
    }

    /////////// Directives ///////////

    method ParseConditional() returns (error: Option<P.ParseError>)
      requires Valid() && !IsEnd(current)
      modifies this, lexer
      ensures Valid() && Outcome(error) == P.Conditional(old(Rest()), old(section)) && Status() == old(Status())
      ensures error.Some? ==> section == old(section)
    {
      hide Rest, Status, Tokens, P.BlockHeader, P.BlockBody, P.SkipToNewline;
      var header := ParseConditionalHeader();
      if header.Failed? { return Some(header.error); }
      SkipToNewline();
      var block := ParseConditionalBody(header.value);
      if block.Failed? { return Some(block.error); }
      section := section.(conditionals := section.conditionals + [block.value]);
      return None;
    }

    method ParseMode() returns (r: Result<string>)
      requires Valid()
      modifies this`current, this`errors, lexer
      ensures Valid() && AsParsed(r, Rest()) == P.Mode(old(Rest())) && Status() == old(Status())
    {
      hide Rest, Status, Tokens;
      if current.kind != ModeKw { return Done(""); }
      Advance();
      if current.kind != Str && current.kind != Identifier { return Failed(P.Expected("mode value")); }
      r := Done(current.text);
      Advance();
    }

    method ParseRewrite() returns (error: Option<P.ParseError>)
      requires Valid() && !IsEnd(current)
      modifies this, lexer
      ensures Valid() && Outcome(error) == P.Rewrite(old(Rest()), old(section)) && Status() == old(Status())
      ensures error.Some? ==> section == old(section)
    {
      hide Rest, Status, Tokens, P.ReadPath, P.SkipToNewline, P.Mode;
      Advance();
      var source := ReadPath();
      if source == "" { return Some(P.Expected("source file")); }
      var dest := ReadPath();
      if dest == "" { return Some(P.Expected("destination file")); }
      var mode := ParseMode();
      if mode.Failed? { return Some(mode.error); }
      section := section.(rewrites := section.rewrites[source := Planner.Target(dest, mode.value)]);
      SkipToNewline();
      return None;
    }

    method ParseRequiredVar(typ: string) returns (error: Option<P.ParseError>)
      requires Valid() && !IsEnd(current)
      modifies this, lexer
      ensures Valid() && Outcome(error) == P.RequiredVar(old(Rest()), old(section), typ) && Status() == old(Status())
      ensures error.Some? ==> section == old(section)
    {
      hide Rest, Status, Tokens, P.SkipToNewline;
      Advance();
      if current.kind != Identifier { return Some(P.Expected("variable name")); }
      section := section.(requiredVars := section.requiredVars[current.text := typ]);
      Advance();
      SkipToNewline();
      return None;
    }

    method ParsePostconf(drop: bool) returns (error: Option<P.ParseError>)
      requires Valid() && !IsEnd(current)
      modifies this, lexer
      ensures Valid() && Outcome(error) == P.Postconf(old(Rest()), old(section), drop) && Status() == old(Status())
      ensures error.Some? ==> section == old(section)
    {
      hide Rest, Status, Tokens, P.PostconfLine, P.SkipToNewline, P.Registered, P.WithLine;
      var line := ParsePostconfLine(!drop);
      if line.Failed? { return Some(line.error); }
      section := P.WithLine(section, line.value, drop);
      SkipToNewline();
      return None;
    }

    method ParseLdap() returns (error: Option<P.ParseError>)
      requires Valid() && !IsEnd(current)
      modifies this, lexer
      ensures Valid() && Outcome(error) == P.Ldap(old(Rest()), old(section)) && Status() == old(Status())
      ensures error.Some? ==> section == old(section)
    {
      hide Rest, Status, Tokens, P.Value, P.SkipToNewline, P.HasPrefix;
      Advance();
      if current.kind != Identifier { return Some(P.Expected("LDAP key")); }
      var key := current.text;
      Advance();
      var value := ParseValue();
      SkipToNewline();
      if P.HasPrefix(value, "LOCAL:") || P.HasPrefix(value, "MAPLOCAL:") {
        section := section.(ldap := section.ldap[key := value]);
      }
      return None;
    }

    /** The outcome of a directive on the section under construction. */
    ghost function Outcome(error: Option<P.ParseError>): P.Parsed<P.Section>
      requires Valid()
      reads this, lexer
    {
      if error.None? then P.Good(section, Rest()) else P.Bad(error.value, Rest())
    }

    method ParseDirective() returns (error: Option<P.ParseError>)
      requires Valid()
      modifies this, lexer
      ensures Valid() && Outcome(error) == P.Directive(old(Rest()), old(section)) && Status() == old(Status())
    {
      hide Rest, Status, Tokens, P.Rewrite, P.RequiredVar, P.Postconf, P.Conditional, P.Ldap, P.Words, P.SkipToNewline, Upper;
      match current.kind {
        case RewriteKw => error := ParseRewrite();
        case VarKw => error := ParseRequiredVar("VAR");
        case LocalKw => error := ParseRequiredVar("LOCAL");
        case MapfileKw => error := ParseRequiredVar("MAPFILE");
        case MaplocalKw => error := ParseRequiredVar("MAPLOCAL");
        case PostconfKw => error := ParsePostconf(false);
        case PostconfdKw => error := ParsePostconf(true);
        case RestartKw =>
          Advance();
          var words := ReadWords();
          section := section.(restarts := section.restarts + words);
          SkipToNewline();
          error := None;
        case ProxygenKw =>
          Advance();
          section := section.(proxygen := true);
          SkipToNewline();
          error := None;
        case IfKw => error := ParseConditional();
        case FiKw =>
          SkipToNewline();
          error := None;
        case Identifier =>
          if Upper(current.text) == "LDAP" { error := ParseLdap(); } else { error := Some(P.UnknownDirective(current.text)); }
        case k => error := Some(P.Unexpected(k));
      }
    }

    method ParseBody() returns (error: Option<P.ParseError>)
      requires Valid()
      modifies this, lexer
      ensures Valid() && Outcome(error) == P.Body(old(Rest()), old(section)) && Status() == old(Status())
    {
      hide Rest, Status, Tokens, P.Directive;
      while !IsEnd(current) && current.kind != SectionKw
        invariant Valid() && P.Body(Rest(), section) == P.Body(old(Rest()), old(section)) && Status() == old(Status())
        decreases |Rest()|
      {
        if current.kind == Newline {
          Advance();
        } else {
          error := ParseDirective();
          if error.Some? { return; }
        }
      }
      return None;
    }

    method ParseHeader() returns (r: Result<(string, P.Section)>)
      requires Valid()
      modifies this`current, this`errors, lexer
      ensures Valid() && AsParsed(r, Rest()) == P.Header(old(Rest())) && Status() == old(Status())
    {
      hide Rest, Status, Tokens, P.Words;
      if current.kind != SectionKw { return Failed(P.Expected("SECTION")); }
      Advance();
      if current.kind != Identifier { return Failed(P.Expected("section name")); }
      var name, depends: set<string> := current.text, {};
      Advance();
      if current.kind == DependsKw {
        Advance();
        depends := ReadWords();
      }
      if current.kind != Newline { return Failed(P.Expected("newline")); }
      Advance();
      return Done((name, P.NO_SECTION.(depends := depends)));
    }

    /** `parseSection`. */
    method ParseSection(config: P.Config) returns (r: Result<P.Config>)
      requires Valid()
      modifies this, lexer
      ensures Valid() && AsParsed(r, Rest()) == P.OneSection(old(Rest()), config) && Status() == old(Status())
    {
      hide Rest, Status, Tokens, P.Header, P.Body, P.SkipNewlines;
      SkipNewlines();
      if IsEnd(current) { return Done(config); }
      var header := ParseHeader();
      if header.Failed? { return Failed(header.error); }
      section := header.value.1;
      var error := ParseBody();
      if error.Some? { return Failed(error.value); }
      return Done(config[header.value.0 := section]);
    }

    method Report(e: P.ParseError)
      requires Valid()
      modifies this`errors
      ensures Rest() == old(Rest()) && Status() == (old(Status()).0 + 1, old(Status()).1)
    {
      errors := errors + [e];
    }

    /** The section loop of `ParseString`. */
    method ParseSections() returns (config: P.Config)
      requires Valid() && Status().0 == 0
      modifies this, lexer
      ensures Valid() && config == P.File(old(Rest()), map[], []).0
      ensures Status() == (|P.File(old(Rest()), map[], []).1|, old(Status()).1) && IsEnd(current)
    {
      hide Rest, Status, Tokens, P.OneSection, P.SkipToSection;
      config := map[];
      ghost var seen: seq<P.ParseError> := [];
      while !IsEnd(current)
        invariant Valid() && P.File(Rest(), config, seen) == P.File(old(Rest()), map[], [])
        invariant Status() == (|seen|, old(Status()).1)
        decreases |Rest()|
      {
        var r := ParseSection(config);
        if r.Done? {
          config := r.value;
        } else {
          Report(r.error);
          seen := seen + [r.error];
          SkipToSection();
        }
      }
    }
  }

  /**
   * `ParseString`. It terminates on every content: `failed` says whether an error was reported, which is the
   * case exactly for an empty file, a grammar error or a character that starts no token.
   */
  method ParseString(u: Classes, content: string) returns (config: P.Config, failed: bool)
    requires Sound(u)
    ensures content == "" ==> failed && config == map[]
    ensures content != "" ==>
              var tokens := Tokens(u, content);
              && config == P.File(tokens, map[], []).0
              && (failed <==> P.File(tokens, map[], []).1 != [] || (tokens != [] && tokens[|tokens| - 1].kind == Error))
  {
    hide Tokens, P.File;
    if content == "" { return map[], true; }
    var lexer := new Lexer(u, content);
    var parser := new Parser(lexer);
    config := parser.ParseSections();
    failed := parser.errors != [];
  }

  /** A step's value or error; the rest is the parser's own position. */
  datatype Result<+T> = Done(value: T) | Failed(error: P.ParseError)

  function AsParsed<T>(r: Result<T>, rest: P.Tokens): P.Parsed<T> {
    match r
    case Done(v) => P.Good(v, rest)
    case Failed(e) => P.Bad(e, rest)
  }

  lemma {:induction false} NoPart(r: P.Tokens)
    ensures P.Cur(r).kind in {VarKw, LocalKw, MaplocalKw, FileKw, Identifier, Str} <==> |P.Part(r).rest| < |r|
    ensures |P.Part(r).rest| == |r| ==> P.Part(r) == P.Got([], r)
  {}
}
