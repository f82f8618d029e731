/** Loading the parsed file: dropped sections, resolved LDAP values, and the variables of the if blocks that hold. */
module Loading {
  import opened Options
  import opened Lexing
  import opened Lines
  import opened Parsing
  import opened ParsingFacts
  import Parser
  import Planner
  import PlannerFacts

  /** `LookUpConfig`; `None` is a failed lookup. */
  type Lookups = (string, string) -> Option<string>

  type Vars = map<string, string>

  /** `CheckConditional`. */
  predicate Check(lookup: Lookups, typ: string, key: string) {
    var negate := HasPrefix(key, "!");
    var v := lookup(typ, if negate then key[1..] else key);
    if v.None? then negate else Planner.IsFalse(v.value) == negate
  }

  /** The block's lines are in force. */
  predicate InForce(b: Block, lookup: Lookups) {
    Check(lookup, b.typ, b.key) != b.negated
  }

  function Overlaid(vars: Vars, blocks: seq<Block>, lookup: Lookups): Vars
    decreases |blocks|
  {
    if blocks == [] then vars
    else Overlaid(if InForce(blocks[0], lookup) then vars + blocks[0].requiredVars else vars, blocks[1..], lookup)
  }

  function Cut(spec: string): Option<(string, string)> {
    if spec == "" then None
    else if spec[0] == ':' then Some(("", spec[1..]))
    else
      var rest := Cut(spec[1..]);
      if rest.None? then None else Some(([spec[0]] + rest.value.0, rest.value.1))
  }

  /** The value an LDAP line asks to write: a specification without a type stays, a failed lookup clears it. */
  function Resolved(spec: string, lookup: Lookups): string {
    var parts := Cut(spec);
    if parts.None? then spec
    else
      var v := lookup(parts.value.0, parts.value.1);
      if v.Some? then v.value else ""
  }

  lemma {:induction false} CutAt(typ: string, key: string)
    requires ':' !in typ
    ensures Cut(typ + ":" + key) == Some((typ, key))
  {
    var spec := typ + ":" + key;
    if typ == "" {
      assert spec[0] == ':' && spec[1..] == key;
    } else {
      assert spec[1..] == typ[1..] + ":" + key;
      CutAt(typ[1..], key);
      assert [typ[0]] + typ[1..] == typ;
    }
  }

  lemma {:induction false} NotCut(spec: string)
    requires ':' !in spec
    ensures Cut(spec).None?
  {
    if spec != "" { NotCut(spec[1..]); }
  }

  /** `<type>:<key>` is looked up, the type ending at the first colon; anything else stays as it is. */
  lemma {:induction false} ResolvedMeans(typ: string, key: string, lookup: Lookups)
    requires ':' !in typ
    ensures Resolved(typ, lookup) == typ
    ensures Resolved(typ + ":" + key, lookup) == if lookup(typ, key).Some? then lookup(typ, key).value else ""
  {
    CutAt(typ, key);
    NotCut(typ);
  }

  function Blocks(blocks: seq<Block>): seq<Planner.Conditional> {
    seq(|blocks|, k requires 0 <= k < |blocks| =>
      Planner.Conditional(blocks[k].typ, blocks[k].key, blocks[k].negated, blocks[k].postconf, blocks[k].postconfd))
  }

  /** A section of the loaded configuration, as the file has it. */
  ghost predicate LoadedFrom(p: Planner.Section, s: Section, lookup: Lookups) {
    && p.requiredVars == Overlaid(s.requiredVars, s.conditionals, lookup)
    && p.rewrites == s.rewrites && p.postconf == s.postconf && p.postconfd == s.postconfd
    && p.proxygen == s.proxygen && p.restarts == s.restarts && p.conditionals == Blocks(s.conditionals)
    && p.ldap.Keys == s.ldap.Keys && forall k :: k in s.ldap ==> p.ldap[k] == Resolved(s.ldap[k], lookup)
  }

  /** Load and plan agree on the blocks in force: those whose variables a section depends on are those whose lines the
      plan of the same snapshot compiles. */
  lemma {:induction false} LoadAndPlanAgree(blocks: seq<Block>, lookup: Lookups, snap: Planner.Snapshot, k: nat)
    requires k < |blocks|
    requires var name := Planner.TrimBang(blocks[k].key); lookup(blocks[k].typ, name) == snap.Value(blocks[k].typ, name)
    ensures InForce(blocks[k], lookup) <==> Planner.Holds(Blocks(blocks)[k], snap)
    ensures Blocks(blocks)[k].postconf == blocks[k].postconf && Blocks(blocks)[k].postconfd == blocks[k].postconfd
  {
    var key := blocks[k].key;
    assert HasPrefix(key, "!") <==> key != "" && key[0] == '!' by {
      if key != "" { assert key[..1] == [key[0]]; }
    }
    hide Planner.IsFalse, HasPrefix;
  }

  /////////// The loading loops ///////////

  /** `registerConditionalRequiredVars`. */
  method RegisterConditionalRequiredVars(required: Vars, blocks: seq<Block>, lookup: Lookups) returns (vars: Vars)
    ensures vars == Overlaid(required, blocks, lookup)
  {
    hide InForce;
    vars := required;
    for n := 0 to |blocks|
      invariant Overlaid(vars, blocks[n..], lookup) == Overlaid(required, blocks, lookup)
    {
      assert blocks[n..][0] == blocks[n] && blocks[n..][1..] == blocks[n + 1..];
      var holds := InForce(blocks[n], lookup);
      if holds { vars := vars + blocks[n].requiredVars; }
    }
  }

  /** `resolveSectionLDAP`. */
  method ResolveLdap(ldap: Vars, lookup: Lookups) returns (values: Vars)
    ensures values.Keys == ldap.Keys && forall k :: k in ldap ==> values[k] == Resolved(ldap[k], lookup)
  {
    hide Resolved;
    values := ldap;
    var todo := ldap.Keys;
    while todo != {}
      invariant todo <= ldap.Keys && values.Keys == ldap.Keys
      invariant forall k :: k in ldap ==> values[k] == if k in todo then ldap[k] else Resolved(ldap[k], lookup)
      decreases |todo|
    {
      var key :| key in todo;
      values := values[key := Resolved(values[key], lookup)];
      todo := todo - {key};
    }
  }

  /** The section loop of `ParseMtaConfig`: disabled sections are dropped, the others loaded. */
  method Load(config: Config, snap: Planner.Snapshot, lookup: Lookups) returns (conf: Planner.Conf)
    ensures forall sn :: sn in conf <==> sn in config && Planner.SectionEnabled(sn, snap)
    ensures forall sn :: sn in conf ==> LoadedFrom(conf[sn], config[sn], lookup)
  {
    hide LoadedFrom, Planner.SectionEnabled;
    conf := map[];
    var todo := config.Keys;
    while todo != {}
      invariant todo <= config.Keys
      invariant forall sn :: sn in conf <==> sn in config && sn !in todo && Planner.SectionEnabled(sn, snap)
      invariant forall sn :: sn in conf ==> LoadedFrom(conf[sn], config[sn], lookup)
      decreases |todo|
    {
      var sn :| sn in todo;
      if Planner.SectionEnabled(sn, snap) {
        var sec := LoadSection(config[sn], lookup);
        conf := conf[sn := sec];
      }
      todo := todo - {sn};
    }
  }

  method LoadSection(s: Section, lookup: Lookups) returns (p: Planner.Section)
    ensures LoadedFrom(p, s, lookup)
  {
    hide Overlaid, Resolved, Blocks;
    var ldap := ResolveLdap(s.ldap, lookup);
    var vars := RegisterConditionalRequiredVars(s.requiredVars, s.conditionals, lookup);
    return Planner.Section(vars, s.rewrites, s.postconf, s.postconfd, ldap, s.proxygen, Blocks(s.conditionals), s.restarts);
  }

  /////////// The lookups of if blocks ///////////

  /** The lookups the line of a block names. */
  function NamedInBlock(r: Tokens): seq<Planner.Lookup>
    requires !AtEnd(r)
  {
    match r[0].kind
    case VarKw => NamedVar(r, "VAR")
    case LocalKw => NamedVar(r, "LOCAL")
    case PostconfKw => NamedByLine(r, false)
    case PostconfdKw => NamedByLine(r, false)
    case _ => []
  }

  /** The lookups of all lines of a block, in order. */
  function BlockUses(r: Tokens, b: Block): seq<Planner.Lookup>
    decreases |r|
  {
    if AtNewline(r) then BlockUses(r[1..], b)
    else if Cur(r).kind == FiKw || AtEnd(r) || Cur(r).kind == SectionKw then []
    else
      var l := BlockLine(r, b);
      NamedInBlock(r) + if l.Bad? then [] else BlockUses(l.rest, l.value)
  }

  /** The lookups of each block of a section, block by block. */
  function UsesByBlock(r: Tokens, s: Section): seq<seq<Planner.Lookup>>
    decreases |r|
  {
    if AtEnd(r) || Cur(r).kind == SectionKw then []
    else if AtNewline(r) then UsesByBlock(r[1..], s)
    else
      var d := Directive(r, s);
      if d.Bad? then []
      else (if Cur(r).kind == IfKw then [UsesOfBlock(r)] else []) + UsesByBlock(d.rest, d.value)
  }

  function UsesOfBlock(r: Tokens): seq<Planner.Lookup>
    requires !AtEnd(r)
  {
    var h := BlockHeader(r);
    if h.Bad? then [] else BlockUses(SkipToNewline(h.rest), h.value)
  }

  lemma {:induction false} BlockLineRegisters(r: Tokens, b: Block)
    requires !AtEnd(r) && !AtNewline(r) && BlockLine(r, b).Good?
    ensures BlockLine(r, b).value.requiredVars == RegisterAll(b.requiredVars, NamedInBlock(r))
  {
    hide PostconfLine, SkipToNewline, RegisterAll;
    RegisterOne(b.requiredVars, Planner.Lookup("", ""));
    var kind := r[0].kind;
    if kind == VarKw {
      RegisterOne(b.requiredVars, Planner.Lookup("VAR", r[1].text));
    } else if kind == LocalKw {
      RegisterOne(b.requiredVars, Planner.Lookup("LOCAL", r[1].text));
    } else if kind in {PostconfKw, PostconfdKw} {
      var l := PostconfLine(r, false).value.lookup;
      if l.Some? { RegisterOne(b.requiredVars, l.value); }
    }
  }

  /** The required variables of a block are exactly what its lines register, in their order. */
  lemma {:induction false} BlockRegisters(r: Tokens, b: Block)
    requires BlockBody(r, b).Good?
    ensures BlockBody(r, b).value.requiredVars == RegisterAll(b.requiredVars, BlockUses(r, b))
    decreases |r|
  {
    hide BlockLine, NamedInBlock, RegisterAll, SkipToNewline;
    RegisterOne(b.requiredVars, Planner.Lookup("", ""));
    if AtNewline(r) {
      BlockRegisters(r[1..], b);
    } else if Cur(r).kind != FiKw {
      var l := BlockLine(r, b);
      BlockLineRegisters(r, b);
      BlockRegisters(l.rest, l.value);
      RegisterConcat(b.requiredVars, NamedInBlock(r), BlockUses(l.rest, l.value));
    }
  }

  /** Each block has the variables its own lines register. */
  ghost predicate Aligned(blocks: seq<Block>, uses: seq<seq<Planner.Lookup>>) {
    |blocks| == |uses| && forall k :: 0 <= k < |blocks| ==> blocks[k].requiredVars == RegisterAll(map[], uses[k])
  }

  lemma {:induction false} AlignedConcat(
    a: seq<Block>, x: seq<seq<Planner.Lookup>>, b: seq<Block>, y: seq<seq<Planner.Lookup>>)
    requires Aligned(a, x) && Aligned(b, y)
    ensures Aligned(a + b, x + y)
  {
    hide RegisterAll;
  }

  lemma {:induction false} DirectiveBlocks(r: Tokens, s: Section)
    requires !AtEnd(r) && Directive(r, s).Good?
    ensures Cur(r).kind != IfKw ==> Directive(r, s).value.conditionals == s.conditionals
    ensures Cur(r).kind == IfKw ==>
              exists b :: Directive(r, s).value.conditionals == s.conditionals + [b] && Aligned([b], [UsesOfBlock(r)])
  {
    hide PostconfLine, SkipToNewline, ReadPath, Value, BlockBody, Words, RegisterAll, Upper, BlockUses, HasPrefix;
    if Cur(r).kind == IfKw {
      var h := BlockHeader(r);
      BlockRegisters(SkipToNewline(h.rest), h.value);
      var b := BlockBody(SkipToNewline(h.rest), h.value).value;
      assert Aligned([b], [UsesOfBlock(r)]);
    }
  }

  /** The blocks of a section body, with what their lines register. */
  lemma {:induction false} BodyBlocks(r: Tokens, s: Section) returns (blocks: seq<Block>)
    requires Body(r, s).Good?
    ensures Body(r, s).value.conditionals == s.conditionals + blocks && Aligned(blocks, UsesByBlock(r, s))
    decreases |r|
  {
    hide Directive, UsesOfBlock, Aligned;
    blocks := [];
    AlignedNothing();
    if AtEnd(r) || Cur(r).kind == SectionKw {
    } else if AtNewline(r) {
      blocks := BodyBlocks(r[1..], s);
    } else {
      var d := Directive(r, s);
      DirectiveBlocks(r, s);
      blocks := BodyBlocks(d.rest, d.value);
      if Cur(r).kind == IfKw {
        var b :| d.value.conditionals == s.conditionals + [b] && Aligned([b], [UsesOfBlock(r)]);
        AlignedConcat([b], [UsesOfBlock(r)], blocks, UsesByBlock(d.rest, d.value));
        assert s.conditionals + [b] + blocks == s.conditionals + ([b] + blocks);
        blocks := [b] + blocks;
      } else {
        assert [] + UsesByBlock(d.rest, d.value) == UsesByBlock(d.rest, d.value);
      }
    }
  }

  lemma {:induction false} AlignedNothing()
    ensures Aligned([], [])
  {}

  /////////// What a loaded section depends on ///////////

  /** The lookups of the blocks that hold, in order. */
  function UsesInForce(blocks: seq<Block>, uses: seq<seq<Planner.Lookup>>, lookup: Lookups): seq<Planner.Lookup>
    decreases |blocks|
  {
    if blocks == [] || uses == [] then []
    else (if InForce(blocks[0], lookup) then uses[0] else []) + UsesInForce(blocks[1..], uses[1..], lookup)
  }

  /** The lookups of a section body and of its blocks that hold. */
  function AllUses(r: Tokens, s: Section, lookup: Lookups): seq<Planner.Lookup>
    requires Body(r, s).Good?
  {
    Uses(r, s) + UsesInForce(Body(r, s).value.conditionals, UsesByBlock(r, s), lookup)
  }

  /** Copying registered variables over others registers them last. */
  lemma {:induction false} OverlayRegisters(vars: Vars, base: Vars, uses: seq<Planner.Lookup>)
    ensures vars + RegisterAll(base, uses) == RegisterAll(vars + base, uses)
    decreases |uses|
  {
    if uses != [] {
      var l := uses[0];
      OverlayRegisters(vars, base[l.key := l.typ], uses[1..]);
      assert vars + base[l.key := l.typ] == (vars + base)[l.key := l.typ];
    }
  }

  lemma {:induction false} OverlaidRegisters(
    vars: Vars, blocks: seq<Block>, uses: seq<seq<Planner.Lookup>>, lookup: Lookups)
    requires Aligned(blocks, uses)
    ensures Overlaid(vars, blocks, lookup) == RegisterAll(vars, UsesInForce(blocks, uses, lookup))
    decreases |blocks|
  {
    hide RegisterAll, InForce;
    RegisterOne(vars, Planner.Lookup("", ""));
    if blocks != [] {
      var rest := UsesInForce(blocks[1..], uses[1..], lookup);
      if InForce(blocks[0], lookup) {
        OverlayRegisters(vars, map[], uses[0]);
        assert vars + map[] == vars;
        RegisterConcat(vars, uses[0], rest);
        OverlaidRegisters(vars + blocks[0].requiredVars, blocks[1..], uses[1..], lookup);
      } else {
        assert [] + rest == rest;
        OverlaidRegisters(vars, blocks[1..], uses[1..], lookup);
      }
    }
  }

  /** The required variables of a loaded section are what the section's lines and then the blocks that hold register. */
  lemma {:induction false} LoadedRegisters(r: Tokens, s: Section, lookup: Lookups)
    requires Body(r, s).Good? && s.requiredVars == map[] && s.conditionals == []
    ensures var sec := Body(r, s).value;
            Overlaid(sec.requiredVars, sec.conditionals, lookup) == RegisterAll(map[], AllUses(r, s, lookup))
  {
    hide Body, Uses, UsesByBlock, RegisterAll, Overlaid, UsesInForce, Aligned;
    BodyRegisters(r, s);
    var blocks := BodyBlocks(r, s);
    assert [] + blocks == blocks;
    OverlaidRegisters(Body(r, s).value.requiredVars, blocks, UsesByBlock(r, s), lookup);
    RegisterConcat(map[], Uses(r, s), UsesInForce(blocks, UsesByBlock(r, s), lookup));
  }

  /** A lookup in force is a required variable exactly when its type is the last one its name is used under. */
  lemma {:induction false} LookupRequiredIff(uses: seq<Planner.Lookup>, name: string, typ: string)
    ensures var vars := RegisterAll(map[], uses);
            && (name in vars && vars[name] == typ <==> LastType(uses, name) == Some(typ))
            && (LastType(uses, name) == Some(typ) ==> Planner.Lookup(typ, name) in uses)
            && (Consistent(uses) ==> (Planner.Lookup(typ, name) in uses <==> LastType(uses, name) == Some(typ)))
  {
    hide RegisterAll, Consistent;
    LastTypeRegistered(map[], uses, name);
    if LastType(uses, name) == Some(typ) { LastTypeUsed(uses, name); }
    if Consistent(uses) && Planner.Lookup(typ, name) in uses { ConsistentLast(uses, Planner.Lookup(typ, name)); }
  }

  /////////// From the text to the plan ///////////

  /** The lookups in force of the section whose header stands at `j`. */
  function UsesAt(r: Tokens, j: nat, lookup: Lookups): seq<Planner.Lookup>
    requires HeaderAt(r, j) && Body(Header(r[j..]).rest, Header(r[j..]).value.1).Good?
  {
    AllUses(Header(r[j..]).rest, Header(r[j..]).value.1, lookup)
  }

  ghost predicate ChangedAs(i: Planner.Input, l: Planner.Lookup) {
    PlannerFacts.Seen(i.prev, l.typ, Planner.TrimBang(l.key)) != PlannerFacts.Seen(i.cur, l.typ, Planner.TrimBang(l.key))
  }

  /** The last type under which the lookup's name is used is its own. */
  ghost predicate Wins(uses: seq<Planner.Lookup>, l: Planner.Lookup) {
    l in uses && LastType(uses, l.key) == Some(l.typ)
  }

  lemma {:induction false} ChangedIff(i: Planner.Input, sn: string, uses: seq<Planner.Lookup>)
    requires sn in i.conf && i.conf[sn].requiredVars == RegisterAll(map[], uses)
    ensures PlannerFacts.Changed(i, sn) <==> exists l :: Wins(uses, l) && ChangedAs(i, l)
  {
    hide RegisterAll, LastType;
    if k :| PlannerFacts.VariableChanged(i, sn, k) {
      var l := Planner.Lookup(i.conf[sn].requiredVars[k], k);
      LookupRequiredIff(uses, l.key, l.typ);
      assert Wins(uses, l) && ChangedAs(i, l);
    }
    if l :| Wins(uses, l) && ChangedAs(i, l) {
      LookupRequiredIff(uses, l.key, l.typ);
      assert PlannerFacts.VariableChanged(i, sn, l.key);
    }
  }

  /** Parser, loader and diff agree: a compared section that nothing else asks for is listed exactly when the observed
      value of one of its lookups in force changed, where for each name the last type counts. */
  lemma {:induction false} ChangedLookupListsSection(
    r: Tokens, j: nat, sec: Section, lookup: Lookups, i: Planner.Input, sn: string)
    requires SectionAt(r, j, sn, sec) && Planner.Considered(i, sn) && LoadedFrom(i.conf[sn], sec, lookup)
    requires Planner.Compared(i, sn) && i.host.None?
    ensures var uses := UsesAt(r, j, lookup);
            sn in PlannerFacts.NamesIn(Planner.PlanOf(i).sections) <==>
              || Planner.AskedFor(i, sn) || i.firstRun || i.assumeChanged
              || exists l :: Wins(uses, l) && ChangedAs(i, l)
  {
    hide Body, AllUses, Planner.PlanOf, Overlaid, RegisterAll, PlannerFacts.Changed, Planner.SectionEnabled, Wins;
    HeaderNames(r[j..]);
    LoadedRegisters(Header(r[j..]).rest, Header(r[j..]).value.1, lookup);
    ChangedIff(i, sn, UsesAt(r, j, lookup));
    PlannerFacts.ProcessedExact(i, sn);
    PlannerFacts.PlanSections(i);
  }

  /** Where no name is used under two types, every changed lookup in force lists the section. */
  lemma {:induction false} ConsistentWins(uses: seq<Planner.Lookup>, l: Planner.Lookup)
    requires Consistent(uses)
    ensures l in uses <==> Wins(uses, l)
  {
    hide Consistent, LastType;
    LookupRequiredIff(uses, l.key, l.typ);
  }

  /////////// Two types for one name ///////////

  /** `POSTCONF <parameter> <type> <name>`. */
  function LookupLine(parameter: string, typ: Kind, name: string): Tokens {
    [Token(PostconfKw, "POSTCONF"), Token(Identifier, parameter), Token(typ, ""), Token(Identifier, name)]
  }

  function TypeName(typ: Kind): string {
    if typ == VarKw then "VAR" else "LOCAL"
  }

  lemma {:induction false} LookupLineReads(parameter: string, typ: Kind, name: string, allow: bool)
    requires typ in {VarKw, LocalKw} && name != ""
    ensures var l := LookupLine(parameter, typ, name);
            && IsLine(l) && !AtEnd(l)
            && PostconfLine(l, allow) ==
               Good(Line(parameter, TypeName(typ) + ":" + name, Some(Planner.Lookup(TypeName(typ), name))), [])
  {
    var l := LookupLine(parameter, typ, name);
    assert l[1..][1..][0] == l[2] && l[1..][1..][1..][0] == l[3];
    assert l[1..][1..][1..][1..] == [];
  }

  lemma {:induction false} LookupLineNamed(parameter: string, typ: Kind, name: string, t: Tokens, allow: bool)
    requires typ in {VarKw, LocalKw} && name != "" && AtNewline(t)
    ensures !AtEnd(LookupLine(parameter, typ, name) + t)
    ensures NamedByLine(LookupLine(parameter, typ, name) + t, allow) == [Planner.Lookup(TypeName(typ), name)]
  {
    hide PostconfLine, IsLine;
    LookupLineReads(parameter, typ, name, allow);
    PostconfInLine(LookupLine(parameter, typ, name), t, allow);
  }

  lemma {:induction false} VarLine(parameter: string, name: string, s: Section)
    requires name != ""
    ensures var l := LookupLine(parameter, VarKw, name);
            IsLine(l) && Directive(l, s).Good? && Directive(l, s).value.conditionals == s.conditionals && Directive(l, s).rest == []
  {
    hide PostconfLine, SkipToNewline, Registered, IsLine;
    LookupLineReads(parameter, VarKw, name, true);
    SkipInLine([], NEWLINE);
  }

  /** A section line with a lookup names it and goes on with the next line. */
  lemma {:induction false} SectionLineUses(parameter: string, name: string, t: Tokens, s: Section) returns (after: Section)
    requires name != ""
    ensures var r := LookupLine(parameter, VarKw, name) + (NEWLINE + t);
            && Body(r, s) == Body(t, after) && Uses(r, s) == [Planner.Lookup("VAR", name)] + Uses(t, after)
            && UsesByBlock(r, s) == UsesByBlock(t, after)
    ensures after.conditionals == s.conditionals
  {
    hide Directive, IsLine, NamedByLine, Body;
    var l := LookupLine(parameter, VarKw, name);
    var n := NEWLINE + t;
    CurOf(l, n);
    VarLine(parameter, name, s);
    LookupLineNamed(parameter, VarKw, name, n, true);
    after := Directive(l, s).value;
    OneDirective(l, t, s);
    DirectiveInLine(l, n, s);
    NothingBefore(n);
    UsesAfter(l + n, n, s, after);
    EmptyLineInSection(t, after);
  }

  /** What a directive other than an if leaves of the uses. */
  lemma {:induction false} UsesAfter(r: Tokens, n: Tokens, s: Section, after: Section)
    requires !AtEnd(r) && !AtNewline(r) && r[0].kind !in {IfKw, SectionKw} && Directive(r, s) == Good(after, n)
    ensures Uses(r, s) == NamedAt(r) + Uses(n, after) && UsesByBlock(r, s) == UsesByBlock(n, after)
  {
    hide Directive, NamedAt;
    assert [] + UsesByBlock(n, after) == UsesByBlock(n, after);
  }

  lemma {:induction false} EmptyLineInSection(t: Tokens, s: Section)
    ensures Uses(NEWLINE + t, s) == Uses(t, s) && UsesByBlock(NEWLINE + t, s) == UsesByBlock(t, s)
  {
    assert (NEWLINE + t)[1..] == t;
  }

  lemma {:induction false} LocalLine(parameter: string, name: string, b: Block)
    requires name != ""
    ensures var l := LookupLine(parameter, LocalKw, name);
            && IsLine(l) && !AtEnd(l) && !AtNewline(l) && BlockLine(l, b).Good? && BlockLine(l, b).rest == []
            && Plain([l], {FiKw, SectionKw}) && BlockOf([l], b).Good?
  {
    hide PostconfLine, SkipToNewline, Registered;
    var l := LookupLine(parameter, LocalKw, name);
    LookupLineReads(parameter, LocalKw, name, false);
    SkipInLine([], NEWLINE);
    assert BlockOf([l], b) == BlockOf([], BlockLine(l, b).value);
  }

  lemma {:induction false} LocalLineNamed(parameter: string, name: string, t: Tokens)
    requires name != "" && AtNewline(t)
    ensures var r := LookupLine(parameter, LocalKw, name) + t;
            !AtEnd(r) && NamedInBlock(r) == [Planner.Lookup("LOCAL", name)]
  {
    hide NamedByLine;
    LookupLineNamed(parameter, LocalKw, name, t, false);
    CurOf(LookupLine(parameter, LocalKw, name), t);
  }

  /** A block with one line has the lookup of that line. */
  lemma {:induction false} OneLineBlock(h: Tokens, parameter: string, name: string, fi: Tokens, t: Tokens)
    requires IsLine(h) && Starts(h, {IfKw}) && IsLine(fi) && Starts(fi, {FiKw}) && name != ""
    requires !AtEnd(h) && BlockHeader(h).Good?
    ensures var l := LookupLine(parameter, LocalKw, name);
            var r := h + (NEWLINE + (Text([l]) + (fi + (NEWLINE + t))));
            && Plain([l], {FiKw, SectionKw}) && WholeBlock(h, [l]).Good?
            && !AtEnd(r) && UsesOfBlock(r) == [Planner.Lookup("LOCAL", name)]
  {
    hide BlockHeader, IsLine, SkipToNewline, NamedInBlock, BlockLine, BlockUses, BlockOf;
    var l := LookupLine(parameter, LocalKw, name);
    var b := BlockHeader(h).value;
    LocalLine(parameter, name, b);
    var last := fi + (NEWLINE + t);
    var body := Text([l]) + last;
    assert body == l + (NEWLINE + last) by { assert Text([l]) == l + NEWLINE + Text([]); }
    CurOf(fi, NEWLINE + t);
    LocalLineNamed(parameter, name, NEWLINE + last);
    LastLineUses(l, last, b);
    EmptyLineUses(body, b);
    CurOf(h, NEWLINE + body);
    HeaderInLine(h, NEWLINE + body);
    SkipInLine(BlockHeader(h).rest, NEWLINE + body);
  }

  lemma {:induction false} EmptyLineUses(t: Tokens, b: Block)
    ensures BlockUses(NEWLINE + t, b) == BlockUses(t, b)
  {
    assert (NEWLINE + t)[1..] == t;
  }

  lemma {:induction false} LastLineUses(l: Tokens, last: Tokens, b: Block)
    requires IsLine(l) && l != [] && l[0].kind !in {FiKw, SectionKw} && Cur(last).kind == FiKw
    requires !AtEnd(l) && !AtNewline(l) && BlockLine(l, b).Good? && BlockLine(l, b).rest == []
    ensures !AtEnd(l + (NEWLINE + last)) && BlockUses(l + (NEWLINE + last), b) == NamedInBlock(l + (NEWLINE + last))
  {
    hide BlockLine, IsLine, NamedInBlock;
    var n := NEWLINE + last;
    CurOf(l, n);
    BlockLineInLine(l, n, b);
    NothingBefore(n);
    var after := BlockLine(l, b).value;
    assert n[1..] == last;
    assert BlockUses(n, after) == BlockUses(last, after) == [];
    assert NamedInBlock(l + n) + [] == NamedInBlock(l + n);
  }

  const IF_LINE: Tokens := [Token(IfKw, "if"), Token(ServiceKw, "SERVICE"), Token(Identifier, "mta")]
  const FI_LINE: Tokens := [Token(FiKw, "fi")]

  /** The lines `if SERVICE mta`, `POSTCONF b LOCAL x`, `fi`. */
  function IfLines(): Tokens {
    IF_LINE + (NEWLINE + (Text([LookupLine("b", LocalKw, "x")]) + (FI_LINE + (NEWLINE + []))))
  }

  /** The lines `SECTION mta`, `POSTCONF a VAR x` and the block. */
  function ExampleLines(): Tokens {
    [Token(SectionKw, "SECTION"), Token(Identifier, "mta")] + (NEWLINE + (LookupLine("a", VarKw, "x") + (NEWLINE + IfLines())))
  }

  /** Every lookup succeeds, so every block without a negation is in force. */
  const FOUND: Lookups := (typ, key) => Some("1")

  lemma {:induction false} IfLineReads()
    ensures IsLine(IF_LINE) && IsLine(FI_LINE) && !AtEnd(IF_LINE) && BlockHeader(IF_LINE).Good?
    ensures !BlockHeader(IF_LINE).value.negated && BlockHeader(IF_LINE).value.key == "mta"
  {
    hide Upper;
    assert IF_LINE[1..][1..][0] == IF_LINE[2] && "mta"[..1][0] != "!"[0];
  }

  lemma {:induction false} IfLinesRead(s: Section)
    requires s.conditionals == []
    ensures Body(IfLines(), s).Good? && Uses(IfLines(), s) == [] && UsesByBlock(IfLines(), s) == [[Planner.Lookup("LOCAL", "x")]]
    ensures |Body(IfLines(), s).value.conditionals| == 1 && InForce(Body(IfLines(), s).value.conditionals[0], FOUND)
  {
    hide BlockHeader, LookupLine, Text, UsesOfBlock, Directive, WholeBlock, IsLine, InForce;
    IfLineReads();
    var l := LookupLine("b", LocalKw, "x");
    OneLineBlock(IF_LINE, "b", "x", FI_LINE, []);
    ConditionalOfLines(IF_LINE, [l], FI_LINE, [], s);
    CurOf(IF_LINE, NEWLINE + (Text([l]) + (FI_LINE + (NEWLINE + []))));
    var after := Directive(IfLines(), s).value;
    NewlineIsEmpty(after);
    assert [UsesOfBlock(IfLines())] + [] == [UsesOfBlock(IfLines())];
    WholeBlockKeepsHeader(IF_LINE, [l]);
    MtaInForce(after.conditionals[0]);
  }

  lemma {:induction false} NewlineIsEmpty(s: Section)
    ensures Body(NEWLINE + [], s) == Good(s, []) && Uses(NEWLINE + [], s) == [] && UsesByBlock(NEWLINE + [], s) == []
  {
    assert (NEWLINE + [])[1..] == [];
  }

  lemma {:induction false} MtaInForce(b: Block)
    requires b.key == "mta" && !b.negated
    ensures InForce(b, FOUND)
  {
    assert "mta"[..1][0] != "!"[0];
  }

  lemma {:induction false} WholeBlockKeepsHeader(h: Tokens, lines: seq<Tokens>)
    requires IsLine(h) && h != [] && !AtEnd(h) && BlockHeader(h).Good? && Plain(lines, {}) && WholeBlock(h, lines).Good?
    ensures var b, p := WholeBlock(h, lines).value, BlockHeader(h).value; b.typ == p.typ && b.key == p.key && b.negated == p.negated
  {
    hide BlockHeader, IsLine;
    BlockKeepsHeader(lines, BlockHeader(h).value);
  }

  lemma {:induction false} BlockKeepsHeader(lines: seq<Tokens>, b: Block)
    requires Plain(lines, {}) && BlockOf(lines, b).Good?
    ensures var q := BlockOf(lines, b).value; q.typ == b.typ && q.key == b.key && q.negated == b.negated
    decreases |lines|
  {
    hide PostconfLine, SkipToNewline, Registered;
    if lines != [] {
      if lines[0] == [] {
        BlockKeepsHeader(lines[1..], b);
      } else {
        TailIsLine(lines[0]);
        BlockKeepsHeader(lines[1..], BlockLine(lines[0], b).value);
      }
    }
  }
  lemma {:induction false} HeaderOf(name: string, body: Tokens)
    ensures Header([Token(SectionKw, "SECTION"), Token(Identifier, name)] + (NEWLINE + body)) == Good((name, NO_SECTION), body)
  {
    hide Words;
    var n := NEWLINE + body;
    var r := [Token(SectionKw, "SECTION"), Token(Identifier, name)] + n;
    assert n[1..] == body;
    assert r[0].kind == SectionKw && r[1..][0] == Token(Identifier, name) && r[1..][1..] == n;
  }

  /** The section of the example uses `x` as VAR first and as LOCAL last. */
  lemma {:induction false} ExampleUses() returns (sec: Section)
    ensures SectionAt(ExampleLines(), 0, "mta", sec)
    ensures UsesAt(ExampleLines(), 0, FOUND) == [Planner.Lookup("VAR", "x"), Planner.Lookup("LOCAL", "x")]
  {
    hide IfLines, Directive, InForce, LookupLine, Header, Body, Uses, UsesByBlock;
    var body := LookupLine("a", VarKw, "x") + (NEWLINE + IfLines());
    assert ExampleLines()[0..] == ExampleLines();
    HeaderOf("mta", body);
    var after := SectionLineUses("a", "x", IfLines(), NO_SECTION);
    IfLinesRead(after);
    sec := Body(body, NO_SECTION).value;
    OnlyBlock(sec.conditionals, Planner.Lookup("LOCAL", "x"));
  }

  lemma {:induction false} OnlyBlock(blocks: seq<Block>, l: Planner.Lookup)
    requires |blocks| == 1 && InForce(blocks[0], FOUND)
    ensures UsesInForce(blocks, [[l]], FOUND) == [l]
  {
    hide InForce;
    assert UsesInForce(blocks[1..], [[l]][1..], FOUND) == [];
  }

  function LoadedSection(s: Section, lookup: Lookups): Planner.Section {
    Planner.Section(Overlaid(s.requiredVars, s.conditionals, lookup), s.rewrites, s.postconf, s.postconfd,
                    map k | k in s.ldap :: Resolved(s.ldap[k], lookup), s.proxygen, Blocks(s.conditionals), s.restarts)
  }

  function Observing(observed: map<Planner.Lookup, string>): Planner.Snapshot {
    Planner.Snapshot(map[], map[], map[], map[], map["mta" := ""], observed)
  }

  /** A change of a lookup goes unseen when a block in force uses the same name under another type. */
  lemma {:induction false} ShadowedTypeGoesUnseen() returns (sec: Section, i: Planner.Input)
    ensures SectionAt(ExampleLines(), 0, "mta", sec) && Planner.Considered(i, "mta") && LoadedFrom(i.conf["mta"], sec, FOUND)
    ensures Planner.Compared(i, "mta") && i.host.None?
    ensures Planner.Lookup("VAR", "x") in UsesAt(ExampleLines(), 0, FOUND) && ChangedAs(i, Planner.Lookup("VAR", "x"))
    ensures "mta" !in PlannerFacts.NamesIn(Planner.PlanOf(i).sections)
  {
    hide Overlaid, Resolved, Blocks, Planner.PlanOf, SectionAt, UsesAt, ExampleLines;
    sec := ExampleUses();
    var l, shadow := Planner.Lookup("VAR", "x"), Planner.Lookup("LOCAL", "x");
    i := Planner.Input(Observing(map[l := "1"]), Observing(map[l := "2"]), map["mta" := LoadedSection(sec, FOUND)], {}, {},
                       false, map[], Planner.NO_CARRY, {}, false, None, false);
    ChangedLookupListsSection(ExampleLines(), 0, sec, FOUND, i, "mta");
    forall m | Wins([l, shadow], m) ensures !ChangedAs(i, m) { LastOfTwo(l, shadow, m); }
  }

  lemma {:induction false} LastOfTwo(l: Planner.Lookup, shadow: Planner.Lookup, m: Planner.Lookup)
    requires l.key == shadow.key && Wins([l, shadow], m)
    ensures m == shadow
  {
    assert [l, shadow][1] == shadow;
  }

  /** `ParseMtaConfig`: nothing is loaded from a file with an error; otherwise the enabled sections of the file, each
      depending on exactly the lookups in force after its header. */
  method ParseMtaConfig(u: Classes, content: string, snap: Planner.Snapshot, lookup: Lookups)
    returns (conf: Option<Planner.Conf>)
    requires Sound(u)
    ensures var tokens := Lexing.Tokens(u, content);
            conf.None? <==> content == "" || File(tokens, map[], []).1 != [] || (tokens != [] && tokens[|tokens| - 1].kind == Error)
    ensures var config := File(Lexing.Tokens(u, content), map[], []).0;
            conf.Some? ==>
              && (forall sn :: sn in conf.value <==> sn in config && Planner.SectionEnabled(sn, snap))
              && (forall sn :: sn in conf.value ==> LoadedFrom(conf.value[sn], config[sn], lookup))
              && (forall sn :: sn in conf.value ==> FromText(Lexing.Tokens(u, content), sn, config[sn], conf.value[sn].requiredVars, lookup))
  {
    hide File, LoadedFrom, FromText, Planner.SectionEnabled, Lexing.Tokens;
    var config, failed := Parser.ParseString(u, content);
    if failed { return None; }
    var loaded := Load(config, snap, lookup);
    ghost var tokens := Lexing.Tokens(u, content);
    EndsHere(tokens);
    SectionsComeFromBodies(tokens, tokens, map[], []);
    forall sn | sn in loaded ensures FromText(tokens, sn, config[sn], loaded[sn].requiredVars, lookup) {
      LoadedFromText(tokens, sn, config[sn], loaded[sn], lookup);
    }
    return Some(loaded);
  }

  /** The section stands after a header of its name, and the variables are what is in force there. */
  ghost predicate FromText(r: Tokens, sn: string, sec: Section, vars: Vars, lookup: Lookups) {
    exists j :: SectionAt(r, j, sn, sec) && vars == RegisterAll(map[], UsesAt(r, j, lookup))
  }

  lemma {:induction false} LoadedFromText(r: Tokens, sn: string, sec: Section, p: Planner.Section, lookup: Lookups)
    requires InFile(r, sn, sec) && LoadedFrom(p, sec, lookup)
    ensures FromText(r, sn, sec, p.requiredVars, lookup)
  {
    hide Body, AllUses, Overlaid, RegisterAll, Resolved, Blocks;
    var j: nat :| SectionAt(r, j, sn, sec);
    HeaderNames(r[j..]);
    LoadedRegisters(Header(r[j..]).rest, Header(r[j..]).value.1, lookup);
  }
}
