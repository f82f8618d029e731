/** What the compile steps of a section have entered so far, list by list. */
module Compiling {
  import opened Options
  import opened Order
  import opened Plan
  import opened Planner
  import opened PlannerFacts

  /////////// One request at a time ///////////

  lemma {:induction false} PutNothing(t: Table, sn: string)
    ensures PutAll(t, map[], sn) == t
  {}

  /** Recording one more request of the same section, first time or again with the same reasons. */
  lemma {:induction false} PutOneMore(t: Table, asks: map<Id, Ask>, id: Id, ask: Ask, sn: string)
    requires id in asks ==> asks[id].reasons == ask.reasons
    ensures var before := PutAll(t, asks, sn);
            PutAll(t, asks[id := ask], sn) == before[id := Put(before, id, ask, sn)]
  {
    hide AddAll, AddUnique;
    var before := PutAll(t, asks, sn);
    if id in asks {
      var base := if id in t then t[id].reasons else [];
      AddAllElements(base, ask.reasons);
      AddAllAbsorbs(AddAll(base, ask.reasons), ask.reasons);
      AddUniqueTwice(if id in t then t[id].sections else [], sn);
    }
  }

  lemma {:induction false} AddUniqueTwice(list: seq<string>, sn: string)
    ensures AddUnique(AddUnique(list, sn), sn) == AddUnique(list, sn)
    ensures AddUnique([sn], sn) == [sn]
  {}

  /////////// One list ///////////

  /** The list holds exactly `names`, each with the value and the reasons the plan function gives it. */
  ghost predicate Holding(i: Input, sn: string, kind: Kind, names: set<string>, done: map<Id, Ask>)
    requires sn in i.conf
  {
    forall n :: (Id(kind, n) in done <==> n in names) &&
                (n in names ==> done[Id(kind, n)] == Ask(AskValue(i, sn, kind, n), AskReasons(i, sn, kind, n)))
  }

  /** The list holds exactly the parameters `lines`. */
  ghost predicate HoldingLines(kind: Kind, lines: map<string, string>, reasons: seq<Reason>, done: map<Id, Ask>) {
    forall n :: (Id(kind, n) in done <==> n in lines) &&
                (n in lines ==> done[Id(kind, n)] == Ask(Text(OneLine(lines[n])), reasons))
  }

  /** Only lists of the given kinds differ. */
  ghost predicate SameElse(kinds: set<Kind>, before: map<Id, Ask>, after: map<Id, Ask>) {
    forall id: Id :: id.kind !in kinds ==> (id in after <==> id in before) && (id in before ==> after[id] == before[id])
  }

  lemma {:induction false} EnterOne(i: Input, sn: string, kind: Kind, names: set<string>, done: map<Id, Ask>, n: string)
    requires sn in i.conf && Holding(i, sn, kind, names, done)
    ensures var ask := Ask(AskValue(i, sn, kind, n), AskReasons(i, sn, kind, n));
            && Holding(i, sn, kind, names + {n}, done[Id(kind, n) := ask])
            && SameElse({kind}, done, done[Id(kind, n) := ask])
            && (Id(kind, n) in done ==> done[Id(kind, n)].reasons == ask.reasons)
  {
    hide AskValue, AskReasons;
  }

  lemma {:induction false} EnterLine(kind: Kind, lines: map<string, string>, reasons: seq<Reason>, done: map<Id, Ask>, n: string, v: string)
    requires HoldingLines(kind, lines, reasons, done)
    ensures var ask := Ask(Text(OneLine(v)), reasons);
            && HoldingLines(kind, lines[n := v], reasons, done[Id(kind, n) := ask])
            && SameElse({kind}, done, done[Id(kind, n) := ask])
            && (Id(kind, n) in done ==> done[Id(kind, n)].reasons == reasons)
  {
    hide OneLine;
  }

  lemma {:induction false} SameTransitive(kinds: set<Kind>, a: map<Id, Ask>, b: map<Id, Ask>, c: map<Id, Ask>)
    requires SameElse(kinds, a, b) && SameElse(kinds, b, c)
    ensures SameElse(kinds, a, c)
  {}

  lemma {:induction false} SameWider(small: set<Kind>, kinds: set<Kind>, a: map<Id, Ask>, b: map<Id, Ask>)
    requires SameElse(small, a, b) && small <= kinds
    ensures SameElse(kinds, a, b)
  {}

  lemma {:induction false} SameHolding(i: Input, sn: string, kind: Kind, names: set<string>, kinds: set<Kind>, a: map<Id, Ask>, b: map<Id, Ask>)
    requires sn in i.conf && SameElse(kinds, a, b) && kind !in kinds && Holding(i, sn, kind, names, a)
    ensures Holding(i, sn, kind, names, b)
  {
    hide AskValue, AskReasons;
  }

  lemma {:induction false} SameLines(kind: Kind, lines: map<string, string>, reasons: seq<Reason>, kinds: set<Kind>, a: map<Id, Ask>, b: map<Id, Ask>)
    requires SameElse(kinds, a, b) && kind !in kinds && HoldingLines(kind, lines, reasons, a)
    ensures HoldingLines(kind, lines, reasons, b)
  {
    hide OneLine;
  }

  /** A list that holds what the plan function asks for. */
  ghost predicate Compiled(i: Input, sn: string, kind: Kind, done: map<Id, Ask>)
    requires sn in i.conf
  {
    Holding(i, sn, kind, NamesAsked(i, sn, kind), done)
  }

  ghost predicate Untouched(kind: Kind, done: map<Id, Ask>) {
    forall n :: Id(kind, n) !in done
  }

  /** With every list compiled, the requests entered are those of the section. */
  lemma {:induction false} AllCompiled(i: Input, sn: string, done: map<Id, Ask>)
    requires sn in i.conf && forall kind :: Compiled(i, sn, kind, done)
    ensures done == Asks(i, sn)
  {
    hide NamesAsked, AskValue, AskReasons, Asks;
    forall id ensures (id in done <==> id in Asks(i, sn)) && (id in done ==> done[id] == Asks(i, sn)[id]) {
      AsksMembership(i, sn, id);
      assert Compiled(i, sn, id.kind, done);
      assert id == Id(id.kind, id.name);
    }
  }

  /////////// The keys a loop has seen ///////////

  /** The mapped files of one type among the first keys. */
  ghost function FilesUpTo(vars: map<string, string>, keys: seq<string>, typ: string): set<string> {
    set k | k in keys && k in vars && vars[k] == typ :: TrimBang(k)
  }

  lemma {:induction false} FilesStep(vars: map<string, string>, keys: seq<string>, n: nat, typ: string)
    requires n < |keys| && keys[n] in vars
    ensures vars[keys[n]] == typ ==> FilesUpTo(vars, keys[..n + 1], typ) == FilesUpTo(vars, keys[..n], typ) + {TrimBang(keys[n])}
    ensures vars[keys[n]] != typ ==> FilesUpTo(vars, keys[..n + 1], typ) == FilesUpTo(vars, keys[..n], typ)
  {
    hide TrimBang;
    assert keys[..n + 1] == keys[..n] + [keys[n]];
  }

  lemma {:induction false} AllFiles(vars: map<string, string>, keys: seq<string>, typ: string)
    requires forall k :: k in keys <==> k in vars
    ensures FilesUpTo(vars, keys, typ) == VarsOf(vars, typ) && FilesUpTo(vars, keys[..0], typ) == {} && keys[..|keys|] == keys
  {
    hide TrimBang;
  }

  ghost function ActedUpTo(services: seq<string>, cur: Snapshot): set<string> {
    set s | s in services && ServiceAction(ToLower(s), cur).Some? :: ToLower(s)
  }

  lemma {:induction false} ActedStep(services: seq<string>, n: nat, cur: Snapshot)
    requires n < |services|
    ensures ServiceAction(ToLower(services[n]), cur).Some? ==>
              ActedUpTo(services[..n + 1], cur) == ActedUpTo(services[..n], cur) + {ToLower(services[n])}
    ensures ServiceAction(ToLower(services[n]), cur).None? ==> ActedUpTo(services[..n + 1], cur) == ActedUpTo(services[..n], cur)
  {
    hide ToLower, ServiceAction;
    assert services[..n + 1] == services[..n] + [services[n]];
  }

  lemma {:induction false} AllActed(sec: Section, services: seq<string>, cur: Snapshot)
    requires forall s :: s in services <==> s in sec.restarts
    ensures ActedUpTo(services, cur) == Acted(sec, cur) && ActedUpTo(services[..0], cur) == {} && services[..|services|] == services
  {
    hide ToLower, ServiceAction;
  }

  /** The reasons that are variable changes. */
  function VarChanges(reasons: seq<Reason>): seq<Reason> {
    if reasons == [] then []
    else VarChanges(reasons[..|reasons| - 1]) + if reasons[|reasons| - 1].kind == VarChanged then [reasons[|reasons| - 1]] else []
  }

  lemma {:induction false} VarChangesConcat(a: seq<Reason>, b: seq<Reason>)
    ensures VarChanges(a + b) == VarChanges(a) + VarChanges(b)
  {
    if b == [] {
      assert a + b == a;
    } else {
      assert (a + b)[..|a + b| - 1] == a + b[..|b| - 1];
      VarChangesConcat(a, b[..|b| - 1]);
    }
  }

  lemma {:induction false} ChangesAreVarChanges(i: Input, sn: string, vars: map<string, string>, keys: seq<string>)
    requires forall k :: k in keys ==> k in vars
    ensures VarChanges(Changes(i, sn, vars, keys)) == Changes(i, sn, vars, keys)
  {
    hide TrimBang, Differs;
    if keys != [] {
      assert keys == keys[..|keys| - 1] + [keys[|keys| - 1]];
      ChangesAreVarChanges(i, sn, vars, keys[..|keys| - 1]);
      var was := Changes(i, sn, vars, keys[..|keys| - 1]);
      var now := Changes(i, sn, vars, keys);
      if now != was { assert now[..|now| - 1] == was && now[|now| - 1].kind == VarChanged; }
    }
  }

  /** After the first run the variable changes among a section's reasons are exactly its changes. */
  lemma {:induction false} SectionVarChanges(i: Input, sn: string)
    requires sn in i.conf && !i.firstRun
    ensures VarChanges(SectionReasons(i, sn)) == SectionChanges(i, sn)
  {
    hide Changes, VarChanges, SortedKeys;
    var forced: seq<Reason> := if sn in i.forced then [ForSection(Forced, sn)] else [];
    var requested: seq<Reason> := if sn in i.requested then [ForSection(Requested, sn)] else [];
    var evaluated: seq<Reason> := if i.assumeChanged then [ForSection(Evaluated, sn)] else [];
    var changes := SectionChanges(i, sn);
    VarChangesConcat(forced + requested + changes, evaluated);
    VarChangesConcat(forced + requested, changes);
    VarChangesConcat(forced, requested);
    NoVarChange(Forced, sn);
    NoVarChange(Requested, sn);
    NoVarChange(Evaluated, sn);
    if Compared(i, sn) { ChangesAreVarChanges(i, sn, i.conf[sn].requiredVars, SortedKeys(i.conf[sn].requiredVars.Keys)); }
  }

  lemma {:induction false} NoVarChange(kind: ReasonKind, sn: string)
    requires kind != VarChanged
    ensures VarChanges([ForSection(kind, sn)]) == [] && VarChanges([]) == []
  {}

  lemma {:induction false} ParamsStep(base: map<string, string>, blocks: seq<Conditional>, n: nat, cur: Snapshot, dropped: bool)
    requires n < |blocks|
    ensures Holds(blocks[n], cur) ==>
              Params(base, blocks[..n + 1], cur, dropped) ==
              Params(base, blocks[..n], cur, dropped) + if dropped then blocks[n].postconfd else blocks[n].postconf
    ensures !Holds(blocks[n], cur) ==> Params(base, blocks[..n + 1], cur, dropped) == Params(base, blocks[..n], cur, dropped)
  {
    hide Holds;
    assert blocks[..n + 1][..n] == blocks[..n];
  }

  /////////// What the plan function asks for, list by list ///////////

  lemma {:induction false} NothingHeld(i: Input, sn: string, kind: Kind, done: map<Id, Ask>)
    requires sn in i.conf && Untouched(kind, done)
    ensures Holding(i, sn, kind, {}, done) && SameElse({kind}, done, done)
  {
    hide AskValue, AskReasons;
  }

  lemma {:induction false} NoLines(kind: Kind, reasons: seq<Reason>, done: map<Id, Ask>)
    requires Untouched(kind, done)
    ensures HoldingLines(kind, map[], reasons, done)
  {}

  lemma {:induction false} HealNames(i: Input, sn: string)
    requires Considered(i, sn)
    ensures NamesAsked(i, sn, HealFile) == if Compared(i, sn) then VarsOf(i.conf[sn].requiredVars, "MAPFILE") else {}
    ensures forall n :: AskValue(i, sn, HealFile, n) == Nothing && AskReasons(i, sn, HealFile, n) == [Reason(MapfileSync, sn, "", n, "", "", "", "")]
  {
    hide Considered, VarsOf, SectionReasons, Params, SectionChanges, Acted;
  }

  lemma {:induction false} FileNames(i: Input, sn: string)
    requires Processed(i, sn)
    ensures var on := SectionChanges(i, sn) != [] || i.firstRun;
            && NamesAsked(i, sn, SyncFile) == (if on then VarsOf(i.conf[sn].requiredVars, "MAPFILE") else {})
            && NamesAsked(i, sn, CheckFile) == (if on then VarsOf(i.conf[sn].requiredVars, "MAPLOCAL") else {})
    ensures forall n :: AskValue(i, sn, SyncFile, n) == AskValue(i, sn, CheckFile, n) == Nothing
    ensures forall n :: AskReasons(i, sn, SyncFile, n) == AskReasons(i, sn, CheckFile, n) == SectionReasons(i, sn)
  {
    hide Considered, VarsOf, SectionReasons, Params, SectionChanges, Acted;
  }

  lemma {:induction false} ListNames(i: Input, sn: string)
    requires Processed(i, sn)
    ensures var sec := i.conf[sn];
            && NamesAsked(i, sn, RewriteFile) == sec.rewrites.Keys
            && NamesAsked(i, sn, WriteLdap) == (set n | n in sec.ldap && sec.ldap[n] != "")
            && NamesAsked(i, sn, Proxygen) == (if sec.proxygen then {""} else {})
    ensures forall n :: AskReasons(i, sn, RewriteFile, n) == AskReasons(i, sn, WriteLdap, n) == AskReasons(i, sn, Proxygen, n) == SectionReasons(i, sn)
    ensures AskValue(i, sn, Proxygen, "") == Nothing
    ensures forall n :: n in i.conf[sn].rewrites ==>
              AskValue(i, sn, RewriteFile, n) == File(i.conf[sn].rewrites[n].path, i.conf[sn].rewrites[n].mode)
    ensures forall n :: n in i.conf[sn].ldap ==> AskValue(i, sn, WriteLdap, n) == Text(i.conf[sn].ldap[n])
  {
    hide Considered, VarsOf, SectionReasons, Params, SectionChanges, Acted;
  }

  /** The POSTCONF and POSTCONFD lists hold the lines in force. */
  lemma {:induction false} LinesAreCompiled(i: Input, sn: string, dropped: bool, done: map<Id, Ask>)
    requires Processed(i, sn)
    requires var sec := i.conf[sn];
             HoldingLines(if dropped then DropParam else SetParam,
                          Params(if dropped then sec.postconfd else sec.postconf, sec.conditionals, i.cur, dropped),
                          SectionReasons(i, sn), done)
    ensures Compiled(i, sn, if dropped then DropParam else SetParam, done)
  {
    hide Considered, VarsOf, SectionReasons, Params, SectionChanges, Acted, OneLine;
  }

  lemma {:induction false} RestartNames(i: Input, sn: string)
    requires Processed(i, sn)
    ensures NamesAsked(i, sn, RestartNow) == if i.firstRun || AskedFor(i, sn) then {} else Acted(i.conf[sn], i.cur)
    ensures NamesAsked(i, sn, RestartLater) ==
            if i.firstRun || !AskedFor(i, sn) || SectionChanges(i, sn) == [] then {} else Acted(i.conf[sn], i.cur)
    ensures forall n :: AskValue(i, sn, RestartNow, n) == AskValue(i, sn, RestartLater, n) == ActionValue(n, i.cur)
    ensures forall n :: AskReasons(i, sn, RestartNow, n) == SectionReasons(i, sn)
    ensures forall n :: AskReasons(i, sn, RestartLater, n) == SectionChanges(i, sn) + [ForSection(Deferred, sn)]
  {
    hide Considered, VarsOf, SectionReasons, Params, SectionChanges, Acted, ActionValue;
  }

  ghost function KeysUpTo(keys: seq<string>): set<string> {
    set k | k in keys
  }

  lemma {:induction false} KeysStep(keys: seq<string>, n: nat)
    requires n < |keys|
    ensures KeysUpTo(keys[..n + 1]) == KeysUpTo(keys[..n]) + {keys[n]}
  {
    assert keys[..n + 1] == keys[..n] + [keys[n]];
  }

  lemma {:induction false} NoKeys(keys: seq<string>)
    ensures KeysUpTo(keys[..0]) == {} && keys[..|keys|] == keys
  {}

  /** The keys with a value. */
  ghost function ValuesUpTo(values: map<string, string>, keys: seq<string>): set<string> {
    set k | k in keys && k in values && values[k] != ""
  }

  lemma {:induction false} ValuesStep(values: map<string, string>, keys: seq<string>, n: nat)
    requires n < |keys| && keys[n] in values
    ensures values[keys[n]] == "" ==> ValuesUpTo(values, keys[..n + 1]) == ValuesUpTo(values, keys[..n])
    ensures values[keys[n]] != "" ==> ValuesUpTo(values, keys[..n + 1]) == ValuesUpTo(values, keys[..n]) + {keys[n]}
  {
    assert keys[..n + 1] == keys[..n] + [keys[n]];
  }

  lemma {:induction false} AllValues(values: map<string, string>, keys: seq<string>)
    requires forall k :: k in keys <==> k in values
    ensures ValuesUpTo(values, keys[..0]) == {}
    ensures ValuesUpTo(values, keys[..|keys|]) == set k | k in values && values[k] != ""
  {
    assert keys[..|keys|] == keys;
  }

  lemma {:induction false} SameHere(kinds: set<Kind>, done: map<Id, Ask>)
    ensures SameElse(kinds, done, done)
  {}

  lemma {:induction false} NoBlocks(set_: map<string, string>, drop: map<string, string>, blocks: seq<Conditional>, cur: Snapshot)
    ensures Params(set_, blocks[..0], cur, false) == set_ && Params(drop, blocks[..0], cur, true) == drop && blocks[..|blocks|] == blocks
  {}

  /////////// The section as a whole ///////////

  /** The lists of `kinds` are compiled, the others not begun. */
  ghost predicate Progress(i: Input, sn: string, kinds: set<Kind>, done: map<Id, Ask>)
    requires sn in i.conf
  {
    forall kind :: if kind in kinds then Compiled(i, sn, kind, done) else Untouched(kind, done)
  }

  lemma {:induction false} NoProgress(i: Input, sn: string)
    requires sn in i.conf
    ensures Progress(i, sn, {}, map[])
  {}

  lemma {:induction false} ProgressStep(i: Input, sn: string, kinds: set<Kind>, more: set<Kind>, before: map<Id, Ask>, after: map<Id, Ask>)
    requires sn in i.conf && Progress(i, sn, kinds, before) && kinds !! more && SameElse(more, before, after)
    requires forall kind :: kind in more ==> Compiled(i, sn, kind, after)
    ensures Progress(i, sn, kinds + more, after)
  {
    hide NamesAsked, AskValue, AskReasons, Holding;
    forall kind ensures if kind in kinds + more then Compiled(i, sn, kind, after) else Untouched(kind, after) {
      if kind in kinds {
        SameHolding(i, sn, kind, NamesAsked(i, sn, kind), more, before, after);
      } else if kind !in more {
        forall n ensures Id(kind, n) !in after { assert Id(kind, n) !in before; }
      }
    }
  }

  lemma {:induction false} ProgressNone(i: Input, sn: string, kinds: set<Kind>, more: set<Kind>, done: map<Id, Ask>)
    requires sn in i.conf && Progress(i, sn, kinds, done)
    requires forall kind :: kind in more && kind !in kinds ==> NamesAsked(i, sn, kind) == {}
    ensures Progress(i, sn, kinds + more, done)
  {
    hide NamesAsked, AskValue, AskReasons;
  }

  const ALL_KINDS: set<Kind> :=
    {HealFile, SyncFile, CheckFile, RewriteFile, SetParam, DropParam, Proxygen, WriteLdap, RestartNow, RestartLater}

  lemma {:induction false} EveryKind(kind: Kind)
    ensures kind in ALL_KINDS
  {
    match kind {
      case HealFile | SyncFile | CheckFile | RewriteFile | SetParam =>
      case DropParam | Proxygen | WriteLdap | RestartNow | RestartLater =>
    }
  }

  lemma {:induction false} AllProgress(i: Input, sn: string, done: map<Id, Ask>)
    requires sn in i.conf && Progress(i, sn, ALL_KINDS, done)
    ensures done == Asks(i, sn)
  {
    hide NamesAsked, AskValue, AskReasons, Asks, Holding;
    forall kind ensures Compiled(i, sn, kind, done) { EveryKind(kind); }
    AllCompiled(i, sn, done);
  }

  /** A section without reasons asks for heals only. */
  lemma {:induction false} UnprocessedNames(i: Input, sn: string, kind: Kind)
    requires Considered(i, sn) && SectionReasons(i, sn) == [] && kind != HealFile
    ensures NamesAsked(i, sn, kind) == {}
  {
    hide Considered, VarsOf, SectionReasons, Params, SectionChanges, Acted;
  }

  lemma {:induction false} HealUntouched(i: Input, sn: string, done: map<Id, Ask>)
    requires sn in i.conf && Progress(i, sn, {}, done)
    ensures Untouched(HealFile, done)
  {
    hide Compiled;
  }

  lemma {:induction false} FilesUntouched(i: Input, sn: string, done: map<Id, Ask>)
    requires sn in i.conf && Progress(i, sn, {HealFile}, done)
    ensures Untouched(SyncFile, done) && Untouched(CheckFile, done)
  {
    hide Compiled;
  }

  /** The lines `keys` of `lines` on top of earlier ones. */
  ghost function Over(before: map<string, string>, lines: map<string, string>, keys: seq<string>): map<string, string>
    requires forall k :: k in keys ==> k in lines
  {
    if keys == [] then before
    else
      var init, k := keys[..|keys| - 1], keys[|keys| - 1];
      assert keys == init + [k];
      Over(before, lines, init)[k := lines[k]]
  }

  lemma {:induction false} OverAt(before: map<string, string>, lines: map<string, string>, keys: seq<string>, k: string)
    requires forall x :: x in keys ==> x in lines
    ensures k in Over(before, lines, keys) <==> k in before || k in keys
    ensures k in Over(before, lines, keys) ==> Over(before, lines, keys)[k] == if k in keys then lines[k] else before[k]
  {
    if keys != [] {
      assert keys == keys[..|keys| - 1] + [keys[|keys| - 1]];
      OverAt(before, lines, keys[..|keys| - 1], k);
    }
  }

  lemma {:induction false} OverAll(before: map<string, string>, lines: map<string, string>, keys: seq<string>)
    requires forall x :: x in keys <==> x in lines
    ensures Over(before, lines, keys) == before + lines && Over(before, lines, keys[..0]) == before && keys[..|keys|] == keys
  {
    hide Over;
    forall k ensures (k in Over(before, lines, keys) <==> k in before + lines) &&
                     (k in before + lines ==> Over(before, lines, keys)[k] == (before + lines)[k]) { OverAt(before, lines, keys, k); }
    forall k ensures (k in Over(before, lines, keys[..0]) <==> k in before) &&
                     (k in before ==> Over(before, lines, keys[..0])[k] == before[k]) { OverAt(before, lines, keys[..0], k); }
  }

  lemma {:induction false} OverStep(before: map<string, string>, lines: map<string, string>, keys: seq<string>, n: nat)
    requires n < |keys| && forall x :: x in keys ==> x in lines
    ensures Over(before, lines, keys[..n + 1]) == Over(before, lines, keys[..n])[keys[n] := lines[keys[n]]]
  {
    assert keys[..n + 1][..n] == keys[..n] && keys[n] in keys;
  }

  lemma {:induction false} FirstSection(sn: string)
    ensures AddUnique([], sn) == [sn]
  {
    assert [] + [sn] == [sn];
  }

  lemma {:induction false} UnprocessedIsDone(i: Input, sn: string, done: map<Id, Ask>)
    requires Considered(i, sn) && SectionReasons(i, sn) == [] && Progress(i, sn, {HealFile}, done)
    ensures Progress(i, sn, ALL_KINDS, done)
  {
    hide SectionEnabled, SectionReasons, Progress, NamesAsked;
    forall kind | kind != HealFile ensures NamesAsked(i, sn, kind) == {} { UnprocessedNames(i, sn, kind); }
    ProgressNone(i, sn, {HealFile}, ALL_KINDS, done);
    assert {HealFile} + ALL_KINDS == ALL_KINDS;
  }
}
