/** The plan builder: tables and lists filled in place, section by section, proved equal to the plan function. */
module Builder {
  import opened Options
  import opened Order
  import opened Plan
  import opened Planner
  import opened PlannerFacts
  import opened HostPlan
  import opened Pruning
  import PlanMeaning
  import opened Compiling

  ghost predicate TogglesApplied(t: Table, now: Table, i: Input, done: set<string>) {
    && (forall id :: id in now <==> id in t || (id.kind == RestartNow && id.name in done))
    && forall id :: id in now ==>
         now[id] == if id.kind == RestartNow && id.name in done then ToggleEntry(t, id.name, ToggleOf(i, id.name)) else t[id]
  }

  lemma {:induction false} NoTogglesApplied(t: Table, i: Input)
    ensures TogglesApplied(t, t, i, Toggled(i) - Toggled(i))
  {}

  lemma {:induction false} ToggleStep(t: Table, now: Table, i: Input, done: set<string>, s: string)
    requires TogglesApplied(t, now, i, done) && s !in done
    ensures TogglesApplied(t, now[Id(RestartNow, s) := ToggleEntry(now, s, ToggleOf(i, s))], i, done + {s})
  {
    hide AddUnique, ToggleOf;
  }

  lemma {:induction false} AllTogglesApplied(t: Table, now: Table, i: Input)
    requires TogglesApplied(t, now, i, Toggled(i))
    ensures now == WithToggles(t, i)
  {
    hide ToggleEntry, ToggleOf, Toggled, RestartIds;
    forall id ensures id in RestartIds(Toggled(i)) <==> id.kind == RestartNow && id.name in Toggled(i) {
      RestartIdsExact(Toggled(i), id);
    }
  }

  /** The services that became enabled, and on the first run those whose status is recorded, outside `todo`. */
  predicate Started(i: Input, s: string, todo: set<string>) {
    s in i.cur.services && s !in todo && s !in i.tracked && !i.firstRun
  }

  predicate Learnt(i: Input, s: string, todo: set<string>) {
    s in i.cur.services && s !in todo && s !in i.tracked && i.firstRun
  }

  lemma {:induction false} ToggledAt(i: Input, s: string)
    ensures s in Toggled(i) <==> (s in i.tracked && !i.cur.Enabled(s)) || Started(i, s, {})
  {}

  lemma {:induction false} TrackedAt(i: Input, s: string)
    ensures s in Tracked(i) <==> s in i.tracked || Learnt(i, s, {})
    ensures s in Tracked(i) ==> Tracked(i)[s] == if s in i.tracked then i.tracked[s] else Status(i.cur.services[s])
  {
    hide Status;
  }

  ghost predicate CarryApplied(t: Table, now: Table, carried: Table, done: set<Id>) {
    && done <= carried.Keys
    && (forall id :: id in now <==> id in t || id in done)
    && forall id :: id in now ==> now[id] == if id in done then Retried(if id in t then t[id] else carried[id]) else t[id]
  }

  lemma {:induction false} AllCarryApplied(t: Table, now: Table, carried: Table)
    requires CarryApplied(t, now, carried, carried.Keys)
    ensures now == WithCarry(t, carried)
  {
    hide Retried;
  }

  class Builder {
    const i: Input
    var table: Table
    var sections: seq<SectionEntry>
    var tracked: map<string, string>
    var touched: set<string>
    /** The table before the section being compiled, and what the section has entered so far. */
    ghost var base: Table
    ghost var done: map<Id, Ask>

    constructor (i: Input)
      ensures this.i == i && table == map[] && sections == [] && tracked == i.tracked && touched == {}
    {
      this.i, table, sections, tracked, touched := i, map[], [], i.tracked, {};
    }

    method GuardAllDisabled() returns (stop: bool)
      ensures stop <==> AllDisabled(i)
    {
      if |i.tracked| <= 1 { return false; }
      var todo := i.tracked.Keys;
      while todo != {}
        invariant todo <= i.tracked.Keys
        invariant forall s :: s in i.tracked && s !in todo ==> !i.cur.Enabled(s)
        decreases |todo|
      {
        var svc :| svc in todo;
        if i.cur.Enabled(svc) { return false; }
        todo := todo - {svc};
      }
      return true;
    }

    /** `diffSection`. */
    method DiffSection(sn: string) returns (changes: seq<Reason>)
      requires sn in i.conf
      ensures changes == Changes(i, sn, i.conf[sn].requiredVars, SortedKeys(i.conf[sn].requiredVars.Keys))
    {
      hide SortedKeys, TrimBang;
      var vars := i.conf[sn].requiredVars;
      var keys := SortedKeys(vars.Keys);
      changes := [];
      for n := 0 to |keys|
        invariant changes == Changes(i, sn, vars, keys[..n])
      {
        var key := TrimBang(keys[n]);
        var was, now := i.prev.Observed(vars[keys[n]], key), i.cur.Observed(vars[keys[n]], key);
        assert keys[..n + 1][..n] == keys[..n];
        if now == "" {
          if was != "" { changes := changes + [ForVariable(sn, vars[keys[n]], key, was, now)]; }
        } else if was != now {
          changes := changes + [ForVariable(sn, vars[keys[n]], key, was, now)];
        }
      }
      assert keys[..|keys|] == keys;
    }

    /** `setPostconf`, `addRestart` and their kin: make or find the entry, set its value, add section and reasons. */
    method Enter(sn: string, id: Id, value: Value, reasons: seq<Reason>)
      requires table == PutAll(base, done, sn)
      requires id in done ==> done[id].reasons == reasons
      modifies this`table, this`done
      ensures table == PutAll(base, done, sn) && done == old(done)[id := Ask(value, reasons)]
    {
      hide PutAll, AddAll;
      PutOneMore(base, done, id, Ask(value, reasons), sn);
      FirstSection(sn);
      var e := if id in table then table[id] else Entry(id.name, Nothing, [], []);
      table := table[id := Entry(id.name, value, AddUnique(e.sections, sn), AddAll(e.reasons, reasons))];
      done := done[id := Ask(value, reasons)];
    }

    /** `healMapfiles`. */
    method HealMapfiles(sn: string, compared: bool)
      requires Considered(i, sn) && compared == Compared(i, sn)
      requires table == PutAll(base, done, sn) && Untouched(HealFile, done)
      modifies this`table, this`done
      ensures table == PutAll(base, done, sn) && Compiled(i, sn, HealFile, done) && SameElse({HealFile}, old(done), done)
    {
      hide PutAll, SortedKeys, TrimBang, SectionEnabled, SectionReasons, Compared, FilesUpTo, Holding, SameElse;
      var vars := i.conf[sn].requiredVars;
      var keys := SortedKeys(vars.Keys);
      AllFiles(vars, keys, "MAPFILE");
      NothingHeld(i, sn, HealFile, done);
      HealNames(i, sn);
      if !compared { return; }
      for n := 0 to |keys|
        invariant table == PutAll(base, done, sn) && SameElse({HealFile}, old(done), done)
        invariant Holding(i, sn, HealFile, FilesUpTo(vars, keys[..n], "MAPFILE"), done)
      {
        assert keys[n] in keys;
        FilesStep(vars, keys, n, "MAPFILE");
        if vars[keys[n]] != "MAPFILE" { continue; }
        var key := TrimBang(keys[n]);
        EnterOne(i, sn, HealFile, FilesUpTo(vars, keys[..n], "MAPFILE"), done, key);
        ghost var was := done;
        Enter(sn, Id(HealFile, key), Nothing, [Reason(MapfileSync, sn, "", key, "", "", "", "")]);
        SameTransitive({HealFile}, old(done), was, done);
      }
    }

    /** `mapfileOps`: the syncs of a changed section, remote and local. */
    method MapfileOps(sn: string, reasons: seq<Reason>)
      requires Processed(i, sn) && reasons == SectionReasons(i, sn) && (SectionChanges(i, sn) != [] || i.firstRun)
      requires table == PutAll(base, done, sn) && Untouched(SyncFile, done) && Untouched(CheckFile, done)
      modifies this`table, this`done
      ensures table == PutAll(base, done, sn) && SameElse({SyncFile, CheckFile}, old(done), done)
      ensures Compiled(i, sn, SyncFile, done) && Compiled(i, sn, CheckFile, done)
    {
      hide PutAll, SortedKeys, TrimBang, SectionEnabled, SectionReasons, SectionChanges, FilesUpTo, Holding, SameElse, VarsOf,
           NamesAsked, AskValue, AskReasons;
      var vars := i.conf[sn].requiredVars;
      var keys := SortedKeys(vars.Keys);
      AllFiles(vars, keys, "MAPFILE");
      AllFiles(vars, keys, "MAPLOCAL");
      NothingHeld(i, sn, SyncFile, done);
      NothingHeld(i, sn, CheckFile, done);
      SameWider({SyncFile}, {SyncFile, CheckFile}, done, done);
      FileNames(i, sn);
      for n := 0 to |keys|
        invariant table == PutAll(base, done, sn) && SameElse({SyncFile, CheckFile}, old(done), done)
        invariant Holding(i, sn, SyncFile, FilesUpTo(vars, keys[..n], "MAPFILE"), done)
        invariant Holding(i, sn, CheckFile, FilesUpTo(vars, keys[..n], "MAPLOCAL"), done)
      {
        assert keys[n] in keys;
        var typ, key := vars[keys[n]], TrimBang(keys[n]);
        FilesStep(vars, keys, n, "MAPFILE");
        FilesStep(vars, keys, n, "MAPLOCAL");
        if typ != "MAPFILE" && typ != "MAPLOCAL" { continue; }
        var kind := if typ == "MAPLOCAL" then CheckFile else SyncFile;
        EnterOne(i, sn, kind, FilesUpTo(vars, keys[..n], typ), done, key);
        ghost var was := done;
        Enter(sn, Id(kind, key), Nothing, reasons);
        SameHolding(i, sn, if kind == SyncFile then CheckFile else SyncFile,
                    FilesUpTo(vars, keys[..n], if kind == SyncFile then "MAPLOCAL" else "MAPFILE"), {kind}, was, done);
        SameWider({kind}, {SyncFile, CheckFile}, was, done);
        SameTransitive({SyncFile, CheckFile}, old(done), was, done);
      }
    }

    /** `compileRewrites`. */
    method CompileRewrites(sn: string, reasons: seq<Reason>)
      requires Processed(i, sn) && reasons == SectionReasons(i, sn)
      requires table == PutAll(base, done, sn) && Untouched(RewriteFile, done)
      modifies this`table, this`done
      ensures table == PutAll(base, done, sn) && Compiled(i, sn, RewriteFile, done) && SameElse({RewriteFile}, old(done), done)
    {
      hide PutAll, SortedKeys, SectionEnabled, SectionReasons, Holding, SameElse, NamesAsked, AskValue, AskReasons;
      var rewrites := i.conf[sn].rewrites;
      var sources := SortedKeys(rewrites.Keys);
      NothingHeld(i, sn, RewriteFile, done);
      ListNames(i, sn);
      NoKeys(sources);
      for n := 0 to |sources|
        invariant table == PutAll(base, done, sn) && SameElse({RewriteFile}, old(done), done)
        invariant Holding(i, sn, RewriteFile, KeysUpTo(sources[..n]), done)
      {
        var src := sources[n];
        assert src in sources;
        KeysStep(sources, n);
        EnterOne(i, sn, RewriteFile, KeysUpTo(sources[..n]), done, src);
        ghost var was := done;
        Enter(sn, Id(RewriteFile, src), File(rewrites[src].path, rewrites[src].mode), reasons);
        SameTransitive({RewriteFile}, old(done), was, done);
      }
      assert KeysUpTo(sources) == rewrites.Keys;
    }

    /** The loops over `setPostconf` and `setPostconfd`: later lines of a key replace earlier ones. */
    method SetLines(sn: string, kind: Kind, lines: map<string, string>, reasons: seq<Reason>, ghost before: map<string, string>)
      requires table == PutAll(base, done, sn) && HoldingLines(kind, before, reasons, done)
      modifies this`table, this`done
      ensures table == PutAll(base, done, sn) && SameElse({kind}, old(done), done)
      ensures HoldingLines(kind, before + lines, reasons, done)
    {
      hide PutAll, SortedKeys, OneLine, HoldingLines, SameElse, Over;
      var keys := SortedKeys(lines.Keys);
      SameHere({kind}, done);
      OverAll(before, lines, keys);
      for n := 0 to |keys|
        invariant table == PutAll(base, done, sn) && SameElse({kind}, old(done), done)
        invariant HoldingLines(kind, Over(before, lines, keys[..n]), reasons, done)
      {
        assert keys[n] in keys;
        OverStep(before, lines, keys, n);
        EnterLine(kind, Over(before, lines, keys[..n]), reasons, done, keys[n], lines[keys[n]]);
        ghost var was := done;
        Enter(sn, Id(kind, keys[n]), Text(OneLine(lines[keys[n]])), reasons);
        SameTransitive({kind}, old(done), was, done);
      }
    }

    /** `conditionHolds`. */
    method ConditionHolds(c: Conditional) returns (holds: bool)
      ensures holds == Holds(c, i.cur)
    {
      hide IsFalse;
      var key, negate := c.key, false;
      if key != "" && key[0] == '!' { negate, key := true, key[1..]; }
      var v := i.cur.Value(c.typ, key);
      if v.Some? {
        holds := !IsFalse(v.value) != negate;
      } else {
        holds := negate;
      }
      if c.negated { holds := !holds; }
    }

    /** The POSTCONF and POSTCONFD lines of the section, and of the if blocks that hold. */
    method CompileParams(sn: string, reasons: seq<Reason>)
      requires Processed(i, sn) && reasons == SectionReasons(i, sn)
      requires table == PutAll(base, done, sn) && Untouched(SetParam, done) && Untouched(DropParam, done)
      modifies this`table, this`done
      ensures table == PutAll(base, done, sn) && SameElse({SetParam, DropParam}, old(done), done)
      ensures Compiled(i, sn, SetParam, done) && Compiled(i, sn, DropParam, done)
    {
      hide PutAll, SectionEnabled, SectionReasons, Holds, HoldingLines, SameElse, NamesAsked, Holding, Params, Untouched;
      var sec := i.conf[sn];
      var blocks := sec.conditionals;
      NoLines(SetParam, reasons, done);
      NoLines(DropParam, reasons, done);
      NoBlocks(sec.postconf, sec.postconfd, blocks, i.cur);
      assert map[] + sec.postconf == sec.postconf && map[] + sec.postconfd == sec.postconfd;
      SetBoth(sn, sec.postconf, sec.postconfd, reasons, map[], map[]);
      for n := 0 to |blocks|
        invariant table == PutAll(base, done, sn) && SameElse({SetParam, DropParam}, old(done), done)
        invariant HoldingLines(SetParam, Params(sec.postconf, blocks[..n], i.cur, false), reasons, done)
        invariant HoldingLines(DropParam, Params(sec.postconfd, blocks[..n], i.cur, true), reasons, done)
      {
        ParamsStep(sec.postconf, blocks, n, i.cur, false);
        ParamsStep(sec.postconfd, blocks, n, i.cur, true);
        var holds := ConditionHolds(blocks[n]);
        if holds {
          ghost var was := done;
          SetBoth(sn, blocks[n].postconf, blocks[n].postconfd, reasons,
                  Params(sec.postconf, blocks[..n], i.cur, false), Params(sec.postconfd, blocks[..n], i.cur, true));
          SameTransitive({SetParam, DropParam}, old(done), was, done);
        }
      }
      LinesAreCompiled(i, sn, false, done);
      LinesAreCompiled(i, sn, true, done);
    }

    method SetBoth(sn: string, set_: map<string, string>, drop: map<string, string>, reasons: seq<Reason>,
                   ghost setBefore: map<string, string>, ghost dropBefore: map<string, string>)
      requires table == PutAll(base, done, sn)
      requires HoldingLines(SetParam, setBefore, reasons, done) && HoldingLines(DropParam, dropBefore, reasons, done)
      modifies this`table, this`done
      ensures table == PutAll(base, done, sn) && SameElse({SetParam, DropParam}, old(done), done)
      ensures HoldingLines(SetParam, setBefore + set_, reasons, done) && HoldingLines(DropParam, dropBefore + drop, reasons, done)
    {
      hide PutAll, HoldingLines, SameElse;
      SetLines(sn, SetParam, set_, reasons, setBefore);
      ghost var mid := done;
      SameLines(DropParam, dropBefore, reasons, {SetParam}, old(done), mid);
      SetLines(sn, DropParam, drop, reasons, dropBefore);
      SameLines(SetParam, setBefore + set_, reasons, {DropParam}, mid, done);
      SameWider({SetParam}, {SetParam, DropParam}, old(done), mid);
      SameWider({DropParam}, {SetParam, DropParam}, mid, done);
      SameTransitive({SetParam, DropParam}, old(done), mid, done);
    }

    method CompileProxygen(sn: string, reasons: seq<Reason>)
      requires Processed(i, sn) && reasons == SectionReasons(i, sn)
      requires table == PutAll(base, done, sn) && Untouched(Proxygen, done)
      modifies this`table, this`done
      ensures table == PutAll(base, done, sn) && Compiled(i, sn, Proxygen, done) && SameElse({Proxygen}, old(done), done)
    {
      hide PutAll, SectionEnabled, SectionReasons, Holding, SameElse, NamesAsked, AskValue, AskReasons;
      NothingHeld(i, sn, Proxygen, done);
      ListNames(i, sn);
      if i.conf[sn].proxygen {
        EnterOne(i, sn, Proxygen, {}, done, "");
        Enter(sn, Id(Proxygen, ""), Nothing, reasons);
        assert {} + {""} == {""};
      }
    }

    /** `compileLdap`: an empty value means no change. */
    method CompileLdap(sn: string, reasons: seq<Reason>)
      requires Processed(i, sn) && reasons == SectionReasons(i, sn)
      requires table == PutAll(base, done, sn) && Untouched(WriteLdap, done)
      modifies this`table, this`done
      ensures table == PutAll(base, done, sn) && Compiled(i, sn, WriteLdap, done) && SameElse({WriteLdap}, old(done), done)
    {
      hide PutAll, SortedKeys, SectionEnabled, SectionReasons, Holding, SameElse, NamesAsked, AskValue, AskReasons, ValuesUpTo;
      var ldap := i.conf[sn].ldap;
      var keys := SortedKeys(ldap.Keys);
      NothingHeld(i, sn, WriteLdap, done);
      ListNames(i, sn);
      AllValues(ldap, keys);
      for n := 0 to |keys|
        invariant table == PutAll(base, done, sn) && SameElse({WriteLdap}, old(done), done)
        invariant Holding(i, sn, WriteLdap, ValuesUpTo(ldap, keys[..n]), done)
      {
        var key := keys[n];
        assert key in keys;
        ValuesStep(ldap, keys, n);
        if ldap[key] == "" { continue; }
        EnterOne(i, sn, WriteLdap, ValuesUpTo(ldap, keys[..n]), done, key);
        ghost var was := done;
        Enter(sn, Id(WriteLdap, key), Text(ldap[key]), reasons);
        SameTransitive({WriteLdap}, old(done), was, done);
      }
    }

    /** `compileSectionRestarts`: restart an enabled service, stop a disabled one, with the two exceptions. */
    method CompileSectionRestarts(sn: string, kind: Kind, reasons: seq<Reason>)
      requires sn in i.conf && (kind == RestartNow || kind == RestartLater) && Processed(i, sn)
      requires forall n :: AskReasons(i, sn, kind, n) == reasons
      requires table == PutAll(base, done, sn) && Untouched(kind, done)
      modifies this`table, this`done
      ensures table == PutAll(base, done, sn) && SameElse({kind}, old(done), done)
      ensures Holding(i, sn, kind, Acted(i.conf[sn], i.cur), done)
    {
      hide PutAll, SortedKeys, SectionEnabled, SectionReasons, Holding, SameElse, NamesAsked, AskValue, AskReasons, ActedUpTo, ToLower, Acted;
      var services := SortedKeys(i.conf[sn].restarts);
      NothingHeld(i, sn, kind, done);
      RestartNames(i, sn);
      AllActed(i.conf[sn], services, i.cur);
      for n := 0 to |services|
        invariant table == PutAll(base, done, sn) && SameElse({kind}, old(done), done)
        invariant Holding(i, sn, kind, ActedUpTo(services[..n], i.cur), done)
      {
        var name := ToLower(services[n]);
        ActedStep(services, n, i.cur);
        EnterOne(i, sn, kind, ActedUpTo(services[..n], i.cur), done, name);
        ghost var was := done;
        if i.cur.Enabled(name) {
          Enter(sn, Id(kind, name), Service(Restart), reasons);
        } else if name == "archiving" {
          // never stopped here when disabled
          continue;
        } else if name == "opendkim" && i.cur.Enabled("mta") {
          Enter(sn, Id(kind, name), Service(Restart), reasons);
        } else {
          Enter(sn, Id(kind, name), Service(Stop), reasons);
        }
        SameTransitive({kind}, old(done), was, done);
      }
    }

    /** `varChanges`. */
    method CollectVarChanges(reasons: seq<Reason>) returns (changes: seq<Reason>)
      ensures changes == VarChanges(reasons)
    {
      changes := [];
      for n := 0 to |reasons|
        invariant changes == VarChanges(reasons[..n])
      {
        assert reasons[..n + 1][..n] == reasons[..n];
        if reasons[n].kind == VarChanged { changes := changes + [reasons[n]]; }
      }
      assert reasons[..|reasons|] == reasons;
    }

    /** `compileRestarts`: now, later, or not at all. */
    method CompileRestarts(sn: string, reasons: seq<Reason>)
      requires Processed(i, sn) && reasons == SectionReasons(i, sn)
      requires table == PutAll(base, done, sn) && Untouched(RestartNow, done) && Untouched(RestartLater, done)
      modifies this`table, this`done
      ensures table == PutAll(base, done, sn) && SameElse({RestartNow, RestartLater}, old(done), done)
      ensures Compiled(i, sn, RestartNow, done) && Compiled(i, sn, RestartLater, done)
    {
      hide PutAll, SectionEnabled, SectionReasons, SectionChanges, Holding, SameElse, NamesAsked, AskValue, AskReasons, VarChanges, Acted;
      NothingHeld(i, sn, RestartNow, done);
      NothingHeld(i, sn, RestartLater, done);
      SameWider({RestartNow}, {RestartNow, RestartLater}, done, done);
      RestartNames(i, sn);
      if i.firstRun { return; }
      ghost var was := done;
      if sn !in i.forced && sn !in i.requested {
        CompileSectionRestarts(sn, RestartNow, reasons);
        SameHolding(i, sn, RestartLater, {}, {RestartNow}, was, done);
        SameWider({RestartNow}, {RestartNow, RestartLater}, was, done);
        return;
      }
      SectionVarChanges(i, sn);
      var changes := CollectVarChanges(reasons);
      if |changes| == 0 { return; }
      CompileSectionRestarts(sn, RestartLater, changes + [ForSection(Deferred, sn)]);
      SameHolding(i, sn, RestartNow, {}, {RestartLater}, was, done);
      SameWider({RestartLater}, {RestartNow, RestartLater}, was, done);
    }
    /** `compileSection`. */
    method CompileSection(sn: string, reasons: seq<Reason>)
      requires Processed(i, sn) && reasons == SectionReasons(i, sn)
      requires table == PutAll(base, done, sn) && Progress(i, sn, {HealFile, SyncFile, CheckFile}, done)
      modifies this`table, this`done
      ensures table == PutAll(base, done, sn) && Progress(i, sn, ALL_KINDS, done)
    {
      hide PutAll, SectionEnabled, SectionReasons, Compiled, SameElse, Untouched;
      ghost var kinds, was := {HealFile, SyncFile, CheckFile}, done;
      CompileRewrites(sn, reasons);
      ProgressStep(i, sn, kinds, {RewriteFile}, was, done);
      kinds, was := kinds + {RewriteFile}, done;
      CompileParams(sn, reasons);
      ProgressStep(i, sn, kinds, {SetParam, DropParam}, was, done);
      kinds, was := kinds + {SetParam, DropParam}, done;
      CompileProxygen(sn, reasons);
      ProgressStep(i, sn, kinds, {Proxygen}, was, done);
      kinds, was := kinds + {Proxygen}, done;
      CompileLdap(sn, reasons);
      ProgressStep(i, sn, kinds, {WriteLdap}, was, done);
      kinds, was := kinds + {WriteLdap}, done;
      CompileRestarts(sn, reasons);
      ProgressStep(i, sn, kinds, {RestartNow, RestartLater}, was, done);
      assert kinds + {RestartNow, RestartLater} == ALL_KINDS;
    }

    /** `sectionReasons`. */
    method ReasonsFor(sn: string, changes: seq<Reason>) returns (reasons: seq<Reason>)
      requires sn in i.conf && changes == SectionChanges(i, sn)
      ensures reasons == SectionReasons(i, sn)
    {
      hide SectionChanges;
      reasons := [];
      if sn in i.forced { reasons := reasons + [ForSection(Forced, sn)]; }
      if sn in i.requested { reasons := reasons + [ForSection(Requested, sn)]; }
      if i.firstRun { reasons := reasons + [ForSection(FirstRun, sn)]; } else { reasons := reasons + changes; }
      if i.assumeChanged { reasons := reasons + [ForSection(Evaluated, sn)]; }
    }

    /** The mapped files of a processed section, when it changed. */
    method CompileFiles(sn: string, changed: bool, reasons: seq<Reason>)
      requires Processed(i, sn) && reasons == SectionReasons(i, sn) && (changed <==> SectionChanges(i, sn) != [])
      requires table == PutAll(base, done, sn) && Progress(i, sn, {HealFile}, done)
      modifies this`table, this`done
      ensures table == PutAll(base, done, sn) && Progress(i, sn, {HealFile, SyncFile, CheckFile}, done)
    {
      hide PutAll, SectionEnabled, SectionReasons, SectionChanges, Progress, Compiled, SameElse, Untouched, NamesAsked, VarsOf;
      ghost var was := done;
      if changed || i.firstRun {
        FilesUntouched(i, sn, done);
        MapfileOps(sn, reasons);
        ProgressStep(i, sn, {HealFile}, {SyncFile, CheckFile}, was, done);
      } else {
        FileNames(i, sn);
        ProgressNone(i, sn, {HealFile}, {SyncFile, CheckFile}, done);
      }
      assert {HealFile} + {SyncFile, CheckFile} == {HealFile, SyncFile, CheckFile};
    }

    /** The start of a turn of the section loop: compare the section, if it is compared, and heal its mapped files. */
    method BeginSection(sn: string) returns (changes: seq<Reason>)
      requires Considered(i, sn)
      modifies this`table, this`base, this`done
      ensures base == old(table) && changes == SectionChanges(i, sn)
      ensures table == PutAll(base, done, sn) && Progress(i, sn, {HealFile}, done)
    {
      hide PutAll, SectionEnabled, Changes, SortedKeys, Progress, Compiled, SameElse, Untouched, NamesAsked;
      base, done := table, map[];
      PutNothing(table, sn);
      NoProgress(i, sn);
      HealUntouched(i, sn, done);
      var compared := i.forced == {} || sn in i.forced;
      changes := [];
      if compared { changes := DiffSection(sn); }
      ghost var was := done;
      HealMapfiles(sn, compared);
      ProgressStep(i, sn, {}, {HealFile}, was, done);
      assert {} + {HealFile} == {HealFile};
    }

    /** One turn of the section loop. */
    method ProcessSection(sn: string)
      requires Considered(i, sn)
      modifies this`table, this`sections, this`base, this`done
      ensures table == PutAll(old(table), Asks(i, sn), sn)
      ensures sections == old(sections) + if SectionReasons(i, sn) != [] then [SectionEntry(sn, SectionReasons(i, sn))] else []
    {
      hide PutAll, SectionEnabled, SectionReasons, SectionChanges, Progress, Asks;
      var changes := BeginSection(sn);
      var reasons := ReasonsFor(sn, changes);
      if |reasons| == 0 {
        UnprocessedIsDone(i, sn, done);
      } else {
        sections := sections + [SectionEntry(sn, reasons)];
        CompileFiles(sn, |changes| > 0, reasons);
        CompileSection(sn, reasons);
      }
      AllProgress(i, sn, done);
    }

    /** `processSections`: in section order, so that later sections win conflicts. */
    method ProcessSections()
      requires table == map[] && sections == []
      modifies this`table, this`sections, this`base, this`done
      ensures table == Gather(AllAsks(i), SortedKeys(i.conf.Keys)) && sections == Listed(i, SortedKeys(i.conf.Keys))
    {
      hide SortedKeys, PutAll, Asks, SectionReasons, Considered, Gather, Listed, AllAsks;
      var names := SortedKeys(i.conf.Keys);
      NoSections(i, names);
      for n := 0 to |names|
        invariant table == Gather(AllAsks(i), names[..n]) && sections == Listed(i, names[..n])
      {
        var sn := names[n];
        assert sn in names;
        OneMoreSection(i, names, n);
        if Considered(i, sn) {
          ProcessSection(sn);
        } else {
          NothingToPut(i, sn, table);
        }
      }
    }

    method Stops() returns (stops: map<string, (Action, Reason)>)
      ensures forall s :: s in stops <==> s in i.tracked && !i.cur.Enabled(s)
      ensures forall s :: s in stops ==> stops[s] == (Stop, ForService(ServiceDisabled, s))
    {
      stops := map[];
      var todo := i.tracked.Keys;
      while todo != {}
        invariant todo <= i.tracked.Keys
        invariant forall s :: s in stops <==> s in i.tracked && s !in todo && !i.cur.Enabled(s)
        invariant forall s :: s in stops ==> stops[s] == (Stop, ForService(ServiceDisabled, s))
        decreases |todo|
      {
        var svc :| svc in todo;
        if !i.cur.Enabled(svc) { stops := stops[svc := (Stop, ForService(ServiceDisabled, svc))]; }
        todo := todo - {svc};
      }
    }

    /** `serviceToggles`: stops and starts, and on the first run the status of services not tracked yet. */
    method ServiceToggles() returns (toggles: map<string, (Action, Reason)>)
      requires tracked == i.tracked
      modifies this`tracked
      ensures toggles.Keys == Toggled(i) && forall s :: s in toggles ==> toggles[s] == ToggleOf(i, s)
      ensures tracked == Tracked(i)
    {
      hide Toggled, Tracked, ForService, Status;
      toggles := Stops();
      var stops, todo := toggles, i.cur.services.Keys;
      while todo != {}
        invariant todo <= i.cur.services.Keys
        invariant forall s :: s in toggles <==> s in stops || Started(i, s, todo)
        invariant forall s :: s in toggles ==> toggles[s] == ToggleOf(i, s)
        invariant forall s :: s in tracked <==> s in i.tracked || Learnt(i, s, todo)
        invariant forall s :: s in tracked ==> tracked[s] == if s in i.tracked then i.tracked[s] else Status(i.cur.services[s])
        decreases |todo|
      {
        var svc :| svc in todo;
        if svc !in i.tracked {
          if i.firstRun {
            tracked := tracked[svc := Status(i.cur.services[svc])];
          } else {
            toggles := toggles[svc := (Start, ForService(ServiceEnabled, svc))];
          }
        }
        todo := todo - {svc};
      }
      forall s ensures s in toggles <==> s in Toggled(i) { ToggledAt(i, s); }
      forall s ensures (s in tracked <==> s in Tracked(i)) && (s in tracked ==> tracked[s] == Tracked(i)[s]) { TrackedAt(i, s); }
    }

    /** `trackServices`: a restart a section asked for wins over the toggle of its service. */
    method TrackServices()
      requires tracked == i.tracked
      modifies this`table, this`tracked
      ensures table == WithToggles(old(table), i) && tracked == Tracked(i)
    {
      hide Toggled, Tracked, AddUnique, WithToggles, TogglesApplied, ToggleOf;
      var toggles := ServiceToggles();
      var todo := toggles.Keys;
      NoTogglesApplied(table, i);
      while todo != {}
        invariant todo <= toggles.Keys && TogglesApplied(old(table), table, i, toggles.Keys - todo)
        invariant tracked == Tracked(i)
        decreases |todo|
      {
        var svc :| svc in todo;
        ToggleStep(old(table), table, i, toggles.Keys - todo, svc);
        assert toggles.Keys - (todo - {svc}) == toggles.Keys - todo + {svc};
        var id := Id(RestartNow, svc);
        if id in table {
          table := table[id := table[id].(reasons := AddUnique(table[id].reasons, toggles[svc].1))];
        } else {
          table := table[id := Entry(svc, Service(toggles[svc].0), [], [toggles[svc].1])];
        }
        todo := todo - {svc};
      }
      assert toggles.Keys - todo == toggles.Keys;
      AllTogglesApplied(old(table), table, i);
    }

    /** `mergeCarry`: what was not completed is planned again, marked as a retry. */
    method MergeCarry()
      modifies this`table
      ensures table == WithCarriedRestarts(WithCarry(old(table), i.carry.actions), i.carry.restarts)
    {
      hide Retried, WithCarry;
      var carried := i.carry.actions;
      var todo := carried.Keys;
      while todo != {}
        invariant todo <= carried.Keys && CarryApplied(old(table), table, carried, carried.Keys - todo)
        decreases |todo|
      {
        var id :| id in todo;
        table := table[id := Retried(if id in table then table[id] else carried[id])];
        todo := todo - {id};
      }
      assert carried.Keys - todo == carried.Keys;
      AllCarryApplied(old(table), table, carried);
      ghost var start := table;
      var restarts := i.carry.restarts;
      for n := 0 to |restarts|
        invariant table == WithCarriedRestarts(start, restarts[..n])
      {
        assert restarts[..n + 1][..n] == restarts[..n];
        var id := Id(RestartNow, restarts[n].key);
        table := table[id := Retried(if id in table then table[id] else AsEntry(restarts[n]))];
      }
      assert restarts[..|restarts|] == restarts;
    }

    /** `keep`: a drift text becomes the reason of the action, and its sections are remembered. */
    method Keep(drift: string, names: seq<string>) returns (reasons: seq<Reason>, ok: bool)
      modifies this`touched
      ensures ok <==> drift != ""
      ensures ok ==> reasons == [ForDrift(drift)]
      ensures touched == old(touched) + if drift == "" then {} else Elements(names)
    {
      if drift == "" { return [], false; }
      for n := 0 to |names|
        invariant touched == old(touched) + Elements(names[..n])
      {
        assert names[..n + 1] == names[..n] + [names[n]];
        touched := touched + {names[n]};
      }
      assert names[..|names|] == names;
      return [ForDrift(drift)], true;
    }

    /** The first loop of `pruneMapfiles`: out-of-date heals become syncs, or renew the reason of the sync there is. */
    method MoveHeals(h: Host)
      modifies this`table, this`touched
      ensures HealsMoved(old(table), h, {}, table)
      ensures touched == old(touched) + Marked(old(table), h, {HealFile})
    {
      hide DriftText, HealsMoved, MarkedSoFar, Marked;
      ghost var t, before := table, touched;
      var todo := set id | id in table && id.kind == HealFile;
      NoHealMoved(t, h, todo);
      NothingMarked(t, h, {HealFile}, todo, before);
      while todo != {}
        invariant todo <= t.Keys && forall id :: id in todo ==> id.kind == HealFile
        invariant HealsMoved(t, h, todo, table) && MarkedSoFar(t, h, {HealFile}, todo, before, touched)
        decreases |todo|
      {
        var id :| id in todo;
        HealStep(t, h, todo, table, id);
        MarkStep(t, h, {HealFile}, todo, before, touched, id);
        var reasons, ok := Keep(DriftText(h, id), table[id].sections);
        if ok {
          var sync := Id(SyncFile, id.name);
          if sync in table {
            table := table[sync := table[sync].(reasons := reasons)];
          } else {
            table := table[sync := table[id].(reasons := reasons)];
          }
        }
        todo := todo - {id};
      }
      AllMarked(t, h, {HealFile}, before, touched);
    }

    /** A pruning loop over some lists, in any order: keep and mark, or delete. */
    method PruneLists(h: Host, kinds: set<Kind>, marks: bool)
      modifies this`table, this`touched
      ensures Filtered(old(table), h, kinds, {}, table)
      ensures touched == old(touched) + if marks then Marked(old(table), h, kinds) else {}
    {
      hide DriftText, MarkedSoFar, Marked, Filtered;
      ghost var t, before := table, touched;
      var todo := set id | id in table && id.kind in kinds;
      NothingFiltered(t, h, kinds, todo);
      NothingMarked(t, h, kinds, todo, before);
      while todo != {}
        invariant todo <= t.Keys && forall id :: id in todo ==> id.kind in kinds
        invariant Filtered(t, h, kinds, todo, table)
        invariant if marks then MarkedSoFar(t, h, kinds, todo, before, touched) else touched == before
        decreases |todo|
      {
        var id :| id in todo;
        FilterStep(t, h, kinds, todo, table, id);
        if marks { MarkStep(t, h, kinds, todo, before, touched, id); }
        var reasons, ok := Keep(DriftText(h, id), if marks then table[id].sections else []);
        if ok {
          table := table[id := table[id].(reasons := reasons)];
        } else {
          table := table - {id};
        }
        todo := todo - {id};
      }
      if marks { AllMarked(t, h, kinds, before, touched); }
    }

    /** The restart loop of `pruneToHost`. */
    method PruneRestarts()
      modifies this`table
      ensures RestartsPruned(old(table), touched, {}, table)
    {
      hide Meets, JoinWith;
      ghost var t := table;
      var todo := set id | id in table && id.kind == RestartNow;
      while todo != {}
        invariant todo <= t.Keys && forall id :: id in todo ==> id.kind == RestartNow
        invariant RestartsPruned(t, touched, todo, table)
        decreases |todo|
      {
        var id :| id in todo;
        if !Meets(table[id].sections, touched) {
          table := table - {id};
        } else {
          table := table[id := table[id].(reasons :=
            [ForDrift("configuration of section " + JoinWith(table[id].sections) + " would change")])];
        }
        todo := todo - {id};
      }
    }

    /** The loops that keep or delete: mapped files, files and the proxy generator, directives. */
    method PruneActions(h: Host)
      modifies this`table, this`touched
      ensures Filtered(old(table), h, MARKING + {WriteLdap}, {}, table)
      ensures touched == old(touched) + Marked(old(table), h, MARKING)
    {
      hide Filtered, Marked;
      ghost var t := table;
      PruneLists(h, {SyncFile, CheckFile}, true);
      ghost var files := table;
      PruneLists(h, {RewriteFile, Proxygen}, true);
      ghost var directives := table;
      FilterBoth(t, files, directives, h, {SyncFile, CheckFile}, {RewriteFile, Proxygen});
      PruneLists(h, {SetParam, DropParam}, true);
      ghost var ldap := table;
      FilterBoth(t, directives, ldap, h, {SyncFile, CheckFile} + {RewriteFile, Proxygen}, {SetParam, DropParam});
      assert {SyncFile, CheckFile} + {RewriteFile, Proxygen} + {SetParam, DropParam} == MARKING;
      PruneLists(h, {WriteLdap}, false);
      FilterBoth(t, ldap, table, h, MARKING, {WriteLdap});
    }

    /** `pruneToHost`: keep what the host says is out of date, and what follows from it. */
    method PruneToHost()
      requires touched == {}
      modifies this`table, this`sections, this`touched
      ensures i.host.None? ==> table == old(table) && sections == old(sections)
      ensures i.host.Some? ==>
                && table == Pruned(old(table), i.host.value)
                && touched == TouchedSections(old(table), i.host.value)
                && sections == KeepTouched(old(sections), TouchedSections(old(table), i.host.value))
    {
      hide Pruned, TouchedSections, HealsMoved, Filtered, RestartsPruned, Marked, KeepTouched;
      if i.host.None? { return; }
      var h := i.host.value;
      ghost var t := table;
      MoveHeals(h);
      ghost var moved := table;
      table := table - set id | id in table && id.kind == HealFile;
      assert table == moved - KindIds(moved, HealFile);
      PruneActions(h);
      FilterSections();
      ghost var rest := table;
      table := table - set id | id in table && id.kind == RestartLater;
      assert table == rest - KindIds(rest, RestartLater);
      PruneRestarts();
      LoopsPrune(t, h, moved, rest, table, touched);
    }

    method FilterSections()
      modifies this`sections
      ensures sections == KeepTouched(old(sections), touched)
    {
      var left: seq<SectionEntry> := [];
      for n := 0 to |sections|
        invariant sections == old(sections) && left == KeepTouched(sections[..n], touched)
      {
        assert sections[..n + 1][..n] == sections[..n];
        if sections[n].name in touched { left := left + [sections[n]]; }
      }
      assert sections[..|sections|] == sections;
      sections := left;
    }
  }

  /** `Compute`: the builder's five steps, and the sorted lists of the finished plan. */
  method ComputePlan(i: Input) returns (r: Outcome)
    ensures r == Compute(i)
    ensures r.AllServicesDisabled? <==> |i.tracked| > 1 && i.tracked.Keys !! i.cur.services.Keys
    ensures r.Planned? && i.host.None? && i.carry == NO_CARRY ==> PlanMeaning.RightActions(i, r.plan)
  {
    hide PlanMeaning.RightActions, AllDisabled, Gather, AllAsks, SortedKeys, WithToggles, WithCarry, WithCarriedRestarts, Toggled, Tracked, Listed,
      Pruned, TouchedSections, KeepTouched, Collect, Actions, ClassifiedAll;
    PlanMeaning.RefusedIff(i);
    if i.host.None? && i.carry == NO_CARRY { PlanMeaning.PlanIsRight(i); }
    var b := new Builder(i);
    var stop := b.GuardAllDisabled();
    if stop { return AllServicesDisabled; }
    b.ProcessSections();
    b.TrackServices();
    b.MergeCarry();
    b.PruneToHost();
    return Planned(CyclePlan(i.firstRun, b.sections, Actions(b.table), ClassifiedAll(Collect(b.table, RestartNow), i.systemd),
                             ClassifiedAll(Collect(b.table, RestartLater), i.systemd), b.tracked, SortedKeys(i.cur.services.Keys)));
  }

  lemma {:induction false} NoSections(i: Input, names: seq<string>)
    requires forall n :: n in names ==> n in i.conf
    ensures Gather(AllAsks(i), names[..0]) == map[] && Listed(i, names[..0]) == [] && names[..|names|] == names
  {
    hide AllAsks;
  }

  lemma {:induction false} OneMoreSection(i: Input, names: seq<string>, n: nat)
    requires n < |names| && forall x :: x in names ==> x in i.conf
    ensures Gather(AllAsks(i), names[..n + 1]) == PutAll(Gather(AllAsks(i), names[..n]), Asks(i, names[n]), names[n])
    ensures Listed(i, names[..n + 1]) ==
            Listed(i, names[..n]) +
            if Considered(i, names[n]) && SectionReasons(i, names[n]) != [] then [SectionEntry(names[n], SectionReasons(i, names[n]))] else []
  {
    hide PutAll, Asks, SectionReasons, Considered;
    assert names[..n + 1][..n] == names[..n] && names[..n + 1][n] == names[n] && names[n] in names;
  }

  /** A section that is not considered asks for nothing. */
  lemma {:induction false} NothingToPut(i: Input, sn: string, t: Table)
    requires sn in i.conf && !Considered(i, sn)
    ensures PutAll(t, Asks(i, sn), sn) == t
  {
    hide Considered, PutAll, AskValue, AskReasons, Asks;
    assert Asks(i, sn).Keys == {} by {
      forall id ensures id !in Asks(i, sn) { AsksMembership(i, sn, id); }
    }
    assert Asks(i, sn) == map[];
    PutNothing(t, sn);
  }
}
