/** What a computed plan contains, exactly: which sections it lists, which actions and which restarts. */
module PlannerFacts {
  import opened Order
  import opened Options
  import opened Plan
  import opened Planner

  /////////// Tables ///////////

  ghost predicate AsksFor(asks: map<string, map<Id, Ask>>, sn: string, id: Id) {
    sn in asks && id in asks[sn]
  }

  lemma {:induction false} GatherKeys(asks: map<string, map<Id, Ask>>, names: seq<string>, id: Id)
    ensures id in Gather(asks, names) <==> exists sn :: sn in names && AsksFor(asks, sn, id)
  {
    if names != [] {
      var init, sn := names[..|names| - 1], names[|names| - 1];
      assert names == init + [sn];
      GatherKeys(asks, init, id);
      assert AsksFor(asks, sn, id) ==> sn in names;
      assert forall x :: x in names <==> x in init || x == sn;
    }
  }

  /** The sections of `names` that ask for `id`, in order. */
  ghost function Askers(asks: map<string, map<Id, Ask>>, names: seq<string>, id: Id): seq<string> {
    if names == [] then []
    else
      var init, sn := names[..|names| - 1], names[|names| - 1];
      Askers(asks, init, id) + (if AsksFor(asks, sn, id) then [sn] else [])
  }

  lemma {:induction false} AskersExact(asks: map<string, map<Id, Ask>>, names: seq<string>, id: Id)
    ensures forall sn :: sn in Askers(asks, names, id) <==> sn in names && AsksFor(asks, sn, id)
  {
    if names != [] {
      var init, sn := names[..|names| - 1], names[|names| - 1];
      assert names == init + [sn];
      AskersExact(asks, init, id);
    }
  }

  ghost function ReasonsOf(asks: map<string, map<Id, Ask>>, askers: seq<string>, id: Id): seq<Reason> {
    if askers == [] then []
    else
      var before, sn := ReasonsOf(asks, askers[..|askers| - 1], id), askers[|askers| - 1];
      if AsksFor(asks, sn, id) then AddAll(before, asks[sn][id].reasons) else before
  }

  /** An action lists exactly the sections that ask for it, in section order, with the value of the last one and
      the union of their reasons. */
  ghost predicate Exact(asks: map<string, map<Id, Ask>>, who: seq<string>, id: Id, e: Entry) {
    && who != [] && AsksFor(asks, who[|who| - 1], id)
    && e == Entry(id.name, asks[who[|who| - 1]][id].value, who, ReasonsOf(asks, who, id))
  }

  lemma {:induction false} PutExact(asks: map<string, map<Id, Ask>>, who: seq<string>, id: Id, t: Table, sn: string)
    requires AsksFor(asks, sn, id) && sn !in who
    requires if id in t then Exact(asks, who, id, t[id]) else who == []
    ensures Exact(asks, who + [sn], id, Put(t, id, asks[sn][id], sn))
  {
    assert (who + [sn])[..|who|] == who;
  }

  lemma {:induction false} GatherEntry(asks: map<string, map<Id, Ask>>, names: seq<string>, id: Id)
    requires Ascending(names) && id in Gather(asks, names)
    ensures Exact(asks, Askers(asks, names, id), id, Gather(asks, names)[id])
  {
    var init, sn := names[..|names| - 1], names[|names| - 1];
    assert names == init + [sn] && sn !in init;
    var who, before := Askers(asks, init, id), Gather(asks, init);
    if id in before { GatherEntry(asks, init, id); }
    GatherAskers(asks, init, id);
    if AsksFor(asks, sn, id) {
      AskersExact(asks, init, id);
      PutExact(asks, who, id, before, sn);
    } else {
      assert Gather(asks, names)[id] == before[id] && Askers(asks, names, id) == who;
    }
  }

  lemma {:induction false} GatherAskers(asks: map<string, map<Id, Ask>>, names: seq<string>, id: Id)
    ensures id in Gather(asks, names) <==> Askers(asks, names, id) != []
  {
    if names != [] { GatherAskers(asks, names[..|names| - 1], id); }
  }

  lemma {:induction false} CarriedRestartKeys(t: Table, restarts: seq<RestartEntry>, id: Id)
    ensures id in WithCarriedRestarts(t, restarts) <==>
              id in t || (id.kind == RestartNow && id.name in Services(restarts))
  {
    if restarts != [] {
      var init, r := restarts[..|restarts| - 1], restarts[|restarts| - 1];
      assert restarts == init + [r];
      CarriedRestartKeys(t, init, id);
      assert Services(restarts) == Services(init) + {r.key};
    }
  }

  /** A section asks for `id`. */
  ghost predicate Asked(i: Input, id: Id) {
    exists sn :: id.name in NamesAsked(i, sn, id.kind)
  }

  lemma {:induction false} AsksFromExact(i: Input, sn: string, kind: Kind, names: seq<string>, id: Id)
    requires sn in i.conf
    ensures id in AsksFrom(i, sn, kind, names) <==> id.kind == kind && id.name in names
    ensures id in AsksFrom(i, sn, kind, names) ==>
              AsksFrom(i, sn, kind, names)[id] == Ask(AskValue(i, sn, id.kind, id.name), AskReasons(i, sn, id.kind, id.name))
  {
    hide AskValue, AskReasons;
    if names != [] {
      assert names == names[..|names| - 1] + [names[|names| - 1]];
      AsksFromExact(i, sn, kind, names[..|names| - 1], id);
      assert id == Id(id.kind, id.name);
    }
  }

  lemma {:induction false} AsksOfExact(i: Input, sn: string, kind: Kind, id: Id)
    requires sn in i.conf
    ensures id in AsksOf(i, sn, kind) <==> id.kind == kind && id.name in NamesAsked(i, sn, kind)
    ensures id in AsksOf(i, sn, kind) ==>
              AsksOf(i, sn, kind)[id] == Ask(AskValue(i, sn, id.kind, id.name), AskReasons(i, sn, id.kind, id.name))
  {
    hide AskValue, AskReasons, NamesAsked, AsksFrom;
    AsksFromExact(i, sn, kind, SortedKeys(NamesAsked(i, sn, kind)), id);
  }

  lemma {:induction false} AsksOverExact(i: Input, sn: string, kinds: seq<Kind>, id: Id)
    requires sn in i.conf
    ensures id in AsksOver(i, sn, kinds) <==> id.kind in kinds && id.name in NamesAsked(i, sn, id.kind)
    ensures id in AsksOver(i, sn, kinds) ==>
              AsksOver(i, sn, kinds)[id] == Ask(AskValue(i, sn, id.kind, id.name), AskReasons(i, sn, id.kind, id.name))
  {
    hide AskValue, AskReasons, NamesAsked, AsksOf;
    if kinds != [] {
      assert kinds == kinds[..|kinds| - 1] + [kinds[|kinds| - 1]];
      AsksOverExact(i, sn, kinds[..|kinds| - 1], id);
      AsksOfExact(i, sn, kinds[|kinds| - 1], id);
    }
  }

  lemma {:induction false} EveryKindIsListed(kind: Kind)
    ensures kind in LISTS
  {
    match kind {
      case HealFile => assert LISTS[0] == kind;
      case SyncFile => assert LISTS[1] == kind;
      case CheckFile => assert LISTS[2] == kind;
      case RewriteFile => assert LISTS[3] == kind;
      case SetParam => assert LISTS[4] == kind;
      case DropParam => assert LISTS[5] == kind;
      case Proxygen => assert LISTS[6] == kind;
      case WriteLdap => assert LISTS[7] == kind;
      case RestartNow => assert LISTS[8] == kind;
      case RestartLater => assert LISTS[9] == kind;
    }
  }

  /** What a section asks for, and with which value and reasons. */
  lemma {:induction false} AsksMembership(i: Input, sn: string, id: Id)
    requires sn in i.conf
    ensures id in Asks(i, sn) <==> id.name in NamesAsked(i, sn, id.kind)
    ensures id in Asks(i, sn) ==>
              Asks(i, sn)[id] == Ask(AskValue(i, sn, id.kind, id.name), AskReasons(i, sn, id.kind, id.name))
  {
    hide AskValue, AskReasons, NamesAsked, AsksOver;
    AsksOverExact(i, sn, LISTS, id);
    EveryKindIsListed(id.kind);
  }

  lemma {:induction false} GatheredKeys(i: Input, id: Id)
    ensures id in Gather(AllAsks(i), SortedKeys(i.conf.Keys)) <==> Asked(i, id)
  {
    hide Asks, NamesAsked, Gather;
    var names, asks := SortedKeys(i.conf.Keys), AllAsks(i);
    GatherKeys(asks, names, id);
    forall sn ensures sn in names && AsksFor(asks, sn, id) <==> id.name in NamesAsked(i, sn, id.kind) {
      if sn in i.conf { AsksMembership(i, sn, id); } else { UnknownAsksNothing(i, sn, id.kind); }
    }
  }

  lemma {:induction false} UnknownAsksNothing(i: Input, sn: string, kind: Kind)
    requires sn !in i.conf
    ensures NamesAsked(i, sn, kind) == {}
  {}

  lemma {:induction false} RestartIdsExact(services: set<string>, id: Id)
    ensures id in RestartIds(services) <==> id.kind == RestartNow && id.name in services
  {
    assert id == Id(id.kind, id.name);
  }

  lemma {:induction false} ToggleAndCarryKeys(t: Table, i: Input, id: Id)
    ensures id in WithCarriedRestarts(WithCarry(WithToggles(t, i), i.carry.actions), i.carry.restarts) <==>
              || id in t || id in i.carry.actions
              || (id.kind == RestartNow && (id.name in Toggled(i) || id.name in Services(i.carry.restarts)))
  {
    hide Toggled, RestartIds, ToggleEntry, ToggleOf, Retried, WithCarriedRestarts;
    RestartIdsExact(Toggled(i), id);
    CarriedRestartKeys(WithCarry(WithToggles(t, i), i.carry.actions), i.carry.restarts, id);
  }

  lemma {:induction false} AssembledKeys(i: Input, id: Id)
    ensures id in Assembled(i) <==>
              || Asked(i, id)
              || id in i.carry.actions
              || (id.kind == RestartNow && (id.name in Toggled(i) || id.name in Services(i.carry.restarts)))
  {
    hide Gather, AllAsks, Toggled, WithToggles, WithCarry, WithCarriedRestarts, Asked;
    GatheredKeys(i, id);
    ToggleAndCarryKeys(Gather(AllAsks(i), SortedKeys(i.conf.Keys)), i, id);
  }

  lemma {:induction false} CollectedNames(t: Table, kind: Kind, names: seq<string>)
    requires forall n :: n in names ==> Id(kind, n) in t
    ensures |CollectNamed(t, kind, names)| == |names|
    ensures forall j :: 0 <= j < |names| ==> CollectNamed(t, kind, names)[j].key == names[j]
  {
    if names != [] { CollectedNames(t, kind, names[1..]); }
  }

  lemma {:induction false} ServicesByKeys(list: seq<RestartEntry>, names: seq<string>)
    requires |list| == |names| && forall j :: 0 <= j < |names| ==> list[j].key == names[j]
    ensures forall n :: n in Services(list) <==> n in names
  {
    forall n | n in names ensures n in Services(list) {
      var j :| 0 <= j < |names| && names[j] == n;
      assert list[j] in list;
    }
  }

  lemma {:induction false} CollectedServices(t: Table, kind: Kind, systemd: bool)
    ensures forall n :: n in Services(ClassifiedAll(Collect(t, kind), systemd)) <==> Id(kind, n) in t
    ensures ByService(ClassifiedAll(Collect(t, kind), systemd))
  {
    var names := SortedKeys(NamesOf(t, kind));
    assert forall n :: n in NamesOf(t, kind) <==> Id(kind, n) in t;
    CollectedNames(t, kind, names);
    ServicesByKeys(ClassifiedAll(CollectNamed(t, kind, names), systemd), names);
  }

  /////////// Sections ///////////

  ghost function NamesIn(sections: seq<SectionEntry>): set<string> {
    set s | s in sections :: s.name
  }

  lemma {:induction false} ListedNames(i: Input, names: seq<string>)
    requires forall n :: n in names ==> n in i.conf
    ensures forall sn :: sn in NamesIn(Listed(i, names)) <==> sn in names && Processed(i, sn)
  {
    if names != [] {
      var init, sn := names[..|names| - 1], names[|names| - 1];
      assert names == init + [sn];
      ListedNames(i, init);
      var l := Listed(i, init);
      assert NamesIn(l + [SectionEntry(sn, SectionReasons(i, sn))]) == NamesIn(l) + {sn};
    }
  }

  /** A plan lists exactly the processed sections. */
  lemma {:induction false} PlanSections(i: Input)
    requires i.host.None?
    ensures forall sn :: sn in NamesIn(PlanOf(i).sections) <==> Processed(i, sn)
  {
    ListedNames(i, SortedKeys(i.conf.Keys));
  }

  /** What the snapshot holds for a lookup; nothing counts as the empty value. */
  ghost function Seen(s: Snapshot, typ: string, key: string): string {
    if Lookup(typ, key) in s.observed then s.observed[Lookup(typ, key)] else ""
  }

  /** The observed value of a variable the section requires changed. */
  ghost predicate VariableChanged(i: Input, sn: string, key: string) {
    && sn in i.conf && key in i.conf[sn].requiredVars
    && var typ := i.conf[sn].requiredVars[key];
       Seen(i.prev, typ, TrimBang(key)) != Seen(i.cur, typ, TrimBang(key))
  }

  lemma {:induction false} DiffersIsChanged(i: Input, sn: string, key: string)
    requires sn in i.conf && key in i.conf[sn].requiredVars
    ensures var typ, name := i.conf[sn].requiredVars[key], TrimBang(key);
            Differs(i.prev.Observed(typ, name), i.cur.Observed(typ, name)) <==> VariableChanged(i, sn, key)
  {
    hide TrimBang;
  }

  lemma {:induction false} ChangesExact(i: Input, sn: string, keys: seq<string>)
    requires sn in i.conf && forall k :: k in keys ==> k in i.conf[sn].requiredVars
    ensures Changes(i, sn, i.conf[sn].requiredVars, keys) != [] <==> exists k :: k in keys && VariableChanged(i, sn, k)
  {
    hide VariableChanged, Differs, TrimBang;
    if keys != [] {
      var init, key := keys[..|keys| - 1], keys[|keys| - 1];
      assert keys == init + [key];
      ChangesExact(i, sn, init);
      DiffersIsChanged(i, sn, key);
      assert forall k :: k in keys <==> k in init || k == key;
      assert key in keys;
    }
  }

  ghost predicate Changed(i: Input, sn: string) {
    exists k :: VariableChanged(i, sn, k)
  }

  /** A section has changes exactly when it is compared and one of its variables changed value. */
  lemma {:induction false} SectionChangesExact(i: Input, sn: string)
    requires sn in i.conf
    ensures SectionChanges(i, sn) != [] <==> Compared(i, sn) && Changed(i, sn)
  {
    var keys := SortedKeys(i.conf[sn].requiredVars.Keys);
    ChangesExact(i, sn, keys);
    if k :| VariableChanged(i, sn, k) { assert k in keys; }
  }

  /** A section is listed exactly when it is considered and forced, requested, in its first run, changed or
      evaluated. */
  lemma {:induction false} ProcessedExact(i: Input, sn: string)
    ensures Processed(i, sn) <==>
              Considered(i, sn) &&
              (AskedFor(i, sn) || i.firstRun || i.assumeChanged ||
               (Compared(i, sn) && Changed(i, sn)))
  {
    if sn in i.conf { SectionChangesExact(i, sn); }
  }

  /////////// Restarts ///////////

  /** `service` must be acted on because a variable of `sn` changed. */
  ghost predicate OwedBy(i: Input, sn: string, service: string) {
    && Considered(i, sn) && Compared(i, sn) && !i.firstRun
    && Changed(i, sn)
    && service in Acted(i.conf[sn], i.cur)
  }

  /** The restarts of a plan: the processed sections nobody asked for, the toggled services, the carried ones. */
  lemma {:induction false} PlanRestarts(i: Input, service: string)
    requires i.host.None? && forall id :: id in i.carry.actions ==> Observable(id)
    ensures service in Services(PlanOf(i).restarts) <==>
              || Asked(i, Id(RestartNow, service))
              || service in Toggled(i) || service in Services(i.carry.restarts)
  {
    CollectedServices(Assembled(i), RestartNow, i.systemd);
    AssembledKeys(i, Id(RestartNow, service));
  }

  lemma {:induction false} DeferredAsked(i: Input, service: string)
    requires i.host.None? && forall id :: id in i.carry.actions ==> Observable(id)
    ensures service in Services(PlanOf(i).deferredRestarts) <==> Asked(i, Id(RestartLater, service))
  {
    CollectedServices(Assembled(i), RestartLater, i.systemd);
    AssembledKeys(i, Id(RestartLater, service));
  }

  lemma {:induction false} DeferredAsk(i: Input, sn: string, service: string)
    ensures service in NamesAsked(i, sn, RestartLater) <==> OwedBy(i, sn, service) && AskedFor(i, sn)
  {
    if sn in i.conf { SectionChangesExact(i, sn); }
  }

  lemma {:induction false} RestartAsk(i: Input, sn: string, service: string)
    requires OwedBy(i, sn, service) && !AskedFor(i, sn)
    ensures service in NamesAsked(i, sn, RestartNow)
  {
    hide SectionChanges, Changed, Acted, SectionEnabled, Params, VarsOf;
    SectionChangesExact(i, sn);
  }

  /** The deferrals of a plan: exactly the services of the sections that were asked for and also changed. */
  lemma {:induction false} PlanDeferred(i: Input, service: string)
    requires i.host.None? && forall id :: id in i.carry.actions ==> Observable(id)
    ensures service in Services(PlanOf(i).deferredRestarts) <==>
              exists sn :: OwedBy(i, sn, service) && AskedFor(i, sn)
  {
    DeferredAsked(i, service);
    if sn :| service in NamesAsked(i, sn, RestartLater) { DeferredAsk(i, sn, service); }
    if sn :| OwedBy(i, sn, service) && AskedFor(i, sn) {
      DeferredAsk(i, sn, service);
      assert service in NamesAsked(i, sn, Id(RestartLater, service).kind);
    }
  }

  /** A changed section has each of its services either restarted by the plan or deferred by it, never dropped. */
  lemma {:induction false} OwedIsPlanned(i: Input, sn: string, service: string)
    requires i.host.None? && forall id :: id in i.carry.actions ==> Observable(id)
    requires OwedBy(i, sn, service)
    ensures if AskedFor(i, sn) then service in Services(PlanOf(i).deferredRestarts)
            else service in Services(PlanOf(i).restarts)
  {
    if AskedFor(i, sn) {
      PlanDeferred(i, service);
    } else {
      RestartAsk(i, sn, service);
      assert Asked(i, Id(RestartNow, service));
      PlanRestarts(i, service);
    }
  }

  /////////// Actions ///////////

  /** Every carried action is in the next plan. */
  lemma {:induction false} CarryIsPlanned(i: Input, id: Id)
    requires i.host.None?
    requires id in i.carry.actions && Observable(id) && id.kind != HealFile
    ensures id in PlanOf(i).actions
  {
    AssembledKeys(i, id);
  }

  lemma {:induction false} PlanActions(i: Input, id: Id)
    requires i.host.None? && id.kind != HealFile
    ensures id in PlanOf(i).actions <==> Observable(id) && (Asked(i, id) || id in i.carry.actions)
  {
    AssembledKeys(i, id);
  }

  /////////// What a planned action says ///////////

  lemma {:induction false} CarriedRestartsKeep(t: Table, restarts: seq<RestartEntry>, id: Id)
    requires id.kind != RestartNow && id in t
    ensures id in WithCarriedRestarts(t, restarts) && WithCarriedRestarts(t, restarts)[id] == t[id]
  {
    hide Retried;
    if restarts != [] { CarriedRestartsKeep(t, restarts[..|restarts| - 1], id); }
  }

  /** Toggles and carried restarts leave other actions alone; a carried action of the same key only adds a retry. */
  lemma {:induction false} AssembledEntry(i: Input, id: Id)
    requires id.kind != RestartNow && id in Gather(AllAsks(i), SortedKeys(i.conf.Keys))
    ensures id in Assembled(i)
    ensures var e := Gather(AllAsks(i), SortedKeys(i.conf.Keys))[id];
            Assembled(i)[id] == if id in i.carry.actions then Retried(e) else e
  {
    hide Gather, AllAsks, SortedKeys, Toggled, RestartIds, Retried, WithCarriedRestarts;
    var t := Gather(AllAsks(i), SortedKeys(i.conf.Keys));
    RestartIdsExact(Toggled(i), id);
    CarriedRestartsKeep(WithCarry(WithToggles(t, i), i.carry.actions), i.carry.restarts, id);
  }

  /**
   * A planned action names exactly the sections that ask for it, in section order, and has the value the last of
   * them asks for.
   */
  lemma {:induction false} PlanEntry(i: Input, id: Id) returns (who: seq<string>)
    requires i.host.None? && Observable(id) && id.kind != HealFile && Asked(i, id)
    ensures who != [] && Ascending(who) && forall sn :: sn in who <==> id.name in NamesAsked(i, sn, id.kind)
    ensures who[|who| - 1] in i.conf && id in PlanOf(i).actions
    ensures var e := PlanOf(i).actions[id];
            e.key == id.name && e.sections == who && e.value == AskValue(i, who[|who| - 1], id.kind, id.name)
  {
    hide Gather, AllAsks, Assembled, NamesAsked, AskValue, AskReasons, Asks, SortedKeys, Asked, Askers, ReasonsOf, Collect, Listed,
         Tracked, ClassifiedAll;
    var asks, names := AllAsks(i), SortedKeys(i.conf.Keys);
    GatheredKeys(i, id);
    GatherEntry(asks, names, id);
    AssembledEntry(i, id);
    who := Askers(asks, names, id);
    AskersExact(asks, names, id);
    AskersAscending(asks, names, id);
    forall sn ensures sn in who <==> id.name in NamesAsked(i, sn, id.kind) { AskerAsks(i, sn, id); }
    AskerAsks(i, who[|who| - 1], id);
  }

  lemma {:induction false} AskerAsks(i: Input, sn: string, id: Id)
    ensures sn in SortedKeys(i.conf.Keys) && AsksFor(AllAsks(i), sn, id) <==> id.name in NamesAsked(i, sn, id.kind)
    ensures AsksFor(AllAsks(i), sn, id) ==> sn in i.conf && AllAsks(i)[sn][id].value == AskValue(i, sn, id.kind, id.name)
  {
    hide NamesAsked, AskValue, AskReasons, Asks;
    if sn in i.conf { AsksMembership(i, sn, id); } else { UnknownAsksNothing(i, sn, id.kind); }
  }

  lemma {:induction false} AskersAscending(asks: map<string, map<Id, Ask>>, names: seq<string>, id: Id)
    requires Ascending(names)
    ensures Ascending(Askers(asks, names, id))
  {
    hide Le;
    if names != [] {
      var init, sn := names[..|names| - 1], names[|names| - 1];
      assert names == init + [sn];
      AskersAscending(asks, init, id);
      AskersExact(asks, init, id);
      assert forall x :: x in init ==> Le(x, sn) && x != sn;
    }
  }

  /** Both ways to negate a condition flip it, also for a failed lookup, and an unnegated one holds for true values. */
  lemma {:induction false} ConditionNegates(c: Conditional, cur: Snapshot)
    requires c.key == "" || c.key[0] != '!'
    ensures Holds(c.(key := "!" + c.key), cur) == !Holds(c, cur)
    ensures Holds(c.(negated := !c.negated), cur) == !Holds(c, cur)
    ensures !c.negated ==> (Holds(c, cur) <==> cur.Value(c.typ, c.key).Some? && !IsFalse(cur.Value(c.typ, c.key).value))
  {
    hide IsFalse;
    assert ("!" + c.key)[1..] == c.key;
  }

  /** The position of the last if block that holds and sets the key; -1 when there is none. */
  function LastSetting(blocks: seq<Conditional>, cur: Snapshot, dropped: bool, key: string): (n: int)
    ensures -1 <= n < |blocks|
    ensures n >= 0 ==> Holds(blocks[n], cur) && key in Lines(blocks[n], dropped)
    ensures forall j :: n < j < |blocks| ==> !(Holds(blocks[j], cur) && key in Lines(blocks[j], dropped))
  {
    if blocks == [] then -1
    else if Holds(blocks[|blocks| - 1], cur) && key in Lines(blocks[|blocks| - 1], dropped) then |blocks| - 1
    else LastSetting(blocks[..|blocks| - 1], cur, dropped, key)
  }

  function Lines(b: Conditional, dropped: bool): map<string, string> {
    if dropped then b.postconfd else b.postconf
  }

  /** A parameter has the value of the last block that holds and sets it, or else that of the section itself. */
  lemma {:induction false} ParamsLastWins(base: map<string, string>, blocks: seq<Conditional>, cur: Snapshot, dropped: bool, key: string)
    ensures var n, all := LastSetting(blocks, cur, dropped, key), Params(base, blocks, cur, dropped);
            && (key in all <==> n >= 0 || key in base)
            && (key in all ==> all[key] == if n >= 0 then Lines(blocks[n], dropped)[key] else base[key])
  {
    hide Holds;
    if blocks != [] { ParamsLastWins(base, blocks[..|blocks| - 1], cur, dropped, key); }
  }

  /////////// A quiet cycle ///////////

  /** No variable of any compared section changed, nothing is forced or requested or left over. */
  ghost predicate Quiet(i: Input) {
    && i.host.None? && !i.firstRun && !i.assumeChanged && i.carry == NO_CARRY
    && i.forced == {} && i.requested == {}
    && forall sn, k :: Considered(i, sn) ==> !VariableChanged(i, sn, k)
  }

  /** A quiet cycle does nothing exactly when the tracked services are the enabled ones. */
  lemma {:induction false} QuietPlanEmptyIff(i: Input)
    requires Quiet(i)
    ensures IsEmpty(PlanOf(i)) <==> i.tracked.Keys == i.cur.services.Keys
  {
    hide PlanOf, Toggled, Considered, VariableChanged;
    QuietActions(i);
    QuietRestarts(i);
    NoTogglesIff(i);
  }

  lemma {:induction false} NoTogglesIff(i: Input)
    requires !i.firstRun
    ensures Toggled(i) == {} <==> i.tracked.Keys == i.cur.services.Keys
  {
    assert forall s :: s in Toggled(i) <==> (s in i.tracked) != (s in i.cur.services);
  }

  lemma {:induction false} QuietActions(i: Input)
    requires Quiet(i)
    ensures forall id :: id in PlanOf(i).actions ==> id.kind == HealFile
  {
    forall id | id in PlanOf(i).actions ensures id.kind == HealFile {
      if id.kind != HealFile {
        PlanActions(i, id);
        NothingAsked(i, id);
      }
    }
  }

  lemma {:induction false} QuietRestarts(i: Input)
    requires Quiet(i)
    ensures PlanOf(i).restarts == [] <==> Toggled(i) == {}
  {
    hide PlanOf, Toggled, Quiet;
    forall s ensures s in Services(PlanOf(i).restarts) <==> s in Toggled(i) { QuietRestart(i, s); }
    EmptyIffNone(PlanOf(i).restarts, Toggled(i));
  }

  lemma {:induction false} QuietRestart(i: Input, s: string)
    requires Quiet(i)
    ensures s in Services(PlanOf(i).restarts) <==> s in Toggled(i)
  {
    PlanRestarts(i, s);
    NothingAsked(i, Id(RestartNow, s));
  }

  lemma {:induction false} NothingAsked(i: Input, id: Id)
    requires Quiet(i) && id.kind != HealFile
    ensures !Asked(i, id)
  {
    forall sn ensures id.name !in NamesAsked(i, sn, id.kind) { ProcessedExact(i, sn); }
  }

  lemma {:induction false} EmptyIffNone(list: seq<RestartEntry>, services: set<string>)
    requires forall s :: s in Services(list) <==> s in services
    ensures list == [] <==> services == {}
  {
    if list != [] {
      assert list[0] in list;
      assert list[0].key in Services(list);
    }
  }

  /////////// Entries carry their own key ///////////

  ghost predicate WellKeyed(t: Table) {
    forall id :: id in t ==> t[id].key == id.name
  }

  lemma {:induction false} GatherWellKeyed(asks: map<string, map<Id, Ask>>, names: seq<string>)
    ensures WellKeyed(Gather(asks, names))
  {
    if names != [] { GatherWellKeyed(asks, names[..|names| - 1]); }
  }

  lemma {:induction false} CarriedWellKeyed(t: Table, restarts: seq<RestartEntry>)
    requires WellKeyed(t)
    ensures WellKeyed(WithCarriedRestarts(t, restarts))
  {
    if restarts != [] { CarriedWellKeyed(t, restarts[..|restarts| - 1]); }
  }

  lemma {:induction false} MergedWellKeyed(t: Table, i: Input)
    requires WellKeyed(t) && WellKeyed(i.carry.actions)
    ensures WellKeyed(WithCarry(WithToggles(t, i), i.carry.actions))
  {
    hide Toggled, ToggleOf, RestartIds;
    var u := WithToggles(t, i);
    forall id | id in u ensures u[id].key == id.name { RestartIdsExact(Toggled(i), id); }
    assert WellKeyed(u);
    hide WithToggles;
    forall id | id in WithCarry(u, i.carry.actions) ensures WithCarry(u, i.carry.actions)[id].key == id.name {}
  }

  lemma {:induction false} PlanWellKeyed(i: Input)
    requires i.host.None? && WellKeyed(i.carry.actions)
    ensures WellKeyed(PlanOf(i).actions)
  {
    hide Assembled, Collect, Listed, Tracked, ClassifiedAll;
    AssembledWellKeyed(i);
  }

  lemma {:induction false} AssembledWellKeyed(i: Input)
    requires WellKeyed(i.carry.actions)
    ensures WellKeyed(Assembled(i))
  {
    hide Gather, WithCarriedRestarts, Toggled, AllAsks, WithCarry, WithToggles, WellKeyed;
    var t := Gather(AllAsks(i), SortedKeys(i.conf.Keys));
    GatherWellKeyed(AllAsks(i), SortedKeys(i.conf.Keys));
    MergedWellKeyed(t, i);
    CarriedWellKeyed(WithCarry(WithToggles(t, i), i.carry.actions), i.carry.restarts);
  }
}
