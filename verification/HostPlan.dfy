/** Planning against the host: pruning to what drifted, and the proxy generator that follows the others. */
module HostPlan {
  import opened Options
  import opened Order
  import opened Plan
  import opened Planner
  import opened PlannerFacts
  import PlanMeaning

  /////////// Pruning is a filter ///////////

  /** A candidate action other than an LDAP write is out of date and names the section. */
  ghost predicate Touches(t: Table, h: Host, id: Id, sn: string) {
    id in t && Observable(id) && id.kind != WriteLdap && DriftText(h, id) != "" && sn in t[id].sections
  }

  ghost predicate Touched(t: Table, h: Host, sn: string) {
    exists id :: Touches(t, h, id, sn)
  }

  lemma {:induction false} TouchedExact(t: Table, h: Host, sn: string)
    ensures sn in TouchedSections(t, h) <==> Touched(t, h, sn)
  {
    hide DriftText;
    if sn in TouchedSections(t, h) {
      var id :| id in t && Observable(id) && id.kind != WriteLdap && DriftText(h, id) != "" && sn in t[id].sections;
      assert Touches(t, h, id, sn);
    }
  }

  /** An action is kept exactly when it is a candidate with a drift text, which becomes its one reason. */
  lemma {:induction false} ActionKeptIff(t: Table, h: Host, id: Id)
    ensures id in Actions(Pruned(t, h)) <==>
              Observable(id) && id.kind != HealFile && CandidateOf(t, id) in t && DriftText(h, id) != ""
    ensures id in Actions(Pruned(t, h)) ==>
              Actions(Pruned(t, h))[id] == t[CandidateOf(t, id)].(reasons := [ForDrift(DriftText(h, id))])
  {
    hide TouchedSections, Meets, JoinWith, DriftText, Pruned;
    PrunedIs(t, h, id);
    PrunedIs(t, h, Id(SyncFile, id.name));
  }

  lemma {:induction false} PrunedIs(t: Table, h: Host, id: Id)
    ensures var e := KeptEntry(t, h, TouchedSections(t, h), id);
            (id in Pruned(t, h) <==> e.Some?) && (e.Some? ==> Pruned(t, h)[id] == e.value)
  {
    hide TouchedSections, Meets, JoinWith, DriftText;
    if id.kind == SyncFile && Id(HealFile, id.name) in t { assert id == Id(SyncFile, Id(HealFile, id.name).name); }
  }

  lemma {:induction false} KeptNames(sections: seq<SectionEntry>, touched: set<string>, s: SectionEntry)
    ensures s in KeepTouched(sections, touched) <==> s in sections && s.name in touched
  {
    if sections != [] {
      assert sections == sections[..|sections| - 1] + [sections[|sections| - 1]];
      KeptNames(sections[..|sections| - 1], touched, s);
    }
  }

  /** A section is kept exactly when it is processed and a drifted candidate touches it. */
  lemma {:induction false} SectionKeptIff(i: Input, sn: string)
    requires i.host.Some?
    ensures sn in NamesIn(PlanOf(i).sections) <==> Processed(i, sn) && Touched(Assembled(i), i.host.value, sn)
  {
    hide Assembled, Processed, Pruned, Collect, NamesIn, Touched, Tracked, TouchedSections;
    TouchedExact(Assembled(i), i.host.value, sn);
    PrunedSections(i, TouchedSections(Assembled(i), i.host.value), sn);
  }

  /** A restart is kept exactly when a drifted candidate touches one of its sections; nothing is deferred. */
  lemma {:induction false} RestartKeptIff(i: Input, service: string)
    requires i.host.Some?
    ensures var t, h := Assembled(i), i.host.value;
            && (service in Services(PlanOf(i).restarts) <==>
                  Id(RestartNow, service) in t && exists s :: s in t[Id(RestartNow, service)].sections && Touched(t, h, s))
            && PlanOf(i).deferredRestarts == []
  {
    hide Assembled, Pruned, Collect, Touched, Tracked, TouchedSections, KeepTouched, Listed, Services, Actions, ClassifiedAll;
    var t, h := Assembled(i), i.host.value;
    var pruned := Pruned(t, h);
    forall s ensures s in TouchedSections(t, h) <==> Touched(t, h, s) { TouchedExact(t, h, s); }
    CollectedServices(pruned, RestartNow, i.systemd);
    PrunedRestarts(t, h, service);
    var later := ClassifiedAll(Collect(pruned, RestartLater), i.systemd);
    FirstIsNamed(later);
    forall n ensures n !in Services(later) {
      CollectedServices(pruned, RestartLater, i.systemd);
      PrunedRestarts(t, h, n);
    }
  }

  lemma {:induction false} PrunedSections(i: Input, touched: set<string>, sn: string)
    ensures sn in NamesIn(KeepTouched(Listed(i, SortedKeys(i.conf.Keys)), touched)) <==> Processed(i, sn) && sn in touched
  {
    hide Processed, KeepTouched, Listed;
    var listed := Listed(i, SortedKeys(i.conf.Keys));
    ListedNames(i, SortedKeys(i.conf.Keys));
    forall s: SectionEntry ensures s in KeepTouched(listed, touched) <==> s in listed && s.name in touched {
      KeptNames(listed, touched, s);
    }
    assert sn in NamesIn(listed) <==> sn in SortedKeys(i.conf.Keys) && Processed(i, sn);
    ProcessedIsConfigured(i, sn);
  }

  lemma {:induction false} ProcessedIsConfigured(i: Input, sn: string)
    ensures Processed(i, sn) ==> sn in i.conf
  {}

  lemma {:induction false} PrunedRestarts(t: Table, h: Host, service: string)
    ensures Id(RestartNow, service) in Pruned(t, h) <==>
              Id(RestartNow, service) in t && Meets(t[Id(RestartNow, service)].sections, TouchedSections(t, h))
    ensures Id(RestartLater, service) !in Pruned(t, h)
  {
    hide TouchedSections, Meets, DriftText, JoinWith, Pruned;
    PrunedIs(t, h, Id(RestartNow, service));
    PrunedIs(t, h, Id(RestartLater, service));
  }

  lemma {:induction false} FirstIsNamed(list: seq<RestartEntry>)
    ensures list != [] ==> list[0].key in Services(list)
  {}

  /**
   * In terms of what is kept: a section counts as touched exactly when a kept action other than an LDAP write
   * names it, or a drifted heal names it whose file also has a sync of its own.
   */
  lemma {:induction false} TouchedByKept(t: Table, h: Host, sn: string)
    ensures Touched(t, h, sn) <==>
              || (exists id :: id in Actions(Pruned(t, h)) && id.kind != WriteLdap && sn in Actions(Pruned(t, h))[id].sections)
              || exists key :: Id(SyncFile, key) in t && Touches(t, h, Id(HealFile, key), sn)
  {
    hide Actions, Pruned, DriftText;
    var kept := Actions(Pruned(t, h));
    forall id ensures id in kept && id.kind != WriteLdap && sn in kept[id].sections ==> Touched(t, h, sn) {
      ActionKeptIff(t, h, id);
      SameFileDrift(h, id.name);
      if id in kept && id.kind != WriteLdap && sn in kept[id].sections { assert Touches(t, h, CandidateOf(t, id), sn); }
    }
    if id :| Touches(t, h, id, sn) {
      SameFileDrift(h, id.name);
      var keptAs := if id.kind == HealFile then Id(SyncFile, id.name) else id;
      ActionKeptIff(t, h, keptAs);
      if id.kind == HealFile && keptAs in t {
        assert id == Id(HealFile, id.name);
        assert Touches(t, h, Id(HealFile, id.name), sn);
      } else {
        assert CandidateOf(t, keptAs) == id;
        assert keptAs in kept && sn in kept[keptAs].sections;
      }
    }
  }

  lemma {:induction false} SameFileDrift(h: Host, name: string)
    ensures DriftText(h, Id(SyncFile, name)) == DriftText(h, Id(HealFile, name))
  {}

  /////////// The three passes of PlanHost ///////////

  datatype HostOutcome = HostPlanned(plan: CyclePlan) | OutOfScope(name: string) | UnknownSection(name: string) | Disabled

  const PROXYGEN := Id(Proxygen, "")

  /** Everything that is configured, as if it had changed, in the requested scope. */
  function HostInput(cur: Snapshot, conf: Conf, scope: set<string>, systemd: bool, host: Option<Host>): Input {
    Input(cur, cur, conf, {}, {}, false, map s | s in cur.services :: "running", NO_CARRY, scope, true, host, systemd)
  }

  /** Nothing changed between the snapshots of a host plan, so no mapped file is synced because of a change. */
  lemma {:induction false} HostHasNoSync(i: Input, key: string)
    requires i.prev == i.cur && !i.firstRun && i.carry == NO_CARRY
    ensures Id(SyncFile, key) !in Assembled(i)
  {
    hide Assembled, NamesAsked, Asked;
    AssembledKeys(i, Id(SyncFile, key));
    forall sn ensures key !in NamesAsked(i, sn, SyncFile) { UnchangedSyncsNothing(i, sn, key); }
    NoneAsks(i, Id(SyncFile, key));
  }

  lemma {:induction false} NoneAsks(i: Input, id: Id)
    requires forall sn :: id.name !in NamesAsked(i, sn, id.kind)
    ensures !Asked(i, id)
  {
    hide NamesAsked;
  }

  lemma {:induction false} UnchangedSyncsNothing(i: Input, sn: string, key: string)
    requires i.prev == i.cur && !i.firstRun
    ensures key !in NamesAsked(i, sn, SyncFile)
  {
    hide SectionChanges, SectionReasons, SectionEnabled, VarsOf, Params, Acted;
    if sn in i.conf { SectionChangesExact(i, sn); }
  }

  /** An action of the plan, other than an LDAP write, names the section. */
  ghost predicate NamedByKept(p: CyclePlan, sn: string) {
    exists id :: id in p.actions && id.kind != WriteLdap && sn in p.actions[id].sections
  }

  /** In a host plan the touched sections are exactly those a kept action other than an LDAP write names. */
  lemma {:induction false} HostTouchedIff(i: Input, sn: string)
    requires i.prev == i.cur && !i.firstRun && i.carry == NO_CARRY && i.host.Some?
    ensures Touched(Assembled(i), i.host.value, sn) <==> NamedByKept(PlanOf(i), sn)
  {
    hide Assembled, Pruned, Collect, Listed, KeepTouched, TouchedSections, Tracked, ClassifiedAll, Actions;
    TouchedByKept(Assembled(i), i.host.value, sn);
    forall key ensures Id(SyncFile, key) !in Assembled(i) { HostHasNoSync(i, key); }
  }

  /** In a host plan sections and restarts are kept exactly when a kept action other than an LDAP write names one of
      their sections. */
  lemma {:induction false} HostKeepsIff(i: Input, sn: string, service: string)
    requires i.prev == i.cur && !i.firstRun && i.carry == NO_CARRY && i.host.Some?
    ensures sn in NamesIn(PlanOf(i).sections) <==> Processed(i, sn) && NamedByKept(PlanOf(i), sn)
    ensures service in Services(PlanOf(i).restarts) <==>
              && Id(RestartNow, service) in Assembled(i)
              && exists s :: s in Assembled(i)[Id(RestartNow, service)].sections && NamedByKept(PlanOf(i), s)
  {
    hide Assembled, PlanOf, Processed, NamesIn, Services, Touched, NamedByKept;
    SectionKeptIff(i, sn);
    RestartKeptIff(i, service);
    forall s ensures Touched(Assembled(i), i.host.value, s) <==> NamedByKept(PlanOf(i), s) { HostTouchedIff(i, s); }
  }

  /** The first name of the list that is not allowed. */
  function FirstOutside(names: seq<string>, allowed: set<string>): (r: Option<string>)
    ensures r.None? <==> forall n :: n in names ==> n in allowed
    ensures r.Some? ==> r.value in names && r.value !in allowed
  {
    if names == [] then None else if names[0] !in allowed then Some(names[0]) else FirstOutside(names[1..], allowed)
  }

  function Elements(s: seq<string>): set<string> {
    set x | x in s
  }

  /** The sections to plan, or why the request cannot be planned. */
  function NarrowScope(configured: seq<string>, requested: seq<string>): (seq<string>, Option<string>) {
    if configured == [] then (requested, None)
    else if requested == [] then (configured, None)
    else (requested, FirstOutside(requested, Elements(configured)))
  }

  /** `proxygenDrift`: the first section of the candidate that the pruned plan lists. */
  method ProxygenDrift(candidate: seq<string>, pruned: seq<SectionEntry>) returns (drift: string)
    ensures drift != "" <==> exists s :: s in candidate && s in NamesIn(pruned)
  {
    var touched: set<string> := {};
    for i := 0 to |pruned|
      invariant touched == NamesIn(pruned[..i])
    {
      assert pruned[..i + 1] == pruned[..i] + [pruned[i]];
      touched := touched + {pruned[i].name};
    }
    assert pruned[..|pruned|] == pruned;
    for i := 0 to |candidate|
      invariant forall j :: 0 <= j < i ==> candidate[j] !in touched
    {
      if candidate[i] in touched { return "proxy configuration depends on section " + candidate[i]; }
    }
    return "";
  }

  function WithProxygen(h: Host, drift: string): Host {
    h.(drift := h.drift[PROXYGEN := drift])
  }

  /** Another out-of-date candidate, not an LDAP write, shares a section with the proxy generator. */
  ghost predicate ProxygenFollows(t: Table, h: Host) {
    && PROXYGEN in t
    && exists id, s :: id != PROXYGEN && Touches(t, h, id, s) && s in t[PROXYGEN].sections
  }

  /** `PlanHost`, with the observation of the host as a parameter. */
  method PlanHost(cur: Snapshot, conf: Conf, configured: seq<string>, requested: seq<string>, systemd: bool, observed: Host)
    returns (r: HostOutcome, ghost host: Host)
    requires PROXYGEN !in observed.drift
    ensures r.OutOfScope? <==> configured != [] && exists name :: name in requested && name !in configured
    ensures r.OutOfScope? ==> r.name in requested && r.name !in configured
    ensures r.UnknownSection? <==> !r.OutOfScope? && exists name :: name in ScopeOf(configured, requested) && name !in conf
    ensures r.UnknownSection? ==> r.name in ScopeOf(configured, requested) && r.name !in conf
    ensures !r.Disabled?
    ensures r.HostPlanned? ==>
      var scope := Elements(ScopeOf(configured, requested));
      var i := HostInput(cur, conf, scope, systemd, None);
      && (forall id :: id != PROXYGEN ==> (id in r.plan.actions <==> Drifted(i, observed, id)))
      && (forall id :: id != PROXYGEN && id in r.plan.actions ==> SaysDrift(i, observed, id, r.plan.actions[id]))
      && (forall e :: e in r.plan.restarts ==> PlanMeaning.CalledFor(i, e))
    ensures r.HostPlanned? ==>
      var scope := Elements(ScopeOf(configured, requested));
      var t := Assembled(HostInput(cur, conf, scope, systemd, None));
      && scope <= conf.Keys
      && r.plan == PlanOf(HostInput(cur, conf, scope, systemd, Some(host)))
      && (forall id :: id != PROXYGEN ==> DriftText(host, id) == DriftText(observed, id))
      && (PROXYGEN in r.plan.actions <==> ProxygenFollows(t, observed))
      && (forall sn :: sn in NamesIn(r.plan.sections) <==>
            && sn in conf && (scope == {} || sn in scope) && PlanMeaning.SectionOn(sn, cur.services.Keys)
            && NamedByKept(r.plan, sn))
      && (forall service :: service in Services(r.plan.restarts) <==>
            Id(RestartNow, service) in t && exists s :: s in t[Id(RestartNow, service)].sections && NamedByKept(r.plan, s))
  {
    hide PlanOf, Assembled, DriftText, NamesIn, Services, NamedByKept, Considered, Drifted, SaysDrift, PlanMeaning.CalledFor,
         PlanMeaning.SectionOn;
    host := observed;
    NarrowMeans(configured, requested);
    var narrowed := NarrowScope(configured, requested);
    if narrowed.1.Some? { return OutOfScope(narrowed.1.value), observed; }
    var unknown := FirstOutside(narrowed.0, conf.Keys);
    if unknown.Some? { return UnknownSection(unknown.value), observed; }
    var scope := Elements(narrowed.0);
    var i := HostInput(cur, conf, scope, systemd, None);
    NeverDisabled(cur, conf, scope, systemd);
    var candidate := Compute(i);
    if candidate.AllServicesDisabled? { return Disabled, observed; }
    var pruned := Compute(i.(host := Some(observed)));
    if pruned.AllServicesDisabled? { return Disabled, observed; }
    ghost var t := Assembled(i);
    ProxygenCandidate(i);
    if PROXYGEN in candidate.plan.actions {
      var drift := ProxygenDrift(candidate.plan.actions[PROXYGEN].sections, pruned.plan.sections);
      var completed := WithProxygen(observed, drift);
      host := completed;
      pruned := Compute(i.(host := Some(completed)));
      if pruned.AllServicesDisabled? { return Disabled, observed; }
      ProxygenListed(cur, conf, scope, systemd, observed);
      ProxygenKept(cur, conf, scope, systemd, completed);
      OtherDrift(observed, drift);
    } else {
      ProxygenKept(cur, conf, scope, systemd, observed);
    }
    HostKeepsAll(i, host);
    HostMeansAll(i, observed, host);
    forall sn ensures Considered(i, sn) <==> PlanMeaning.InPlay(i, sn) { PlanMeaning.InPlayIs(i, sn); }
    return HostPlanned(pruned.plan), host;
  }

  /////////// The host plan in terms of the file and the observation ///////////

  /** The sections to plan: those requested, or else those configured. */
  function ScopeOf(configured: seq<string>, requested: seq<string>): seq<string> {
    if requested != [] then requested else configured
  }

  lemma {:induction false} NarrowMeans(configured: seq<string>, requested: seq<string>)
    ensures NarrowScope(configured, requested).0 == ScopeOf(configured, requested)
    ensures NarrowScope(configured, requested).1.Some? <==>
              configured != [] && exists name :: name in requested && name !in configured
    ensures var wrong := NarrowScope(configured, requested).1; wrong.Some? ==> wrong.value in requested && wrong.value !in configured
  {}

  lemma {:induction false} NeverDisabled(cur: Snapshot, conf: Conf, scope: set<string>, systemd: bool)
    ensures forall host :: Compute(HostInput(cur, conf, scope, systemd, host)).Planned?
  {
    hide PlanOf;
    forall host ensures Compute(HostInput(cur, conf, scope, systemd, host)).Planned? {
      var i := HostInput(cur, conf, scope, systemd, host);
      if |i.tracked| > 1 {
        var s :| s in i.tracked;
        assert i.cur.Enabled(s);
      }
    }
  }

  /** What the observation says about an action: mapped files by their name, all others by their kind and name. */
  ghost function Detail(h: Host, id: Id): string {
    if id.kind in {HealFile, SyncFile, CheckFile} then (if id.name in h.mapfiles then h.mapfiles[id.name] else "")
    else if id in h.drift then h.drift[id] else ""
  }

  /** A section wants the action, or wants the file of a sync healed, and the host differs from it. */
  ghost predicate Drifted(i: Input, h: Host, id: Id) {
    && id.kind !in {HealFile, RestartNow, RestartLater} && Detail(h, id) != ""
    && (PlanMeaning.Wanted(i, id) || (id.kind == SyncFile && PlanMeaning.Wanted(i, Id(HealFile, id.name))))
  }

  /** The action as the sections want it, with the difference as its one reason. */
  ghost predicate SaysDrift(i: Input, h: Host, id: Id, e: Entry) {
    && e.reasons == [Reason(Drift, "", "", "", "", "", "", Detail(h, id))]
    && var c := if PlanMeaning.Wanted(i, id) then id else Id(HealFile, id.name);
       exists base :: PlanMeaning.Faithful(i, c, e.value, e.sections, base)
  }

  lemma {:induction false} HostActionMeans(i: Input, h: Host, id: Id)
    requires i.carry == NO_CARRY && i.host.None?
    ensures var p := PlanOf(i.(host := Some(h)));
            && (id in p.actions <==> Drifted(i, h, id))
            && (id in p.actions ==> SaysDrift(i, h, id, p.actions[id]))
  {
    hide Assembled, Actions, Pruned, Collect, ClassifiedAll, Listed, KeepTouched, TouchedSections, Tracked, PlanMeaning.Wanted,
         PlanMeaning.Faithful, PlanMeaning.Marked;
    var j := i.(host := Some(h));
    AssembledIgnoresHost(i, Some(h));
    ActionKeptIff(Assembled(j), h, id);
    if id.kind != RestartNow {
      PlanMeaning.AssembledMeans(i, id);
      PlanMeaning.AssembledMeans(i, Id(HealFile, id.name));
    }
  }

  lemma {:induction false} HostRestartMeans(i: Input, h: Host, e: RestartEntry)
    requires i.carry == NO_CARRY && i.host.None? && e in PlanOf(i.(host := Some(h))).restarts
    ensures PlanMeaning.CalledFor(i, e)
    ensures forall sn :: sn in e.sections <==> PlanMeaning.Wants(i, sn, Id(RestartNow, e.key))
  {
    hide Assembled, Actions, Pruned, Collect, ClassifiedAll, Listed, KeepTouched, TouchedSections, Tracked, DriftText, JoinWith,
         PlanMeaning.Wants, Ascending, PlanMeaning.Heavy, PlanMeaning.WhyRestart;
    var j, id := i.(host := Some(h)), Id(RestartNow, e.key);
    AssembledIgnoresHost(i, Some(h));
    var t := Assembled(i);
    PlanMeaning.CollectedRestart(Pruned(t, h), RestartNow, i.systemd, e);
    PrunedIs(t, h, id);
    PlanMeaning.AssembledRestart(i, e.key);
    KeptRestartNames(t, h, id);
    if e.key == "archiving" { PlanMeaning.ArchivingLeftAlone(i, t[id].sections[0], RestartNow); }
  }

  lemma {:induction false} KeptRestartNames(t: Table, h: Host, id: Id)
    requires id.kind == RestartNow && KeptEntry(t, h, TouchedSections(t, h), id).Some?
    ensures id in t && t[id].sections != []
    ensures var e := KeptEntry(t, h, TouchedSections(t, h), id).value; e.value == t[id].value && e.sections == t[id].sections
  {
    hide TouchedSections, DriftText, JoinWith;
  }

  /** Completing the observation with the proxy generator changes nothing about the other actions. */
  lemma {:induction false} HostMeansAll(i: Input, observed: Host, host: Host)
    requires i.carry == NO_CARRY && i.host.None?
    requires host == observed || exists drift :: host == WithProxygen(observed, drift)
    ensures var p := PlanOf(i.(host := Some(host)));
            && (forall id :: id != PROXYGEN ==> (id in p.actions <==> Drifted(i, observed, id)))
            && (forall id :: id != PROXYGEN && id in p.actions ==> SaysDrift(i, observed, id, p.actions[id]))
            && (forall e :: e in p.restarts ==> PlanMeaning.CalledFor(i, e))
  {
    hide PlanOf, PlanMeaning.CalledFor, PlanMeaning.Wanted, PlanMeaning.Faithful;
    var p := PlanOf(i.(host := Some(host)));
    forall id | id != PROXYGEN ensures (id in p.actions <==> Drifted(i, observed, id)) && (id in p.actions ==> SaysDrift(i, observed, id, p.actions[id])) {
      HostActionMeans(i, host, id);
      assert Detail(host, id) == Detail(observed, id);
    }
    forall e | e in p.restarts ensures PlanMeaning.CalledFor(i, e) { HostRestartMeans(i, host, e); }
  }

  /** The kept sections and restarts of a host plan, in terms of the candidates. */
  lemma {:induction false} HostKeepsAll(i: Input, host: Host)
    requires i.prev == i.cur && !i.firstRun && i.carry == NO_CARRY && i.assumeChanged
    ensures var p := PlanOf(i.(host := Some(host)));
            && (forall sn :: sn in NamesIn(p.sections) <==> Considered(i, sn) && NamedByKept(p, sn))
            && forall service :: service in Services(p.restarts) <==>
                 Id(RestartNow, service) in Assembled(i) &&
                 exists s :: s in Assembled(i)[Id(RestartNow, service)].sections && NamedByKept(p, s)
  {
    hide PlanOf, Assembled, NamesIn, Services, NamedByKept, Processed, Considered;
    var j := i.(host := Some(host));
    AssembledIgnoresHost(i, Some(host));
    forall sn ensures sn in NamesIn(PlanOf(j).sections) <==> Considered(i, sn) && NamedByKept(PlanOf(j), sn) {
      HostKeepsIff(j, sn, "");
      ProcessedIgnoresHost(i, Some(host), sn);
      ProcessedExact(i, sn);
    }
    forall service ensures service in Services(PlanOf(j).restarts) <==>
                 Id(RestartNow, service) in Assembled(i) &&
                 exists s :: s in Assembled(i)[Id(RestartNow, service)].sections && NamedByKept(PlanOf(j), s)
    {
      HostKeepsIff(j, "", service);
    }
  }

  /** The table a plan is assembled from does not depend on the host. */
  lemma {:induction false} AssembledIgnoresHost(i: Input, host: Option<Host>)
    ensures Assembled(i.(host := host)) == Assembled(i)
  {
    hide AllAsks, Gather, WithToggles, WithCarry, WithCarriedRestarts, SortedKeys;
    AllAsksIgnoreHost(i, host);
    TogglesIgnoreHost(i, host, Gather(AllAsks(i), SortedKeys(i.conf.Keys)));
  }

  lemma {:induction false} TogglesIgnoreHost(i: Input, host: Option<Host>, t: Table)
    ensures WithToggles(t, i.(host := host)) == WithToggles(t, i)
  {
    hide RestartIds, ToggleEntry;
    assert Toggled(i.(host := host)) == Toggled(i);
  }

  lemma {:induction false} AllAsksIgnoreHost(i: Input, host: Option<Host>)
    ensures AllAsks(i.(host := host)) == AllAsks(i)
  {
    hide Asks;
    forall sn | sn in i.conf ensures Asks(i.(host := host), sn) == Asks(i, sn) { AsksIgnoreHost(i, host, sn); }
  }

  lemma {:induction false} AsksIgnoreHost(i: Input, host: Option<Host>, sn: string)
    requires sn in i.conf
    ensures Asks(i.(host := host), sn) == Asks(i, sn)
  {
    hide NamesAsked, AskValue, AskReasons, Asks;
    var j := i.(host := host);
    forall id ensures (id in Asks(j, sn) <==> id in Asks(i, sn)) && (id in Asks(i, sn) ==> Asks(j, sn)[id] == Asks(i, sn)[id]) {
      AsksMembership(i, sn, id);
      AsksMembership(j, sn, id);
      NamesIgnoreHost(i, host, sn, id.kind);
      ValueIgnoresHost(i, host, sn, id.kind, id.name);
    }
  }

  lemma {:induction false} SectionIgnoresHost(i: Input, host: Option<Host>, sn: string)
    requires sn in i.conf
    ensures SectionChanges(i.(host := host), sn) == SectionChanges(i, sn)
    ensures SectionReasons(i.(host := host), sn) == SectionReasons(i, sn)
  {
    hide Changes, SortedKeys;
    ChangesIgnoreHost(i, host, sn, i.conf[sn].requiredVars, SortedKeys(i.conf[sn].requiredVars.Keys));
  }

  lemma {:induction false} NamesIgnoreHost(i: Input, host: Option<Host>, sn: string, k: Kind)
    requires sn in i.conf
    ensures NamesAsked(i.(host := host), sn, k) == NamesAsked(i, sn, k)
  {
    hide SectionReasons, SectionChanges, Params, Acted, VarsOf, SectionEnabled;
    SectionIgnoresHost(i, host, sn);
  }

  lemma {:induction false} ValueIgnoresHost(i: Input, host: Option<Host>, sn: string, k: Kind, n: string)
    requires sn in i.conf
    ensures AskValue(i.(host := host), sn, k, n) == AskValue(i, sn, k, n)
    ensures AskReasons(i.(host := host), sn, k, n) == AskReasons(i, sn, k, n)
  {
    hide SectionReasons, SectionChanges, Params, ActionValue, Find, OneLine;
    SectionIgnoresHost(i, host, sn);
  }

  lemma {:induction false} ChangesIgnoreHost(i: Input, host: Option<Host>, sn: string, vars: map<string, string>, keys: seq<string>)
    requires forall k :: k in keys ==> k in vars
    ensures Changes(i.(host := host), sn, vars, keys) == Changes(i, sn, vars, keys)
  {
    if keys != [] {
      assert keys == keys[..|keys| - 1] + [keys[|keys| - 1]];
      ChangesIgnoreHost(i, host, sn, vars, keys[..|keys| - 1]);
    }
  }

  /** The candidate of the proxy generator is the table's, and each of its sections is processed. */
  lemma {:induction false} ProxygenCandidate(i: Input)
    requires i.carry == NO_CARRY && i.host.None?
    ensures PROXYGEN in PlanOf(i).actions <==> PROXYGEN in Assembled(i)
    ensures PROXYGEN in Assembled(i) ==> PlanOf(i).actions[PROXYGEN] == Assembled(i)[PROXYGEN]
    ensures PROXYGEN in Assembled(i) ==> forall s :: s in Assembled(i)[PROXYGEN].sections ==> Processed(i, s)
  {
    hide Assembled, Processed, Collect, Listed, Gather, AllAsks, SortedKeys, Tracked;
    ProxygenGathered(i);
    if PROXYGEN in Assembled(i) { ProxygenSections(i); }
  }

  lemma {:induction false} ProxygenGathered(i: Input)
    requires i.carry == NO_CARRY
    ensures var g := Gather(AllAsks(i), SortedKeys(i.conf.Keys));
            && (PROXYGEN in Assembled(i) <==> PROXYGEN in g)
            && (PROXYGEN in g ==> Assembled(i)[PROXYGEN] == g[PROXYGEN])
  {
    hide AllAsks, Gather, SortedKeys, Toggled, WithToggles, WithCarry;
    var g := Gather(AllAsks(i), SortedKeys(i.conf.Keys));
    UntouchedByToggles(g, i);
    UntouchedByCarry(WithToggles(g, i));
  }

  lemma {:induction false} UntouchedByToggles(t: Table, i: Input)
    ensures PROXYGEN in WithToggles(t, i) <==> PROXYGEN in t
    ensures PROXYGEN in t ==> WithToggles(t, i)[PROXYGEN] == t[PROXYGEN]
  {
    hide Toggled, RestartIds;
    RestartIdsExact(Toggled(i), PROXYGEN);
  }

  lemma {:induction false} UntouchedByCarry(t: Table)
    ensures PROXYGEN in WithCarry(t, map[]) <==> PROXYGEN in t
    ensures PROXYGEN in t ==> WithCarry(t, map[])[PROXYGEN] == t[PROXYGEN]
  {}

  lemma {:induction false} ProxygenSections(i: Input)
    requires PROXYGEN in Gather(AllAsks(i), SortedKeys(i.conf.Keys))
    ensures forall s :: s in Gather(AllAsks(i), SortedKeys(i.conf.Keys))[PROXYGEN].sections ==> Processed(i, s)
  {
    hide AllAsks, Gather, SortedKeys, Processed;
    var asks, names := AllAsks(i), SortedKeys(i.conf.Keys);
    GatherEntry(asks, names, PROXYGEN);
    AskersExact(asks, names, PROXYGEN);
    forall s | s in Gather(asks, names)[PROXYGEN].sections ensures Processed(i, s) { ProxygenAsker(i, s); }
  }

  lemma {:induction false} ProxygenAsker(i: Input, sn: string)
    ensures AsksFor(AllAsks(i), sn, PROXYGEN) ==> Processed(i, sn)
  {
    hide Asks;
    if sn in i.conf { AsksMembership(i, sn, PROXYGEN); }
  }

  /** In the second pass the sections of the generator that are listed are those another action touches. */
  lemma {:induction false} ProxygenListed(cur: Snapshot, conf: Conf, scope: set<string>, systemd: bool, h: Host)
    requires PROXYGEN !in h.drift && PROXYGEN in Assembled(HostInput(cur, conf, scope, systemd, None))
    ensures var i := HostInput(cur, conf, scope, systemd, None);
            var t := Assembled(i);
            (exists s :: s in t[PROXYGEN].sections && s in NamesIn(PlanOf(i.(host := Some(h))).sections)) <==> ProxygenFollows(t, h)
  {
    hide PlanOf, Assembled, DriftText, NamesIn, Processed;
    var i := HostInput(cur, conf, scope, systemd, None);
    var j, t := i.(host := Some(h)), Assembled(i);
    NoProxygenDrift(h);
    AssembledIgnoresHost(i, Some(h));
    ProxygenCandidate(i);
    forall s | s in t[PROXYGEN].sections ensures s in NamesIn(PlanOf(j).sections) <==> Touched(t, h, s) {
      SectionKeptIff(j, s);
      ProcessedIgnoresHost(i, Some(h), s);
    }
    if s :| s in t[PROXYGEN].sections && Touched(t, h, s) {
      var id :| Touches(t, h, id, s);
      assert id != PROXYGEN;
    }
  }

  lemma {:induction false} NoProxygenDrift(h: Host)
    requires PROXYGEN !in h.drift
    ensures DriftText(h, PROXYGEN) == ""
  {}

  lemma {:induction false} ProcessedIgnoresHost(i: Input, host: Option<Host>, sn: string)
    ensures Processed(i.(host := host), sn) <==> Processed(i, sn)
  {
    hide SectionReasons;
    if sn in i.conf { SectionIgnoresHost(i, host, sn); }
  }

  lemma {:induction false} ProxygenKept(cur: Snapshot, conf: Conf, scope: set<string>, systemd: bool, h: Host)
    ensures var i := HostInput(cur, conf, scope, systemd, None);
            PROXYGEN in PlanOf(i.(host := Some(h))).actions <==> PROXYGEN in Assembled(i) && DriftText(h, PROXYGEN) != ""
  {
    hide Assembled, DriftText, Actions, Pruned, Collect, Listed, KeepTouched;
    var i := HostInput(cur, conf, scope, systemd, None);
    AssembledIgnoresHost(i, Some(h));
    ActionKeptIff(Assembled(i), h, PROXYGEN);
  }

  lemma {:induction false} OtherDrift(h: Host, drift: string)
    ensures DriftText(WithProxygen(h, drift), PROXYGEN) == drift
    ensures forall id :: id != PROXYGEN ==> DriftText(WithProxygen(h, drift), id) == DriftText(h, id)
  {}
}
