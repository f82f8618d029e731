/** The state a cycle leaves to the next one, the steps that change it, and what holds over every run of steps. */
module Cycle {
  import opened Order
  import opened Options
  import opened Plan
  import opened Planner
  import opened PlannerFacts
  import PlanMeaning

  /** What the command line and the configuration fix for the whole process. */
  datatype Settings = Settings(forced: set<string>, scope: set<string>)

  /** Where the loop is: between cycles, holding a plan, or holding an executed plan whose restarts are not applied. */
  datatype Phase = Idle | HasPlan(plan: CyclePlan) | Executed(plan: CyclePlan)

  datatype State = State(
    prev: Snapshot, tracked: map<string, string>, carry: Carry, deferred: seq<RestartEntry>,
    requested: set<string>, firstRun: bool, phase: Phase)

  const NO_SNAPSHOT: Snapshot := Snapshot(map[], map[], map[], map[], map[], map[])

  const INITIAL: State := State(NO_SNAPSHOT, map[], NO_CARRY, [], {}, true, Idle)

  /** A step of a run. `pending` are the actions an execution did not complete, `back` the restarts the policy
      hands back; the environment chooses both. `BackOff` ends a cycle whose execution reported an error. */
  datatype Step =
    | Request(sections: set<string>)
    | PlanCycle(cur: Snapshot, conf: Conf, systemd: bool)
    | Execute(pending: set<Id>)
    | BackOff
    | ApplyRestarts(back: seq<RestartEntry>)

  predicate IsRetried(id: Id) {
    id.kind in {RewriteFile, SetParam, DropParam, WriteLdap, Proxygen}
  }

  predicate Enabled(s: State, step: Step) {
    match step
    case Request(_) => true
    case PlanCycle(_, _, _) => s.phase.Idle?
    case Execute(pending) =>
      s.phase.HasPlan? && forall id :: id in pending ==> id in s.phase.plan.actions && IsRetried(id)
    case BackOff => s.phase.Executed?
    case ApplyRestarts(back) => s.phase.Executed? && forall e :: e in back ==> e in s.phase.plan.restarts
  }

  function InputOf(cfg: Settings, s: State, cur: Snapshot, conf: Conf, systemd: bool): Input {
    Input(s.prev, cur, conf, cfg.forced, s.requested, s.firstRun, s.tracked, s.carry, cfg.scope, false, None, systemd)
  }

  /** A cycle that is not a REWRITE releases the restarts held back so far. */
  predicate Releases(cfg: Settings, s: State) {
    !s.firstRun && s.requested == {} && cfg.forced == {}
  }

  function HeldAfter(held: seq<RestartEntry>, p: CyclePlan, systemd: bool): seq<RestartEntry> {
    if p.deferredRestarts == [] then held else MergeRestarts(held, p.deferredRestarts, systemd)
  }

  /** A successful plan consumes the changes and the requests and keeps or releases the deferred restarts. */
  function AfterPlan(cfg: Settings, s: State, cur: Snapshot, p: CyclePlan, systemd: bool): State {
    var held := HeldAfter(s.deferred, p, systemd);
    var next := s.(prev := cur, tracked := p.tracked, requested := {});
    if !Releases(cfg, s) || held == [] then next.(deferred := held, phase := HasPlan(p))
    else next.(deferred := [], phase := HasPlan(p.(restarts := MergeRestarts(held, p.restarts, systemd))))
  }

  function Next(cfg: Settings, s: State, step: Step): State {
    match step
    case Request(sections) => s.(requested := s.requested + sections)
    case PlanCycle(cur, conf, systemd) =>
      var o := Compute(InputOf(cfg, s, cur, conf, systemd));
      if o.AllServicesDisabled? then s else AfterPlan(cfg, s, cur, o.plan, systemd)
    case Execute(pending) =>
      if !s.phase.HasPlan? then s
      else
        var p := s.phase.plan;
        s.(carry := Carry(p.actions - (p.actions.Keys - pending), p.restarts), phase := Executed(p))
    case BackOff => s.(phase := Idle)
    case ApplyRestarts(back) => s.(carry := s.carry.(restarts := back), firstRun := false, phase := Idle)
  }

  /////////// Runs ///////////

  function StateAt(cfg: Settings, steps: seq<Step>, n: nat): State
    requires n <= |steps|
  {
    if n == 0 then INITIAL else Next(cfg, StateAt(cfg, steps, n - 1), steps[n - 1])
  }

  ghost predicate IsRun(cfg: Settings, steps: seq<Step>) {
    forall n :: 0 <= n < |steps| ==> Enabled(StateAt(cfg, steps, n), steps[n])
  }

  function InputAt(cfg: Settings, steps: seq<Step>, n: nat): Input
    requires n < |steps| && steps[n].PlanCycle?
  {
    InputOf(cfg, StateAt(cfg, steps, n), steps[n].cur, steps[n].conf, steps[n].systemd)
  }

  /** Step `n` is a plan that succeeds. */
  predicate PlansAt(cfg: Settings, steps: seq<Step>, n: nat)
    requires n < |steps|
  {
    steps[n].PlanCycle? && !AllDisabled(InputAt(cfg, steps, n))
  }

  /////////// What every step keeps ///////////

  ghost predicate Inv(s: State) {
    && (forall id :: id in s.carry.actions ==> IsRetried(id))
    && WellKeyed(s.carry.actions)
    && (s.phase.HasPlan? ==>
          && WellKeyed(s.phase.plan.actions)
          && s.carry.actions.Keys <= s.phase.plan.actions.Keys
          && Services(s.carry.restarts) <= Services(s.phase.plan.restarts))
    && (s.phase.Executed? ==> s.carry.restarts == s.phase.plan.restarts)
  }

  lemma {:induction false} HeldServices(held: seq<RestartEntry>, p: CyclePlan, systemd: bool)
    ensures Services(HeldAfter(held, p, systemd)) == Services(held) + Services(p.deferredRestarts)
  {
    if p.deferredRestarts == [] {
      assert Services(p.deferredRestarts) == {};
    } else {
      MergeServices(held, p.deferredRestarts, systemd);
    }
  }

  /** Planning moves owed restarts between the plan and the deferred list and adds those the plan asks for. */
  lemma {:induction false} AfterPlanServices(cfg: Settings, s: State, cur: Snapshot, p: CyclePlan, systemd: bool)
    ensures var n := AfterPlan(cfg, s, cur, p, systemd);
            && n.phase.HasPlan? && n.phase.plan.actions == p.actions && n.carry == s.carry
            && Services(p.restarts) <= Services(n.phase.plan.restarts)
            && Services(n.phase.plan.restarts) + Services(n.deferred)
               == Services(p.restarts) + Services(s.deferred) + Services(p.deferredRestarts)
  {
    hide HeldAfter, MergeRestarts, Releases;
    var held := HeldAfter(s.deferred, p, systemd);
    HeldServices(s.deferred, p, systemd);
    MergeServices(held, p.restarts, systemd);
    assert Services([]) == {};
  }

  lemma {:induction false} PlannedKeepsCarry(i: Input)
    requires i.host.None? && !AllDisabled(i) && forall id :: id in i.carry.actions ==> IsRetried(id)
    ensures i.carry.actions.Keys <= PlanOf(i).actions.Keys
    ensures Services(i.carry.restarts) <= Services(PlanOf(i).restarts)
  {
    forall id | id in i.carry.actions ensures id in PlanOf(i).actions { CarryIsPlanned(i, id); }
    forall s | s in Services(i.carry.restarts) ensures s in Services(PlanOf(i).restarts) { PlanRestarts(i, s); }
  }

  lemma {:induction false} StepInv(cfg: Settings, s: State, step: Step)
    requires Inv(s) && Enabled(s, step)
    ensures Inv(Next(cfg, s, step))
  {
    hide PlanOf, AfterPlan, AllDisabled;
    if step.PlanCycle? { PlanningKeeps(cfg, s, step); }
  }

  lemma {:induction false} PlanningKeeps(cfg: Settings, s: State, step: Step)
    requires Inv(s) && step.PlanCycle?
    ensures var i, n := InputOf(cfg, s, step.cur, step.conf, step.systemd), Next(cfg, s, step);
            if AllDisabled(i) then n == s
            else
              && n.phase.HasPlan? && n.carry == s.carry && WellKeyed(n.phase.plan.actions)
              && s.carry.actions.Keys <= n.phase.plan.actions.Keys
              && Services(s.carry.restarts) <= Services(n.phase.plan.restarts)
              && Services(s.deferred) <= Services(n.phase.plan.restarts) + Services(n.deferred)
  {
    hide PlanOf, AfterPlan, AllDisabled;
    var i := InputOf(cfg, s, step.cur, step.conf, step.systemd);
    if !AllDisabled(i) {
      PlannedKeepsCarry(i);
      PlanWellKeyed(i);
      AfterPlanServices(cfg, s, step.cur, PlanOf(i), step.systemd);
    }
  }

  lemma {:induction false} RunInv(cfg: Settings, steps: seq<Step>, n: nat)
    requires IsRun(cfg, steps) && n <= |steps|
    ensures Inv(StateAt(cfg, steps, n))
  {
    if n > 0 {
      RunInv(cfg, steps, n - 1);
      StepInv(cfg, StateAt(cfg, steps, n - 1), steps[n - 1]);
    }
  }

  /////////// No owed restart is lost ///////////

  ghost predicate Owed(s: State, service: string) {
    || service in Services(s.deferred)
    || service in Services(s.carry.restarts)
    || (s.phase.HasPlan? && service in Services(s.phase.plan.restarts))
  }

  /** Step `step` hands a plan that contains `service` to the restart policy. */
  ghost predicate Applies(s: State, step: Step, service: string) {
    step.ApplyRestarts? && s.phase.Executed? && service in Services(s.phase.plan.restarts)
  }

  lemma {:induction false} StepKeepsOwed(cfg: Settings, s: State, step: Step, service: string)
    requires Inv(s) && Enabled(s, step) && Owed(s, service)
    ensures Owed(Next(cfg, s, step), service) || Applies(s, step, service)
  {
    hide PlanOf, AfterPlan, AllDisabled;
    if step.PlanCycle? { PlanningKeeps(cfg, s, step); }
  }

  lemma {:induction false} PlanMakesOwed(cfg: Settings, s: State, step: Step, sn: string, service: string)
    requires Inv(s) && step.PlanCycle?
    requires var i := InputOf(cfg, s, step.cur, step.conf, step.systemd); !AllDisabled(i) && OwedBy(i, sn, service)
    ensures Owed(Next(cfg, s, step), service)
  {
    hide PlanOf, AfterPlan;
    var i := InputOf(cfg, s, step.cur, step.conf, step.systemd);
    OwedIsPlanned(i, sn, service);
    AfterPlanServices(cfg, s, step.cur, PlanOf(i), step.systemd);
  }

  /** Over every run: it is the first run until restarts were handed to the policy for the first time. */
  lemma {:induction false} FirstRunUntilApplied(cfg: Settings, steps: seq<Step>, n: nat)
    requires n <= |steps|
    ensures StateAt(cfg, steps, n).firstRun <==> forall j :: 0 <= j < n ==> !steps[j].ApplyRestarts?
  {
    hide PlanOf, AllDisabled, HeldAfter, MergeRestarts;
    if n > 0 { FirstRunUntilApplied(cfg, steps, n - 1); }
  }

  /** Some step before `n` handed restarts to the policy. */
  ghost predicate AppliedBefore(steps: seq<Step>, n: nat) {
    exists j :: 0 <= j < n <= |steps| && steps[j].ApplyRestarts?
  }

  /** A variable of the section changed, and the section has a RESTART line for the service. */
  ghost predicate Owes(i: Input, sn: string, service: string) {
    PlanMeaning.InPlay(i, sn) && PlanMeaning.Moved(i, sn) && PlanMeaning.ActsOn(i, sn, service)
  }

  lemma {:induction false} OwesIs(i: Input, sn: string, service: string)
    requires Owes(i, sn, service) && !i.firstRun
    ensures OwedBy(i, sn, service)
  {
    hide PlanMeaning.ActsOn, Changed, SectionEnabled, PlanMeaning.SectionOn, Acted;
    PlanMeaning.InPlayIs(i, sn);
    PlanMeaning.ActsOnIs(i, sn, service);
  }

  lemma {:induction false} OwedStaysOwed(cfg: Settings, steps: seq<Step>, n: nat, m: nat, sn: string, service: string)
    requires IsRun(cfg, steps) && n < m <= |steps|
    requires PlansAt(cfg, steps, n) && OwedBy(InputAt(cfg, steps, n), sn, service)
    ensures Owed(StateAt(cfg, steps, m), service) ||
            exists j :: n < j < m && Applies(StateAt(cfg, steps, j), steps[j], service)
  {
    hide Next, Inv, Enabled, Owed, Applies, OwedBy, AllDisabled;
    RunInv(cfg, steps, n);
    PlanMakesOwed(cfg, StateAt(cfg, steps, n), steps[n], sn, service);
    assert StateAt(cfg, steps, n + 1) == Next(cfg, StateAt(cfg, steps, n), steps[n]);
    StaysOwed(cfg, steps, n + 1, m, service);
  }

  /** Over every run, once restarts were applied for the first time: when a variable of a compared section differs
      between two consecutive successful plans, each service the section has a RESTART line for is owed until a plan
      that contains it reaches the restart policy. */
  lemma {:induction false} NoOwedRestartLost(cfg: Settings, steps: seq<Step>, n: nat, m: nat, sn: string, service: string)
    requires IsRun(cfg, steps) && n < m <= |steps| && AppliedBefore(steps, n)
    requires PlansAt(cfg, steps, n) && Owes(InputAt(cfg, steps, n), sn, service)
    ensures Owed(StateAt(cfg, steps, m), service) ||
            exists j :: n < j < m && Applies(StateAt(cfg, steps, j), steps[j], service)
  {
    hide StateAt, Next, Owed, Applies, OwedBy, AllDisabled, IsRun, Owes;
    FirstRunUntilApplied(cfg, steps, n);
    OwesIs(InputAt(cfg, steps, n), sn, service);
    OwedStaysOwed(cfg, steps, n, m, sn, service);
  }

  lemma {:induction false} StaysOwed(cfg: Settings, steps: seq<Step>, n: nat, m: nat, service: string)
    requires IsRun(cfg, steps) && n <= m <= |steps| && Owed(StateAt(cfg, steps, n), service)
    ensures Owed(StateAt(cfg, steps, m), service) ||
            exists j :: n <= j < m && Applies(StateAt(cfg, steps, j), steps[j], service)
  {
    hide Next, Inv, Enabled, Owed, Applies;
    if n < m {
      RunInv(cfg, steps, m - 1);
      StaysOwed(cfg, steps, n, m - 1, service);
      if Owed(StateAt(cfg, steps, m - 1), service) { StepKeepsOwed(cfg, StateAt(cfg, steps, m - 1), steps[m - 1], service); }
    }
  }

  /** Over every run: a restart the policy hands back is owed again, and so on until a plan with it is applied. */
  lemma {:induction false} HandedBackStaysOwed(cfg: Settings, steps: seq<Step>, n: nat, m: nat, service: string)
    requires IsRun(cfg, steps) && n < m <= |steps| && steps[n].ApplyRestarts? && service in Services(steps[n].back)
    ensures Owed(StateAt(cfg, steps, m), service) ||
            exists j :: n < j < m && Applies(StateAt(cfg, steps, j), steps[j], service)
  {
    hide Inv, Enabled, Applies, PlanOf;
    assert StateAt(cfg, steps, n + 1) == Next(cfg, StateAt(cfg, steps, n), steps[n]);
    StaysOwed(cfg, steps, n + 1, m, service);
  }

  /////////// Which sections the plans of a run list ///////////

  /** Over every run: a plan lists a section exactly when the file has it, the configured scope has it, its service is
      there, and it is forced, requested since the last plan, in the first run, or moved since the last plan. */
  lemma {:induction false} PlanListsIff(cfg: Settings, steps: seq<Step>, n: nat, sn: string)
    requires n < |steps| && PlansAt(cfg, steps, n)
    ensures ListsAt(cfg, steps, n, sn) <==>
              && sn in steps[n].conf && (cfg.scope == {} || sn in cfg.scope)
              && PlanMeaning.SectionOn(sn, steps[n].cur.services.Keys)
              && (sn in cfg.forced || RequestedBefore(cfg, steps, n, sn) || !AppliedBefore(steps, n) ||
                  PlanMeaning.Moved(InputAt(cfg, steps, n), sn))
  {
    hide PlanOf, Next, AllDisabled, PlanMeaning.Moved, PlanMeaning.SectionOn, NamesIn, StateAt, RequestedBefore, AppliedBefore;
    PlanMeaning.SectionsListed(InputAt(cfg, steps, n), sn);
    FirstRunUntilApplied(cfg, steps, n);
    RequestedIs(cfg, steps, n, sn);
    NotYetApplied(steps, n);
  }

  lemma {:induction false} NotYetApplied(steps: seq<Step>, n: nat)
    requires n <= |steps|
    ensures AppliedBefore(steps, n) <==> !(forall j :: 0 <= j < n ==> !steps[j].ApplyRestarts?)
  {}

  /** The section was asked for, and no plan has succeeded since. */
  ghost predicate RequestedBefore(cfg: Settings, steps: seq<Step>, n: nat, sn: string)
    requires n <= |steps|
  {
    exists q: nat :: RequestedAt(cfg, steps, n, sn, q)
  }

  ghost predicate RequestedAt(cfg: Settings, steps: seq<Step>, n: nat, sn: string, q: nat)
    requires n <= |steps|
  {
    q < n && steps[q].Request? && sn in steps[q].sections && forall j :: q < j < n ==> !PlansAt(cfg, steps, j)
  }

  /** No request is lost: it waits for the next successful plan. */
  lemma {:induction false} RequestedIs(cfg: Settings, steps: seq<Step>, n: nat, sn: string)
    requires n <= |steps|
    ensures sn in StateAt(cfg, steps, n).requested <==> RequestedBefore(cfg, steps, n, sn)
  {
    hide Next, AllDisabled, RequestedBefore;
    if n == 0 {
      NoRequestYet(cfg, steps, sn);
    } else {
      RequestedIs(cfg, steps, n - 1, sn);
      RequestedStep(cfg, steps, n);
      RequestsGoOn(cfg, steps, n - 1, sn);
    }
  }

  lemma {:induction false} NoRequestYet(cfg: Settings, steps: seq<Step>, sn: string)
    ensures !RequestedBefore(cfg, steps, 0, sn)
  {}

  lemma {:induction false} RequestsGoOn(cfg: Settings, steps: seq<Step>, m: nat, sn: string)
    requires m < |steps|
    ensures RequestedBefore(cfg, steps, m + 1, sn) <==>
              (steps[m].Request? && sn in steps[m].sections) || (RequestedBefore(cfg, steps, m, sn) && !PlansAt(cfg, steps, m))
  {
    hide StateAt, AllDisabled;
    var n := m + 1;
    if q: nat :| RequestedAt(cfg, steps, m, sn, q) {
      if !PlansAt(cfg, steps, m) { assert RequestedAt(cfg, steps, n, sn, q); }
    }
    if q: nat :| RequestedAt(cfg, steps, n, sn, q) {
      if q < m {
        assert RequestedAt(cfg, steps, m, sn, q);
        assert !PlansAt(cfg, steps, m);
      }
    }
    if steps[m].Request? && sn in steps[m].sections { assert RequestedAt(cfg, steps, n, sn, m); }
  }

  lemma {:induction false} RequestedStep(cfg: Settings, steps: seq<Step>, n: nat)
    requires 0 < n <= |steps|
    ensures StateAt(cfg, steps, n).requested ==
            if steps[n - 1].Request? then StateAt(cfg, steps, n - 1).requested + steps[n - 1].sections
            else if PlansAt(cfg, steps, n - 1) then {} else StateAt(cfg, steps, n - 1).requested
  {
    hide PlanOf, AllDisabled, HeldAfter, MergeRestarts;
    assert steps[n - 1].PlanCycle? ==> (PlansAt(cfg, steps, n - 1) <==> !AllDisabled(InputAt(cfg, steps, n - 1)));
  }

  /////////// Retry until success ///////////

  ghost predicate Pending(s: State, id: Id) {
    id in s.carry.actions || (s.phase.HasPlan? && id in s.phase.plan.actions)
  }

  /** Step `step` executes the action `id` and it succeeds. */
  ghost predicate Completes(s: State, step: Step, id: Id) {
    step.Execute? && s.phase.HasPlan? && id in s.phase.plan.actions && id !in step.pending
  }

  lemma {:induction false} StepKeepsPending(cfg: Settings, s: State, step: Step, id: Id)
    requires Inv(s) && Enabled(s, step) && Pending(s, id)
    ensures Pending(Next(cfg, s, step), id) != Completes(s, step, id)
  {
    hide PlanOf, AfterPlan, AllDisabled;
    if step.PlanCycle? { PlanningKeeps(cfg, s, step); }
  }

  /** Over every run: a planned or carried action stays pending until an execution completes it. */
  lemma {:induction false} RetryUntilSuccess(cfg: Settings, steps: seq<Step>, n: nat, m: nat, id: Id)
    requires IsRun(cfg, steps) && n <= m <= |steps| && Pending(StateAt(cfg, steps, n), id)
    ensures Pending(StateAt(cfg, steps, m), id) ||
            exists j :: n <= j < m && Completes(StateAt(cfg, steps, j), steps[j], id)
  {
    hide Next, Inv, Enabled, Pending, Completes;
    if n < m {
      RunInv(cfg, steps, m - 1);
      RetryUntilSuccess(cfg, steps, n, m - 1, id);
      if Pending(StateAt(cfg, steps, m - 1), id) {
        StepKeepsPending(cfg, StateAt(cfg, steps, m - 1), steps[m - 1], id);
      }
    }
  }

  /** Over every run: each successful plan contains every action carried into it. */
  lemma {:induction false} CarriedIsPlannedAgain(cfg: Settings, steps: seq<Step>, n: nat, id: Id)
    requires IsRun(cfg, steps) && n < |steps| && PlansAt(cfg, steps, n)
    requires id in StateAt(cfg, steps, n).carry.actions
    ensures id in PlanOf(InputAt(cfg, steps, n)).actions
  {
    RunInv(cfg, steps, n);
    CarryIsPlanned(InputAt(cfg, steps, n), id);
  }

  /////////// Change detection telescopes ///////////

  /** The plan of step `n` compares `sn` on the variable (`typ`, `key`). */
  ghost predicate Watches(i: Input, sn: string, typ: string, key: string) {
    && PlanMeaning.InPlay(i, sn) && (i.forced == {} || sn in i.forced)
    && key in i.conf[sn].requiredVars && i.conf[sn].requiredVars[key] == typ
  }

  ghost predicate ListsAt(cfg: Settings, steps: seq<Step>, n: nat, sn: string) {
    n < |steps| && PlansAt(cfg, steps, n) && sn in NamesIn(PlanOf(InputAt(cfg, steps, n)).sections)
  }

  /** As long as no plan lists `sn`, the baseline keeps the value observed by plan `a`. */
  lemma {:induction false} BaselineKept(
    cfg: Settings, steps: seq<Step>, a: nat, m: nat, sn: string, typ: string, key: string)
    requires IsRun(cfg, steps) && a < m <= |steps| && PlansAt(cfg, steps, a)
    requires forall n :: a < n < m && PlansAt(cfg, steps, n) ==> Watches(InputAt(cfg, steps, n), sn, typ, key)
    requires forall n :: a < n < m ==> !ListsAt(cfg, steps, n, sn)
    ensures Seen(StateAt(cfg, steps, m).prev, typ, TrimBang(key)) == Seen(steps[a].cur, typ, TrimBang(key))
  {
    hide PlanOf, Enabled, Watches, AllDisabled, Next, NamesIn;
    var s, step := StateAt(cfg, steps, m - 1), steps[m - 1];
    if a + 1 < m {
      BaselineKept(cfg, steps, a, m - 1, sn, typ, key);
      assert !ListsAt(cfg, steps, m - 1, sn);
    }
    PrevAfter(cfg, s, step);
    if a + 1 < m && PlansAt(cfg, steps, m - 1) { UnlistedUnchanged(InputAt(cfg, steps, m - 1), sn, typ, key); }
  }

  /** Only a successful plan moves the baseline, to the snapshot it planned. */
  lemma {:induction false} PrevAfter(cfg: Settings, s: State, step: Step)
    ensures Next(cfg, s, step).prev ==
            if step.PlanCycle? && !AllDisabled(InputOf(cfg, s, step.cur, step.conf, step.systemd)) then step.cur
            else s.prev
  {
    hide PlanOf, AllDisabled, HeldAfter, MergeRestarts;
  }

  lemma {:induction false} UnlistedUnchanged(i: Input, sn: string, typ: string, key: string)
    requires i.host.None? && Watches(i, sn, typ, key) && sn !in NamesIn(PlanOf(i).sections)
    ensures Seen(i.prev, typ, TrimBang(key)) == Seen(i.cur, typ, TrimBang(key))
  {
    hide PlanOf, PlanMeaning.SectionOn;
    PlanMeaning.SectionsListed(i, sn);
    assert !VariableChanged(i, sn, key);
  }

  /** Over every run: a variable whose observed value differs between two successful plans makes some plan after the
      first list each section that watches it throughout, however many plans failed in between. */
  lemma {:induction false} ChangeDetectionTelescopes(
    cfg: Settings, steps: seq<Step>, a: nat, b: nat, sn: string, typ: string, key: string)
    requires IsRun(cfg, steps) && a < b < |steps| && PlansAt(cfg, steps, a) && PlansAt(cfg, steps, b)
    requires forall n :: a < n <= b && PlansAt(cfg, steps, n) ==> Watches(InputAt(cfg, steps, n), sn, typ, key)
    requires Seen(steps[a].cur, typ, TrimBang(key)) != Seen(steps[b].cur, typ, TrimBang(key))
    ensures exists n :: a < n <= b && ListsAt(cfg, steps, n, sn)
  {
    hide PlanOf, Enabled, Watches, AllDisabled, Next, NamesIn;
    if forall n :: a < n < b ==> !ListsAt(cfg, steps, n, sn) {
      BaselineKept(cfg, steps, a, b, sn, typ, key);
      var i := InputAt(cfg, steps, b);
      if !ListsAt(cfg, steps, b, sn) { UnlistedUnchanged(i, sn, typ, key); }
    }
  }

  /////////// Held-back restarts over a run ///////////

  ghost predicate OneHost(steps: seq<Step>, systemd: bool) {
    forall n :: 0 <= n < |steps| && steps[n].PlanCycle? ==> steps[n].systemd == systemd
  }

  lemma {:induction false} PlanIsLight(i: Input)
    requires i.systemd
    ensures Light(PlanOf(i).restarts) && Light(PlanOf(i).deferredRestarts)
  {
    hide Light, ClassifiedAll, Assembled, Pruned, TouchedSections, KeepTouched, Listed, Actions, Tracked;
    var t := if i.host.None? then Assembled(i) else Pruned(Assembled(i), i.host.value);
    ClassifiedIsLight(Collect(t, RestartNow));
    ClassifiedIsLight(Collect(t, RestartLater));
  }

  lemma {:induction false} MergeIsLight(a: seq<RestartEntry>, b: seq<RestartEntry>)
    ensures Light(MergeRestarts(a, b, true))
  {
    hide Light, ClassifiedAll, SortByService;
    ClassifiedIsLight(SortByService(a + b));
  }

  /** Neither the deferred restarts nor a plan on its way to the restart policy plainly restarts a heavy service. */
  ghost predicate AllLight(s: State) {
    Light(s.deferred) && (s.phase.Idle? || Light(s.phase.plan.restarts))
  }

  lemma {:induction false} StepIsLight(cfg: Settings, s: State, step: Step)
    requires AllLight(s) && (step.PlanCycle? ==> step.systemd)
    ensures AllLight(Next(cfg, s, step))
  {
    hide Light, PlanOf, AllDisabled, MergeRestarts, Releases;
    if step.PlanCycle? {
      var i := InputOf(cfg, s, step.cur, step.conf, step.systemd);
      PlanIsLight(i);
      MergeIsLight(s.deferred, PlanOf(i).deferredRestarts);
      MergeIsLight(HeldAfter(s.deferred, PlanOf(i), true), PlanOf(i).restarts);
      NothingIsLight();
    }
  }

  lemma {:induction false} NothingIsLight()
    ensures Light([])
  {}

  /** Over every run on a systemd host no heavy service is plainly restarted, carried restarts included. */
  lemma {:induction false} NoHeavyRestart(cfg: Settings, steps: seq<Step>, n: nat)
    requires OneHost(steps, true) && n <= |steps|
    ensures AllLight(StateAt(cfg, steps, n))
  {
    hide Next, AllLight;
    if n == 0 {
      InitiallyLight();
    } else {
      NoHeavyRestart(cfg, steps, n - 1);
      StepIsLight(cfg, StateAt(cfg, steps, n - 1), steps[n - 1]);
    }
  }

  lemma {:induction false} InitiallyLight()
    ensures AllLight(INITIAL)
  {
    NothingIsLight();
  }

  /** The plan of step `n` is no REWRITE: restarts were applied before, nothing is forced, and nothing was requested since
      the last successful plan. */
  ghost predicate Periodic(cfg: Settings, steps: seq<Step>, n: nat)
    requires n <= |steps|
  {
    AppliedBefore(steps, n) && cfg.forced == {} && forall sn :: !RequestedBefore(cfg, steps, n, sn)
  }

  lemma {:induction false} PeriodicReleases(cfg: Settings, steps: seq<Step>, n: nat)
    requires n <= |steps|
    ensures Releases(cfg, StateAt(cfg, steps, n)) <==> Periodic(cfg, steps, n)
  {
    hide StateAt, RequestedBefore, AppliedBefore;
    FirstRunUntilApplied(cfg, steps, n);
    NotYetApplied(steps, n);
    forall sn ensures sn in StateAt(cfg, steps, n).requested <==> RequestedBefore(cfg, steps, n, sn) { RequestedIs(cfg, steps, n, sn); }
  }

  /** The restarts deferred by successful plans since the last one that released them, in time order. */
  ghost function Withheld(cfg: Settings, steps: seq<Step>, n: nat): seq<RestartEntry>
    requires n <= |steps|
  {
    if n == 0 then []
    else
      var before := Withheld(cfg, steps, n - 1);
      if !PlansAt(cfg, steps, n - 1) then before
      else if Periodic(cfg, steps, n - 1) then []
      else before + PlanOf(InputAt(cfg, steps, n - 1)).deferredRestarts
  }

  lemma {:induction false} HeldAfterMerges(withheld: seq<RestartEntry>, p: CyclePlan, systemd: bool)
    ensures HeldAfter(MergeRestarts([], withheld, systemd), p, systemd)
         == MergeRestarts([], withheld + p.deferredRestarts, systemd)
  {
    hide MergeRestarts;
    if p.deferredRestarts == [] {
      assert withheld + p.deferredRestarts == withheld;
    } else {
      MergeTwice(withheld, p.deferredRestarts, systemd);
    }
  }

  /** One plan: held restarts and its own deferrals stay held as one merge, or join its restarts as one merge. */
  lemma {:induction false} PlanHolds(
    cfg: Settings, s: State, cur: Snapshot, p: CyclePlan, systemd: bool, withheld: seq<RestartEntry>)
    requires s.deferred == MergeRestarts([], withheld, systemd)
    requires p.restarts == MergeRestarts([], p.restarts, systemd)
    ensures var n, all := AfterPlan(cfg, s, cur, p, systemd), withheld + p.deferredRestarts;
            && n.phase.HasPlan?
            && (!Releases(cfg, s) ==> n.deferred == MergeRestarts([], all, systemd) && n.phase.plan == p)
            && (Releases(cfg, s) ==>
                  && n.deferred == []
                  && n.phase.plan == p.(restarts := MergeRestarts(all, p.restarts, systemd)))
  {
    hide MergeRestarts, HeldAfter, Releases;
    HeldAfterMerges(withheld, p, systemd);
    var all := withheld + p.deferredRestarts;
    MergeEmptyIff(all, systemd);
    MergeTwice(all, p.restarts, systemd);
    MergeFromNothing(all, p.restarts, systemd);
  }

  lemma {:induction false} PlanIsSettled(i: Input)
    ensures PlanOf(i).restarts == MergeRestarts([], PlanOf(i).restarts, i.systemd)
  {
    hide MergeRestarts, ClassifiedAll, Collect, Assembled, Pruned, TouchedSections, KeepTouched, Listed, Actions, Tracked;
    var t := if i.host.None? then Assembled(i) else Pruned(Assembled(i), i.host.value);
    CollectedServices(t, RestartNow, i.systemd);
    MergeSettled(Collect(t, RestartNow), i.systemd);
  }

  /** Over every run the deferred list is the merge of everything withheld, in time order. */
  lemma {:induction false} DeferredIsMerge(cfg: Settings, steps: seq<Step>, n: nat, systemd: bool)
    requires OneHost(steps, systemd) && n <= |steps|
    ensures StateAt(cfg, steps, n).deferred == MergeRestarts([], Withheld(cfg, steps, n), systemd)
  {
    hide MergeRestarts, PlanOf, AllDisabled, AfterPlan, Releases, Periodic;
    MergeEmptyIff([], systemd);
    if n > 0 {
      DeferredIsMerge(cfg, steps, n - 1, systemd);
      PeriodicReleases(cfg, steps, n - 1);
      if PlansAt(cfg, steps, n - 1) {
        var s, i := StateAt(cfg, steps, n - 1), InputAt(cfg, steps, n - 1);
        PlanIsSettled(i);
        PlanHolds(cfg, s, steps[n - 1].cur, PlanOf(i), systemd, Withheld(cfg, steps, n - 1));
      }
    }
  }

  /** Over every run: a plan that releases hands to the policy its own restarts merged with everything that earlier
      plans deferred, in time order, and one that does not hands over its own restarts only. */
  lemma {:induction false} ReleaseIsOneMerge(cfg: Settings, steps: seq<Step>, n: nat, systemd: bool)
    requires OneHost(steps, systemd) && n < |steps| && PlansAt(cfg, steps, n)
    ensures var own, after := PlanOf(InputAt(cfg, steps, n)), StateAt(cfg, steps, n + 1);
            && after.phase.HasPlan?
            && after.phase.plan.restarts ==
                 (if Periodic(cfg, steps, n)
                  then MergeRestarts(Withheld(cfg, steps, n) + own.deferredRestarts, own.restarts, systemd)
                  else own.restarts)
  {
    hide MergeRestarts, PlanOf, AllDisabled, AfterPlan, Releases, Periodic;
    DeferredIsMerge(cfg, steps, n, systemd);
    PeriodicReleases(cfg, steps, n);
    var s, i := StateAt(cfg, steps, n), InputAt(cfg, steps, n);
    PlanIsSettled(i);
    PlanHolds(cfg, s, steps[n].cur, PlanOf(i), systemd, Withheld(cfg, steps, n));
    assert StateAt(cfg, steps, n + 1) == Next(cfg, s, steps[n]);
  }
}
