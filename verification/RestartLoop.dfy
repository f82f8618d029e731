/** Restarts that send REWRITE requests do not make the daemon restart services forever. */
module RestartLoop {
  import opened Order
  import opened Options
  import opened Plan
  import opened Planner
  import opened PlannerFacts
  import opened Cycle

  /** A host whose configuration does not change any more. */
  datatype Stable = Stable(cfg: Settings, cur: Snapshot, conf: Conf, systemd: bool)

  /** The state once the sections `req` have been requested and the cycle has planned. */
  function PlannedState(w: Stable, s: State, req: set<string>): State {
    Next(w.cfg, Next(w.cfg, s, Request(req)), PlanCycle(w.cur, w.conf, w.systemd))
  }

  /** A cycle in which every action completes and the policy keeps no restart back. */
  function CycleEnd(w: Stable, s: State, req: set<string>): State {
    Next(w.cfg, Next(w.cfg, PlannedState(w, s, req), Execute({})), ApplyRestarts([]))
  }

  /** The state after `n` cycles; `reqs[i]` are the sections requested before cycle `i`, by restarted units or others. */
  function After(w: Stable, s: State, reqs: seq<set<string>>, n: nat): State
    requires n <= |reqs|
  {
    if n == 0 then s else CycleEnd(w, After(w, s, reqs, n - 1), reqs[n - 1])
  }

  /** The loop is between cycles, past its first run, and tracks exactly the enabled services. */
  ghost predicate Steady(w: Stable, s: State) {
    Inv(s) && s.phase.Idle? && !s.firstRun && w.cfg.forced == {} && s.tracked.Keys == w.cur.services.Keys
  }

  /** The last variable change has been consumed and nothing is left over. */
  ghost predicate Caught(w: Stable, s: State) {
    Steady(w, s) && s.prev == w.cur && s.carry == NO_CARRY && s.requested == {}
  }

  ghost predicate Rewrites(s: State, req: set<string>) {
    s.requested + req != {}
  }

  function InputFor(w: Stable, s: State, req: set<string>): Input {
    InputOf(w.cfg, s.(requested := s.requested + req), w.cur, w.conf, w.systemd)
  }

  lemma {:induction false} SteadyPlans(w: Stable, s: State, req: set<string>)
    requires Steady(w, s)
    ensures !AllDisabled(InputFor(w, s, req))
    ensures PlannedState(w, s, req) ==
            AfterPlan(w.cfg, s.(requested := s.requested + req), w.cur, PlanOf(InputFor(w, s, req)), w.systemd)
  {
    hide PlanOf, AfterPlan;
    if |s.tracked| > 1 {
      var svc :| svc in s.tracked;
      assert w.cur.Enabled(svc);
    }
  }

  lemma {:induction false} PlannedFacts(w: Stable, s: State, req: set<string>)
    requires Steady(w, s)
    ensures var n := PlannedState(w, s, req);
            && n.phase.HasPlan? && n.prev == w.cur && n.requested == {} && !n.firstRun
            && n.tracked == PlanOf(InputFor(w, s, req)).tracked
            && (Rewrites(s, req) ==>
                  n.deferred == HeldAfter(s.deferred, PlanOf(InputFor(w, s, req)), w.systemd) &&
                  n.phase.plan == PlanOf(InputFor(w, s, req)))
            && (!Rewrites(s, req) ==> n.deferred == [])
            && (HeldAfter(s.deferred, PlanOf(InputFor(w, s, req)), w.systemd) == [] ==>
                  n.phase.plan == PlanOf(InputFor(w, s, req)))
  {
    hide PlanOf, HeldAfter, MergeRestarts;
    SteadyPlans(w, s, req);
  }

  lemma {:induction false} TrackedKept(i: Input)
    requires !i.firstRun
    ensures PlanOf(i).tracked == i.tracked
  {
    hide Assembled, Pruned, Collect, Actions, Listed, KeepTouched, TouchedSections, ClassifiedAll;
  }

  /** A whole cycle consumes the change, executes everything and leaves nothing but held-back restarts. */
  lemma {:induction false} CycleCatches(w: Stable, s: State, req: set<string>)
    requires Steady(w, s)
    ensures Caught(w, CycleEnd(w, s, req))
    ensures !Rewrites(s, req) ==> CycleEnd(w, s, req).deferred == []
  {
    hide PlanOf, HeldAfter, PlannedState, Rewrites;
    PlannedFacts(w, s, req);
    TrackedKept(InputFor(w, s, req));
  }

  lemma {:induction false} CaughtUnchanged(w: Stable, s: State, req: set<string>, sn: string)
    requires Caught(w, s)
    ensures !Changed(InputFor(w, s, req), sn)
  {}

  /** Once caught up, a REWRITE cycle restarts nothing and holds back nothing new. */
  lemma {:induction false} RewriteCycleIsHarmless(w: Stable, s: State, req: set<string>)
    requires Caught(w, s) && req != {}
    ensures PlannedState(w, s, req).phase.HasPlan?
    ensures PlannedState(w, s, req).phase.plan.restarts == []
    ensures CycleEnd(w, s, req).deferred == s.deferred
  {
    hide PlanOf, HeldAfter, Changed, VariableChanged, PlannedState;
    var i := InputFor(w, s, req);
    PlannedFacts(w, s, req);
    NothingDeferred(w, s, req);
    forall svc ensures svc !in Services(PlanOf(i).restarts) { NoRestart(w, s, req, svc); }
    EmptyIffNone(PlanOf(i).restarts, {});
    assert HeldAfter(s.deferred, PlanOf(i), w.systemd) == s.deferred by { KeepsHeld(s.deferred, PlanOf(i), w.systemd); }
  }

  lemma {:induction false} KeepsHeld(held: seq<RestartEntry>, p: CyclePlan, systemd: bool)
    requires p.deferredRestarts == []
    ensures HeldAfter(held, p, systemd) == held
  {}

  lemma {:induction false} NothingDeferred(w: Stable, s: State, req: set<string>)
    requires Caught(w, s)
    ensures PlanOf(InputFor(w, s, req)).deferredRestarts == []
  {
    hide PlanOf, Changed, VariableChanged;
    var i := InputFor(w, s, req);
    forall svc ensures svc !in Services(PlanOf(i).deferredRestarts) {
      PlanDeferred(i, svc);
      forall sn ensures !OwedBy(i, sn, svc) { CaughtUnchanged(w, s, req, sn); }
    }
    EmptyIffNone(PlanOf(i).deferredRestarts, {});
  }

  lemma {:induction false} NoRestart(w: Stable, s: State, req: set<string>, svc: string)
    requires Caught(w, s)
    ensures svc !in Services(PlanOf(InputFor(w, s, req)).restarts)
  {
    hide PlanOf, Changed, VariableChanged, Considered, SectionReasons;
    var i := InputFor(w, s, req);
    PlanRestarts(i, svc);
    forall sn ensures svc !in NamesAsked(i, sn, RestartNow) {
      ProcessedExact(i, sn);
      CaughtUnchanged(w, s, req, sn);
    }
  }

  /** Once caught up, a cycle without a request releases what was held back; with nothing held back it is empty. */
  lemma {:induction false} QuietCycle(w: Stable, s: State)
    requires Caught(w, s)
    ensures PlannedState(w, s, {}).phase.HasPlan?
    ensures CycleEnd(w, s, {}).deferred == []
    ensures s.deferred == [] ==> IsEmpty(PlannedState(w, s, {}).phase.plan)
  {
    hide PlanOf, HeldAfter, Changed, VariableChanged, PlannedState, CycleEnd;
    var i := InputFor(w, s, {});
    PlannedFacts(w, s, {});
    CycleCatches(w, s, {});
    NothingDeferred(w, s, {});
    KeepsHeld(s.deferred, PlanOf(i), w.systemd);
    forall sn, k ensures !VariableChanged(i, sn, k) { UnchangedVariable(i, sn, k); }
    QuietPlanEmptyIff(i);
  }

  lemma {:induction false} UnchangedVariable(i: Input, sn: string, k: string)
    requires i.prev == i.cur
    ensures !VariableChanged(i, sn, k)
  {}

  /** Cycle `i` of a run that started in `s` is a REWRITE cycle. */
  ghost predicate RewriteCycle(s: State, reqs: seq<set<string>>, i: nat)
    requires i < |reqs|
  {
    if i == 0 then Rewrites(s, reqs[0]) else reqs[i] != {}
  }

  function PlanNo(w: Stable, s: State, reqs: seq<set<string>>, i: nat): State
    requires i < |reqs|
  {
    PlannedState(w, After(w, s, reqs, i), reqs[i])
  }

  lemma {:induction false} CaughtAfter(w: Stable, s: State, reqs: seq<set<string>>, n: nat)
    requires Steady(w, s) && 1 <= n <= |reqs|
    ensures Caught(w, After(w, s, reqs, n))
    ensures (exists j :: 0 <= j < n && !RewriteCycle(s, reqs, j)) ==> After(w, s, reqs, n).deferred == []
  {
    hide CycleEnd, Rewrites, PlannedState, Inv;
    if n == 1 {
      CycleCatches(w, s, reqs[0]);
    } else {
      var before := After(w, s, reqs, n - 1);
      CaughtAfter(w, s, reqs, n - 1);
      CycleCatches(w, before, reqs[n - 1]);
      if reqs[n - 1] == {} { QuietCycle(w, before); } else { RewriteCycleIsHarmless(w, before, reqs[n - 1]); }
    }
  }

  /** The restart loop ends. Cycle 0 consumes the last variable change. Of all later cycles only the first one of the
      run that is not a REWRITE can restart anything, whatever sections the restarted units ask for; every later
      cycle without a request is empty. */
  lemma {:induction false} RestartLoopEnds(w: Stable, s: State, reqs: seq<set<string>>, i: nat)
    requires Steady(w, s) && 1 <= i < |reqs|
    ensures PlanNo(w, s, reqs, i).phase.HasPlan?
    ensures PlanNo(w, s, reqs, i).phase.plan.restarts != [] ==>
              !RewriteCycle(s, reqs, i) && forall j :: 0 <= j < i ==> RewriteCycle(s, reqs, j)
    ensures !RewriteCycle(s, reqs, i) && (exists j :: 0 <= j < i && !RewriteCycle(s, reqs, j)) ==>
              IsEmpty(PlanNo(w, s, reqs, i).phase.plan)
  {
    hide PlannedState, Caught, Rewrites;
    CaughtAfter(w, s, reqs, i);
    if reqs[i] == {} { QuietCycle(w, After(w, s, reqs, i)); }
    else { RewriteCycleIsHarmless(w, After(w, s, reqs, i), reqs[i]); }
  }

  /** So at most two cycles carry restarts: the change cycle and one later cycle. */
  lemma {:induction false} AtMostOneLaterRestart(w: Stable, s: State, reqs: seq<set<string>>, i: nat, j: nat)
    requires Steady(w, s) && 1 <= i < |reqs| && 1 <= j < |reqs|
    requires PlanNo(w, s, reqs, i).phase.HasPlan? && PlanNo(w, s, reqs, i).phase.plan.restarts != []
    requires PlanNo(w, s, reqs, j).phase.HasPlan? && PlanNo(w, s, reqs, j).phase.plan.restarts != []
    ensures i == j
  {
    hide PlanNo, Steady, RewriteCycle;
    RestartLoopEnds(w, s, reqs, i);
    RestartLoopEnds(w, s, reqs, j);
  }

  /** A run of the state machine reaches a steady state as soon as a cycle past the first run starts with the enabled
      services tracked, so the theorem applies to every such point of every run. */
  lemma {:induction false} RunsReachSteady(w: Stable, steps: seq<Step>, n: nat)
    requires IsRun(w.cfg, steps) && n <= |steps| && w.cfg.forced == {}
    requires var s := StateAt(w.cfg, steps, n);
             s.phase.Idle? && !s.firstRun && s.tracked.Keys == w.cur.services.Keys
    ensures Steady(w, StateAt(w.cfg, steps, n))
  {
    hide Next, Inv;
    RunInv(w.cfg, steps, n);
  }
}
