/** REWRITE clients and the main loop, interleaved one critical section or channel operation at a time. */
module RewriteProtocol {
  import opened Trigger

  /** How far a client got in its request; `Answered` is the answer given while the cycle applies its restarts. */
  datatype ClientPc = Arrived | Checked | Queued | Counted | Registered | Sent | Gone | Answered

  datatype LoopPc =
    | Top | Polling | Marking | Loading | Claiming | Taking | Planning | Requeuing | Executing | Completing
    | Opening | Applying | Closing | Finalizing | IntervalSleep | IdleSleep | BackOffSleep

  /** `names[c]` are the sections client `c` asks for; `skipIdle` is the idle-poll option. */
  datatype Params = Params(names: map<Client, set<string>>, skipIdle: bool)

  /** The shared state, the loop's own variables, and a record of the past: `covered` are the (client, section) pairs
      a successful plan took after the client had queued the section, `settled` those whose execution has ended. */
  datatype State = State(
    w: Waiters, queue: set<string>, token: bool, counter: nat, clients: map<Client, ClientPc>,
    pc: LoopPc, signaled: bool, lastCount: nat, firstRun: bool,
    taken: set<string>, planned: set<string>, ranClean: bool,
    atTake: set<Client>, covered: set<(Client, string)>, settled: set<(Client, string)>)

  function Initial(p: Params): State {
    State(NO_WAITERS, {}, false, 0, map c | c in p.names :: Arrived, Top, false, 0, true, {}, {}, false, {}, {}, {})
  }

  datatype Step =
    | Check(c: Client) | Enqueue(c: Client) | Count(c: Client) | Join(c: Client) | Send(c: Client) | Cancel(c: Client)
    | Reload
    | ConsumeReload | PollIdle | MarkCount | Load(ok: bool) | Claim | Take | PlanFails | PlanWorks(sections: set<string>)
    | Requeue | ExecuteEnds(ok: bool) | Complete | BeginRestarts | ApplyEnds | EndRestarts | Finalize
    | WakeByToken | WakeByTimer

  predicate HasQueued(pc: ClientPc) {
    pc in {Queued, Counted, Registered, Sent, Gone}
  }

  predicate Sleeping(pc: LoopPc) {
    pc in {IntervalSleep, IdleSleep, BackOffSleep}
  }

  predicate Enabled(p: Params, s: State, step: Step) {
    match step
    case Check(c) => c in s.clients && c in p.names && s.clients[c] == Arrived
    case Enqueue(c) => c in s.clients && c in p.names && s.clients[c] == Checked
    case Count(c) => c in s.clients && s.clients[c] == Queued
    case Join(c) => c in s.clients && s.clients[c] == Counted
    case Send(c) => c in s.clients && s.clients[c] == Registered
    case Cancel(c) => c in s.clients && s.clients[c] == Sent
    case Reload => true
    case ConsumeReload => s.pc == Top
    case PollIdle => s.pc == Polling
    case MarkCount => s.pc == Marking
    case Load(_) => s.pc == Loading
    case Claim => s.pc == Claiming
    case Take => s.pc == Taking
    case PlanFails => s.pc == Planning
    case PlanWorks(_) => s.pc == Planning
    case Requeue => s.pc == Requeuing
    case ExecuteEnds(_) => s.pc == Executing
    case Complete => s.pc == Completing
    case BeginRestarts => s.pc == Opening
    case ApplyEnds => s.pc == Applying
    case EndRestarts => s.pc == Closing
    case Finalize => s.pc == Finalizing
    case WakeByToken => Sleeping(s.pc) && s.token
    case WakeByTimer => Sleeping(s.pc)
  }

  function NamesOf(p: Params, c: Client): set<string> {
    if c in p.names then p.names[c] else {}
  }

  function Pairs(p: Params, clients: set<Client>, sections: set<string>): set<(Client, string)> {
    set c, n | c in clients && n in sections && n in NamesOf(p, c) :: (c, n)
  }

  function QueuedClients(s: State): set<Client> {
    set c | c in s.clients && HasQueued(s.clients[c])
  }

  function Next(p: Params, s: State, step: Step): State {
    match step
    case Check(c) => s.(clients := s.clients[c := if AlreadyRewritten(s.w, NamesOf(p, c)) then Answered else Checked])
    case Enqueue(c) => s.(queue := s.queue + NamesOf(p, c), clients := s.clients[c := Queued])
    case Count(c) => s.(counter := s.counter + 1, clients := s.clients[c := Counted])
    case Join(c) => s.(w := Trigger.Registered(s.w, c), clients := s.clients[c := Registered])
    case Send(c) => s.(token := true, clients := s.clients[c := Sent])
    case Cancel(c) => s.(w := Forgotten(s.w, c), clients := s.clients[c := Gone])
    case Reload => s.(token := true)
    case ConsumeReload => s.(token := false, signaled := s.signaled || s.token, pc := Polling)
    case PollIdle =>
      s.(pc := if p.skipIdle && !s.firstRun && !s.signaled && s.counter == s.lastCount then IdleSleep else Marking)
    case MarkCount => s.(lastCount := s.counter, pc := Loading)
    case Load(ok) => s.(pc := if ok then Claiming else BackOffSleep)
    case Claim => s.(w := Claimed(s.w), pc := Taking)
    case Take => s.(taken := s.queue, queue := {}, atTake := QueuedClients(s), pc := Planning)
    case PlanFails => s.(queue := s.queue + s.taken, taken := {}, atTake := {}, pc := Requeuing)
    case PlanWorks(sections) =>
      s.(planned := sections, covered := s.covered + Pairs(p, s.atTake, s.taken), taken := {}, atTake := {},
         pc := Executing)
    case Requeue => s.(w := Requeued(s.w), pc := BackOffSleep)
    case ExecuteEnds(ok) => s.(ranClean := ok, settled := s.covered, pc := Completing)
    case Complete => s.(w := Completed(s.w), pc := if s.ranClean then Opening else BackOffSleep)
    case BeginRestarts => s.(w := s.w.(open := true, restarting := s.planned), pc := Applying)
    case ApplyEnds => s.(pc := Closing)
    case EndRestarts => s.(w := s.w.(open := false, restarting := {}), pc := Finalizing)
    case Finalize => s.(signaled := false, firstRun := false, pc := IntervalSleep)
    case WakeByToken => s.(token := false, signaled := true, pc := Top)
    case WakeByTimer => s.(pc := Top)
  }

  /////////// Runs ///////////

  function StateAt(p: Params, steps: seq<Step>, n: nat): State
    requires n <= |steps|
  {
    if n == 0 then Initial(p) else Next(p, StateAt(p, steps, n - 1), steps[n - 1])
  }

  ghost predicate IsRun(p: Params, steps: seq<Step>) {
    forall n :: 0 <= n < |steps| ==> Enabled(p, StateAt(p, steps, n), steps[n])
  }

  /////////// What every step keeps ///////////

  /** A listed client registered, and each client is listed at most once. */
  ghost predicate ListsInv(s: State) {
    && Trigger.Valid(s.w)
    && forall c :: c in s.w.waiting || c in s.w.inflight || c in s.w.closed ==>
         c in s.clients && s.clients[c] in {Registered, Sent, Gone}
  }

  /** Where a section a client queued can be: still queued, in the hands of the plan being made, or taken for good. */
  ghost predicate Located(s: State, c: Client, n: string) {
    n in s.queue || (s.pc == Planning && n in s.taken && c in s.atTake) || (c, n) in s.covered
  }

  ghost predicate QueueInv(p: Params, s: State) {
    forall c, n :: c in s.clients && HasQueued(s.clients[c]) && n in NamesOf(p, c) ==> Located(s, c, n)
  }

  /** The sections of a claimed client are with the plan, then taken, then executed, before the client is released. */
  ghost predicate ClaimInv(p: Params, s: State) {
    forall c, n :: c in s.w.inflight && n in NamesOf(p, c) ==>
      && (s.pc == Planning ==> (n in s.taken && c in s.atTake) || (c, n) in s.covered)
      && (s.pc == Executing ==> (c, n) in s.covered)
      && (s.pc == Completing ==> (c, n) in s.settled)
  }

  /** Clients are claimed only while a cycle is between claiming and completing. */
  ghost predicate InflightInv(s: State) {
    s.w.inflight != [] ==> s.pc in {Taking, Planning, Requeuing, Executing, Completing}
  }

  ghost predicate ReleaseInv(p: Params, s: State) {
    && s.settled <= s.covered
    && forall c, n :: c in s.w.closed && n in NamesOf(p, c) ==> (c, n) in s.settled
  }

  ghost predicate RestartInv(s: State) {
    && (s.w.open ==> s.pc in {Applying, Closing} && s.w.restarting == s.planned)
    && (s.pc in {Opening, Applying, Closing} ==> s.ranClean)
  }

  ghost predicate Listed(w: Waiters, c: Client) {
    c in w.waiting || c in w.inflight
  }

  /** A client that passed its send either finds a token or the loop already knows it was signaled; from the claim on,
      only a pending token counts for the clients that came later. */
  ghost predicate WakeInv(s: State) {
    SignalInv(s) && LateInv(s) && (s.pc in {IntervalSleep, IdleSleep} ==> !s.signaled)
  }

  ghost predicate SignalInv(s: State) {
    forall c :: Listed(s.w, c) && c in s.clients && s.clients[c] == Sent ==> s.token || s.signaled
  }

  predicate PastClaim(pc: LoopPc) {
    pc in {Taking, Planning, Executing, Completing, Opening, Applying, Closing, Finalizing}
  }

  ghost predicate LateInv(s: State) {
    PastClaim(s.pc) ==> forall c :: c in s.w.waiting && c in s.clients && s.clients[c] == Sent ==> s.token
  }

  ghost predicate Inv(p: Params, s: State) {
    && ListsInv(s) && QueueInv(p, s) && ClaimInv(p, s) && InflightInv(s) && ReleaseInv(p, s) && RestartInv(s)
    && WakeInv(s)
  }

  lemma {:induction false} StepLists(p: Params, s: State, step: Step)
    requires Inv(p, s) && Enabled(p, s, step)
    ensures ListsInv(Next(p, s, step))
  {
    hide QueueInv, ClaimInv, ReleaseInv, RestartInv, WakeInv, InflightInv, Trigger.Valid, Pairs, QueuedClients,
         AlreadyRewritten, Without;
    var w := Next(p, s, step).w;
    assert Trigger.Valid(w) by {
      MovesValid(s.w);
      if step.Join? { RegisteredValid(s.w, step.c); }
      if step.Cancel? { ForgottenValid(s.w, step.c); }
      if step.BeginRestarts? || step.EndRestarts? { SameLists(s.w, w); }
    }
    forall c | c in w.waiting || c in w.inflight || c in w.closed
      ensures step == Join(c) || c in s.w.waiting || c in s.w.inflight || c in s.w.closed
    {
      if step.Cancel? {
        WithoutExact(s.w.waiting, step.c);
        WithoutExact(s.w.inflight, step.c);
      }
    }
  }

  lemma {:induction false} SameLists(a: Waiters, b: Waiters)
    requires Trigger.Valid(a) && a.waiting == b.waiting && a.inflight == b.inflight && a.closed == b.closed
    ensures Trigger.Valid(b)
  {}

  lemma {:induction false} StepQueue(p: Params, s: State, step: Step)
    requires Inv(p, s) && Enabled(p, s, step)
    ensures QueueInv(p, Next(p, s, step))
  {
    hide ListsInv, ClaimInv, ReleaseInv, RestartInv, WakeInv, InflightInv, AlreadyRewritten, Without, NamesOf;
    var t := Next(p, s, step);
    forall c, n | c in t.clients && HasQueued(t.clients[c]) && n in NamesOf(p, c) ensures Located(t, c, n) {
      if HasQueued(s.clients[c]) { assert Located(s, c, n); }
    }
  }

  lemma {:induction false} StepClaim(p: Params, s: State, step: Step)
    requires Inv(p, s) && Enabled(p, s, step)
    ensures ClaimInv(p, Next(p, s, step)) && InflightInv(Next(p, s, step))
  {
    hide ReleaseInv, RestartInv, WakeInv, Trigger.Valid, AlreadyRewritten, NamesOf, Without;
    var t := Next(p, s, step);
    if step.Cancel? {
      WithoutExact(s.w.inflight, step.c);
      assert t.w.inflight != [] ==> t.w.inflight[0] in s.w.inflight;
    }
    forall c, n | c in t.w.inflight && n in NamesOf(p, c)
      ensures && (t.pc == Planning ==> (n in t.taken && c in t.atTake) || (c, n) in t.covered)
              && (t.pc == Executing ==> (c, n) in t.covered)
              && (t.pc == Completing ==> (c, n) in t.settled)
    {
      if step.Take? { assert Located(s, c, n); }
    }
  }

  lemma {:induction false} StepRelease(p: Params, s: State, step: Step)
    requires ReleaseInv(p, s) && ClaimInv(p, s) && Enabled(p, s, step)
    ensures ReleaseInv(p, Next(p, s, step))
  {
    hide AlreadyRewritten, Without, NamesOf, Pairs, QueuedClients;
  }

  lemma {:induction false} StepRestarts(p: Params, s: State, step: Step)
    requires RestartInv(s) && Enabled(p, s, step)
    ensures RestartInv(Next(p, s, step))
  {
    hide AlreadyRewritten, Without, NamesOf, Pairs, QueuedClients;
  }

  lemma {:induction false} StepWake(p: Params, s: State, step: Step)
    requires Inv(p, s) && Enabled(p, s, step)
    ensures WakeInv(Next(p, s, step))
  {
    hide QueueInv, ClaimInv, ReleaseInv, RestartInv, AlreadyRewritten, Without, NamesOf, Pairs, QueuedClients, Trigger.Valid,
         ListsInv, InflightInv, SignalInv, LateInv;
    if IsClientStep(step) {
      ClientStepLate(p, s, step);
      ClientStepSignal(p, s, step);
    } else {
      LoopStepLate(p, s, step);
      LoopStepSignal(p, s, step);
    }
  }

  predicate IsClientStep(step: Step) {
    step.Check? || step.Enqueue? || step.Count? || step.Join? || step.Send? || step.Cancel? || step.Reload?
  }

  lemma {:induction false} ClientStepLate(p: Params, s: State, step: Step)
    requires LateInv(s) && Enabled(p, s, step) && IsClientStep(step)
    ensures LateInv(Next(p, s, step))
  {
    hide AlreadyRewritten, Without, NamesOf, Pairs, QueuedClients;
    forall c ensures c in Next(p, s, step).w.waiting ==> c in s.w.waiting || step == Join(c) || step == Requeue {
      StepWaiting(p, s, step, c);
    }
  }

  lemma {:induction false} LoopStepLate(p: Params, s: State, step: Step)
    requires LateInv(s) && Enabled(p, s, step) && !IsClientStep(step)
    ensures LateInv(Next(p, s, step))
  {
    hide AlreadyRewritten, Without, NamesOf, Pairs, QueuedClients;
  }

  lemma {:induction false} ClientStepSignal(p: Params, s: State, step: Step)
    requires SignalInv(s) && Enabled(p, s, step) && IsClientStep(step)
    ensures SignalInv(Next(p, s, step))
  {
    hide AlreadyRewritten, Without, NamesOf, Pairs, QueuedClients;
    forall c ensures Listed(Next(p, s, step).w, c) ==> Listed(s.w, c) || step == Join(c) { StepListed(p, s, step, c); }
  }

  lemma {:induction false} LoopStepSignal(p: Params, s: State, step: Step)
    requires WakeInv(s) && InflightInv(s) && Enabled(p, s, step) && !IsClientStep(step)
    ensures SignalInv(Next(p, s, step))
  {
    hide AlreadyRewritten, Without, NamesOf, Pairs, QueuedClients;
  }

  lemma {:induction false} StepListed(p: Params, s: State, step: Step, c: Client)
    ensures Listed(Next(p, s, step).w, c) ==> Listed(s.w, c) || step == Join(c)
  {
    hide Without, NamesOf, Pairs, QueuedClients, AlreadyRewritten;
    if step.Cancel? {
      WithoutExact(s.w.waiting, step.c);
      WithoutExact(s.w.inflight, step.c);
    }
  }

  lemma {:induction false} StepWaiting(p: Params, s: State, step: Step, c: Client)
    ensures c in Next(p, s, step).w.waiting ==> c in s.w.waiting || step == Join(c) || step == Requeue
  {
    hide Without, NamesOf, Pairs, QueuedClients, AlreadyRewritten;
    if step.Cancel? { WithoutExact(s.w.waiting, step.c); }
  }

  lemma {:induction false} RunInv(p: Params, steps: seq<Step>, n: nat)
    requires IsRun(p, steps) && n <= |steps|
    ensures Inv(p, StateAt(p, steps, n))
  {
    hide ListsInv, QueueInv, ClaimInv, ReleaseInv, RestartInv, WakeInv, InflightInv, Next, Enabled;
    if n == 0 {
      InitialInv(p);
    } else {
      var s, step := StateAt(p, steps, n - 1), steps[n - 1];
      RunInv(p, steps, n - 1);
      StepLists(p, s, step);
      StepQueue(p, s, step);
      StepClaim(p, s, step);
      StepRelease(p, s, step);
      StepRestarts(p, s, step);
      StepWake(p, s, step);
    }
  }

  lemma {:induction false} InitialInv(p: Params)
    ensures Inv(p, Initial(p))
  {}

  /////////// What runs guarantee ///////////

  /** The plan of step `k` succeeded with the sections taken at step `t`. */
  ghost predicate PlanTook(steps: seq<Step>, t: nat, k: nat) {
    t < k < |steps| && steps[t].Take? && steps[k].PlanWorks? && forall j :: t < j < k ==> !LoopPlans(steps[j])
  }

  predicate LoopPlans(step: Step) {
    step.Take? || step.PlanFails? || step.PlanWorks?
  }

  /** Client `c` queued the section at `q`, the plan made at `k` took it and succeeded, and at `e` its execution ended. */
  ghost predicate Served(p: Params, steps: seq<Step>, n: nat, c: Client, name: string, q: nat, t: nat, k: nat, e: nat) {
    && q < t < k < e < n <= |steps| && steps[q] == Enqueue(c) && PlanTook(steps, t, k)
    && name in StateAt(p, steps, t).queue
    && steps[e].ExecuteEnds? && forall j :: k < j < e ==> !steps[j].PlanWorks? && !steps[j].ExecuteEnds?
  }

  /** A client is released at most once, and only after every section it named was taken by a successful plan made
      after it queued them and the execution of that very plan has ended. */
  lemma {:induction false} ReleasedOnceAndServed(p: Params, steps: seq<Step>, n: nat)
    requires IsRun(p, steps) && n <= |steps|
    ensures NoDuplicates(StateAt(p, steps, n).w.closed)
    ensures forall c, name :: c in StateAt(p, steps, n).w.closed && name in NamesOf(p, c) ==>
              exists q, t, k, e :: Served(p, steps, n, c, name, q, t, k, e)
  {
    hide Next, Enabled, ListsInv, QueueInv, ClaimInv, RestartInv, WakeInv, InflightInv, NamesOf, Served, IsRun, StateAt;
    RunInv(p, steps, n);
    var s := StateAt(p, steps, n);
    ClosedOnce(s);
    forall c, name | c in s.w.closed && name in NamesOf(p, c) ensures exists q, t, k, e :: Served(p, steps, n, c, name, q, t, k, e) {
      SettledMeans(p, steps, n, c, name);
    }
  }

  lemma {:induction false} ClosedOnce(s: State)
    requires ListsInv(s)
    ensures NoDuplicates(s.w.closed)
  {
    var w := s.w;
    assert forall i :: 0 <= i < |w.closed| ==> (w.closed + w.inflight + w.waiting)[i] == w.closed[i];
  }

  lemma {:induction false} SettledMeans(p: Params, steps: seq<Step>, n: nat, c: Client, name: string)
    requires IsRun(p, steps) && n <= |steps| && (c, name) in StateAt(p, steps, n).settled
    ensures exists q, t, k, e :: Served(p, steps, n, c, name, q, t, k, e)
  {
    hide Next, Enabled;
    var s, step := StateAt(p, steps, n - 1), steps[n - 1];
    HistorySteps(p, s, step, c, name);
    if (c, name) in s.settled {
      SettledMeans(p, steps, n - 1, c, name);
      var q, t, k, e :| Served(p, steps, n - 1, c, name, q, t, k, e);
      assert Served(p, steps, n, c, name, q, t, k, e);
    } else {
      EnabledAt(p, steps, n - 1);
      ExecuteEndsEnabled(p, s, step);
      var q, t, k := UnsettledMeans(p, steps, n - 1, c, name);
      assert Served(p, steps, n, c, name, q, t, k, n - 1);
    }
  }

  lemma {:induction false} ExecuteEndsEnabled(p: Params, s: State, step: Step)
    requires Enabled(p, s, step) && step.ExecuteEnds?
    ensures s.pc == Executing
  {}

  /** Outside an execution everything taken by a successful plan has been executed. */
  lemma {:induction false} SettledOutside(p: Params, steps: seq<Step>, n: nat)
    requires IsRun(p, steps) && n <= |steps|
    ensures StateAt(p, steps, n).pc == Executing || StateAt(p, steps, n).covered <= StateAt(p, steps, n).settled
  {
    hide Next, Enabled;
    if n > 0 {
      SettledOutside(p, steps, n - 1);
      EnabledAt(p, steps, n - 1);
      ExecutingSteps(p, StateAt(p, steps, n - 1), steps[n - 1]);
    }
  }

  lemma {:induction false} ExecutingSteps(p: Params, s: State, step: Step)
    requires Enabled(p, s, step)
    ensures var t := Next(p, s, step);
            && (step.PlanWorks? ==> s.pc == Planning && t.pc == Executing && t.settled == s.settled)
            && (step.ExecuteEnds? ==> s.pc == Executing && t.pc == Completing && t.settled == t.covered)
            && (!step.PlanWorks? && !step.ExecuteEnds? ==>
                  (t.pc == Executing <==> s.pc == Executing) && t.covered == s.covered && t.settled == s.settled)
  {
    hide Pairs, AlreadyRewritten, NamesOf, Trigger.Registered, Forgotten, QueuedClients;
  }

  /** What is taken but not executed was taken by the plan now being executed. */
  lemma {:induction false} UnsettledMeans(p: Params, steps: seq<Step>, n: nat, c: Client, name: string)
    returns (q: nat, t: nat, k: nat)
    requires IsRun(p, steps) && n <= |steps| && StateAt(p, steps, n).pc == Executing
    requires (c, name) in StateAt(p, steps, n).covered && (c, name) !in StateAt(p, steps, n).settled
    ensures q < t < k < n && steps[q] == Enqueue(c) && PlanTook(steps, t, k) && name in StateAt(p, steps, t).queue
    ensures forall j :: k < j < n ==> !steps[j].PlanWorks? && !steps[j].ExecuteEnds?
  {
    hide Next, Enabled, IsRun, StateAt;
    assert n > 0 by { NotExecutingAtFirst(p, steps); }
    var s, step := StateAt(p, steps, n - 1), steps[n - 1];
    EnabledAt(p, steps, n - 1);
    StateStep(p, steps, n - 1);
    ExecutingSteps(p, s, step);
    if step.PlanWorks? {
      HistorySteps(p, s, step, c, name);
      SettledOutside(p, steps, n - 1);
      q, t := TakenMeans(p, steps, n - 1, c, name);
      k := n - 1;
    } else {
      q, t, k := UnsettledMeans(p, steps, n - 1, c, name);
    }
  }

  lemma {:induction false} NotExecutingAtFirst(p: Params, steps: seq<Step>)
    ensures StateAt(p, steps, 0).pc != Executing
  {}

  lemma {:induction false} EnabledAt(p: Params, steps: seq<Step>, n: nat)
    requires IsRun(p, steps) && n < |steps|
    ensures Enabled(p, StateAt(p, steps, n), steps[n])
  {}

  lemma {:induction false} TakenMeans(p: Params, steps: seq<Step>, n: nat, c: Client, name: string) returns (q: nat, t: nat)
    requires IsRun(p, steps) && n <= |steps|
    requires StateAt(p, steps, n).pc == Planning && c in StateAt(p, steps, n).atTake && name in StateAt(p, steps, n).taken
    ensures q < t < n && steps[q] == Enqueue(c) && steps[t].Take? && name in StateAt(p, steps, t).queue
    ensures forall j :: t < j < n ==> !LoopPlans(steps[j])
  {
    hide Next, Enabled;
    var s, step := StateAt(p, steps, n - 1), steps[n - 1];
    EnabledAt(p, steps, n - 1);
    PlanningSteps(p, s, step);
    if step.Take? {
      q := QueuedMeans(p, steps, n - 1, c);
      t := n - 1;
    } else {
      q, t := TakenMeans(p, steps, n - 1, c, name);
    }
  }

  lemma {:induction false} QueuedMeans(p: Params, steps: seq<Step>, n: nat, c: Client) returns (q: nat)
    requires IsRun(p, steps) && n <= |steps|
    requires c in QueuedClients(StateAt(p, steps, n))
    ensures q < n && steps[q] == Enqueue(c)
  {
    hide Next, Enabled, QueuedClients;
    if n == 0 {
      NoneQueuedAtFirst(p);
    } else {
      EnabledAt(p, steps, n - 1);
      QueuedSteps(p, StateAt(p, steps, n - 1), steps[n - 1], c);
      if c in QueuedClients(StateAt(p, steps, n - 1)) { q := QueuedMeans(p, steps, n - 1, c); } else { q := n - 1; }
    }
  }

  lemma {:induction false} NoneQueuedAtFirst(p: Params)
    ensures QueuedClients(Initial(p)) == {}
  {}

  lemma {:induction false} QueuedSteps(p: Params, s: State, step: Step, c: Client)
    requires Enabled(p, s, step) && c in QueuedClients(Next(p, s, step))
    ensures c in QueuedClients(s) || step == Enqueue(c)
  {
    hide Pairs, AlreadyRewritten, NamesOf, Trigger.Registered, Forgotten;
  }

  lemma {:induction false} PlanningSteps(p: Params, s: State, step: Step)
    requires Enabled(p, s, step) && Next(p, s, step).pc == Planning
    ensures if step.Take? then Next(p, s, step).taken == s.queue && Next(p, s, step).atTake == QueuedClients(s)
            else s.pc == Planning && Next(p, s, step).taken == s.taken && Next(p, s, step).atTake == s.atTake &&
                 !LoopPlans(step)
  {
    hide Pairs, AlreadyRewritten, NamesOf, Trigger.Registered, Forgotten, QueuedClients;
  }

  lemma {:induction false} HistorySteps(p: Params, s: State, step: Step, c: Client, name: string)
    ensures (c, name) in Next(p, s, step).settled ==>
              (c, name) in s.settled || (step.ExecuteEnds? && (c, name) in s.covered)
    ensures (c, name) in Next(p, s, step).covered ==>
              (c, name) in s.covered || (step.PlanWorks? && c in s.atTake && name in s.taken)
  {
    hide AlreadyRewritten, NamesOf, Trigger.Registered, Forgotten, QueuedClients;
  }

  /////////// Every client is somewhere, and a complete cycle releases those it claimed ///////////

  ghost predicate Waits(s: State, c: Client) { c in s.w.waiting && c !in s.w.inflight && c !in s.w.closed }

  ghost predicate IsClaimed(s: State, c: Client) { c !in s.w.waiting && c in s.w.inflight && c !in s.w.closed }

  ghost predicate IsReleased(s: State, c: Client) { c !in s.w.waiting && c !in s.w.inflight && c in s.w.closed }

  /** A client that registered and did not give up is in one of the lists. */
  ghost predicate PlacedInv(s: State) {
    forall c :: c in s.clients && s.clients[c] in {Registered, Sent} ==> c in s.w.waiting || c in s.w.inflight || c in s.w.closed
  }

  lemma {:induction false} StepPlaced(p: Params, s: State, step: Step)
    requires PlacedInv(s) && Enabled(p, s, step)
    ensures PlacedInv(Next(p, s, step))
  {
    hide Without, NamesOf, Pairs, QueuedClients, AlreadyRewritten;
    if step.Cancel? {
      WithoutExact(s.w.waiting, step.c);
      WithoutExact(s.w.inflight, step.c);
    }
  }

  lemma {:induction false} RunPlaced(p: Params, steps: seq<Step>, n: nat)
    requires IsRun(p, steps) && n <= |steps|
    ensures PlacedInv(StateAt(p, steps, n))
  {
    hide Next, Enabled, PlacedInv;
    if n == 0 {
      NobodyPlaced(p);
    } else {
      RunPlaced(p, steps, n - 1);
      EnabledAt(p, steps, n - 1);
      StepPlaced(p, StateAt(p, steps, n - 1), steps[n - 1]);
    }
  }

  lemma {:induction false} NobodyPlaced(p: Params)
    ensures PlacedInv(Initial(p))
  {}

  /** In every interleaving a client that registered and did not give up waits, is claimed or is released, and just one
      of these. */
  lemma {:induction false} InOnePlace(p: Params, steps: seq<Step>, n: nat, c: Client)
    requires IsRun(p, steps) && n <= |steps| && c in StateAt(p, steps, n).clients
    requires StateAt(p, steps, n).clients[c] in {Registered, Sent}
    ensures Waits(StateAt(p, steps, n), c) || IsClaimed(StateAt(p, steps, n), c) || IsReleased(StateAt(p, steps, n), c)
  {
    hide Next, Enabled, QueueInv, ClaimInv, RestartInv, WakeInv, InflightInv, ReleaseInv, StateAt, IsRun;
    RunPlaced(p, steps, n);
    RunInv(p, steps, n);
    OnePlace(StateAt(p, steps, n).w, c);
  }

  lemma {:induction false} OnePlace(w: Waiters, c: Client)
    requires Trigger.Valid(w)
    ensures !(c in w.waiting && c in w.inflight) && !(c in w.waiting && c in w.closed) && !(c in w.inflight && c in w.closed)
  {
    var all := w.closed + w.inflight + w.waiting;
    assert forall k :: 0 <= k < |w.closed| ==> all[k] == w.closed[k];
    assert forall k :: 0 <= k < |w.inflight| ==> all[|w.closed| + k] == w.inflight[k];
    assert forall k :: 0 <= k < |w.waiting| ==> all[|w.closed| + |w.inflight| + k] == w.waiting[k];
  }

  /** A client that gave up is not waited for: no later cycle claims or releases it. */
  ghost predicate GoneInv(s: State) {
    forall c :: c in s.clients && s.clients[c] == Gone ==> c !in s.w.waiting && c !in s.w.inflight
  }

  lemma {:induction false} StepGone(p: Params, s: State, step: Step)
    requires GoneInv(s) && Enabled(p, s, step)
    ensures GoneInv(Next(p, s, step))
  {
    hide Without, NamesOf, Pairs, QueuedClients, AlreadyRewritten;
    if step.Cancel? {
      WithoutExact(s.w.waiting, step.c);
      WithoutExact(s.w.inflight, step.c);
    }
  }

  lemma {:induction false} GaveUp(p: Params, steps: seq<Step>, n: nat)
    requires IsRun(p, steps) && n <= |steps|
    ensures GoneInv(StateAt(p, steps, n))
  {
    hide Next, Enabled, GoneInv;
    if n == 0 {
      NobodyGone(p);
    } else {
      GaveUp(p, steps, n - 1);
      EnabledAt(p, steps, n - 1);
      StepGone(p, StateAt(p, steps, n - 1), steps[n - 1]);
    }
  }

  lemma {:induction false} NobodyGone(p: Params)
    ensures GoneInv(Initial(p))
  {}

  /** How one step moves a client between the lists. */
  lemma {:induction false} StepMoves(p: Params, s: State, step: Step, c: Client)
    requires Enabled(p, s, step)
    ensures var t := Next(p, s, step);
            && (step == Complete && c in s.w.inflight ==> c in t.w.closed)
            && (step == Requeue && c in s.w.inflight ==> c in t.w.waiting)
            && (step == Claim && c in s.w.waiting ==> c in t.w.inflight)
            && (step == Join(c) ==> c in t.w.waiting)
            && (c in s.w.closed ==> c in t.w.closed)
            && (c in s.w.inflight && step != Cancel(c) && step != Complete && step != Requeue ==> c in t.w.inflight)
            && (c in s.w.waiting && step != Cancel(c) && step != Claim ==> c in t.w.waiting)
  {
    hide NamesOf, Pairs, QueuedClients, AlreadyRewritten, Without;
    if step.Cancel? {
      WithoutExact(s.w.waiting, step.c);
      WithoutExact(s.w.inflight, step.c);
    }
  }

  /** In every interleaving: completing releases every claimed client, requeueing puts every claimed client back. */
  lemma {:induction false} ClaimedAreSettled(p: Params, steps: seq<Step>, n: nat, c: Client)
    requires IsRun(p, steps) && n < |steps| && c in StateAt(p, steps, n).w.inflight
    ensures steps[n] == Complete ==> c in StateAt(p, steps, n + 1).w.closed
    ensures steps[n] == Requeue ==> c in StateAt(p, steps, n + 1).w.waiting
  {
    hide Next, Enabled;
    EnabledAt(p, steps, n);
    StepMoves(p, StateAt(p, steps, n), steps[n], c);
    assert StateAt(p, steps, n + 1) == Next(p, StateAt(p, steps, n), steps[n]);
  }

  lemma {:induction false} StaysClaimed(p: Params, steps: seq<Step>, a: nat, n: nat, c: Client)
    requires IsRun(p, steps) && a < n <= |steps| && steps[a] == Claim && c in StateAt(p, steps, a).w.waiting
    requires forall j :: a < j < n ==> steps[j] != Complete && steps[j] != Requeue && steps[j] != Cancel(c)
    ensures c in StateAt(p, steps, n).w.inflight
  {
    hide Next, Enabled, IsRun, StateAt;
    EnabledAt(p, steps, n - 1);
    StateStep(p, steps, n - 1);
    StepMoves(p, StateAt(p, steps, n - 1), steps[n - 1], c);
    if a < n - 1 { StaysClaimed(p, steps, a, n - 1, c); }
  }

  lemma {:induction false} StaysReleased(p: Params, steps: seq<Step>, n: nat, m: nat, c: Client)
    requires IsRun(p, steps) && n <= m <= |steps| && c in StateAt(p, steps, n).w.closed
    ensures c in StateAt(p, steps, m).w.closed
  {
    hide Next, Enabled;
    if n < m {
      StaysReleased(p, steps, n, m - 1, c);
      EnabledAt(p, steps, m - 1);
      StepMoves(p, StateAt(p, steps, m - 1), steps[m - 1], c);
    }
  }

  /** In every interleaving: a cycle that claims and completes without putting its clients back releases, for good, every
      client that waited when it claimed and did not give up. */
  lemma {:induction false} CompleteCycleReleases(p: Params, steps: seq<Step>, a: nat, b: nat, n: nat, c: Client)
    requires IsRun(p, steps) && a < b < n <= |steps| && steps[a] == Claim && steps[b] == Complete
    requires forall j :: a < j < b ==> steps[j] != Complete && steps[j] != Requeue && steps[j] != Cancel(c)
    requires c in StateAt(p, steps, a).w.waiting
    ensures c in StateAt(p, steps, n).w.closed
  {
    hide Next, Enabled, StateAt, IsRun;
    StaysClaimed(p, steps, a, b, c);
    ClaimedAreSettled(p, steps, b, c);
    StaysReleased(p, steps, b + 1, n, c);
  }

  /** The plan made at `k` wrote `sections`, and at `e` its execution ended without error. */
  ghost predicate RanClean(steps: seq<Step>, n: nat, sections: set<string>, k: nat, e: nat) {
    && k < e < n <= |steps| && steps[k] == PlanWorks(sections) && steps[e] == ExecuteEnds(true)
    && forall j :: k < j < n ==> !steps[j].PlanWorks? && (j != e ==> !steps[j].ExecuteEnds?)
  }

  predicate AfterExecution(pc: LoopPc) {
    pc in {Completing, Opening, Applying, Closing}
  }

  lemma {:induction false} PlannedSteps(p: Params, s: State, step: Step)
    requires Enabled(p, s, step)
    ensures var t := Next(p, s, step);
            && (step.PlanWorks? ==> t.planned == step.sections)
            && (step.ExecuteEnds? ==> t.planned == s.planned && t.ranClean == step.ok)
            && (!step.PlanWorks? && !step.ExecuteEnds? ==>
                  (AfterExecution(t.pc) ==> AfterExecution(s.pc)) && t.planned == s.planned && t.ranClean == s.ranClean)
  {
    hide Pairs, AlreadyRewritten, NamesOf, Trigger.Registered, Forgotten, QueuedClients;
  }

  lemma {:induction false} ExecutingMeans(p: Params, steps: seq<Step>, n: nat) returns (k: nat)
    requires IsRun(p, steps) && n <= |steps| && StateAt(p, steps, n).pc == Executing
    ensures k < n && steps[k] == PlanWorks(StateAt(p, steps, n).planned)
    ensures forall j :: k < j < n ==> !steps[j].PlanWorks? && !steps[j].ExecuteEnds?
  {
    hide Next, Enabled;
    EnabledAt(p, steps, n - 1);
    ExecutingSteps(p, StateAt(p, steps, n - 1), steps[n - 1]);
    PlannedSteps(p, StateAt(p, steps, n - 1), steps[n - 1]);
    if steps[n - 1].PlanWorks? { k := n - 1; } else { k := ExecutingMeans(p, steps, n - 1); }
  }

  lemma {:induction false} CleanMeans(p: Params, steps: seq<Step>, n: nat) returns (k: nat, e: nat)
    requires IsRun(p, steps) && n <= |steps| && AfterExecution(StateAt(p, steps, n).pc) && StateAt(p, steps, n).ranClean
    ensures RanClean(steps, n, StateAt(p, steps, n).planned, k, e)
  {
    hide Next, Enabled, RanClean;
    EnabledAt(p, steps, n - 1);
    ExecutingSteps(p, StateAt(p, steps, n - 1), steps[n - 1]);
    PlannedSteps(p, StateAt(p, steps, n - 1), steps[n - 1]);
    if steps[n - 1].ExecuteEnds? {
      k := ExecutingMeans(p, steps, n - 1);
      e := n - 1;
      CleanHere(steps, n, StateAt(p, steps, n).planned, k);
    } else {
      k, e := CleanMeans(p, steps, n - 1);
      CleanStays(steps, n, StateAt(p, steps, n).planned, k, e);
    }
  }

  lemma {:induction false} CleanHere(steps: seq<Step>, n: nat, sections: set<string>, k: nat)
    requires k < n - 1 < |steps| && steps[k] == PlanWorks(sections) && steps[n - 1] == ExecuteEnds(true)
    requires forall j :: k < j < n - 1 ==> !steps[j].PlanWorks? && !steps[j].ExecuteEnds?
    ensures RanClean(steps, n, sections, k, n - 1)
  {}

  lemma {:induction false} CleanStays(steps: seq<Step>, n: nat, sections: set<string>, k: nat, e: nat)
    requires 0 < n <= |steps| && RanClean(steps, n - 1, sections, k, e)
    requires !steps[n - 1].PlanWorks? && !steps[n - 1].ExecuteEnds?
    ensures RanClean(steps, n, sections, k, e)
  {}

  /** Restarts began at `g`, after the execution ended at `e`, and have not ended. */
  ghost predicate Restarting(steps: seq<Step>, n: nat, e: nat, g: nat) {
    e < g < n <= |steps| && steps[g] == BeginRestarts && forall j :: g < j < n ==> steps[j] != EndRestarts
  }

  lemma {:induction false} OpenTrace(p: Params, steps: seq<Step>, n: nat) returns (k: nat, e: nat, g: nat)
    requires IsRun(p, steps) && n <= |steps| && StateAt(p, steps, n).w.open
    ensures RanClean(steps, n, StateAt(p, steps, n).w.restarting, k, e) && Restarting(steps, n, e, g)
  {
    hide Next, Enabled, RanClean, QueueInv, ClaimInv, WakeInv, ReleaseInv, ListsInv, InflightInv, IsRun, Restarting, RestartInv;
    NotOpenAtFirst(p);
    RunInv(p, steps, n - 1);
    EnabledAt(p, steps, n - 1);
    var s, step := StateAt(p, steps, n - 1), steps[n - 1];
    OpenSteps(p, s, step);
    if step == BeginRestarts {
      k, e := CleanMeans(p, steps, n - 1);
      g := n - 1;
      RestartsBegin(steps, n, s.planned, k, e);
    } else {
      k, e, g := OpenTrace(p, steps, n - 1);
      RestartsGoOn(steps, n, e, g);
    }
    CleanStays(steps, n, StateAt(p, steps, n).w.restarting, k, e);
  }

  lemma {:induction false} NotOpenAtFirst(p: Params)
    ensures !Initial(p).w.open
  {}

  lemma {:induction false} RestartsBegin(steps: seq<Step>, n: nat, sections: set<string>, k: nat, e: nat)
    requires 0 < n <= |steps| && RanClean(steps, n - 1, sections, k, e) && steps[n - 1] == BeginRestarts
    ensures Restarting(steps, n, e, n - 1)
  {}

  lemma {:induction false} RestartsGoOn(steps: seq<Step>, n: nat, e: nat, g: nat)
    requires 0 < n <= |steps| && Restarting(steps, n - 1, e, g) && steps[n - 1] != EndRestarts
    ensures Restarting(steps, n, e, g)
  {}

  lemma {:induction false} CleanOrder(steps: seq<Step>, n: nat, sections: set<string>, k: nat, e: nat)
    requires RanClean(steps, n, sections, k, e)
    ensures k < e < n <= |steps|
  {}

  lemma {:induction false} OpenSteps(p: Params, s: State, step: Step)
    requires Enabled(p, s, step) && RestartInv(s) && Next(p, s, step).w.open
    ensures step == BeginRestarts || (s.w.open && step != EndRestarts && Next(p, s, step).w.restarting == s.w.restarting)
    ensures step == BeginRestarts ==> s.pc == Opening && s.ranClean && Next(p, s, step).w.restarting == s.planned
    ensures !step.PlanWorks? && !step.ExecuteEnds?
  {
    hide AlreadyRewritten, Without, NamesOf, Pairs, QueuedClients;
  }

  /** While restarts are being applied, the sections of the plan behind them are published. */
  lemma {:induction false} RestartingIsOpen(p: Params, steps: seq<Step>, n: nat, sections: set<string>, k: nat, g: nat)
    requires IsRun(p, steps) && k < g < n <= |steps| && steps[k] == PlanWorks(sections) && steps[g] == BeginRestarts
    requires (forall j :: k < j < n ==> !steps[j].PlanWorks?) && (forall j :: g < j < n ==> steps[j] != EndRestarts)
    ensures StateAt(p, steps, n).w.open && StateAt(p, steps, n).w.restarting == sections
  {
    hide Next, Enabled, IsRun, StateAt;
    EnabledAt(p, steps, n - 1);
    StateStep(p, steps, n - 1);
    PublishedSteps(p, StateAt(p, steps, n - 1), steps[n - 1]);
    PlannedStays(p, steps, n - 1, sections, k);
    if g < n - 1 { RestartingIsOpen(p, steps, n - 1, sections, k, g); }
  }

  lemma {:induction false} StateStep(p: Params, steps: seq<Step>, n: nat)
    requires n < |steps|
    ensures StateAt(p, steps, n + 1) == Next(p, StateAt(p, steps, n), steps[n])
  {
    hide Next;
  }

  lemma {:induction false} CleanAndRestarting(steps: seq<Step>, n: nat, sections: set<string>, k: nat, e: nat, g: nat)
    requires RanClean(steps, n, sections, k, e) && Restarting(steps, n, e, g)
    ensures k < g < n <= |steps| && steps[k] == PlanWorks(sections) && steps[g] == BeginRestarts
    ensures (forall j :: k < j < n ==> !steps[j].PlanWorks?) && (forall j :: g < j < n ==> steps[j] != EndRestarts)
  {}

  lemma {:induction false} ClientsPublishNothing(p: Params, s: State, step: Step)
    requires IsClientStep(step)
    ensures Next(p, s, step).w.open == s.w.open && Next(p, s, step).w.restarting == s.w.restarting
  {
    hide AlreadyRewritten, Without, NamesOf, Pairs, QueuedClients;
  }

  lemma {:induction false} MovesPublishNothing(w: Waiters)
    ensures Claimed(w).open == Completed(w).open == Requeued(w).open == w.open
    ensures Claimed(w).restarting == Completed(w).restarting == Requeued(w).restarting == w.restarting
  {}

  lemma {:induction false} PublishedSteps(p: Params, s: State, step: Step)
    requires Enabled(p, s, step)
    ensures var t := Next(p, s, step);
            && (step == BeginRestarts ==> t.w.open && t.w.restarting == s.planned)
            && (step != BeginRestarts && step != EndRestarts ==> t.w.open == s.w.open && t.w.restarting == s.w.restarting)
  {
    hide AlreadyRewritten, Without, NamesOf, Pairs, QueuedClients, Enabled, Trigger.Registered, Forgotten, Claimed, Completed, Requeued;
    MovesPublishNothing(s.w);
    if IsClientStep(step) { ClientsPublishNothing(p, s, step); }
  }

  lemma {:induction false} PlannedStays(p: Params, steps: seq<Step>, n: nat, sections: set<string>, k: nat)
    requires IsRun(p, steps) && k < n <= |steps| && steps[k] == PlanWorks(sections)
    requires forall j :: k < j < n ==> !steps[j].PlanWorks?
    ensures StateAt(p, steps, n).planned == sections
  {
    hide Next, Enabled;
    EnabledAt(p, steps, n - 1);
    PlannedSteps(p, StateAt(p, steps, n - 1), steps[n - 1]);
    if k < n - 1 { PlannedStays(p, steps, n - 1, sections, k); }
  }

  /** In every interleaving a client is answered early if and only if it names a section, all it names are in a plan whose
      own execution ended without error, no plan was made since, and the restarts of that plan are being applied. */
  lemma {:induction false} EarlyAnswerIff(p: Params, steps: seq<Step>, n: nat, c: Client)
    requires IsRun(p, steps) && n < |steps| && steps[n] == Check(c) && c in StateAt(p, steps, n).clients
    ensures c in StateAt(p, steps, n + 1).clients
    ensures StateAt(p, steps, n + 1).clients[c] == Answered <==>
            exists sections, k, e, g :: RanClean(steps, n, sections, k, e) && Restarting(steps, n, e, g) &&
                                        NamesOf(p, c) != {} && NamesOf(p, c) <= sections
  {
    hide RanClean, Restarting, QueueInv, ClaimInv, WakeInv, ReleaseInv, ListsInv, InflightInv, RestartInv, NamesOf;
    var s := StateAt(p, steps, n);
    assert StateAt(p, steps, n + 1) == Next(p, s, steps[n]);
    if s.w.open { var k, e, g := OpenTrace(p, steps, n); }
    if sections, k, e, g :| RanClean(steps, n, sections, k, e) && Restarting(steps, n, e, g) &&
                            NamesOf(p, c) != {} && NamesOf(p, c) <= sections {
      CleanAndRestarting(steps, n, sections, k, e, g);
      RestartingIsOpen(p, steps, n, sections, k, g);
      assert sections != {};
    }
  }

  /** No lost wake-up: whenever the loop is in the interval sleep or the idle sleep, every registered client that
      passed its send finds a token pending. */
  lemma {:induction false} NoLostWakeup(p: Params, steps: seq<Step>, n: nat, c: Client)
    requires IsRun(p, steps) && n <= |steps|
    requires StateAt(p, steps, n).pc in {IntervalSleep, IdleSleep}
    requires Listed(StateAt(p, steps, n).w, c) && c in StateAt(p, steps, n).clients
    requires StateAt(p, steps, n).clients[c] == Sent
    ensures StateAt(p, steps, n).token
  {
    RunInv(p, steps, n);
  }

  /** In the back-off sleep the token may be gone, but then the loop remembers the signal and the next turn is not
      skipped as idle. */
  lemma {:induction false} BackOffRemembers(p: Params, steps: seq<Step>, n: nat, c: Client)
    requires IsRun(p, steps) && n <= |steps| && Listed(StateAt(p, steps, n).w, c) && c in StateAt(p, steps, n).clients
    requires StateAt(p, steps, n).clients[c] == Sent && StateAt(p, steps, n).pc == Polling
    ensures StateAt(p, steps, n).token || Next(p, StateAt(p, steps, n), PollIdle).pc == Marking
  {
    RunInv(p, steps, n);
  }

  /////////// What the queue holds ///////////

  /** The sections queued by the steps from `a` up to `b`. */
  ghost function QueuedIn(p: Params, steps: seq<Step>, a: nat, b: nat): set<string>
    requires b <= |steps|
    decreases b
  {
    if b <= a then {}
    else QueuedIn(p, steps, a, b - 1) + if steps[b - 1].Enqueue? then NamesOf(p, steps[b - 1].c) else {}
  }

  /** The position after the latest take, and after the take of the latest plan that succeeded. */
  ghost function LastTake(steps: seq<Step>, n: nat): (t: nat)
    requires n <= |steps|
    ensures t <= n
  {
    if n == 0 then 0 else if steps[n - 1].Take? then n else LastTake(steps, n - 1)
  }

  ghost function LastTaken(steps: seq<Step>, n: nat): (t: nat)
    requires n <= |steps|
    ensures t <= LastTake(steps, n)
  {
    if n == 0 then 0 else if steps[n - 1].PlanWorks? then LastTake(steps, n - 1) else LastTaken(steps, n - 1)
  }

  lemma {:induction false} QueuedSplit(p: Params, steps: seq<Step>, a: nat, m: nat, b: nat)
    requires a <= m <= b <= |steps|
    ensures QueuedIn(p, steps, a, b) == QueuedIn(p, steps, a, m) + QueuedIn(p, steps, m, b)
    decreases b
  {
    hide NamesOf;
    if m < b { QueuedSplit(p, steps, a, m, b - 1); }
  }

  lemma {:induction false} QueueSteps(p: Params, s: State, step: Step)
    requires Enabled(p, s, step)
    ensures var t := Next(p, s, step);
            && (step.Take? ==> s.pc == Taking && t.pc == Planning && t.taken == s.queue && t.queue == {})
            && (step.PlanFails? ==> s.pc == Planning && t.pc == Requeuing && t.queue == s.queue + s.taken)
            && (step.PlanWorks? ==> s.pc == Planning && t.pc == Executing && t.queue == s.queue)
            && (!step.Take? && !step.PlanFails? && !step.PlanWorks? ==>
                  && (t.pc == Planning <==> s.pc == Planning) && t.taken == s.taken
                  && t.queue == s.queue + if step.Enqueue? then NamesOf(p, step.c) else {})
  {
    hide AlreadyRewritten, Without, NamesOf, Pairs, QueuedClients, Trigger.Registered, Forgotten, Claimed, Completed, Requeued;
  }

  ghost predicate QueueIs(p: Params, steps: seq<Step>, n: nat, s: State)
    requires n <= |steps|
  {
    if s.pc == Planning then
      && s.taken == QueuedIn(p, steps, LastTaken(steps, n), LastTake(steps, n))
      && s.queue == QueuedIn(p, steps, LastTake(steps, n), n)
    else s.queue == QueuedIn(p, steps, LastTaken(steps, n), n)
  }

  lemma {:induction false} QueuedNext(p: Params, steps: seq<Step>, a: nat, m: nat)
    requires a <= m < |steps|
    ensures QueuedIn(p, steps, a, m + 1) == QueuedIn(p, steps, a, m) + if steps[m].Enqueue? then NamesOf(p, steps[m].c) else {}
    ensures QueuedIn(p, steps, m + 1, m + 1) == {}
  {
    hide NamesOf;
  }

  lemma {:induction false} QueueGoesOn(p: Params, steps: seq<Step>, m: nat, s: State)
    requires m < |steps| && QueueIs(p, steps, m, s) && Enabled(p, s, steps[m])
    ensures QueueIs(p, steps, m + 1, Next(p, s, steps[m]))
  {
    hide Next, Enabled, NamesOf, QueuedIn;
    QueueSteps(p, s, steps[m]);
    var taken, take := LastTaken(steps, m), LastTake(steps, m);
    QueuedSplit(p, steps, taken, take, m);
    QueuedNext(p, steps, taken, m);
    QueuedNext(p, steps, take, m);
  }

  /** In every interleaving the queue holds exactly the sections queued since the take of the last plan that succeeded;
      while a plan is made, it holds the ones it took and the queue those that came later. */
  lemma {:induction false} QueueMeans(p: Params, steps: seq<Step>, n: nat)
    requires IsRun(p, steps) && n <= |steps|
    ensures QueueIs(p, steps, n, StateAt(p, steps, n))
  {
    hide Next, Enabled, QueueIs;
    if n == 0 {
      assert QueueIs(p, steps, 0, Initial(p)) by { NothingQueued(p, steps); }
    } else {
      QueueMeans(p, steps, n - 1);
      EnabledAt(p, steps, n - 1);
      QueueGoesOn(p, steps, n - 1, StateAt(p, steps, n - 1));
    }
  }

  lemma {:induction false} NothingQueued(p: Params, steps: seq<Step>)
    ensures QueueIs(p, steps, 0, Initial(p))
  {}

  /////////// When a turn is skipped ///////////

  /** A token is there exactly when something was sent and nothing has consumed it since. */
  ghost predicate TokenSent(steps: seq<Step>, n: nat) {
    exists j :: 0 <= j < n <= |steps| && (steps[j].Send? || steps[j].Reload?) && QuietSince(steps, j, n)
  }

  ghost predicate QuietSince(steps: seq<Step>, j: int, n: nat) {
    forall i :: 0 <= i < |steps| && j < i < n ==> !steps[i].ConsumeReload? && !steps[i].WakeByToken?
  }

  lemma {:induction false} TokenGoesOn(steps: seq<Step>, m: nat)
    requires m < |steps|
    ensures TokenSent(steps, m + 1) <==>
              steps[m].Send? || steps[m].Reload? || (TokenSent(steps, m) && !steps[m].ConsumeReload? && !steps[m].WakeByToken?)
  {
    var n := m + 1;
    if steps[m].Send? || steps[m].Reload? { assert QuietSince(steps, m, n); }
    if j :| 0 <= j < m && (steps[j].Send? || steps[j].Reload?) && QuietSince(steps, j, m) {
      if !steps[m].ConsumeReload? && !steps[m].WakeByToken? { assert QuietSince(steps, j, n); }
    }
    if j :| 0 <= j < n && (steps[j].Send? || steps[j].Reload?) && QuietSince(steps, j, n) {
      if j < m { assert QuietSince(steps, j, m); }
    }
  }

  lemma {:induction false} TokenMeans(p: Params, steps: seq<Step>, n: nat)
    requires IsRun(p, steps) && n <= |steps|
    ensures StateAt(p, steps, n).token <==> TokenSent(steps, n)
  {
    hide Next, Enabled, TokenSent;
    if n == 0 {
      assert !TokenSent(steps, 0) by { NothingSent(steps); }
    } else {
      TokenMeans(p, steps, n - 1);
      EnabledAt(p, steps, n - 1);
      TokenSteps(p, StateAt(p, steps, n - 1), steps[n - 1]);
      TokenGoesOn(steps, n - 1);
    }
  }

  lemma {:induction false} NothingSent(steps: seq<Step>)
    ensures !TokenSent(steps, 0)
  {}

  lemma {:induction false} TokenSteps(p: Params, s: State, step: Step)
    requires Enabled(p, s, step)
    ensures Next(p, s, step).token == (step.Send? || step.Reload? || (s.token && !step.ConsumeReload? && !step.WakeByToken?))
  {
    hide AlreadyRewritten, Without, NamesOf, Pairs, QueuedClients, Trigger.Registered, Forgotten, Claimed, Completed, Requeued, Enabled;
  }

  /** A client counted itself and the loop has not marked the count since. */
  ghost predicate CountedSinceMark(steps: seq<Step>, n: nat) {
    exists j :: 0 <= j < n <= |steps| && steps[j].Count? && forall i :: j < i < n ==> !steps[i].MarkCount?
  }

  lemma {:induction false} CountSteps(p: Params, s: State, step: Step)
    requires Enabled(p, s, step)
    ensures var t := Next(p, s, step);
            && t.counter == s.counter + (if step.Count? then 1 else 0)
            && t.lastCount == (if step.MarkCount? then s.counter else s.lastCount)
            && t.firstRun == (s.firstRun && !step.Finalize?)
  {
    hide AlreadyRewritten, Without, NamesOf, Pairs, QueuedClients, Trigger.Registered, Forgotten, Claimed, Completed, Requeued, Enabled;
  }

  lemma {:induction false} CountedGoesOn(steps: seq<Step>, m: nat)
    requires m < |steps|
    ensures CountedSinceMark(steps, m + 1) <==> steps[m].Count? || (CountedSinceMark(steps, m) && !steps[m].MarkCount?)
    ensures !CountedSinceMark(steps, 0)
  {
    var n := m + 1;
    if steps[m].Count? { assert CountedSinceMark(steps, n); }
    if j :| 0 <= j < m && steps[j].Count? && forall i :: j < i < m ==> !steps[i].MarkCount? {
      if !steps[m].MarkCount? { assert forall i :: j < i < n ==> !steps[i].MarkCount?; }
    }
  }

  lemma {:induction false} CountMeans(p: Params, steps: seq<Step>, n: nat)
    requires IsRun(p, steps) && n <= |steps|
    ensures StateAt(p, steps, n).lastCount <= StateAt(p, steps, n).counter
    ensures StateAt(p, steps, n).lastCount < StateAt(p, steps, n).counter <==> CountedSinceMark(steps, n)
  {
    hide Next, Enabled, CountedSinceMark;
    if n == 0 {
      assert !CountedSinceMark(steps, 0) by { NotCountedAtFirst(steps); }
    } else {
      CountMeans(p, steps, n - 1);
      EnabledAt(p, steps, n - 1);
      CountSteps(p, StateAt(p, steps, n - 1), steps[n - 1]);
      CountedGoesOn(steps, n - 1);
    }
  }

  lemma {:induction false} NotCountedAtFirst(steps: seq<Step>)
    ensures !CountedSinceMark(steps, 0)
  {}

  lemma {:induction false} FirstCycleMeans(p: Params, steps: seq<Step>, n: nat)
    requires IsRun(p, steps) && n <= |steps|
    ensures StateAt(p, steps, n).firstRun <==> forall j :: 0 <= j < n ==> !steps[j].Finalize?
  {
    hide Next, Enabled;
    if n > 0 {
      FirstCycleMeans(p, steps, n - 1);
      EnabledAt(p, steps, n - 1);
      CountSteps(p, StateAt(p, steps, n - 1), steps[n - 1]);
    }
  }

  /** Step `j` consumes a token. */
  ghost predicate Consumes(steps: seq<Step>, j: int) {
    0 <= j < |steps| && (steps[j].WakeByToken? || (steps[j].ConsumeReload? && TokenSent(steps, j)))
  }

  /** A token was consumed and no cycle has ended since. */
  ghost predicate SignalConsumed(steps: seq<Step>, n: nat) {
    exists j :: 0 <= j < n <= |steps| && Consumes(steps, j) && forall i :: j < i < n ==> !steps[i].Finalize?
  }

  lemma {:induction false} SignalGoesOn(steps: seq<Step>, m: nat)
    requires m < |steps|
    ensures SignalConsumed(steps, m + 1) <==> Consumes(steps, m) || (SignalConsumed(steps, m) && !steps[m].Finalize?)
  {
    hide TokenSent, Consumes;
    var n := m + 1;
    if Consumes(steps, m) { assert SignalConsumed(steps, n); }
    if j :| 0 <= j < m && Consumes(steps, j) && forall i :: j < i < m ==> !steps[i].Finalize? {
      if !steps[m].Finalize? { assert forall i :: j < i < n ==> !steps[i].Finalize?; }
    }
  }

  lemma {:induction false} SignalSteps(p: Params, s: State, step: Step)
    requires Enabled(p, s, step)
    ensures Next(p, s, step).signaled ==
            (step.WakeByToken? || (step.ConsumeReload? && s.token) || (s.signaled && !step.Finalize?))
  {
    hide AlreadyRewritten, Without, NamesOf, Pairs, QueuedClients, Trigger.Registered, Forgotten, Claimed, Completed, Requeued, Enabled;
  }

  lemma {:induction false} SignaledMeans(p: Params, steps: seq<Step>, n: nat)
    requires IsRun(p, steps) && n <= |steps|
    ensures StateAt(p, steps, n).signaled <==> SignalConsumed(steps, n)
  {
    hide Next, Enabled, SignalConsumed, TokenSent;
    if n == 0 {
      assert !SignalConsumed(steps, 0) by { NoSignalAtFirst(steps); }
    } else {
      SignaledMeans(p, steps, n - 1);
      EnabledAt(p, steps, n - 1);
      SignalSteps(p, StateAt(p, steps, n - 1), steps[n - 1]);
      TokenMeans(p, steps, n - 1);
      SignalGoesOn(steps, n - 1);
    }
  }

  lemma {:induction false} NoSignalAtFirst(steps: seq<Step>)
    ensures !SignalConsumed(steps, 0)
  {}

  /** In every interleaving the loop skips a turn as idle exactly when that is enabled, the first cycle has ended, no
      token was consumed since the last cycle ended, and no client counted itself since a cycle marked the count. */
  lemma {:induction false} IdleIff(p: Params, steps: seq<Step>, n: nat)
    requires IsRun(p, steps) && n < |steps| && steps[n] == PollIdle
    ensures StateAt(p, steps, n + 1).pc == IdleSleep <==>
              p.skipIdle && (exists j :: 0 <= j < n && steps[j].Finalize?) && !SignalConsumed(steps, n) && !CountedSinceMark(steps, n)
  {
    hide CountedSinceMark, SignalConsumed;
    CountMeans(p, steps, n);
    FirstCycleMeans(p, steps, n);
    SignaledMeans(p, steps, n);
    assert StateAt(p, steps, n + 1) == Next(p, StateAt(p, steps, n), steps[n]);
  }

  /** The state a run of one more step leads to. */
  lemma {:induction false} OneMoreStep(p: Params, steps: seq<Step>, step: Step)
    requires IsRun(p, steps) && Enabled(p, StateAt(p, steps, |steps|), step)
    ensures IsRun(p, steps + [step])
    ensures StateAt(p, steps + [step], |steps| + 1) == Next(p, StateAt(p, steps, |steps|), step)
  {
    hide Next, Enabled;
    forall n | 0 <= n <= |steps| ensures StateAt(p, steps + [step], n) == StateAt(p, steps, n) { SamePrefix(p, steps, step, n); }
  }

  lemma {:induction false} SamePrefix(p: Params, steps: seq<Step>, step: Step, n: nat)
    requires n <= |steps|
    ensures StateAt(p, steps + [step], n) == StateAt(p, steps, n)
  {
    hide Next;
    if n > 0 { SamePrefix(p, steps, step, n - 1); }
  }

  /** The client's half: it queues, registers and sends, and the loop has not moved. */
  lemma {:induction false} ClientQueues(p: Params) returns (steps: seq<Step>)
    requires p == Params(map[0 := {"mta"}], false)
    ensures IsRun(p, steps)
    ensures var s := StateAt(p, steps, |steps|);
            s.pc == Top && s.firstRun && s.w == NO_WAITERS && s.clients == map[0 := Counted]
  {
    hide IsRun, StateAt, Pairs, QueuedClients, Without, Claimed, Completed, Requeued, Trigger.Registered, Forgotten;
    EmptyRun(p);
    assert Initial(p).clients == map[0 := Arrived];
    OneMoreStep(p, [], Check(0));
    steps := [] + [Check(0)];
    OneMoreStep(p, steps, Enqueue(0));
    steps := steps + [Enqueue(0)];
    OneMoreStep(p, steps, Count(0));
    steps := steps + [Count(0)];
  }

  lemma {:induction false} ClientSends(p: Params) returns (steps: seq<Step>)
    requires p == Params(map[0 := {"mta"}], false)
    ensures IsRun(p, steps)
    ensures var s := StateAt(p, steps, |steps|);
            s.pc == Top && s.token && s.firstRun && s.w.waiting == [0] && s.clients == map[0 := Sent]
  {
    hide IsRun, StateAt, Pairs, QueuedClients, Without, Claimed, Completed, Requeued, Forgotten, NamesOf, AlreadyRewritten;
    steps := ClientQueues(p);
    OneMoreStep(p, steps, Join(0));
    steps := steps + [Join(0)];
    OneMoreStep(p, steps, Send(0));
    steps := steps + [Send(0)];
  }

  /** The back-off sleep is different: a load that fails after the token was consumed leaves a waiting client none. */
  lemma {:induction false} BackOffWithoutToken() returns (p: Params, steps: seq<Step>)
    ensures IsRun(p, steps)
    ensures var s := StateAt(p, steps, |steps|);
            s.pc == BackOffSleep && Listed(s.w, 0) && 0 in s.clients && s.clients[0] == Sent && !s.token && s.signaled
  {
    hide IsRun, StateAt, Pairs, QueuedClients, Without, Claimed, Completed, Requeued, Forgotten, NamesOf, AlreadyRewritten,
         Trigger.Registered;
    p := Params(map[0 := {"mta"}], false);
    steps := ClientSends(p);
    OneMoreStep(p, steps, ConsumeReload);
    steps := steps + [ConsumeReload];
    OneMoreStep(p, steps, PollIdle);
    steps := steps + [PollIdle];
    OneMoreStep(p, steps, MarkCount);
    steps := steps + [MarkCount];
    OneMoreStep(p, steps, Load(false));
    steps := steps + [Load(false)];
  }

  lemma {:induction false} EmptyRun(p: Params)
    ensures IsRun(p, []) && StateAt(p, [], 0) == Initial(p)
  {}
}
