/** A live change stream: notifications, the one-slot wake channel and the loop that serves them. */
module ChangeStream {
  import opened Options
  import opened Watcher

  /** A notification: counted, or also past its send on the wake channel, with the reads begun before that. */
  datatype Note = Counted | Delivered(at: int, readsBefore: nat)

  /** Where the serving loop is: before the catch-up read, in its select, or between the swap and the read. */
  datatype Phase = Starting | Waiting | Swapped

  datatype State = Stream(
    phase: Phase, ended: bool, now: int, wake: bool, pending: nat, taken: nat,
    first: Option<int>, last: int, due: Option<int>, begun: seq<int>, notes: map<nat, Note>)

  datatype Step =
    | Count(id: nat)        // pending.Add
    | Send(id: nat)         // the non-blocking send that follows it
    | TakeWake              // the loop receives from wake
    | TakeDue               // the loop receives from the due timer and swaps the counter
    | Read(ok: bool)        // the catch-up read, or the read after the swap
    | Resync(ok: bool)      // the periodic read
    | End                   // the stream fails or the context is cancelled
    | Advance(until: int)   // time passes

  function Initial(now: int): State {
    Stream(Starting, false, now, false, 0, 0, None, now, None, [], map[])
  }

  /** `untilDue`. */
  function UntilDue(w: Settings, first: int, last: int, now: int): int {
    var at := last + w.debounce;
    var limit := first + w.maxWait;
    Max((if limit < at then limit else at) - now, 0)
  }

  predicate Enabled(s: State, step: Step) {
    match step
    case Count(id) => id !in s.notes
    case Send(id) => id in s.notes && s.notes[id].Counted?
    case TakeWake => !s.ended && s.phase.Waiting? && s.wake
    case TakeDue => !s.ended && s.phase.Waiting? && s.due.Some? && s.due.value <= s.now
    case Read(_) => !s.ended && !s.phase.Waiting?
    case Resync(_) => !s.ended && s.phase.Waiting?
    case End => !s.ended
    case Advance(until) => until > s.now
  }

  function Next(w: Settings, s: State, step: Step): State {
    match step
    case Count(id) => s.(pending := s.pending + 1, notes := s.notes[id := Counted])
    case Send(id) => s.(wake := true, notes := s.notes[id := Delivered(s.now, |s.begun|)])
    case TakeWake =>
      var first := if s.first.None? then s.now else s.first.value;
      s.(wake := false, first := Some(first), last := s.now, due := Some(s.now + UntilDue(w, first, s.now, s.now)))
    case TakeDue => s.(phase := Swapped, due := None, first := None, taken := s.taken + s.pending, pending := 0)
    case Read(ok) => s.(phase := Waiting, begun := s.begun + [s.now], ended := !ok)
    case Resync(ok) => s.(begun := s.begun + [s.now], ended := !ok)
    case End => s.(ended := true)
    case Advance(until) => s.(now := until)
  }

  function After(w: Settings, start: int, run: seq<Step>): State {
    if run == [] then Initial(start) else Next(w, After(w, start, run[..|run| - 1]), run[|run| - 1])
  }

  /** A run from a fresh stream: each step is enabled in the state the steps before it lead to. */
  ghost predicate IsRun(w: Settings, start: int, run: seq<Step>) {
    run == [] ||
    (IsRun(w, start, run[..|run| - 1]) && Enabled(After(w, start, run[..|run| - 1]), run[|run| - 1]))
  }

  /////////// No notification is lost ///////////

  /** A read began after the notification was delivered. */
  ghost predicate Served(s: State, id: nat) {
    id in s.notes && s.notes[id].Delivered? && s.notes[id].readsBefore < |s.begun|
  }

  /** A read is on its way: a token is queued, the timer is armed, or the loop is about to read. */
  ghost predicate ReadComing(s: State) {
    s.wake || s.due.Some? || s.phase.Swapped?
  }

  ghost predicate NotesInv(s: State) {
    forall id :: id in s.notes && s.notes[id].Delivered? ==>
      s.notes[id].readsBefore <= |s.begun| && (s.ended || Served(s, id) || ReadComing(s))
  }

  /** An armed timer stands for the burst's quiet window, cut at `maxWait` after its first notification. */
  ghost predicate DeadlineInv(w: Settings, s: State) {
    && (s.due.Some? <==> s.first.Some?)
    && (s.due.Some? ==> s.first.value <= s.last <= s.now)
    && (s.due.Some? ==> s.due.value == Max(s.last, Min(s.last + w.debounce, s.first.value + w.maxWait)))
  }

  ghost predicate CountInv(s: State) {
    s.taken + s.pending == |s.notes|
  }

  ghost predicate Inv(w: Settings, s: State) {
    NotesInv(s) && DeadlineInv(w, s) && CountInv(s)
  }

  lemma {:induction false} StepKeepsNotes(w: Settings, s: State, step: Step)
    requires NotesInv(s) && Enabled(s, step)
    ensures NotesInv(Next(w, s, step))
  {
    var t := Next(w, s, step);
    forall id | id in t.notes && t.notes[id].Delivered?
      ensures t.notes[id].readsBefore <= |t.begun| && (t.ended || Served(t, id) || ReadComing(t))
    {
      if step != Send(id) {
        assert id in s.notes && s.notes[id] == t.notes[id];
        assert Served(s, id) ==> Served(t, id);
      }
    }
  }

  lemma {:induction false} StepKeepsDeadline(w: Settings, s: State, step: Step)
    requires DeadlineInv(w, s) && Enabled(s, step) && w.debounce >= 0
    ensures DeadlineInv(w, Next(w, s, step))
  {}

  lemma {:induction false} StepKeepsCount(w: Settings, s: State, step: Step)
    requires CountInv(s) && Enabled(s, step)
    ensures CountInv(Next(w, s, step))
  {
    match step {
      case Count(id) => assert Next(w, s, step).notes.Keys == s.notes.Keys + {id};
      case Send(id) => assert Next(w, s, step).notes.Keys == s.notes.Keys;
      case _ =>
    }
  }

  lemma {:induction false} RunInv(w: Settings, start: int, run: seq<Step>)
    requires IsRun(w, start, run) && w.debounce >= 0
    ensures Inv(w, After(w, start, run))
  {
    hide Enabled, Next, NotesInv, DeadlineInv, CountInv;
    if run == [] {
      FreshInv(w, start);
    } else {
      var before := After(w, start, run[..|run| - 1]);
      RunInv(w, start, run[..|run| - 1]);
      StepKeepsNotes(w, before, run[|run| - 1]);
      StepKeepsDeadline(w, before, run[|run| - 1]);
      StepKeepsCount(w, before, run[|run| - 1]);
    }
  }

  lemma {:induction false} FreshInv(w: Settings, start: int)
    ensures Inv(w, Initial(start))
  {}

  /** In every interleaving a delivered notification was followed by a read, has one coming, or the stream ended. */
  lemma {:induction false} NoNotificationLost(w: Settings, start: int, run: seq<Step>, id: nat)
    requires IsRun(w, start, run) && w.debounce >= 0
    requires id in After(w, start, run).notes && After(w, start, run).notes[id].Delivered?
    ensures var s := After(w, start, run);
            && (s.ended || Served(s, id) || ReadComing(s))
            // a loop blocked in its select with no token and no timer has served everything
            && (!s.ended && s.phase.Waiting? && !s.wake && s.due.None? ==> Served(s, id))
  {
    hide IsRun, After;
    RunInv(w, start, run);
  }

  /** The armed deadline, and that every notification is counted by exactly one read or still pending. */
  lemma {:induction false} ArmedDeadline(w: Settings, start: int, run: seq<Step>)
    requires IsRun(w, start, run) && w.debounce >= 0
    ensures var s := After(w, start, run);
            && (s.due.Some? <==> s.first.Some?)
            && (s.due.Some? ==> s.due.value == Max(s.last, Min(s.last + w.debounce, s.first.value + w.maxWait)))
            && s.taken + s.pending == |s.notes|
  {
    hide IsRun, After;
    RunInv(w, start, run);
  }

  /////////// Served in time ///////////

  /** Time passes only while the loop is blocked, and not past an armed deadline. */
  predicate Timely(s: State, step: Step) {
    step.Advance? && !s.ended ==>
      s.phase.Waiting? && !s.wake && (s.due.Some? ==> step.until <= s.due.value)
  }

  ghost predicate TimelyRun(w: Settings, start: int, run: seq<Step>) {
    run == [] ||
    (TimelyRun(w, start, run[..|run| - 1]) && Timely(After(w, start, run[..|run| - 1]), run[|run| - 1]))
  }

  /** A read began at most `maxWait` after the notification. */
  ghost predicate ServedBy(w: Settings, s: State, id: nat) {
    Served(s, id) && s.begun[s.notes[id].readsBefore] <= s.notes[id].at + w.maxWait
  }

  ghost predicate TimedNote(w: Settings, s: State, id: nat)
    requires id in s.notes && s.notes[id].Delivered?
  {
    var at := s.notes[id].at;
    || s.ended
    || ServedBy(w, s, id)
    || (s.notes[id].readsBefore == |s.begun| &&
        ((s.wake && at == s.now) || (s.due.Some? && s.first.Some? && s.first.value <= at) || (s.phase.Swapped? && s.now <= at + w.maxWait)))
  }

  ghost predicate TimedInv(w: Settings, s: State) {
    && DeadlineInv(w, s)
    && (!s.ended && s.due.Some? ==> s.now <= s.due.value <= s.first.value + w.maxWait)
    && forall id :: id in s.notes && s.notes[id].Delivered? ==> TimedNote(w, s, id)
  }

  lemma {:induction false} StepKeepsTimed(w: Settings, s: State, step: Step)
    requires TimedInv(w, s) && Enabled(s, step) && Timely(s, step) && w.debounce >= 0 && w.maxWait >= 0
    ensures TimedInv(w, Next(w, s, step))
  {
    StepKeepsDeadline(w, s, step);
    var t := Next(w, s, step);
    forall id | id in t.notes && t.notes[id].Delivered? ensures TimedNote(w, t, id) {
      if step != Send(id) {
        assert id in s.notes && s.notes[id] == t.notes[id] && TimedNote(w, s, id);
        StepKeepsServedBy(w, s, step, id);
      }
    }
  }

  lemma {:induction false} StepKeepsServedBy(w: Settings, s: State, step: Step, id: nat)
    requires Enabled(s, step) && id in s.notes && s.notes[id].Delivered?
    ensures ServedBy(w, s, id) ==> ServedBy(w, Next(w, s, step), id)
  {}

  /** A loop that is not kept waiting starts a read at most `maxWait` after each notification it gets. */
  lemma {:induction false} NotificationsServedInTime(w: Settings, start: int, run: seq<Step>, id: nat)
    requires IsRun(w, start, run) && TimelyRun(w, start, run) && w.debounce >= 0 && w.maxWait >= 0
    requires id in After(w, start, run).notes && After(w, start, run).notes[id].Delivered?
    ensures var s := After(w, start, run);
            s.ended || ServedBy(w, s, id) || s.now <= s.notes[id].at + w.maxWait
  {
    hide IsRun, After, TimelyRun;
    TimelyRunInv(w, start, run);
  }

  lemma {:induction false} TimelyRunInv(w: Settings, start: int, run: seq<Step>)
    requires IsRun(w, start, run) && TimelyRun(w, start, run) && w.debounce >= 0 && w.maxWait >= 0
    ensures TimedInv(w, After(w, start, run))
  {
    hide Enabled, Next, TimedInv, Timely;
    if run == [] {
      FreshTimed(w, start);
    } else {
      TimelyRunInv(w, start, run[..|run| - 1]);
      StepKeepsTimed(w, After(w, start, run[..|run| - 1]), run[|run| - 1]);
    }
  }

  lemma {:induction false} FreshTimed(w: Settings, start: int)
    ensures TimedInv(w, Initial(start))
  {}
}
