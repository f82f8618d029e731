/** The LDAP change watcher: one state, driven by polls and by reads of a change stream. */
module Watcher {
  import opened Options
  import opened Order

  type Fingerprint = map<string, string>

  /** The settings of a watcher after defaults were applied; durations in any unit. */
  datatype Settings = Settings(interval: int, debounce: int, maxWait: int, backoffMin: int, backoffMax: int)

  const MAX_WAIT_FACTOR := 10
  const BACKOFF_FACTOR := 2

  function PositiveOr(v: int, fallback: int): int {
    if v > 0 then v else fallback
  }

  function Max(a: int, b: int): int { if a < b then b else a }

  function Min(a: int, b: int): int { if a < b then a else b }

  /** `New`: unset options get their defaults. */
  function Configured(o: Settings): (w: Settings)
    ensures w.interval > 0 && w.debounce >= 0 && 0 < w.backoffMin <= w.backoffMax
    ensures w.maxWait >= 0 && (w.debounce > 0 ==> w.maxWait > 0)
    ensures (o.interval > 0 ==> w.interval == o.interval) && (o.debounce > 0 ==> w.debounce == o.debounce)
    ensures (o.maxWait > 0 ==> w.maxWait == o.maxWait) && (o.backoffMin > 0 ==> w.backoffMin == o.backoffMin)
    ensures o.backoffMax >= w.backoffMin ==> w.backoffMax == o.backoffMax
  {
    var debounce, low := Max(o.debounce, 0), PositiveOr(o.backoffMin, 1000);
    Settings(PositiveOr(o.interval, 5000), debounce, PositiveOr(o.maxWait, MAX_WAIT_FACTOR * debounce),
             low, Max(PositiveOr(o.backoffMax, 60000), low))
  }

  /** The components whose digest differs, including added and removed ones. */
  function Diff(prev: Fingerprint, cur: Fingerprint): set<string> {
    (set c | c in cur && (c !in prev || prev[c] != cur[c])) + (prev.Keys - cur.Keys)
  }

  /** The component was added, removed or has another digest. */
  ghost predicate Differs(prev: Fingerprint, cur: Fingerprint, c: string) {
    (c in prev) != (c in cur) || (c in prev && c in cur && prev[c] != cur[c])
  }

  lemma {:induction false} DiffMeans(prev: Fingerprint, cur: Fingerprint, c: string)
    ensures c in Diff(prev, cur) <==> Differs(prev, cur, c)
  {}

  lemma {:induction false} DiffEmptyIff(prev: Fingerprint, cur: Fingerprint)
    ensures Diff(prev, cur) == {} <==> prev == cur
  {
    if Diff(prev, cur) == {} {
      assert forall c :: c in cur ==> c !in Diff(prev, cur);
      assert forall c :: c in prev ==> c !in Diff(prev, cur);
    }
  }

  datatype State = State(base: Option<Fingerprint>, changed: set<string>, bursts: int, first: int, last: int,
                         backoff: int, failing: bool)

  function Initial(w: Settings): State {
    State(None, {}, 0, 0, 0, w.backoffMin, false)
  }

  /** One use of the source: a poll, or a read while a stream is live; `None` is a failed read. */
  datatype Event =
    | Poll(fp: Option<Fingerprint>, now: int, cancelled: bool)
    | Read(fp: Option<Fingerprint>, now: int, notifications: nat, burstStart: int)

  function Observed(s: State, fp: Fingerprint, now: int): State
    requires s.base.Some?
  {
    var diff := Diff(s.base.value, fp);
    if diff == {} then s
    else s.(base := Some(fp), changed := s.changed + diff, bursts := s.bursts + 1, last := now,
            first := if s.changed == {} then now else s.first)
  }

  predicate Due(w: Settings, s: State, now: int) {
    w.debounce == 0 || now - s.last >= w.debounce || now - s.first >= w.maxWait
  }

  datatype Outcome = Outcome(state: State, trigger: Option<seq<string>>, wait: int)

  function Fired(s: State, wait: int): Outcome {
    Outcome(s.(changed := {}, bursts := 0), Some(SortedKeys(s.changed)), wait)
  }

  function Polled(w: Settings, s: State, fp: Option<Fingerprint>, now: int, cancelled: bool): Outcome {
    if fp.None? then
      if cancelled then Outcome(s, None, 0)
      else Outcome(s.(backoff := Min(s.backoff * BACKOFF_FACTOR, w.backoffMax), failing := true), None, s.backoff)
    else
      var r := s.(backoff := w.backoffMin, failing := false);
      var o := if s.base.None? then r.(base := fp) else Observed(r, fp.value, now);
      if o.changed == {} then Outcome(o, None, w.interval)
      else if Due(w, o, now) then Fired(o, w.interval)
      else Outcome(o, None, Min(w.debounce, w.interval))
  }

  function WasRead(s: State, fp: Option<Fingerprint>, now: int, notifications: nat, burstStart: int): Outcome {
    if fp.None? then Outcome(s, None, 0)
    else if s.base.None? then Outcome(s.(base := fp), None, 0)
    else
      var o := Observed(s, fp.value, now);
      if o.changed == {} then Outcome(o, None, 0)
      else Fired(if notifications > 0 then o.(bursts := notifications, first := burstStart) else o, 0)
  }

  function Next(w: Settings, s: State, e: Event): Outcome {
    match e
    case Poll(fp, now, cancelled) => Polled(w, s, fp, now, cancelled)
    case Read(fp, now, n, start) => WasRead(s, fp, now, n, start)
  }

  /////////// The imperative form ///////////

  /** The components of `cur` outside `todo` that are new or differ from `prev`. */
  ghost function Altered(prev: Fingerprint, cur: Fingerprint, todo: set<string>): set<string> {
    set c | c in cur && c !in todo && (c !in prev || prev[c] != cur[c])
  }

  method AlteredComponents(prev: Fingerprint, cur: Fingerprint) returns (names: set<string>)
    ensures names == Altered(prev, cur, {})
  {
    names := {};
    var todo := cur.Keys;
    while todo != {}
      invariant todo <= cur.Keys && names == Altered(prev, cur, todo)
      decreases |todo|
    {
      var name :| name in todo;
      if name !in prev || prev[name] != cur[name] { names := names + {name}; }
      todo := todo - {name};
    }
  }

  method RemovedComponents(prev: Fingerprint, cur: Fingerprint) returns (names: set<string>)
    ensures names == prev.Keys - cur.Keys
  {
    names := {};
    var todo := prev.Keys;
    while todo != {}
      invariant todo <= prev.Keys
      invariant forall c :: c in names <==> c in prev && c !in todo && c !in cur
      decreases |todo|
    {
      var name :| name in todo;
      if name !in cur { names := names + {name}; }
      todo := todo - {name};
    }
  }

  /** `changedComponents`. */
  method ChangedComponents(prev: Fingerprint, cur: Fingerprint) returns (diff: seq<string>)
    ensures diff == SortedKeys(Diff(prev, cur))
  {
    hide SortedKeys, Altered, Diff, Ascending;
    var altered := AlteredComponents(prev, cur);
    var removed := RemovedComponents(prev, cur);
    DiffParts(prev, cur);
    diff := SortedKeys(altered + removed);
  }

  lemma {:induction false} DiffParts(prev: Fingerprint, cur: Fingerprint)
    ensures Diff(prev, cur) == Altered(prev, cur, {}) + (prev.Keys - cur.Keys)
  {}

  ghost function Elements(s: seq<string>): set<string> {
    set c | c in s
  }

  lemma {:induction false} ElementsSnoc(s: seq<string>, i: nat)
    requires i < |s|
    ensures Elements(s[..i + 1]) == Elements(s[..i]) + {s[i]}
  {
    assert s[..i + 1] == s[..i] + [s[i]];
  }

  lemma {:induction false} NoElements(s: seq<string>)
    ensures Elements(s[..0]) == {}
  {}

  lemma {:induction false} SortedElements(s: set<string>)
    ensures Elements(SortedKeys(s)[..|SortedKeys(s)|]) == s && (|SortedKeys(s)| == 0 <==> s == {})
  {
    assert SortedKeys(s)[..|SortedKeys(s)|] == SortedKeys(s);
  }

  class RunState {
    const w: Settings
    var base: Option<Fingerprint>
    var changed: set<string>
    var bursts: int
    var first: int
    var last: int
    var backoff: int
    var failing: bool

    function View(): State
      reads this
    {
      State(base, changed, bursts, first, last, backoff, failing)
    }

    constructor (settings: Settings)
      ensures w == settings && View() == Initial(settings)
    {
      w := settings;
      base, changed, bursts, first, last := None, {}, 0, 0, 0;
      backoff, failing := settings.backoffMin, false;
    }

    method Mark(diff: seq<string>)
      modifies this`changed
      ensures changed == old(changed) + Elements(diff[..|diff|])
    {
      hide Elements;
      NoElements(diff);
      for i := 0 to |diff|
        invariant changed == old(changed) + Elements(diff[..i])
      {
        ElementsSnoc(diff, i);
        changed := changed + {diff[i]};
      }
    }

    method Observe(fp: Fingerprint, now: int)
      requires base.Some?
      modifies this
      ensures View() == Observed(old(View()), fp, now)
    {
      hide Diff, SortedKeys, Ascending, Elements;
      var diff := ChangedComponents(base.value, fp);
      SortedElements(Diff(base.value, fp));
      if |diff| == 0 { return; }
      base := Some(fp);
      if changed == {} { first := now; }
      last := now;
      bursts := bursts + 1;
      Mark(diff);
    }

    method Fire() returns (components: seq<string>)
      modifies this
      ensures components == SortedKeys(old(changed))
      ensures View() == old(View()).(changed := {}, bursts := 0)
    {
      components := SortedKeys(changed);
      changed := {};
      bursts := 0;
    }

    method PollFailed(cancelled: bool) returns (wait: int)
      modifies this
      ensures Outcome(View(), None, wait) == Polled(w, old(View()), None, 0, cancelled)
    {
      if cancelled { return 0; }
      wait := backoff;
      backoff := Min(backoff * BACKOFF_FACTOR, w.backoffMax);
      failing := true;
    }

    method PollRecovered()
      modifies this
      ensures View() == old(View()).(backoff := w.backoffMin, failing := false)
    {
      backoff := w.backoffMin;
      if failing { failing := false; }
    }

    /** `step`: one poll; the source's answer and the clock are parameters. */
    method Step(fp: Option<Fingerprint>, now: int, cancelled: bool) returns (wait: int, trigger: Option<seq<string>>)
      modifies this
      ensures Outcome(View(), trigger, wait) == Next(w, old(View()), Poll(fp, now, cancelled))
    {
      hide Diff;
      trigger := None;
      if fp.None? {
        wait := PollFailed(cancelled);
        return;
      }
      PollRecovered();
      if base.None? {
        base := fp;
      } else {
        Observe(fp.value, now);
      }
      if changed == {} { return w.interval, None; }
      if Due(w, View(), now) {
        var components := Fire();
        return w.interval, Some(components);
      }
      return Min(w.debounce, w.interval), None;
    }

    /** `readFingerprint`: the read behind stream notifications, the catch-up read and the resync. */
    method ReadFingerprint(fp: Option<Fingerprint>, now: int, notifications: nat, burstStart: int)
      returns (ok: bool, trigger: Option<seq<string>>)
      modifies this
      ensures ok <==> fp.Some?
      ensures Outcome(View(), trigger, 0) == Next(w, old(View()), Read(fp, now, notifications, burstStart))
    {
      hide Diff;
      trigger := None;
      if fp.None? { return false, None; }
      if base.None? {
        base := fp;
        return true, None;
      }
      Observe(fp.value, now);
      if changed == {} { return true, None; }
      if notifications > 0 {
        bursts := notifications;
        first := burstStart;
      }
      var components := Fire();
      return true, Some(components);
    }
  }

  /////////// Every run ///////////

  function StateAt(w: Settings, run: seq<Event>, n: nat): State
    requires n <= |run|
  {
    if n == 0 then Initial(w) else Next(w, StateAt(w, run, n - 1), run[n - 1]).state
  }

  function TriggerAt(w: Settings, run: seq<Event>, i: nat): Option<seq<string>>
    requires i < |run|
  {
    Next(w, StateAt(w, run, i), run[i]).trigger
  }

  /** The last successful fingerprint of the first `n` reads. */
  function LastGood(run: seq<Event>, n: nat): Option<Fingerprint>
    requires n <= |run|
  {
    if n == 0 then None else if run[n - 1].fp.Some? then run[n - 1].fp else LastGood(run, n - 1)
  }

  /** What a read shows as different from the successful read before it. */
  function DiffAt(run: seq<Event>, i: nat): set<string>
    requires i < |run|
  {
    if run[i].fp.Some? && LastGood(run, i).Some? then Diff(LastGood(run, i).value, run[i].fp.value) else {}
  }

  function DiffsIn(run: seq<Event>, from: nat, until: nat): set<string>
    requires until <= |run|
    decreases until
  {
    if until <= from then {} else DiffsIn(run, from, until - 1) + DiffAt(run, until - 1)
  }

  /** The position after the latest trigger of the first `n` reads. */
  function Since(w: Settings, run: seq<Event>, n: nat): (since: nat)
    requires n <= |run|
    ensures since <= n
  {
    if n == 0 then 0 else if TriggerAt(w, run, n - 1).Some? then n else Since(w, run, n - 1)
  }

  lemma {:induction false} ObservedEffect(s: State, fp: Fingerprint, now: int)
    requires s.base.Some?
    ensures Observed(s, fp, now).base == Some(fp)
    ensures Observed(s, fp, now).changed == s.changed + Diff(s.base.value, fp)
  {
    DiffEmptyIff(s.base.value, fp);
    hide Diff;
  }

  /** The pending set before a possible trigger. */
  ghost function Pending(s: State, e: Event): set<string> {
    s.changed + if e.fp.Some? && s.base.Some? then Diff(s.base.value, e.fp.value) else {}
  }

  /** What one read does to the baseline, the pending set and the trigger. */
  lemma {:induction false} ReadEffect(w: Settings, s: State, e: Event)
    requires s.base.None? ==> s.changed == {}
    ensures var o, all := Next(w, s, e), Pending(s, e);
            && o.state.base == (if e.fp.Some? then e.fp else s.base)
            && (o.trigger.Some? ==> o.trigger.value == SortedKeys(all) && all != {} && o.state.changed == {})
            && (o.trigger.Some? ==> e.fp.Some? && s.base.Some?)
            && (o.trigger.None? ==> o.state.changed == all)
  {
    hide Diff, Observed, Due, SortedKeys;
    if e.fp.Some? && s.base.Some? {
      ObservedEffect(s, e.fp.value, e.now);
      ObservedEffect(s.(backoff := w.backoffMin, failing := false), e.fp.value, e.now);
    }
  }

  /** The baseline is the last good fingerprint; the pending set is every difference since the last trigger. */
  lemma {:induction false} RunInvariant(w: Settings, run: seq<Event>, n: nat)
    requires n <= |run|
    ensures StateAt(w, run, n).base == LastGood(run, n)
    ensures StateAt(w, run, n).changed == DiffsIn(run, Since(w, run, n), n)
    ensures LastGood(run, n).None? ==> StateAt(w, run, n).changed == {}
  {
    hide Next, Diff, SortedKeys;
    if n > 0 {
      RunInvariant(w, run, n - 1);
      ReadEffect(w, StateAt(w, run, n - 1), run[n - 1]);
    }
  }

  /** A trigger reports exactly the components that differed since the previous trigger, sorted. */
  lemma {:induction false} TriggersAreExact(w: Settings, run: seq<Event>, i: nat)
    requires i < |run| && TriggerAt(w, run, i).Some?
    ensures var report, all := TriggerAt(w, run, i).value, DiffsIn(run, Since(w, run, i), i + 1);
            report == SortedKeys(all) && all != {}
    ensures run[i].fp.Some? && LastGood(run, i).Some?
  {
    hide Next, Diff, SortedKeys;
    RunInvariant(w, run, i);
    ReadEffect(w, StateAt(w, run, i), run[i]);
  }

  /** Whether a read of the source triggers depends on the pending differences alone, for polls on their age as well. */
  lemma {:induction false} TriggersWhen(w: Settings, s: State, e: Event)
    requires s.base.Some? && e.fp.Some?
    ensures var o := Next(w, s, e);
            && (e.Read? ==> (o.trigger.Some? <==> Pending(s, e) != {}))
            && (e.Poll? ==> (o.trigger.Some? <==>
                  Pending(s, e) != {} && (w.debounce == 0 || e.now - o.state.last >= w.debounce || e.now - o.state.first >= w.maxWait)))
  {
    hide Diff, Observed, SortedKeys;
    ObservedEffect(s, e.fp.value, e.now);
    ObservedEffect(s.(backoff := w.backoffMin, failing := false), e.fp.value, e.now);
  }

  /** Over every run: a stream read after a baseline triggers if and only if something differed since the last trigger. */
  lemma {:induction false} ReadTriggersIff(w: Settings, run: seq<Event>, i: nat)
    requires i < |run| && run[i].Read? && run[i].fp.Some? && LastGood(run, i).Some?
    ensures TriggerAt(w, run, i).Some? <==> DiffsIn(run, Since(w, run, i), i + 1) != {}
  {
    hide Next, Diff, SortedKeys;
    RunInvariant(w, run, i);
    TriggersWhen(w, StateAt(w, run, i), run[i]);
  }

  lemma {:induction false} DiffsInUnion(run: seq<Event>, from: nat, until: nat, c: string)
    requires until <= |run|
    ensures c in DiffsIn(run, from, until) <==> exists i :: from <= i < until && c in DiffAt(run, i)
    decreases until
  {
    if from < until { DiffsInUnion(run, from, until - 1, c); }
  }

  /** The read differs in the component from the good read before it. */
  ghost predicate DiffersAt(run: seq<Event>, i: nat, c: string) {
    i < |run| && run[i].fp.Some? && LastGood(run, i).Some? && Differs(LastGood(run, i).value, run[i].fp.value, c)
  }

  /** What a report names: the components with a difference between two successive good reads of the window. */
  lemma {:induction false} DiffsInMeans(run: seq<Event>, from: nat, until: nat, c: string)
    requires until <= |run|
    ensures c in DiffsIn(run, from, until) <==> exists i: nat :: from <= i < until && DiffersAt(run, i, c)
  {
    hide DiffsIn, Diff, Differs;
    DiffsInUnion(run, from, until, c);
    forall i: nat | i < |run| ensures c in DiffAt(run, i) <==> DiffersAt(run, i, c) {
      if run[i].fp.Some? && LastGood(run, i).Some? { DiffMeans(LastGood(run, i).value, run[i].fp.value, c); }
    }
  }

  /** No difference is lost: it is reported by a trigger or still pending. */
  lemma {:induction false} DifferencesAreReported(w: Settings, run: seq<Event>, n: nat, i: nat, c: string)
    requires i < n <= |run| && c in DiffAt(run, i)
    ensures c in StateAt(w, run, n).changed ||
            exists j :: i <= j < n && TriggerAt(w, run, j).Some? && c in TriggerAt(w, run, j).value
  {
    hide Next, Diff, DiffAt, SortedKeys, StateAt, TriggerAt, Since, DiffsIn;
    if Since(w, run, n) <= i {
      RunInvariant(w, run, n);
      DiffsInUnion(run, Since(w, run, n), n, c);
    } else {
      var j := ReportingTrigger(w, run, n, i);
      TriggersAreExact(w, run, j);
      DiffsInUnion(run, Since(w, run, j), j + 1, c);
    }
  }

  lemma {:induction false} ReportingTrigger(w: Settings, run: seq<Event>, n: nat, i: nat) returns (j: nat)
    requires n <= |run| && i < Since(w, run, n)
    ensures j < n && Since(w, run, j) <= i <= j && TriggerAt(w, run, j).Some?
  {
    hide TriggerAt;
    j := LatestTrigger(w, run, n);
    if i < Since(w, run, j) { j := ReportingTrigger(w, run, j, i); }
  }

  lemma {:induction false} LatestTrigger(w: Settings, run: seq<Event>, n: nat) returns (j: nat)
    requires n <= |run| && Since(w, run, n) > 0
    ensures j < n <= |run| && Since(w, run, n) == j + 1 && TriggerAt(w, run, j).Some?
  {
    hide TriggerAt;
    if TriggerAt(w, run, n - 1).Some? { j := n - 1; } else { j := LatestTrigger(w, run, n - 1); }
  }

  /////////// Back-off ///////////

  function Pow2(n: nat): (r: int)
    ensures r > 0
  {
    if n == 0 then 1 else 2 * Pow2(n - 1)
  }

  /** The failed polls since the last good one; cancelled polls and stream reads do not count. */
  function Failures(run: seq<Event>, n: nat): nat
    requires n <= |run|
  {
    if n == 0 then 0
    else if run[n - 1].Read? then Failures(run, n - 1)
    else if run[n - 1].fp.Some? then 0
    else Failures(run, n - 1) + if run[n - 1].cancelled then 0 else 1
  }

  lemma {:induction false} DoubledOnce(low: int, high: int, k: nat)
    requires 0 < low <= high
    ensures Min(Min(low * Pow2(k), high) * 2, high) == Min(low * Pow2(k + 1), high)
  {
    assert low * Pow2(k + 1) == 2 * (low * Pow2(k));
    hide Pow2;
  }

  /** Over every run: the back-off is the minimum, doubled with every failed poll since the last good one, up to its
      bound, and a failed poll waits that long. */
  lemma {:induction false} BackoffDoubles(o: Settings, run: seq<Event>, n: nat)
    requires n <= |run|
    ensures var w, s := Configured(o), StateAt(Configured(o), run, n);
            && s.backoff == Min(w.backoffMin * Pow2(Failures(run, n)), w.backoffMax)
            && (s.failing <==> Failures(run, n) > 0)
            && (n < |run| && run[n].Poll? && run[n].fp.None? ==>
                  Next(w, s, run[n]).wait == if run[n].cancelled then 0 else s.backoff)
  {
    hide Diff, SortedKeys, Configured, Due;
    var w := Configured(o);
    assert 0 < w.backoffMin <= w.backoffMax;
    if n > 0 {
      BackoffDoubles(o, run, n - 1);
      DoubledOnce(w.backoffMin, w.backoffMax, Failures(run, n - 1));
    } else {
      assert w.backoffMin * Pow2(0) == w.backoffMin;
    }
  }

  /** A good poll waits the interval, or a shorter debounce while differences are kept waiting. */
  lemma {:induction false} GoodPollWaits(w: Settings, run: seq<Event>, i: nat)
    requires i < |run| && run[i].Poll? && run[i].fp.Some?
    ensures Next(w, StateAt(w, run, i), run[i]).wait ==
            if StateAt(w, run, i + 1).changed == {} then w.interval else Min(w.debounce, w.interval)
  {
    hide Diff, SortedKeys, Due;
  }
}
