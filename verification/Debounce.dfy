/** How long a burst of changes may postpone its trigger when the watcher only polls. */
module Debounce {
  import opened Options
  import opened Order
  import opened Watcher

  /** A run of successful polls that take no time: each follows the wait the one before returned. */
  ghost predicate PollRun(w: Settings, run: seq<Event>) {
    && (forall i :: 0 <= i < |run| ==> run[i].Poll? && run[i].fp.Some?)
    && forall i :: 0 < i < |run| ==> run[i].now == run[i - 1].now + Next(w, StateAt(w, run, i - 1), run[i - 1]).wait
  }

  /** The first and the last poll of a window that saw a change. */
  ghost predicate Burst(run: seq<Event>, since: nat, until: nat, first: nat, last: nat)
    requires until <= |run|
  {
    && since <= first <= last < until
    && DiffAt(run, first) != {} && DiffAt(run, last) != {}
    && (forall j :: since <= j < first ==> DiffAt(run, j) == {})
    && forall j :: last < j < until ==> DiffAt(run, j) == {}
  }

  /** The effect of one successful poll on the times of the burst. */
  lemma {:induction false} PollTimes(w: Settings, s: State, e: Event)
    requires e.Poll? && e.fp.Some? && (s.base.None? ==> s.changed == {})
    ensures var o, diff := Next(w, s, e), if s.base.Some? then Diff(s.base.value, e.fp.value) else {};
            && o.state.first == (if s.changed == {} && diff != {} then e.now else s.first)
            && o.state.last == (if diff != {} then e.now else s.last)
            && (Pending(s, e) != {} ==> (o.trigger.Some? <==> Due(w, o.state, e.now)))
            && (Pending(s, e) != {} && o.trigger.None? ==> o.wait == Min(w.debounce, w.interval))
            && (Pending(s, e) == {} ==> o.trigger.None?)
            && (o.wait == w.interval || o.wait == Min(w.debounce, w.interval))
  {
    hide Diff, SortedKeys;
    if s.base.Some? {
      ObservedEffect(s.(backoff := w.backoffMin, failing := false), e.fp.value, e.now);
    }
  }

  lemma {:induction false} NoDiffsBefore(run: seq<Event>, since: nat, until: nat)
    requires until <= |run| && DiffsIn(run, since, until) == {}
    ensures forall j :: since <= j < until ==> DiffAt(run, j) == {}
  {
    hide DiffsIn, DiffAt;
    forall j | since <= j < until ensures DiffAt(run, j) == {} {
      forall c ensures c !in DiffAt(run, j) { DiffsInUnion(run, since, until, c); }
    }
  }

  /** `first` and `last` are the times of the burst's first and latest change, and a burst kept waiting was not due. */
  lemma {:induction false} BurstTimes(w: Settings, run: seq<Event>, i: nat) returns (first: nat, last: nat)
    requires PollRun(w, run) && w.debounce >= 0 && w.interval > 0
    requires i < |run| && Pending(StateAt(w, run, i), run[i]) != {}
    ensures Burst(run, Since(w, run, i), i + 1, first, last)
    ensures var s := Next(w, StateAt(w, run, i), run[i]).state;
            s.first == run[first].now && s.last == run[last].now && run[last].now <= run[i].now
    ensures first < i ==> run[i].now < run[first].now + w.maxWait + Min(w.debounce, w.interval)
    ensures first < i ==> w.debounce > 0
  {
    hide Next, Diff, SortedKeys, DiffsIn, LastGood;
    var s := StateAt(w, run, i);
    RunInvariant(w, run, i);
    PollTimes(w, s, run[i]);
    if s.changed == {} {
      NoDiffsBefore(run, Since(w, run, i), i);
      first, last := i, i;
    } else {
      assert i > 0;
      var before := StateAt(w, run, i - 1);
      RunInvariant(w, run, i - 1);
      ReadEffect(w, before, run[i - 1]);
      PollTimes(w, before, run[i - 1]);
      first, last := BurstTimes(w, run, i - 1);
      if DiffAt(run, i) != {} { last := i; }
    }
  }

  /**
   * A trigger comes no earlier than `debounce` after the latest change, unless the burst lasted `maxWait`, and
   * before `maxWait` plus one waiting poll after the first; without debounce it comes with the change itself.
   */
  lemma {:induction false} TriggerIsTimely(o: Settings, run: seq<Event>, i: nat) returns (first: nat, last: nat)
    requires PollRun(Configured(o), run) && i < |run| && TriggerAt(Configured(o), run, i).Some?
    ensures var w := Configured(o);
            && Burst(run, Since(w, run, i), i + 1, first, last)
            && (run[i].now >= run[last].now + w.debounce || run[i].now >= run[first].now + w.maxWait)
            && (w.debounce == 0 ==> first == i)
            && (w.debounce > 0 ==> run[i].now < run[first].now + w.maxWait + Min(w.debounce, w.interval))
  {
    hide Next, Diff, SortedKeys, Configured, Burst;
    var w, s := Configured(o), StateAt(Configured(o), run, i);
    RunInvariant(w, run, i);
    PollTimes(w, s, run[i]);
    first, last := BurstTimes(w, run, i);
    assert Burst(run, Since(w, run, i), i + 1, first, last);
    BurstOrder(run, Since(w, run, i), i + 1, first, last);
  }

  lemma {:induction false} BurstOrder(run: seq<Event>, since: nat, until: nat, first: nat, last: nat)
    requires until <= |run| && Burst(run, since, until, first, last)
    ensures since <= first <= last < until
  {}

  /** A burst that is still waiting is younger than `maxWait`, and the next poll is one short wait away. */
  lemma {:induction false} WaitingIsBounded(o: Settings, run: seq<Event>, i: nat) returns (first: nat, last: nat)
    requires PollRun(Configured(o), run) && i < |run|
    requires StateAt(Configured(o), run, i + 1).changed != {}
    ensures var w := Configured(o);
            && Burst(run, Since(w, run, i), i + 1, first, last)
            && run[i].now < run[first].now + w.maxWait && run[i].now < run[last].now + w.debounce
            && (i + 1 < |run| ==> run[i + 1].now == run[i].now + Min(w.debounce, w.interval))
  {
    hide Next, Diff, SortedKeys, Configured, Burst;
    var w, s := Configured(o), StateAt(Configured(o), run, i);
    RunInvariant(w, run, i);
    ReadEffect(w, s, run[i]);
    PollTimes(w, s, run[i]);
    first, last := BurstTimes(w, run, i);
    assert i + 1 < |run| ==> run[i + 1].now == run[i].now + Next(w, StateAt(w, run, i), run[i]).wait;
  }

  /////////// Polls among stream reads ///////////

  /** Over every run, polls failing and stream reads in between: the recorded times are those of the first and the latest
      difference that is kept waiting. */
  lemma {:induction false} WaitingTimes(w: Settings, run: seq<Event>, n: nat) returns (first: nat, last: nat)
    requires n <= |run| && StateAt(w, run, n).changed != {}
    ensures Burst(run, Since(w, run, n), n, first, last)
    ensures StateAt(w, run, n).first == run[first].now && StateAt(w, run, n).last == run[last].now
  {
    hide Next, Diff, SortedKeys, DiffsIn;
    var s, e := StateAt(w, run, n - 1), run[n - 1];
    RunInvariant(w, run, n - 1);
    ReadEffect(w, s, e);
    EventTimes(w, s, e);
    if s.changed == {} {
      NoDiffsBefore(run, Since(w, run, n - 1), n - 1);
      first, last := n - 1, n - 1;
    } else {
      first, last := WaitingTimes(w, run, n - 1);
      if DiffAt(run, n - 1) != {} { last := n - 1; }
    }
  }

  lemma {:induction false} EventTimes(w: Settings, s: State, e: Event)
    requires s.base.None? ==> s.changed == {}
    requires Next(w, s, e).trigger.None? && Pending(s, e) != {}
    ensures var o, diff := Next(w, s, e).state, if e.fp.Some? && s.base.Some? then Diff(s.base.value, e.fp.value) else {};
            && o.first == (if s.changed == {} then e.now else s.first)
            && o.last == (if diff != {} then e.now else s.last)
  {
    hide Diff, SortedKeys;
    if e.fp.Some? && s.base.Some? {
      ObservedEffect(s, e.fp.value, e.now);
      ObservedEffect(s.(backoff := w.backoffMin, failing := false), e.fp.value, e.now);
    }
  }

  /** Over every run: a good poll after a baseline triggers if and only if something differed since the last trigger and
      there is no debounce, or nothing differed for that long, or the first difference is as old as the maximal wait. */
  lemma {:induction false} PollTriggersIff(w: Settings, run: seq<Event>, i: nat)
    requires i < |run| && run[i].Poll? && run[i].fp.Some? && LastGood(run, i).Some?
    ensures TriggerAt(w, run, i).Some? <==>
            exists first: nat, last: nat :: Burst(run, Since(w, run, i), i + 1, first, last) &&
              (w.debounce == 0 || run[i].now - run[last].now >= w.debounce || run[i].now - run[first].now >= w.maxWait)
  {
    hide Next, Diff, SortedKeys, DiffsIn, Burst;
    RunInvariant(w, run, i);
    TriggersWhen(w, StateAt(w, run, i), run[i]);
    if Pending(StateAt(w, run, i), run[i]) != {} {
      var first, last := PollBurst(w, run, i);
      BurstUnique(run, Since(w, run, i), i + 1, first, last);
    } else {
      var since, until := Since(w, run, i), i + 1;
      forall first: nat, last: nat ensures !Burst(run, since, until, first, last) { NoBurst(w, run, i, first, last); }
    }
  }

  lemma {:induction false} PollBurst(w: Settings, run: seq<Event>, i: nat) returns (first: nat, last: nat)
    requires i < |run| && run[i].Poll? && run[i].fp.Some? && LastGood(run, i).Some?
    requires Pending(StateAt(w, run, i), run[i]) != {}
    ensures Burst(run, Since(w, run, i), i + 1, first, last)
    ensures var s := Next(w, StateAt(w, run, i), run[i]).state; s.first == run[first].now && s.last == run[last].now
  {
    hide Next, Diff, SortedKeys, DiffsIn;
    var s := StateAt(w, run, i);
    RunInvariant(w, run, i);
    PollTimes(w, s, run[i]);
    if s.changed == {} {
      NoDiffsBefore(run, Since(w, run, i), i);
      first, last := i, i;
    } else {
      first, last := WaitingTimes(w, run, i);
      if DiffAt(run, i) != {} { last := i; }
    }
  }

  lemma {:induction false} BurstUnique(run: seq<Event>, since: nat, until: nat, first: nat, last: nat)
    requires until <= |run| && Burst(run, since, until, first, last)
    ensures forall f, l :: Burst(run, since, until, f, l) ==> f == first && l == last
  {
    hide DiffAt;
  }

  lemma {:induction false} NoBurst(w: Settings, run: seq<Event>, i: nat, first: nat, last: nat)
    requires i < |run| && run[i].fp.Some? && LastGood(run, i).Some? && Pending(StateAt(w, run, i), run[i]) == {}
    ensures !Burst(run, Since(w, run, i), i + 1, first, last)
  {
    hide Next, Diff, SortedKeys, DiffsIn;
    RunInvariant(w, run, i);
    NoDiffsBefore(run, Since(w, run, i), i);
  }
}
