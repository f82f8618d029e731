/** The loops that carry out the actions of a plan and report what is left for the next cycle. The outcome of every
    external call and the moment a shutdown is noticed are inputs. */
module Actions {
  import opened Options
  import opened Plan

  ghost predicate DistinctKeys(entries: seq<Entry>) {
    forall i, j :: 0 <= i < j < |entries| ==> entries[i].key != entries[j].key
  }

  function KeysOf(entries: seq<Entry>): set<string> {
    set e | e in entries :: e.key
  }

  /** The entries whose key was not carried out, in order. */
  function Remaining(entries: seq<Entry>, done: set<string>): seq<Entry> {
    if entries == [] then []
    else
      Remaining(entries[..|entries| - 1], done) +
      (if entries[|entries| - 1].key in done then [] else [entries[|entries| - 1]])
  }

  /** Each entry is either carried out or remains, never both. */
  lemma {:induction false} RemainingExact(entries: seq<Entry>, done: set<string>, e: Entry)
    requires e in entries
    ensures e in Remaining(entries, done) <==> e.key !in done
  {
    var init, last := entries[..|entries| - 1], entries[|entries| - 1];
    assert entries == init + [last];
    RemainingOnly(init, done);
    if e in init { RemainingExact(init, done, e); }
  }

  lemma {:induction false} RemainingOnly(entries: seq<Entry>, done: set<string>)
    ensures forall e :: e in Remaining(entries, done) ==> e in entries && e.key !in done
  {
    if entries != [] {
      assert entries == entries[..|entries| - 1] + [entries[|entries| - 1]];
      RemainingOnly(entries[..|entries| - 1], done);
    }
  }

  lemma {:induction false} RemainingAll(entries: seq<Entry>)
    ensures Remaining(entries, {}) == entries
  {
    if entries != [] {
      RemainingAll(entries[..|entries| - 1]);
      assert entries == entries[..|entries| - 1] + [entries[|entries| - 1]];
    }
  }

  lemma {:induction false} RemainingNone(entries: seq<Entry>, done: set<string>)
    requires forall e :: e in entries ==> e.key in done
    ensures Remaining(entries, done) == []
  {
    if entries != [] {
      assert entries[|entries| - 1] in entries;
      RemainingNone(entries[..|entries| - 1], done);
    }
  }

  lemma {:induction false} RemainingSame(entries: seq<Entry>, a: set<string>, b: set<string>)
    requires forall e :: e in entries ==> (e.key in a <==> e.key in b)
    ensures Remaining(entries, a) == Remaining(entries, b)
  {
    if entries != [] {
      assert entries[|entries| - 1] in entries;
      RemainingSame(entries[..|entries| - 1], a, b);
    }
  }

  lemma {:induction false} RemainingConcat(a: seq<Entry>, b: seq<Entry>, done: set<string>)
    ensures Remaining(a + b, done) == Remaining(a, done) + Remaining(b, done)
    decreases |b|
  {
    if b == [] {
      assert a + b == a;
    } else {
      assert (a + b)[..|a + b| - 1] == a + b[..|b| - 1];
      RemainingConcat(a, b[..|b| - 1], done);
    }
  }

  /** What the world answers: the values that cannot be resolved, the calls that fail, the first loop turn that
      notices a shutdown. */
  datatype World = World(unresolved: set<string>, failing: set<string>, batchFails: bool, shutdownAt: nat)

  predicate Cancelled(w: World, turn: nat) {
    w.shutdownAt <= turn
  }

  /** One of the first `turns` entries has a key among `bad`. */
  ghost predicate Refused(entries: seq<Entry>, turns: nat, bad: set<string>) {
    exists i :: 0 <= i < |entries| && i < turns && entries[i].key in bad
  }

  /** `postconf -e`: one call per key after the batch was refused, so one bad directive cannot block the others. */
  method PostconfOneByOne(ops: seq<Entry>, w: World) returns (done: set<string>, failed: bool)
    ensures done == KeysOf(ops) - w.failing
    ensures failed <==> exists e :: e in ops && e.key in w.failing
  {
    done, failed := {}, false;
    for n := 0 to |ops|
      invariant done == KeysOf(ops[..n]) - w.failing
      invariant failed <==> exists e :: e in ops[..n] && e.key in w.failing
    {
      assert ops[..n + 1] == ops[..n] + [ops[n]];
      if ops[n].key in w.failing { failed := true; } else { done := done + {ops[n].key}; }
    }
    assert ops[..|ops|] == ops;
  }

  method PostconfOps(ops: seq<Entry>, w: World) returns (done: set<string>, failed: bool)
    ensures done == (if w.batchFails then KeysOf(ops) - w.failing else KeysOf(ops))
    ensures failed <==> w.batchFails && exists e :: e in ops && e.key in w.failing
  {
    if |ops| == 0 { return {}, false; }
    if !w.batchFails { return KeysOf(ops), false; }
    done, failed := PostconfOneByOne(ops, w);
  }

  /** Exactly the keys a postconf step carries out. */
  ghost predicate PostconfDone(entries: seq<Entry>, w: World, key: string) {
    && key in KeysOf(entries) && !Cancelled(w, |entries| - 1) && entries != []
    && key !in w.unresolved && (w.batchFails ==> key !in w.failing)
  }

  method ResolvePostconf(entries: seq<Entry>, w: World) returns (ops: seq<Entry>, cancelled: bool, failed: bool)
    ensures cancelled <==> w.shutdownAt < |entries|
    ensures !cancelled ==> KeysOf(ops) == KeysOf(entries) - w.unresolved
    ensures failed <==> Refused(entries, w.shutdownAt, w.unresolved)
  {
    ops, cancelled, failed := [], false, false;
    for n := 0 to |entries|
      invariant n <= w.shutdownAt
      invariant KeysOf(ops) == KeysOf(entries[..n]) - w.unresolved
      invariant failed <==> Refused(entries, n, w.unresolved)
    {
      if Cancelled(w, n) { cancelled := true; return; }
      assert entries[..n + 1] == entries[..n] + [entries[n]];
      if entries[n].key in w.unresolved {
        failed := true;
      } else {
        assert KeysOf(ops + [entries[n]]) == KeysOf(ops) + {entries[n].key};
        ops := ops + [entries[n]];
      }
    }
    assert entries[..|entries|] == entries;
  }

  method DoPostconf(entries: seq<Entry>, w: World) returns (pending: seq<Entry>, done: set<string>, failed: bool)
    requires DistinctKeys(entries)
    ensures pending == Remaining(entries, done)
    ensures forall key :: key in done <==> PostconfDone(entries, w, key)
    ensures failed <==> || Refused(entries, w.shutdownAt, w.unresolved)
                        || (w.shutdownAt >= |entries| && w.batchFails && Refused(entries, |entries|, w.failing - w.unresolved))
  {
    if |entries| == 0 { return [], {}, false; }
    var ops, cancelled, unresolved := ResolvePostconf(entries, w);
    if cancelled {
      RemainingAll(entries);
      return entries, {}, unresolved;
    }
    done, failed := PostconfOps(ops, w);
    assert (exists e :: e in ops && e.key in w.failing) <==> Refused(entries, |entries|, w.failing - w.unresolved) by {
      assert forall e :: e in ops ==> e.key in KeysOf(ops);
      if Refused(entries, |entries|, w.failing - w.unresolved) {
        var i :| 0 <= i < |entries| && entries[i].key in w.failing - w.unresolved;
        assert entries[i] in entries;
        assert entries[i].key in KeysOf(ops);
      }
    }
    failed := failed || unresolved;
    pending := [];
    for n := 0 to |entries|
      invariant pending == Remaining(entries[..n], done)
    {
      assert entries[..n + 1][..n] == entries[..n];
      if entries[n].key !in done { pending := pending + [entries[n]]; }
    }
    assert entries[..|entries|] == entries;
  }

  /** `postconf -X`: one batch; refused or cut short, everything remains. */
  method DoPostconfd(entries: seq<Entry>, w: World) returns (pending: seq<Entry>, done: set<string>, failed: bool)
    ensures pending == Remaining(entries, done)
    ensures done == (if w.shutdownAt < |entries| || w.batchFails then {} else KeysOf(entries))
    ensures failed <==> entries != [] && w.shutdownAt >= |entries| && w.batchFails
  {
    RemainingAll(entries);
    RemainingNone(entries, KeysOf(entries));
    if |entries| == 0 { return [], {}, false; }
    for n := 0 to |entries|
      invariant n <= w.shutdownAt
    {
      if Cancelled(w, n) { return entries, {}, false; }
    }
    if w.batchFails { return entries, {}, true; }
    return [], KeysOf(entries), false;
  }

  /** LDAP writes, one by one; the ones after a shutdown was noticed remain. */
  method DoLdap(entries: seq<Entry>, w: World) returns (pending: seq<Entry>, done: set<string>, failed: bool)
    requires DistinctKeys(entries)
    ensures pending == Remaining(entries, done)
    ensures forall key :: key in done <==>
              exists i :: 0 <= i < |entries| && i < w.shutdownAt && entries[i].key == key &&
                          key !in w.unresolved && key !in w.failing
    ensures failed <==> Refused(entries, w.shutdownAt, w.unresolved + w.failing)
  {
    pending, done, failed := [], {}, false;
    for n := 0 to |entries|
      invariant n <= w.shutdownAt
      invariant pending == Remaining(entries[..n], done)
      invariant forall key :: key in done <==>
                  exists i :: 0 <= i < n && entries[i].key == key && key !in w.unresolved && key !in w.failing
      invariant failed <==> Refused(entries, n, w.unresolved + w.failing)
    {
      if Cancelled(w, n) {
        RestRemains(entries, n, done);
        return pending + entries[n..], done, failed;
      }
      RestRemains(entries, n, done);
      assert entries[..n + 1][..n] == entries[..n];
      if entries[n].key in w.unresolved || entries[n].key in w.failing {
        failed := true;
        pending := pending + [entries[n]];
      } else {
        RemainingSame(entries[..n], done, done + {entries[n].key});
        done := done + {entries[n].key};
      }
    }
    assert entries[..|entries|] == entries;
  }

  lemma {:induction false} RestRemains(entries: seq<Entry>, n: nat, done: set<string>)
    requires DistinctKeys(entries) && n <= |entries|
    requires forall key :: key in done ==> exists i :: 0 <= i < n && entries[i].key == key
    ensures Remaining(entries, done) == Remaining(entries[..n], done) + entries[n..]
    ensures forall i :: n <= i < |entries| ==> entries[i].key !in done
    ensures forall e :: e in entries[..n] ==> n < |entries| ==> e.key != entries[n].key
  {
    assert entries == entries[..n] + entries[n..];
    RemainingConcat(entries[..n], entries[n..], done);
    assert forall e :: e in entries[n..] ==> e.key !in done;
    RemainingSame(entries[n..], done, {});
    RemainingAll(entries[n..]);
  }

  /** The template renders: a pool of at most four workers that finish in any order. */
  method DoRewrites(entries: seq<Entry>, w: World) returns (pending: seq<Entry>, done: set<string>, failed: bool)
    requires DistinctKeys(entries)
    ensures pending == Remaining(entries, done)
    ensures forall key :: key in done <==>
              exists i :: 0 <= i < |entries| && i < w.shutdownAt && entries[i].key == key && key !in w.failing
    ensures failed <==> Refused(entries, w.shutdownAt, w.failing)
  {
    done, failed := RunWorkers(entries, w);
    pending := [];
    for n := 0 to |entries|
      invariant pending == Remaining(entries[..n], done)
    {
      assert entries[..n + 1][..n] == entries[..n];
      if entries[n].key !in done { pending := pending + [entries[n]]; }
    }
    assert entries[..|entries|] == entries;
  }

  const MAX_WORKERS: nat := 4

  /** The sources whose worker, one of `ended`, succeeded. */
  ghost predicate Rendered(entries: seq<Entry>, ended: set<int>, failing: set<string>, key: string) {
    exists i :: i in ended && 0 <= i < |entries| && entries[i].key == key && key !in failing
  }

  ghost predicate AnyFailed(entries: seq<Entry>, ended: set<int>, failing: set<string>) {
    exists i :: i in ended && 0 <= i < |entries| && entries[i].key in failing
  }

  method RunWorkers(entries: seq<Entry>, w: World) returns (done: set<string>, failed: bool)
    ensures forall key :: key in done <==>
              exists i :: 0 <= i < |entries| && i < w.shutdownAt && entries[i].key == key && key !in w.failing
    ensures failed <==> Refused(entries, w.shutdownAt, w.failing)
  {
    var next: int, closed := 0, false;
    var running: set<int> := {};
    ghost var ended: set<int> := {};
    done, failed := {}, false;
    while !closed || running != {}
      invariant 0 <= next <= |entries| && next <= w.shutdownAt
      invariant closed ==> next == |entries| || next == w.shutdownAt
      invariant forall i :: i in running || i in ended <==> 0 <= i < next
      invariant |running| <= MAX_WORKERS
      invariant forall key :: key in done <==> Rendered(entries, ended, w.failing, key)
      invariant failed <==> AnyFailed(entries, ended, w.failing)
      decreases |entries| - next, !closed, |running|
    {
      var finishFirst: bool := *;
      if running != {} && (closed || |running| == MAX_WORKERS || finishFirst) {
        NonEmpty(running);
        var i :| i in running;
        Ending(entries, ended, w.failing, i, done);
        running, ended := running - {i}, ended + {i};
        if entries[i].key in w.failing { failed := true; } else { done := done + {entries[i].key}; }
      } else if next == |entries| || Cancelled(w, next) {
        closed := true;
      } else {
        running, next := running + {next}, next + 1;
      }
    }
    assert forall i :: i in ended <==> 0 <= i < |entries| && i < w.shutdownAt;
  }

  lemma {:induction false} Ending(entries: seq<Entry>, ended: set<int>, failing: set<string>, i: int, done: set<string>)
    requires 0 <= i < |entries|
    requires forall key :: key in done <==> Rendered(entries, ended, failing, key)
    ensures forall key :: Rendered(entries, ended + {i}, failing, key) <==>
              key in done || (key == entries[i].key && key !in failing)
    ensures AnyFailed(entries, ended + {i}, failing) <==> AnyFailed(entries, ended, failing) || entries[i].key in failing
  {
    assert i in ended + {i};
    forall key | key in done ensures Rendered(entries, ended + {i}, failing, key) {
      var j :| j in ended && 0 <= j < |entries| && entries[j].key == key && key !in failing;
      assert j in ended + {i};
    }
    if AnyFailed(entries, ended, failing) {
      var j :| j in ended && 0 <= j < |entries| && entries[j].key in failing;
      assert j in ended + {i};
    }
  }

  lemma {:induction false} NonEmpty<T>(s: set<T>)
    requires s != {}
    ensures exists i :: i in s
  {}
}
