/** The REWRITE clients the main loop keeps: registered, claimed by a cycle, released. */
module Trigger {

  type Client = nat

  ghost predicate NoDuplicates<T>(s: seq<T>) {
    forall i, j :: 0 <= i < j < |s| ==> s[i] != s[j]
  }

  /** The state behind the mutex. `closed` records the done channels closed so far, in order. */
  datatype Waiters = Waiters(
    waiting: seq<Client>, inflight: seq<Client>, closed: seq<Client>, open: bool, restarting: set<string>)

  const NO_WAITERS: Waiters := Waiters([], [], [], false, {})

  /** No client is registered twice, and none that was released is still registered. */
  ghost predicate Valid(w: Waiters) {
    NoDuplicates(w.closed + w.inflight + w.waiting)
  }

  function Names(sections: seq<string>): set<string> {
    set s | s in sections
  }

  function Without(list: seq<Client>, c: Client): seq<Client> {
    if list == [] then []
    else Without(list[..|list| - 1], c) + (if list[|list| - 1] == c then [] else [list[|list| - 1]])
  }

  function Registered(w: Waiters, c: Client): Waiters { w.(waiting := w.waiting + [c]) }

  function Forgotten(w: Waiters, c: Client): Waiters {
    w.(waiting := Without(w.waiting, c), inflight := Without(w.inflight, c))
  }

  function Claimed(w: Waiters): Waiters { w.(inflight := w.inflight + w.waiting, waiting := []) }

  function Completed(w: Waiters): Waiters { w.(closed := w.closed + w.inflight, inflight := []) }

  function Requeued(w: Waiters): Waiters { w.(waiting := w.inflight + w.waiting, inflight := []) }

  predicate AlreadyRewritten(w: Waiters, sections: set<string>) {
    w.open && w.restarting != {} && sections != {} && sections <= w.restarting
  }

  lemma {:induction false} WithoutExact(list: seq<Client>, c: Client)
    ensures forall x :: x in Without(list, c) <==> x in list && x != c
  {
    if list != [] {
      assert list == list[..|list| - 1] + [list[|list| - 1]];
      WithoutExact(list[..|list| - 1], c);
    }
  }

  /** Dropping elements keeps a list free of duplicates. */
  lemma {:induction false} WithoutDistinct(before: seq<Client>, list: seq<Client>, c: Client)
    requires NoDuplicates(before + list)
    ensures NoDuplicates(before + Without(list, c))
  {
    if list == [] {
      assert before + Without(list, c) == before + list;
    } else {
      var init, last := list[..|list| - 1], list[|list| - 1];
      assert before + list == (before + init) + [last];
      assert (before + list)[..|before + init|] == before + init;
      WithoutDistinct(before, init, c);
      var kept := before + Without(init, c);
      WithoutExact(init, c);
      assert last !in kept by {
        assert forall i :: 0 <= i < |before + init| ==> (before + init)[i] != (before + list)[|before + list| - 1];
        assert last !in before + init;
      }
      if last == c {
        assert before + Without(list, c) == kept;
      } else {
        assert before + Without(list, c) == kept + [last];
        assert forall i :: 0 <= i < |kept| ==> kept[i] in kept;
      }
    }
  }

  lemma {:induction false} SwapDistinct(before: seq<Client>, a: seq<Client>, b: seq<Client>, after: seq<Client>)
    requires NoDuplicates(before + a + b + after)
    ensures NoDuplicates(before + b + a + after)
  {
    var l, r := before + a + b + after, before + b + a + after;
    forall i, j | 0 <= i < j < |r| ensures r[i] != r[j] {
      var from := k => if 0 <= k < |before| then k
                       else if k < |before| + |b| then k + |a|
                       else if k < |before| + |b| + |a| then k - |b| else k;
      assert l[from(i)] == r[i] && l[from(j)] == r[j] && from(i) != from(j);
    }
  }

  lemma {:induction false} ForgottenValid(w: Waiters, c: Client)
    requires Valid(w)
    ensures Valid(Forgotten(w, c))
  {
    WithoutDistinct(w.closed + w.inflight, w.waiting, c);
    var rest := Without(w.waiting, c);
    assert w.closed + w.inflight + rest + [] == w.closed + w.inflight + rest;
    SwapDistinct(w.closed, w.inflight, rest, []);
    assert w.closed + rest + w.inflight + [] == w.closed + rest + w.inflight;
    WithoutDistinct(w.closed + rest, w.inflight, c);
    var kept := Without(w.inflight, c);
    assert w.closed + rest + kept + [] == w.closed + rest + kept;
    SwapDistinct(w.closed, rest, kept, []);
    assert w.closed + kept + rest + [] == w.closed + kept + rest;
  }

  lemma {:induction false} MovesValid(w: Waiters)
    requires Valid(w)
    ensures Valid(Claimed(w)) && Valid(Completed(w)) && Valid(Requeued(w))
  {
    var all := w.closed + w.inflight + w.waiting;
    assert Claimed(w).closed + Claimed(w).inflight + Claimed(w).waiting == all;
    assert Completed(w).closed + Completed(w).inflight + Completed(w).waiting == all;
    assert Requeued(w).closed + Requeued(w).inflight + Requeued(w).waiting == all;
  }

  lemma {:induction false} RegisteredValid(w: Waiters, c: Client)
    requires Valid(w) && c !in w.closed && c !in w.inflight && c !in w.waiting
    ensures Valid(Registered(w, c))
  {
    assert w.closed + w.inflight + (w.waiting + [c]) == (w.closed + w.inflight + w.waiting) + [c];
  }

  /** The object the network handler and the main loop share; each method is one critical section. */
  class ActionTrigger {
    var waiting: seq<Client>
    var inflight: seq<Client>
    var closed: seq<Client>
    var open: bool
    var restarting: set<string>

    ghost function View(): Waiters
      reads this
    {
      Waiters(waiting, inflight, closed, open, restarting)
    }

    constructor ()
      ensures View() == NO_WAITERS && Valid(View())
    {
      waiting, inflight, closed, open, restarting := [], [], [], false, {};
    }

    method Register(c: Client)
      requires Valid(View()) && c !in closed && c !in inflight && c !in waiting
      modifies this
      ensures View() == Registered(old(View()), c) && Valid(View())
    {
      RegisteredValid(View(), c);
      waiting := waiting + [c];
    }

    method Forget(c: Client)
      requires Valid(View())
      modifies this
      ensures View() == Forgotten(old(View()), c) && Valid(View())
    {
      ForgottenValid(View(), c);
      var w := DeleteClient(waiting, c);
      var f := DeleteClient(inflight, c);
      waiting, inflight := w, f;
    }

    method ClaimWaiters()
      requires Valid(View())
      modifies this
      ensures View() == Claimed(old(View())) && Valid(View())
    {
      MovesValid(View());
      inflight := inflight + waiting;
      waiting := [];
    }

    /** Closing a closed channel would panic: each client released here is released for the first time. */
    method CompleteWaiters()
      requires Valid(View())
      modifies this
      ensures View() == Completed(old(View())) && Valid(View())
    {
      MovesValid(View());
      ghost var before := closed;
      var list := inflight;
      for n := 0 to |list|
        invariant closed == before + list[..n]
        invariant unchanged(this`waiting) && unchanged(this`inflight) && unchanged(this`open) && unchanged(this`restarting)
      {
        assert list[n] !in closed by {
          var all := before + list + waiting;
          assert all[..|before| + n] == closed && all[|before| + n] == list[n];
        }
        closed := closed + [list[n]];
      }
      inflight := [];
    }

    method RequeueWaiters()
      requires Valid(View())
      modifies this
      ensures View() == Requeued(old(View())) && Valid(View())
    {
      MovesValid(View());
      waiting := inflight + waiting;
      inflight := [];
    }

    method BeginRestarts(sections: seq<string>)
      modifies this
      ensures View() == old(View()).(open := true, restarting := Names(sections))
    {
      var names: set<string> := {};
      for n := 0 to |sections|
        invariant names == Names(sections[..n])
        invariant unchanged(this)
      {
        assert sections[..n + 1] == sections[..n] + [sections[n]];
        names := names + {sections[n]};
      }
      assert sections[..|sections|] == sections;
      open, restarting := true, names;
    }

    method EndRestarts()
      modifies this
      ensures View() == old(View()).(open := false, restarting := {})
    {
      open, restarting := false, {};
    }

    method RewrittenByRestartingCycle(sections: seq<string>) returns (b: bool)
      ensures b <==> AlreadyRewritten(View(), Names(sections))
    {
      if !open || restarting == {} || |sections| == 0 { return false; }
      assert sections[0] in Names(sections);
      for n := 0 to |sections|
        invariant forall i :: 0 <= i < n ==> sections[i] in restarting
      {
        if sections[n] !in restarting {
          assert sections[n] in Names(sections);
          return false;
        }
      }
      assert Names(sections) <= restarting;
      return true;
    }
  }

  method DeleteClient(list: seq<Client>, c: Client) returns (r: seq<Client>)
    ensures r == Without(list, c)
  {
    r := [];
    for n := 0 to |list|
      invariant r == Without(list[..n], c)
    {
      assert list[..n + 1][..n] == list[..n];
      if list[n] != c { r := r + [list[n]]; }
    }
    assert list[..|list|] == list;
  }
}
