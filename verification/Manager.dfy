/** The configuration manager: the object whose fields carry a cycle's outcome to the next cycle. */
module Manager {
  import opened Order
  import opened Options
  import opened Plan
  import opened Planner
  import opened PlannerFacts
  import Cycle
  import opened Actions
  import opened Builder

  /////////// The lists of a plan ///////////

  function SliceNamed(t: Table, kind: Kind, names: seq<string>): seq<Entry>
    requires forall n :: n in names ==> Id(kind, n) in t
  {
    if names == [] then []
    else
      assert names[0] in names;
      [t[Id(kind, names[0])]] + SliceNamed(t, kind, names[1..])
  }

  /** The entries of one kind in key order. */
  function Slice(t: Table, kind: Kind): seq<Entry> {
    assert forall n :: n in NamesOf(t, kind) ==> Id(kind, n) in t;
    SliceNamed(t, kind, SortedKeys(NamesOf(t, kind)))
  }

  lemma {:induction false} SliceNamedAt(t: Table, kind: Kind, names: seq<string>)
    requires forall n :: n in names ==> Id(kind, n) in t
    ensures |SliceNamed(t, kind, names)| == |names|
    ensures forall j :: 0 <= j < |names| ==> SliceNamed(t, kind, names)[j] == t[Id(kind, names[j])]
  {
    if names != [] { SliceNamedAt(t, kind, names[1..]); }
  }

  lemma {:induction false} SliceExact(t: Table, kind: Kind)
    requires WellKeyed(t)
    ensures DistinctKeys(Slice(t, kind))
    ensures forall e :: e in Slice(t, kind) <==> Id(kind, e.key) in t && t[Id(kind, e.key)] == e
  {
    hide SliceNamed, SortedKeys;
    var names := SortedKeys(NamesOf(t, kind));
    assert forall n :: n in NamesOf(t, kind) <==> Id(kind, n) in t;
    SliceNamedAt(t, kind, names);
    var list := SliceNamed(t, kind, names);
    assert forall j :: 0 <= j < |list| ==> list[j].key == names[j];
    forall e: Entry ensures e in list <==> Id(kind, e.key) in t && t[Id(kind, e.key)] == e {
      if Id(kind, e.key) in t && t[Id(kind, e.key)] == e {
        var j :| 0 <= j < |names| && names[j] == e.key;
        assert list[j] == e;
      }
    }
  }

  /** The keys of one kind that a step carried out, as identifiers. */
  function Tagged(kind: Kind, keys: set<string>): set<Id> {
    set k | k in keys :: Id(kind, k)
  }

  function RetriedIds(t: Table): set<Id> {
    set id | id in t && Cycle.IsRetried(id)
  }

  function Restricted(t: Table, ids: set<Id>): Table {
    t - (t.Keys - ids)
  }

  function Undone(t: Table, kind: Kind, done: set<string>): set<Id> {
    set id | id in t && id.kind == kind && id.name !in done
  }

  function TableOf(kind: Kind, entries: seq<Entry>): Table {
    if entries == [] then map[]
    else TableOf(kind, entries[..|entries| - 1])[Id(kind, entries[|entries| - 1].key) := entries[|entries| - 1]]
  }

  lemma {:induction false} TableOfAt(kind: Kind, entries: seq<Entry>, id: Id)
    ensures id in TableOf(kind, entries) ==> TableOf(kind, entries)[id] in entries && Id(kind, TableOf(kind, entries)[id].key) == id
    ensures forall e :: e in entries && Id(kind, e.key) == id ==> id in TableOf(kind, entries)
  {
    if entries != [] {
      assert entries == entries[..|entries| - 1] + [entries[|entries| - 1]];
      TableOfAt(kind, entries[..|entries| - 1], id);
    }
  }

  /** The entries of one kind that are left, one by one. */
  lemma {:induction false} RemainingAt(t: Table, kind: Kind, done: set<string>, e: Entry)
    requires WellKeyed(t)
    ensures e in Remaining(Slice(t, kind), done) <==> Id(kind, e.key) in t && t[Id(kind, e.key)] == e && e.key !in done
  {
    hide Slice, Remaining, WellKeyed;
    SliceExact(t, kind);
    RemainingOnly(Slice(t, kind), done);
    if e in Slice(t, kind) { RemainingExact(Slice(t, kind), done, e); }
  }

  lemma {:induction false} RemainingTable(t: Table, kind: Kind, done: set<string>)
    requires WellKeyed(t)
    ensures TableOf(kind, Remaining(Slice(t, kind), done)) == Restricted(t, Undone(t, kind, done))
  {
    hide Slice, Remaining, TableOf;
    var left, u := Remaining(Slice(t, kind), done), TableOf(kind, Remaining(Slice(t, kind), done));
    forall e ensures e in left <==> Id(kind, e.key) in t && t[Id(kind, e.key)] == e && e.key !in done {
      RemainingAt(t, kind, done, e);
    }
    forall id ensures (id in u <==> id in Restricted(t, Undone(t, kind, done))) && (id in u ==> u[id] == t[id]) {
      TableOfAt(kind, left, id);
      if id in t && id.kind == kind { assert id == Id(kind, t[id].key); }
    }
  }

  lemma {:induction false} RestrictedUnion(t: Table, a: set<Id>, b: set<Id>)
    ensures Restricted(t, a) + Restricted(t, b) == Restricted(t, a + b)
  {}

  /** The undone actions of the five retried kinds are the retried actions that were not done. */
  lemma {:induction false} UndoneOfAllKinds(
    t: Table, rw: set<string>, pc: set<string>, pd: set<string>, ld: set<string>, px: set<string>)
    ensures Undone(t, RewriteFile, rw) + Undone(t, SetParam, pc) + Undone(t, DropParam, pd) +
            Undone(t, WriteLdap, ld) + Undone(t, Proxygen, px)
         == RetriedIds(t) - (Tagged(RewriteFile, rw) + Tagged(SetParam, pc) + Tagged(DropParam, pd) +
                             Tagged(WriteLdap, ld) + Tagged(Proxygen, px))
  {
    hide Tagged, Cycle.IsRetried;
    var done := Tagged(RewriteFile, rw) + Tagged(SetParam, pc) + Tagged(DropParam, pd) + Tagged(WriteLdap, ld) +
                Tagged(Proxygen, px);
    var undone := Undone(t, RewriteFile, rw) + Undone(t, SetParam, pc) + Undone(t, DropParam, pd) +
                  Undone(t, WriteLdap, ld) + Undone(t, Proxygen, px);
    forall id ensures id in undone <==> id in RetriedIds(t) - done {
      RetriedKinds(id);
      TaggedExact(id, RewriteFile, rw);
      TaggedExact(id, SetParam, pc);
      TaggedExact(id, DropParam, pd);
      TaggedExact(id, WriteLdap, ld);
      TaggedExact(id, Proxygen, px);
    }
  }

  lemma {:induction false} JoinedParts(
    t: Table, rw: set<string>, pc: set<string>, pd: set<string>, ld: set<string>, px: set<string>)
    ensures Restricted(t, Undone(t, RewriteFile, rw)) + Restricted(t, Undone(t, SetParam, pc)) +
            Restricted(t, Undone(t, DropParam, pd)) + Restricted(t, Undone(t, WriteLdap, ld)) +
            Restricted(t, Undone(t, Proxygen, px))
         == Restricted(t, RetriedIds(t) - (Tagged(RewriteFile, rw) + Tagged(SetParam, pc) + Tagged(DropParam, pd) +
                                           Tagged(WriteLdap, ld) + Tagged(Proxygen, px)))
  {
    hide *;
    var a, b, c := Undone(t, RewriteFile, rw), Undone(t, SetParam, pc), Undone(t, DropParam, pd);
    var d, e := Undone(t, WriteLdap, ld), Undone(t, Proxygen, px);
    RestrictedUnion(t, a, b);
    RestrictedUnion(t, a + b, c);
    RestrictedUnion(t, a + b + c, d);
    RestrictedUnion(t, a + b + c + d, e);
    UndoneOfAllKinds(t, rw, pc, pd, ld, px);
  }

  lemma {:induction false} CarriedTable(t: Table, done: set<Id>)
    ensures Restricted(t, RetriedIds(t) - done) == t - (t.Keys - (RetriedIds(t) - done))
  {}

  lemma {:induction false} NamesOfExact(t: Table, id: Id)
    ensures id.name in NamesOf(t, id.kind) <==> id in t
  {
    assert id == Id(id.kind, id.name);
  }

  lemma {:induction false} RetriedKinds(id: Id)
    ensures Cycle.IsRetried(id) <==>
      id.kind == RewriteFile || id.kind == SetParam || id.kind == DropParam || id.kind == WriteLdap || id.kind == Proxygen
  {}

  lemma {:induction false} TaggedExact(id: Id, kind: Kind, keys: set<string>)
    ensures id in Tagged(kind, keys) <==> id.kind == kind && id.name in keys
  {
    assert id == Id(id.kind, id.name);
  }

  /** Exactly the keys a step of the given kind carries out. */
  ghost predicate CarriedOut(kind: Kind, entries: seq<Entry>, w: World, key: string) {
    match kind
    case SetParam => PostconfDone(entries, w, key)
    case DropParam => !(w.shutdownAt < |entries| || w.batchFails) && key in KeysOf(entries)
    case WriteLdap =>
      exists i :: 0 <= i < |entries| && i < w.shutdownAt && entries[i].key == key &&
                  key !in w.unresolved && key !in w.failing
    case _ => exists i :: 0 <= i < |entries| && i < w.shutdownAt && entries[i].key == key && key !in w.failing
  }

  /** Exactly when a step of the given kind reports an error; noticing a shutdown alone is none. */
  ghost predicate Reports(kind: Kind, entries: seq<Entry>, w: World) {
    match kind
    case SetParam =>
      || Refused(entries, w.shutdownAt, w.unresolved)
      || (w.shutdownAt >= |entries| && w.batchFails && Refused(entries, |entries|, w.failing - w.unresolved))
    case DropParam => entries != [] && w.shutdownAt >= |entries| && w.batchFails
    case WriteLdap => Refused(entries, w.shutdownAt, w.unresolved + w.failing)
    case _ => Refused(entries, w.shutdownAt, w.failing)
  }

  /** Run one of the concurrent steps of an execution. */
  method RunStep(t: Table, kind: Kind, w: World) returns (left: Table, done: set<string>, failed: bool)
    requires WellKeyed(t)
    ensures left == Restricted(t, Undone(t, kind, done))
    ensures forall key :: key in done <==> CarriedOut(kind, Slice(t, kind), w, key)
    ensures failed <==> Reports(kind, Slice(t, kind), w)
  {
    hide Slice, Remaining, WellKeyed, PostconfDone, KeysOf, Refused;
    var list: seq<Entry>, pending: seq<Entry> := Slice(t, kind), [];
    SliceExact(t, kind);
    if kind == SetParam {
      pending, done, failed := DoPostconf(list, w);
    } else if kind == DropParam {
      pending, done, failed := DoPostconfd(list, w);
    } else if kind == WriteLdap {
      pending, done, failed := DoLdap(list, w);
    } else {
      pending, done, failed := DoRewrites(list, w);
    }
    RemainingTable(t, kind, done);
    left := TableOf(kind, pending);
  }

  /** The outcome of the five concurrent steps and of the mapped files. */
  datatype Outcomes = Outcomes(
    rewrites: World, postconf: World, postconfd: World, ldap: World, proxygenFails: bool, mapfilesFail: bool)

  /** Exactly the actions an execution completes. */
  ghost predicate Completed(t: Table, o: Outcomes, id: Id) {
    match id.kind
    case RewriteFile => CarriedOut(RewriteFile, Slice(t, RewriteFile), o.rewrites, id.name)
    case SetParam => CarriedOut(SetParam, Slice(t, SetParam), o.postconf, id.name)
    case DropParam => CarriedOut(DropParam, Slice(t, DropParam), o.postconfd, id.name)
    case WriteLdap => CarriedOut(WriteLdap, Slice(t, WriteLdap), o.ldap, id.name)
    case Proxygen => id in t && !o.proxygenFails
    case _ => false
  }

  /** Exactly when an execution reports an error. */
  ghost predicate ExecutionFails(t: Table, o: Outcomes) {
    || Reports(RewriteFile, Slice(t, RewriteFile), o.rewrites)
    || Reports(SetParam, Slice(t, SetParam), o.postconf)
    || Reports(DropParam, Slice(t, DropParam), o.postconfd)
    || Reports(WriteLdap, Slice(t, WriteLdap), o.ldap)
    || (o.proxygenFails && NamesOf(t, Proxygen) != {})
    || o.mapfilesFail
  }

  class ConfigManager {
    const cfg: Cycle.Settings
    var prev: Snapshot
    var tracked: map<string, string>
    var carry: Carry
    var deferred: seq<RestartEntry>
    var requested: set<string>
    var firstRun: bool

    /** The state of the cycle machine this object is in. */
    ghost function View(phase: Cycle.Phase): Cycle.State
      reads this
    {
      Cycle.State(prev, tracked, carry, deferred, requested, firstRun, phase)
    }

    constructor (cfg: Cycle.Settings)
      ensures this.cfg == cfg && View(Cycle.Idle) == Cycle.INITIAL
    {
      this.cfg := cfg;
      prev, tracked, carry, deferred := Cycle.NO_SNAPSHOT, map[], NO_CARRY, [];
      requested, firstRun := {}, true;
    }

    method AddRequestedConfigs(sections: set<string>)
      modifies this`requested
      ensures forall p :: View(p) == Cycle.Next(cfg, old(View(p)), Cycle.Request(sections))
    {
      requested := requested + sections;
    }

    /** Keep the restarts the plan deferred; in a cycle that is not a REWRITE hand all held ones over to the plan. */
    method HoldDeferred(pl: CyclePlan, release: bool, systemd: bool) returns (out: CyclePlan)
      modifies this`deferred
      ensures var held := Cycle.HeldAfter(old(deferred), pl, systemd);
              if !release || held == [] then out == pl && deferred == held
              else out == pl.(restarts := MergeRestarts(held, pl.restarts, systemd)) && deferred == []
    {
      if |pl.deferredRestarts| > 0 {
        deferred := MergeRestartLists(deferred, pl.deferredRestarts, systemd);
      }
      if !release || |deferred| == 0 { return pl; }
      var merged := MergeRestartLists(deferred, pl.restarts, systemd);
      deferred := [];
      return pl.(restarts := merged);
    }

    /** Plan a cycle. A refused plan consumes nothing: the requests are queued again and the baseline stays. */
    method Plan(cur: Snapshot, conf: Conf, systemd: bool) returns (r: Option<CyclePlan>)
      modifies this
      ensures var phase := if r.None? then Cycle.Idle else Cycle.HasPlan(r.value);
              View(phase) == Cycle.Next(cfg, old(View(Cycle.Idle)), Cycle.PlanCycle(cur, conf, systemd))
      ensures r.None? ==> View(Cycle.Idle) == old(View(Cycle.Idle))
    {
      hide PlanOf, MergeRestarts, AllDisabled, Cycle.HeldAfter;
      var taken := requested;
      requested := {};
      var o := ComputePlan(Input(prev, cur, conf, cfg.forced, taken, firstRun, tracked, carry, cfg.scope, false, None, systemd));
      if o.AllServicesDisabled? {
        requested := requested + taken;
        return None;
      }
      prev, tracked := cur, o.plan.tracked;
      var pl := HoldDeferred(o.plan, !firstRun && taken == {} && cfg.forced == {}, systemd);
      return Some(pl);
    }

    /** Carry out the plan. Every retried action is either done or carried to the next cycle, never both, and all
        restarts are carried until the policy has seen them. */
    method Execute(pl: CyclePlan, o: Outcomes) returns (done: set<Id>, failed: bool)
      requires WellKeyed(pl.actions)
      modifies this`carry
      ensures View(Cycle.Executed(pl)) ==
              Cycle.Next(cfg, old(View(Cycle.HasPlan(pl))), Cycle.Execute(RetriedIds(pl.actions) - done))
      ensures forall id :: id in done <==> Completed(pl.actions, o, id)
      ensures failed <==> ExecutionFails(pl.actions, o)
    {
      hide Slice, CarriedOut, WellKeyed, Reports, Tagged, Undone, NamesOf, Restricted, RetriedIds, Cycle.IsRetried;
      var t := pl.actions;
      var rw, rwDone, rwFailed := RunStep(t, RewriteFile, o.rewrites);
      var pc, pcDone, pcFailed := RunStep(t, SetParam, o.postconf);
      var pd, pdDone, pdFailed := RunStep(t, DropParam, o.postconfd);
      var ld, ldDone, ldFailed := RunStep(t, WriteLdap, o.ldap);
      var pxDone: set<string> := if o.proxygenFails then {} else NamesOf(t, Proxygen);
      var px := Restricted(t, Undone(t, Proxygen, pxDone));
      var pxFailed := o.proxygenFails && NamesOf(t, Proxygen) != {};
      done := Tagged(RewriteFile, rwDone) + Tagged(SetParam, pcDone) + Tagged(DropParam, pdDone) +
              Tagged(WriteLdap, ldDone) + Tagged(Proxygen, pxDone);
      carry := Carry(rw + pc + pd + ld + px, pl.restarts);
      JoinedParts(t, rwDone, pcDone, pdDone, ldDone, pxDone);
      failed := rwFailed || pcFailed || pdFailed || ldFailed || pxFailed || o.mapfilesFail;
      CarriedTable(t, done);
      forall id ensures id in done <==> Completed(t, o, id) {
        NamesOfExact(t, id);
        TaggedExact(id, RewriteFile, rwDone);
        TaggedExact(id, SetParam, pcDone);
        TaggedExact(id, DropParam, pdDone);
        TaggedExact(id, WriteLdap, ldDone);
        TaggedExact(id, Proxygen, pxDone);
      }
    }

    /** Hand the restarts to the policy, which hands back the ones it did not consume, and end the cycle. */
    method ApplyRestarts(pl: CyclePlan, back: seq<RestartEntry>)
      requires forall e :: e in back ==> e in pl.restarts
      modifies this`carry, this`firstRun
      ensures View(Cycle.Idle) == Cycle.Next(cfg, old(View(Cycle.Executed(pl))), Cycle.ApplyRestarts(back))
      ensures !firstRun && carry == old(carry).(restarts := back)
    {
      carry := carry.(restarts := back);
      firstRun := false;
    }
  }
}
