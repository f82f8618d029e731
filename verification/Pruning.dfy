/** What the pruning loops leave behind: one list at a time, then all together. */
module Pruning {
  import opened Options
  import opened Plan
  import opened Planner
  import opened HostPlan

  /////////// Pruning, list by list ///////////

  /** The sections of the out-of-date entries of some kinds. */
  ghost function Marked(t: Table, h: Host, kinds: set<Kind>): set<string> {
    set id, s | id in t && id.kind in kinds && DriftText(h, id) != "" && s in t[id].sections :: s
  }

  lemma {:induction false} MarkedExact(t: Table, h: Host, kinds: set<Kind>, s: string)
    ensures s in Marked(t, h, kinds) <==>
              exists id :: id in t && id.kind in kinds && DriftText(h, id) != "" && s in t[id].sections
  {
    hide DriftText;
  }

  /** The table once the entries of some kinds outside `todo` were kept or deleted. */
  ghost predicate Filtered(t: Table, h: Host, kinds: set<Kind>, todo: set<Id>, now: Table) {
    forall id: Id ::
      if id.kind in kinds && id !in todo
      then (id in now <==> id in t && DriftText(h, id) != "") && (id in now ==> now[id] == t[id].(reasons := [ForDrift(DriftText(h, id))]))
      else (id in now <==> id in t) && (id in now ==> now[id] == t[id])
  }

  lemma {:induction false} NothingFiltered(t: Table, h: Host, kinds: set<Kind>, todo: set<Id>)
    requires forall id :: id in t && id.kind in kinds ==> id in todo
    ensures Filtered(t, h, kinds, todo, t)
  {
    hide DriftText;
  }

  lemma {:induction false} FilterStep(t: Table, h: Host, kinds: set<Kind>, todo: set<Id>, now: Table, id: Id)
    requires Filtered(t, h, kinds, todo, now) && id in todo && id in t && id.kind in kinds
    ensures id in now && now[id] == t[id]
    ensures Filtered(t, h, kinds, todo - {id},
              if DriftText(h, id) != "" then now[id := now[id].(reasons := [ForDrift(DriftText(h, id))])] else now - {id})
  {
    hide DriftText;
  }

  /** The sections marked while the entries outside `todo` were looked at. */
  ghost predicate MarkedSoFar(t: Table, h: Host, kinds: set<Kind>, todo: set<Id>, before: set<string>, touched: set<string>) {
    forall s :: s in touched <==>
      s in before || exists id :: id in t && id.kind in kinds && id !in todo && DriftText(h, id) != "" && s in t[id].sections
  }

  lemma {:induction false} NothingMarked(t: Table, h: Host, kinds: set<Kind>, todo: set<Id>, before: set<string>)
    requires forall id :: id in t && id.kind in kinds ==> id in todo
    ensures MarkedSoFar(t, h, kinds, todo, before, before)
  {
    hide DriftText;
  }

  lemma {:induction false} MarkStep(
    t: Table, h: Host, kinds: set<Kind>, todo: set<Id>, before: set<string>, touched: set<string>, id: Id)
    requires MarkedSoFar(t, h, kinds, todo, before, touched) && id in todo && id in t && id.kind in kinds
    ensures MarkedSoFar(t, h, kinds, todo - {id}, before,
                        touched + if DriftText(h, id) == "" then {} else Elements(t[id].sections))
  {
    hide DriftText;
    var after := touched + if DriftText(h, id) == "" then {} else Elements(t[id].sections);
    forall s ensures s in after <==>
      s in before || exists j :: j in t && j.kind in kinds && j !in todo - {id} && DriftText(h, j) != "" && s in t[j].sections
    {
      if s in touched && s !in before {
        var j :| j in t && j.kind in kinds && j !in todo && DriftText(h, j) != "" && s in t[j].sections;
        assert j !in todo - {id};
      }
    }
  }

  lemma {:induction false} AllMarked(t: Table, h: Host, kinds: set<Kind>, before: set<string>, touched: set<string>)
    requires MarkedSoFar(t, h, kinds, {}, before, touched)
    ensures touched == before + Marked(t, h, kinds)
  {
    hide DriftText, Marked;
    forall s ensures s in touched <==> s in before || s in Marked(t, h, kinds) { MarkedExact(t, h, kinds, s); }
  }

  /** The table once the out-of-date heals outside `todo` were moved to the mapped files. */
  ghost predicate HealsMoved(t: Table, h: Host, todo: set<Id>, now: Table) {
    forall id: Id ::
      var heal := Id(HealFile, id.name);
      if id.kind == SyncFile && heal in t && heal !in todo && DriftText(h, heal) != ""
      then id in now && now[id] == (if id in t then t[id] else t[heal]).(reasons := [ForDrift(DriftText(h, heal))])
      else (id in now <==> id in t) && (id in now ==> now[id] == t[id])
  }

  lemma {:induction false} NoHealMoved(t: Table, h: Host, todo: set<Id>)
    requires forall id :: id in t && id.kind == HealFile ==> id in todo
    ensures HealsMoved(t, h, todo, t)
  {}

  lemma {:induction false} HealStep(t: Table, h: Host, todo: set<Id>, now: Table, heal: Id)
    requires HealsMoved(t, h, todo, now) && heal in todo && heal in t && heal.kind == HealFile
    ensures var sync, d := Id(SyncFile, heal.name), DriftText(h, heal);
            && heal in now && now[heal] == t[heal]
            && HealsMoved(t, h, todo - {heal},
                 if d == "" then now
                 else now[sync := (if sync in now then now[sync] else now[heal]).(reasons := [ForDrift(d)])])
  {
    hide DriftText;
    assert heal == Id(HealFile, heal.name);
    var sync, d := Id(SyncFile, heal.name), DriftText(h, heal);
    assert (sync in now <==> sync in t) && (sync in now ==> now[sync] == t[sync]);
    var after := if d == "" then now else now[sync := (if sync in now then now[sync] else now[heal]).(reasons := [ForDrift(d)])];
    forall id: Id ensures
      var old_ := Id(HealFile, id.name);
      if id.kind == SyncFile && old_ in t && old_ !in todo - {heal} && DriftText(h, old_) != ""
      then id in after && after[id] == (if id in t then t[id] else t[old_]).(reasons := [ForDrift(DriftText(h, old_))])
      else (id in after <==> id in t) && (id in after ==> after[id] == t[id])
    {
      assert id == Id(id.kind, id.name);
    }
  }

  /** The table once the restarts outside `todo` were kept or deleted. */
  ghost predicate RestartsPruned(t: Table, touched: set<string>, todo: set<Id>, now: Table) {
    forall id: Id ::
      if id.kind == RestartNow && id !in todo
      then (id in now <==> id in t && Meets(t[id].sections, touched)) &&
           (id in now ==> now[id] == t[id].(reasons := [ForDrift("configuration of section " + JoinWith(t[id].sections) + " would change")]))
      else (id in now <==> id in t) && (id in now ==> now[id] == t[id])
  }

  ghost function KindIds(t: Table, kind: Kind): set<Id> {
    set id | id in t && id.kind == kind
  }

  const MARKING: set<Kind> := {SyncFile, CheckFile, RewriteFile, Proxygen, SetParam, DropParam}

  /** Pruning two groups of lists one after the other prunes, and marks, the lists of both. */
  lemma {:induction false} FilterBoth(t: Table, u: Table, v: Table, h: Host, a: set<Kind>, b: set<Kind>)
    requires a !! b && Filtered(t, h, a, {}, u) && Filtered(u, h, b, {}, v)
    ensures Filtered(t, h, a + b, {}, v)
    ensures Marked(t, h, a) + Marked(u, h, b) == Marked(t, h, a + b)
  {
    hide DriftText, Marked;
    forall s ensures s in Marked(t, h, a) + Marked(u, h, b) <==> s in Marked(t, h, a + b) {
      MarkedExact(t, h, a, s);
      MarkedExact(u, h, b, s);
      MarkedExact(t, h, a + b, s);
    }
  }

  /** The sections marked by the loops are those of the out-of-date candidates, LDAP writes apart. */
  lemma {:induction false} LoopsMark(t: Table, h: Host, moved: Table, s: string)
    requires HealsMoved(t, h, {}, moved)
    ensures s in Marked(t, h, {HealFile}) + Marked(moved - KindIds(moved, HealFile), h, MARKING) <==> Touched(t, h, s)
  {
    hide DriftText, Marked, HealsMoved, Touches, KindIds;
    var healed := moved - KindIds(moved, HealFile);
    MarkedExact(t, h, {HealFile}, s);
    MarkedExact(healed, h, MARKING, s);
    if s in Marked(t, h, {HealFile}) {
      var id :| id in t && id.kind in {HealFile} && DriftText(h, id) != "" && s in t[id].sections;
      HealTouches(t, h, id, s);
    } else if s in Marked(healed, h, MARKING) {
      var id :| id in healed && id.kind in MARKING && DriftText(h, id) != "" && s in healed[id].sections;
      MarkedTouches(t, h, moved, id, s);
    }
    if id :| Touches(t, h, id, s) { TouchesMarked(t, h, moved, id, s); }
  }

  lemma {:induction false} HealTouches(t: Table, h: Host, id: Id, s: string)
    requires id in t && id.kind == HealFile && DriftText(h, id) != "" && s in t[id].sections
    ensures Touches(t, h, id, s)
  {
    hide DriftText;
  }

  lemma {:induction false} MarkedTouches(t: Table, h: Host, moved: Table, id: Id, s: string)
    requires HealsMoved(t, h, {}, moved)
    requires var healed := moved - KindIds(moved, HealFile);
             id in healed && id.kind in MARKING && DriftText(h, id) != "" && s in healed[id].sections
    ensures Touches(t, h, CandidateOf(t, id), s)
  {
    hide DriftText;
    SameFileDrift(h, id.name);
  }

  lemma {:induction false} TouchesMarked(t: Table, h: Host, moved: Table, id: Id, s: string)
    requires HealsMoved(t, h, {}, moved) && Touches(t, h, id, s)
    ensures var healed := moved - KindIds(moved, HealFile);
            && id in t && DriftText(h, id) != "" && s in t[id].sections
            && (id.kind in {HealFile} || (id in healed && id.kind in MARKING && s in healed[id].sections))
  {
    hide DriftText;
    MarkedKinds(id);
  }

  lemma {:induction false} MarkedKinds(id: Id)
    ensures Observable(id) && id.kind != WriteLdap <==> id.kind in MARKING || id.kind == HealFile
  {}

  /** Together the loops leave exactly the pruned table. */
  lemma {:induction false} LoopsPrune(t: Table, h: Host, moved: Table, rest: Table, last: Table, touched: set<string>)
    requires HealsMoved(t, h, {}, moved)
    requires Filtered(moved - KindIds(moved, HealFile), h, MARKING + {WriteLdap}, {}, rest)
    requires touched == Marked(t, h, {HealFile}) + Marked(moved - KindIds(moved, HealFile), h, MARKING)
    requires RestartsPruned(rest - KindIds(rest, RestartLater), touched, {}, last)
    ensures touched == TouchedSections(t, h) && last == Pruned(t, h)
  {
    hide DriftText, Marked, Pruned, Filtered, HealsMoved, RestartsPruned, TouchedSections, KeptEntry;
    forall s ensures s in touched <==> s in TouchedSections(t, h) {
      LoopsMark(t, h, moved, s);
      TouchedExact(t, h, s);
    }
    assert touched == TouchedSections(t, h);
    forall id ensures (id in last <==> id in Pruned(t, h)) && (id in last ==> last[id] == Pruned(t, h)[id]) {
      PrunedIs(t, h, id);
      LoopsKeep(t, h, moved, rest, last, touched, id);
    }
  }

  lemma {:induction false} LoopsKeep(t: Table, h: Host, moved: Table, rest: Table, last: Table, touched: set<string>, id: Id)
    requires HealsMoved(t, h, {}, moved)
    requires Filtered(moved - KindIds(moved, HealFile), h, MARKING + {WriteLdap}, {}, rest)
    requires RestartsPruned(rest - KindIds(rest, RestartLater), touched, {}, last)
    ensures var e := KeptEntry(t, h, touched, id);
            (id in last <==> e.Some?) && (e.Some? ==> last[id] == e.value)
  {
    hide DriftText, Meets, JoinWith;
    SameFileDrift(h, id.name);
    MarkedKinds(id);
    assert id == Id(id.kind, id.name);
  }
}
