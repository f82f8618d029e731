/** The entries of a plan: reasons, actions, restart lists and the order-preserving unions that build them. */
module Plan {
  import opened Options
  import opened Order

  datatype ReasonKind =
    | FirstRun | Forced | Requested | VarChanged | Evaluated | ServiceEnabled
    | ServiceDisabled | Dependency | Retry | Drift | Deferred | MapfileSync

  /** Why an entry exists. `typ`, `key`, `old` and `new_` describe a changed variable. */
  datatype Reason = Reason(kind: ReasonKind, section: string, typ: string, key: string,
                           old_: string, new_: string, service: string, detail: string)

  function ForSection(kind: ReasonKind, section: string): Reason {
    Reason(kind, section, "", "", "", "", "", "")
  }

  function ForService(kind: ReasonKind, service: string): Reason {
    Reason(kind, "", "", "", "", "", service, "")
  }

  function ForDrift(detail: string): Reason {
    Reason(Drift, "", "", "", "", "", "", detail)
  }

  function ForVariable(section: string, typ: string, key: string, was: string, now: string): Reason {
    Reason(VarChanged, section, typ, key, was, now, "", "")
  }

  const RETRY: Reason := Reason(Retry, "", "", "", "", "", "", "")

  datatype Action = Restart | Stop | Start | PendingRestart

  /** What an entry asks for, besides its key. */
  datatype Value = File(target: string, mode: string) | Text(spec: string) | Service(action: Action) | Nothing

  datatype Entry = Entry(key: string, value: Value, sections: seq<string>, reasons: seq<Reason>)

  /** What the restart policy is asked to do to `key`, a service. */
  datatype RestartEntry = RestartEntry(key: string, action: Action, sections: seq<string>, reasons: seq<Reason>)

  datatype SectionEntry = SectionEntry(name: string, reasons: seq<Reason>)

  /////////// Order-preserving union ///////////

  function AddUnique<T(==)>(list: seq<T>, x: T): seq<T> {
    if x in list then list else list + [x]
  }

  /** The loop that adds every element of `more` not already present. */
  function AddAll<T(==)>(list: seq<T>, more: seq<T>): seq<T>
    decreases |more|
  {
    if more == [] then list
    else
      AddUnique(AddAll(list, more[..|more| - 1]), more[|more| - 1])
  }

  /** The union keeps the first list as it is and contains exactly the elements of both. */
  lemma {:induction false} AddAllElements<T(!new)>(list: seq<T>, more: seq<T>)
    ensures list <= AddAll(list, more)
    ensures forall x :: x in AddAll(list, more) <==> x in list || x in more
    decreases |more|
  {
    if more != [] {
      assert more == more[..|more| - 1] + [more[|more| - 1]];
      AddAllElements(list, more[..|more| - 1]);
    }
  }

  ghost predicate Once<T(!new)>(list: seq<T>) {
    forall i, j :: 0 <= i < j < |list| ==> list[i] != list[j]
  }

  /** It lists nothing twice that the first list does not list twice. */
  lemma {:induction false} AddAllOnce<T(!new)>(list: seq<T>, more: seq<T>)
    requires Once(list)
    ensures Once(AddAll(list, more))
    decreases |more|
  {
    if more != [] { AddAllOnce(list, more[..|more| - 1]); }
  }

  lemma {:induction false} AddAllAbsorbs<T(!new)>(a: seq<T>, b: seq<T>)
    requires forall x :: x in b ==> x in a
    ensures AddAll(a, b) == a
    decreases |b|
  {
    if b != [] {
      assert b[|b| - 1] in b;
      AddAllAbsorbs(a, b[..|b| - 1]);
    }
  }

  lemma {:induction false} AddAllAssociative<T(!new)>(a: seq<T>, b: seq<T>, c: seq<T>)
    ensures AddAll(AddAll(a, b), c) == AddAll(a, AddAll(b, c))
    decreases |c|
  {
    if c != [] {
      var init, last := c[..|c| - 1], c[|c| - 1];
      AddAllAssociative(a, b, init);
      var inner := AddAll(b, init);
      AddAllElements(b, init);
      AddAllElements(a, inner);
      assert last !in inner ==> (inner + [last])[..|inner|] == inner;
    }
  }

  /////////// Restart actions ///////////

  /** `strings.ToLower` on ASCII letters. */
  function ToLower(s: string): (r: string)
    ensures |r| == |s|
  {
    if s == "" then ""
    else [if 'A' <= s[0] <= 'Z' then (s[0] as int + 32) as char else s[0]] + ToLower(s[1..])
  }

  const HEAVY: set<string> := {
    "mailbox", "mailboxd", "service", "appserver-db", "mysql", "mariadb", "store", "ldap", "directory",
    "directory-server"
  }

  predicate HeavyService(service: string) {
    ToLower(service) in HEAVY
  }

  function Classify(action: Action, service: string, systemd: bool): Action {
    if systemd && action == Restart && HeavyService(service) then PendingRestart else action
  }

  function Classified(e: RestartEntry, systemd: bool): RestartEntry {
    e.(action := Classify(e.action, e.key, systemd))
  }

  function ClassifiedAll(list: seq<RestartEntry>, systemd: bool): (r: seq<RestartEntry>)
    ensures |r| == |list| && forall i :: 0 <= i < |list| ==> r[i] == Classified(list[i], systemd)
  {
    if list == [] then [] else [Classified(list[0], systemd)] + ClassifiedAll(list[1..], systemd)
  }

  /////////// Merging restart lists ///////////

  ghost predicate ByService(list: seq<RestartEntry>) {
    forall i, j :: 0 <= i < j < |list| ==> Le(list[i].key, list[j].key) && list[i].key != list[j].key
  }

  ghost predicate DistinctServices(list: seq<RestartEntry>) {
    forall i, j :: 0 <= i < j < |list| ==> list[i].key != list[j].key
  }

  function Services(list: seq<RestartEntry>): set<string> {
    set e | e in list :: e.key
  }

  /** The later entry decides the action; sections and reasons of both are kept, the earlier first. */
  function Join(have: RestartEntry, e: RestartEntry): RestartEntry {
    RestartEntry(have.key, e.action, AddAll(have.sections, e.sections), AddAll(have.reasons, e.reasons))
  }

  function JoinOption(x: Option<RestartEntry>, y: Option<RestartEntry>): Option<RestartEntry> {
    if x.None? then y else if y.None? then x else Some(Join(x.value, y.value))
  }

  lemma {:induction false} JoinAssociative(x: Option<RestartEntry>, y: Option<RestartEntry>, z: Option<RestartEntry>)
    ensures JoinOption(JoinOption(x, y), z) == JoinOption(x, JoinOption(y, z))
  {
    if x.Some? && y.Some? && z.Some? {
      AddAllAssociative(x.value.sections, y.value.sections, z.value.sections);
      AddAllAssociative(x.value.reasons, y.value.reasons, z.value.reasons);
    }
  }

  /** Everything a list says about one service, in list order: the reference meaning of a restart list. */
  function Said(list: seq<RestartEntry>, service: string): (r: Option<RestartEntry>)
    ensures r.Some? <==> service in Services(list)
    ensures r.Some? ==> r.value.key == service
  {
    if list == [] then None
    else
      var init, last := list[..|list| - 1], list[|list| - 1];
      assert list == init + [last];
      assert Services(list) == Services(init) + {last.key};
      if last.key == service then JoinOption(Said(init, service), Some(last)) else Said(init, service)
  }

  lemma {:induction false} SaidConcat(a: seq<RestartEntry>, b: seq<RestartEntry>, service: string)
    ensures Said(a + b, service) == JoinOption(Said(a, service), Said(b, service))
    decreases |b|
  {
    if b == [] {
      assert a + b == a;
    } else {
      var init, last := b[..|b| - 1], b[|b| - 1];
      assert (a + b)[..|a + b| - 1] == a + init;
      SaidConcat(a, init, service);
      JoinAssociative(Said(a, service), Said(init, service), Some(last));
    }
  }

  /** In a list with one entry per service, that entry is all that is said. */
  lemma {:induction false} SaidAt(list: seq<RestartEntry>, i: nat)
    requires DistinctServices(list) && i < |list|
    ensures Said(list, list[i].key) == Some(list[i])
  {
    var init := list[..|list| - 1];
    if i < |init| {
      SaidAt(init, i);
    } else {
      assert list[i].key !in Services(init) by {
        forall e | e in init ensures e.key != list[i].key {}
      }
    }
  }

  function Pick(list: seq<RestartEntry>, services: seq<string>): (r: seq<RestartEntry>)
    requires forall k :: k in services ==> k in Services(list)
    ensures |r| == |services|
    ensures forall i :: 0 <= i < |r| ==> Said(list, services[i]) == Some(r[i])
  {
    if services == [] then [] else
      assert services[0] in services;
      [Said(list, services[0]).value] + Pick(list, services[1..])
  }

  /** `slices.SortFunc` by service of a list with one entry per service. */
  function SortByService(list: seq<RestartEntry>): seq<RestartEntry> {
    Pick(list, SortedKeys(Services(list)))
  }

  lemma {:induction false} SortedList(list: seq<RestartEntry>)
    ensures ByService(SortByService(list))
  {
    var names, r := SortedKeys(Services(list)), SortByService(list);
    forall i | 0 <= i < |r| ensures r[i].key == names[i] {
      assert Said(list, names[i]) == Some(r[i]);
    }
  }

  lemma {:induction false} SortedSays(list: seq<RestartEntry>, k: string)
    ensures Said(SortByService(list), k) == Said(list, k)
  {
    var names, r := SortedKeys(Services(list)), SortByService(list);
    assert forall i :: 0 <= i < |r| ==> r[i].key == names[i];
    SortedList(list);
    if k in names {
      var i :| 0 <= i < |names| && names[i] == k;
      SaidAt(r, i);
    } else {
      assert k !in Services(r);
    }
  }

  function MergeRestarts(stale: seq<RestartEntry>, recent: seq<RestartEntry>, systemd: bool): seq<RestartEntry> {
    ClassifiedAll(SortByService(stale + recent), systemd)
  }

  function ClassifiedOption(x: Option<RestartEntry>, systemd: bool): Option<RestartEntry> {
    if x.None? then None else Some(Classified(x.value, systemd))
  }

  lemma {:induction false} ClassifyAbsorbed(x: Option<RestartEntry>, y: Option<RestartEntry>, systemd: bool)
    requires x.Some? && y.Some? ==> x.value.key == y.value.key
    ensures ClassifiedOption(JoinOption(ClassifiedOption(x, systemd), y), systemd) == ClassifiedOption(JoinOption(x, y), systemd)
    ensures ClassifiedOption(JoinOption(x, ClassifiedOption(y, systemd)), systemd) == ClassifiedOption(JoinOption(x, y), systemd)
  {}

  lemma {:induction false} JoinClassified(x: Option<RestartEntry>, e: RestartEntry, systemd: bool)
    requires x.Some? ==> x.value.key == e.key
    ensures JoinOption(ClassifiedOption(x, systemd), Some(Classified(e, systemd)))
         == ClassifiedOption(JoinOption(x, Some(e)), systemd)
  {}

  /** A merge is sorted with one entry per service. */
  lemma {:induction false} MergeSorted(stale: seq<RestartEntry>, recent: seq<RestartEntry>, systemd: bool)
    ensures ByService(MergeRestarts(stale, recent, systemd))
  {
    SortedList(stale + recent);
  }

  /** A merge says about each service exactly what the two lists say in that order. */
  lemma {:induction false} MergeMeaning(stale: seq<RestartEntry>, recent: seq<RestartEntry>, systemd: bool, k: string)
    ensures Said(MergeRestarts(stale, recent, systemd), k)
         == ClassifiedOption(JoinOption(Said(stale, k), Said(recent, k)), systemd)
  {
    SortedSays(stale + recent, k);
    SaidClassified(SortByService(stale + recent), systemd, k);
    SaidConcat(stale, recent, k);
  }

  lemma {:induction false} MergeServices(stale: seq<RestartEntry>, recent: seq<RestartEntry>, systemd: bool)
    ensures Services(MergeRestarts(stale, recent, systemd)) == Services(stale) + Services(recent)
  {
    forall k ensures k in Services(MergeRestarts(stale, recent, systemd)) <==> k in Services(stale) + Services(recent) {
      MergeMeaning(stale, recent, systemd, k);
    }
  }

  /** A sorted list is determined by what it says about each service. */
  lemma {:induction false} SaysDeterminesList(a: seq<RestartEntry>, b: seq<RestartEntry>)
    requires ByService(a) && ByService(b)
    requires forall k :: Said(a, k) == Said(b, k)
    ensures a == b
  {
    var ka, kb := Keys(a), Keys(b);
    forall k ensures k in ka <==> k in kb {
      KeysAreServices(a, k);
      KeysAreServices(b, k);
      assert Said(a, k) == Said(b, k);
    }
    AscendingUnique(ka, kb);
    forall i | 0 <= i < |a| ensures a[i] == b[i] {
      SaidAt(a, i);
      SaidAt(b, i);
      assert a[i].key == ka[i] == kb[i] == b[i].key;
    }
  }

  ghost function Keys(list: seq<RestartEntry>): (r: seq<string>)
    ensures |r| == |list| && forall i :: 0 <= i < |r| ==> r[i] == list[i].key
  {
    if list == [] then [] else [list[0].key] + Keys(list[1..])
  }

  lemma {:induction false} KeysAreServices(list: seq<RestartEntry>, k: string)
    ensures k in Keys(list) <==> k in Services(list)
  {
    if k in Keys(list) {
      var i :| 0 <= i < |list| && Keys(list)[i] == k;
      assert list[i] in list;
    }
    if k in Services(list) {
      var e :| e in list && e.key == k;
      var i :| 0 <= i < |list| && list[i] == e;
      assert Keys(list)[i] == k;
    }
  }

  lemma {:induction false} AssociativeAt(
    a: seq<RestartEntry>, b: seq<RestartEntry>, c: seq<RestartEntry>, systemd: bool, k: string)
    ensures Said(MergeRestarts(MergeRestarts(a, b, systemd), c, systemd), k)
         == Said(MergeRestarts(a, MergeRestarts(b, c, systemd), systemd), k)
  {
    var x, y, z := Said(a, k), Said(b, k), Said(c, k);
    calc {
      Said(MergeRestarts(MergeRestarts(a, b, systemd), c, systemd), k);
      { MergeMeaning(MergeRestarts(a, b, systemd), c, systemd, k); MergeMeaning(a, b, systemd, k); }
      ClassifiedOption(JoinOption(ClassifiedOption(JoinOption(x, y), systemd), z), systemd);
      { ClassifyAbsorbed(JoinOption(x, y), z, systemd); }
      ClassifiedOption(JoinOption(JoinOption(x, y), z), systemd);
      { JoinAssociative(x, y, z); }
      ClassifiedOption(JoinOption(x, JoinOption(y, z)), systemd);
      { ClassifyAbsorbed(x, JoinOption(y, z), systemd); }
      ClassifiedOption(JoinOption(x, ClassifiedOption(JoinOption(y, z), systemd)), systemd);
      { MergeMeaning(a, MergeRestarts(b, c, systemd), systemd, k); MergeMeaning(b, c, systemd, k); }
      Said(MergeRestarts(a, MergeRestarts(b, c, systemd), systemd), k);
    }
  }

  lemma {:induction false} MergeAssociative(a: seq<RestartEntry>, b: seq<RestartEntry>, c: seq<RestartEntry>, systemd: bool)
    ensures MergeRestarts(MergeRestarts(a, b, systemd), c, systemd)
         == MergeRestarts(a, MergeRestarts(b, c, systemd), systemd)
  {
    var ab, bc := MergeRestarts(a, b, systemd), MergeRestarts(b, c, systemd);
    var l, r := MergeRestarts(ab, c, systemd), MergeRestarts(a, bc, systemd);
    forall k ensures Said(l, k) == Said(r, k) { AssociativeAt(a, b, c, systemd, k); }
    MergeSorted(ab, c, systemd);
    MergeSorted(a, bc, systemd);
    SaysDeterminesList(l, r);
  }

  lemma {:induction false} ClassifiedAt(a: seq<RestartEntry>, b: seq<RestartEntry>, systemd: bool, k: string)
    ensures Said(MergeRestarts(ClassifiedAll(a, systemd), ClassifiedAll(b, systemd), systemd), k)
         == Said(MergeRestarts(a, b, systemd), k)
  {
    var x, y := Said(a, k), Said(b, k);
    calc {
      Said(MergeRestarts(ClassifiedAll(a, systemd), ClassifiedAll(b, systemd), systemd), k);
      { MergeMeaning(ClassifiedAll(a, systemd), ClassifiedAll(b, systemd), systemd, k);
        SaidClassified(a, systemd, k);
        SaidClassified(b, systemd, k); }
      ClassifiedOption(JoinOption(ClassifiedOption(x, systemd), ClassifiedOption(y, systemd)), systemd);
      { ClassifyAbsorbed(x, ClassifiedOption(y, systemd), systemd); ClassifyAbsorbed(x, y, systemd); }
      ClassifiedOption(JoinOption(x, y), systemd);
      { MergeMeaning(a, b, systemd, k); }
      Said(MergeRestarts(a, b, systemd), k);
    }
  }

  /** Classifying the inputs of a merge changes nothing. */
  lemma {:induction false} MergeCommutesWithClassify(a: seq<RestartEntry>, b: seq<RestartEntry>, systemd: bool)
    ensures MergeRestarts(ClassifiedAll(a, systemd), ClassifiedAll(b, systemd), systemd) == MergeRestarts(a, b, systemd)
  {
    var ca, cb := ClassifiedAll(a, systemd), ClassifiedAll(b, systemd);
    var l, r := MergeRestarts(ca, cb, systemd), MergeRestarts(a, b, systemd);
    forall k ensures Said(l, k) == Said(r, k) { ClassifiedAt(a, b, systemd, k); }
    MergeSorted(ca, cb, systemd);
    MergeSorted(a, b, systemd);
    SaysDeterminesList(l, r);
  }

  lemma {:induction false} SaidClassified(list: seq<RestartEntry>, systemd: bool, k: string)
    ensures Said(ClassifiedAll(list, systemd), k) == ClassifiedOption(Said(list, k), systemd)
  {
    if list != [] {
      var init := list[..|list| - 1];
      var whole, part := ClassifiedAll(list, systemd), ClassifiedAll(init, systemd);
      assert whole[..|whole| - 1] == part;
      SaidClassified(init, systemd, k);
      if list[|init|].key == k { JoinClassified(Said(init, k), list[|init|], systemd); }
    }
  }

  /** The list plainly restarts no heavy service. */
  ghost predicate Light(list: seq<RestartEntry>) {
    forall e :: e in list && e.action == Restart ==> !HeavyService(e.key)
  }

  lemma {:induction false} ClassifiedIsLight(list: seq<RestartEntry>)
    ensures Light(ClassifiedAll(list, true))
  {
    hide HeavyService;
  }

  lemma {:induction false} MergeFromNothing(a: seq<RestartEntry>, b: seq<RestartEntry>, systemd: bool)
    ensures MergeRestarts(a, b, systemd) == MergeRestarts([], a + b, systemd)
  {
    hide SortByService, ClassifiedAll;
    assert [] + (a + b) == a + b;
  }

  lemma {:induction false} AbsorbsAt(
    a: seq<RestartEntry>, b: seq<RestartEntry>, c: seq<RestartEntry>, systemd: bool, k: string)
    ensures Said(MergeRestarts(a, b + MergeRestarts([], c, systemd), systemd), k)
         == Said(MergeRestarts(a, b + c, systemd), k)
  {
    var x, y, z := Said(a, k), Said(b, k), Said(c, k);
    var inner := MergeRestarts([], c, systemd);
    assert Said([], k) == None;
    calc {
      Said(MergeRestarts(a, b + inner, systemd), k);
      { MergeMeaning(a, b + inner, systemd, k); SaidConcat(b, inner, k); MergeMeaning([], c, systemd, k); }
      ClassifiedOption(JoinOption(x, JoinOption(y, ClassifiedOption(z, systemd))), systemd);
      { JoinAssociative(x, y, ClassifiedOption(z, systemd)); }
      ClassifiedOption(JoinOption(JoinOption(x, y), ClassifiedOption(z, systemd)), systemd);
      { ClassifyAbsorbed(JoinOption(x, y), z, systemd); }
      ClassifiedOption(JoinOption(JoinOption(x, y), z), systemd);
      { JoinAssociative(x, y, z); }
      ClassifiedOption(JoinOption(x, JoinOption(y, z)), systemd);
      { MergeMeaning(a, b + c, systemd, k); SaidConcat(b, c, k); }
      Said(MergeRestarts(a, b + c, systemd), k);
    }
  }

  lemma {:induction false} MergeAbsorbsInner(a: seq<RestartEntry>, b: seq<RestartEntry>, c: seq<RestartEntry>, systemd: bool)
    ensures MergeRestarts(a, b + MergeRestarts([], c, systemd), systemd) == MergeRestarts(a, b + c, systemd)
  {
    var inner := MergeRestarts([], c, systemd);
    var l, r := MergeRestarts(a, b + inner, systemd), MergeRestarts(a, b + c, systemd);
    forall k ensures Said(l, k) == Said(r, k) { AbsorbsAt(a, b, c, systemd, k); }
    MergeSorted(a, b + inner, systemd);
    MergeSorted(a, b + c, systemd);
    SaysDeterminesList(l, r);
  }

  /** Position `n` is the last, or the first, with an entry of `service`. */
  ghost predicate LastAt(list: seq<RestartEntry>, service: string, n: int) {
    0 <= n < |list| && list[n].key == service && forall j :: n < j < |list| ==> list[j].key != service
  }

  ghost predicate FirstAt(list: seq<RestartEntry>, service: string, n: int) {
    0 <= n < |list| && list[n].key == service && forall j :: 0 <= j < n ==> list[j].key != service
  }

  lemma {:induction false} SaidLast(list: seq<RestartEntry>, service: string, n: int)
    requires LastAt(list, service, n)
    ensures Said(list, service).Some? && Said(list, service).value.action == list[n].action
  {
    var init := list[..|list| - 1];
    if n < |init| { SaidLast(init, service, n); }
  }

  lemma {:induction false} SaidFirst(list: seq<RestartEntry>, service: string, n: int)
    requires FirstAt(list, service, n)
    ensures Said(list, service).Some?
    ensures list[n].sections <= Said(list, service).value.sections && list[n].reasons <= Said(list, service).value.reasons
  {
    var init, last := list[..|list| - 1], list[|list| - 1];
    if n < |init| {
      SaidFirst(init, service, n);
      AddAllElements(Said(init, service).value.sections, last.sections);
      AddAllElements(Said(init, service).value.reasons, last.reasons);
    } else {
      NothingSaid(init, service);
    }
  }

  lemma {:induction false} NothingSaid(list: seq<RestartEntry>, service: string)
    requires forall j :: 0 <= j < |list| ==> list[j].key != service
    ensures Said(list, service).None?
  {}

  /** Some entry of the service has the section, or the reason. */
  ghost predicate SaysSection(list: seq<RestartEntry>, service: string, sn: string) {
    exists j :: 0 <= j < |list| && list[j].key == service && sn in list[j].sections
  }

  ghost predicate SaysReason(list: seq<RestartEntry>, service: string, r: Reason) {
    exists j :: 0 <= j < |list| && list[j].key == service && r in list[j].reasons
  }

  lemma {:induction false} SaidElements(list: seq<RestartEntry>, service: string, sn: string, r: Reason)
    requires Said(list, service).Some?
    ensures sn in Said(list, service).value.sections <==> SaysSection(list, service, sn)
    ensures r in Said(list, service).value.reasons <==> SaysReason(list, service, r)
  {
    var init, last := list[..|list| - 1], list[|list| - 1];
    var before := Said(init, service);
    if before.Some? {
      SaidElements(init, service, sn, r);
      if last.key == service {
        AddAllElements(before.value.sections, last.sections);
        AddAllElements(before.value.reasons, last.reasons);
      }
    }
    SaysSnoc(init, last, service, sn, r);
    if before.None? { SaysNothing(init, service, sn, r); }
    assert list == init + [last];
  }

  lemma {:induction false} SaysNothing(list: seq<RestartEntry>, service: string, sn: string, r: Reason)
    requires service !in Services(list)
    ensures !SaysSection(list, service, sn) && !SaysReason(list, service, r)
  {}

  lemma {:induction false} SaysSnoc(init: seq<RestartEntry>, last: RestartEntry, service: string, sn: string, r: Reason)
    ensures SaysSection(init + [last], service, sn) <==> SaysSection(init, service, sn) || (last.key == service && sn in last.sections)
    ensures SaysReason(init + [last], service, r) <==> SaysReason(init, service, r) || (last.key == service && r in last.reasons)
  {
    var list := init + [last];
    assert list[|init|] == last && forall j :: 0 <= j < |init| ==> list[j] == init[j];
  }

  /** What a merge does, entry by entry: the latest action of a service wins, classified for the host; its sections and
      reasons begin with those of its first entry and are exactly those of all its entries. */
  lemma {:induction false} MergeKeepsLatest(
    stale: seq<RestartEntry>, recent: seq<RestartEntry>, systemd: bool, e: RestartEntry, first: int, last: int, sn: string, r: Reason)
    requires e in MergeRestarts(stale, recent, systemd)
    requires FirstAt(stale + recent, e.key, first) && LastAt(stale + recent, e.key, last)
    ensures e.action == Classify((stale + recent)[last].action, e.key, systemd)
    ensures (stale + recent)[first].sections <= e.sections && (stale + recent)[first].reasons <= e.reasons
    ensures sn in e.sections <==> SaysSection(stale + recent, e.key, sn)
    ensures r in e.reasons <==> SaysReason(stale + recent, e.key, r)
  {
    hide MergeRestarts, Said, SaysSection, SaysReason, Classify, Join;
    var merged, all := MergeRestarts(stale, recent, systemd), stale + recent;
    var n :| 0 <= n < |merged| && merged[n] == e;
    MergeSorted(stale, recent, systemd);
    SaidAt(merged, n);
    MergeMeaning(stale, recent, systemd, e.key);
    SaidConcat(stale, recent, e.key);
    SaidLast(all, e.key, last);
    SaidFirst(all, e.key, first);
    SaidElements(all, e.key, sn, r);
  }

  /** Merging twice from nothing is merging once. */
  lemma {:induction false} MergeTwice(a: seq<RestartEntry>, b: seq<RestartEntry>, systemd: bool)
    ensures MergeRestarts(MergeRestarts([], a, systemd), b, systemd) == MergeRestarts([], a + b, systemd)
  {
    hide MergeRestarts;
    MergeAssociative([], a, b, systemd);
    MergeFromNothing(a, b, systemd);
    MergeAbsorbsInner([], [], a + b, systemd);
    assert [] + MergeRestarts([], a + b, systemd) == MergeRestarts([], a + b, systemd);
    assert [] + (a + b) == a + b;
  }

  /** A sorted, classified list is its own merge. */
  lemma {:induction false} MergeSettled(list: seq<RestartEntry>, systemd: bool)
    requires ByService(ClassifiedAll(list, systemd))
    ensures MergeRestarts([], ClassifiedAll(list, systemd), systemd) == ClassifiedAll(list, systemd)
  {
    hide MergeRestarts, ClassifiedAll;
    var settled := ClassifiedAll(list, systemd);
    MergeSorted([], settled, systemd);
    forall k ensures Said(MergeRestarts([], settled, systemd), k) == Said(settled, k) {
      MergeMeaning([], settled, systemd, k);
      SaidClassified(list, systemd, k);
    }
    SaysDeterminesList(MergeRestarts([], settled, systemd), settled);
  }

  lemma {:induction false} MergeEmptyIff(list: seq<RestartEntry>, systemd: bool)
    ensures MergeRestarts([], list, systemd) == [] <==> list == []
  {
    hide MergeRestarts;
    MergeServices([], list, systemd);
    assert list != [] ==> list[0].key in Services(list);
    assert list == [] ==> Services(list) == {};
    var merged := MergeRestarts([], list, systemd);
    assert merged != [] ==> merged[0].key in Services(merged);
    assert merged == [] ==> Services(merged) == {};
  }

  /////////// The loops ///////////

  function IndexOf(list: seq<RestartEntry>, service: string): (i: int)
    ensures -1 <= i < |list|
    ensures i >= 0 ==> list[i].key == service
    ensures i < 0 ==> service !in Services(list)
  {
    if list == [] then -1
    else
      assert list == [list[0]] + list[1..];
      if list[0].key == service then 0
      else
        var i := IndexOf(list[1..], service);
        if i < 0 then -1 else i + 1
  }

  /** One step of the merge: add `e` to `list`, folding it into the entry of its service. */
  function MergeOne(list: seq<RestartEntry>, e: RestartEntry): seq<RestartEntry> {
    var i := IndexOf(list, e.key);
    if i < 0 then list + [e] else list[i := Join(list[i], e)]
  }

  lemma {:induction false} MergeOneDistinct(list: seq<RestartEntry>, e: RestartEntry)
    requires DistinctServices(list)
    ensures DistinctServices(MergeOne(list, e))
  {
    if IndexOf(list, e.key) < 0 {
      forall i | 0 <= i < |list| ensures list[i].key != e.key { assert list[i] in list; }
    }
  }

  lemma {:induction false} MergeOneSays(list: seq<RestartEntry>, e: RestartEntry, k: string)
    requires DistinctServices(list)
    ensures Said(MergeOne(list, e), k) == Said(list + [e], k)
  {
    var i, r := IndexOf(list, e.key), MergeOne(list, e);
    MergeOneDistinct(list, e);
    assert (list + [e])[..|list|] == list;
    if i >= 0 {
      SaidAt(list, i);
      SaidAt(r, i);
      if k != e.key {
        var j := IndexOf(list, k);
        if j >= 0 {
          SaidAt(list, j);
          SaidAt(r, j);
        } else {
          assert k !in Services(r) by { forall x | x in r ensures x.key != k { if x != r[i] { assert x in list; } } }
        }
      }
    }
  }

  ghost predicate SaySame(a: seq<RestartEntry>, b: seq<RestartEntry>) {
    forall k :: Said(a, k) == Said(b, k)
  }

  lemma {:induction false} MergeOneSaysSame(list: seq<RestartEntry>, done: seq<RestartEntry>, e: RestartEntry)
    requires DistinctServices(list) && SaySame(list, done)
    ensures SaySame(MergeOne(list, e), done + [e])
  {
    forall k ensures Said(MergeOne(list, e), k) == Said(done + [e], k) {
      MergeOneSays(list, e, k);
      SaidConcat(list, [e], k);
      SaidConcat(done, [e], k);
    }
  }

  lemma {:induction false} SortDependsOnMeaning(a: seq<RestartEntry>, b: seq<RestartEntry>)
    requires SaySame(a, b)
    ensures SortByService(a) == SortByService(b)
  {
    forall k ensures Said(SortByService(a), k) == Said(SortByService(b), k) {
      SortedSays(a, k);
      SortedSays(b, k);
    }
    SortedList(a);
    SortedList(b);
    SaysDeterminesList(SortByService(a), SortByService(b));
  }

  method FoldRestarts(all: seq<RestartEntry>) returns (merged: seq<RestartEntry>)
    ensures DistinctServices(merged) && SaySame(merged, all)
  {
    merged := [];
    for n := 0 to |all|
      invariant DistinctServices(merged) && SaySame(merged, all[..n])
    {
      assert all[..n + 1] == all[..n] + [all[n]];
      MergeOneDistinct(merged, all[n]);
      MergeOneSaysSame(merged, all[..n], all[n]);
      merged := MergeOne(merged, all[n]);
    }
    assert all[..|all|] == all;
  }

  method ClassifyRestarts(list: seq<RestartEntry>, systemd: bool) returns (r: seq<RestartEntry>)
    ensures r == ClassifiedAll(list, systemd)
  {
    r := list;
    for n := 0 to |list|
      invariant |r| == |list|
      invariant forall i :: 0 <= i < n ==> r[i] == Classified(list[i], systemd)
      invariant r[n..] == list[n..]
    {
      assert r[n] == list[n] by { assert r[n] == r[n..][0]; }
      r := r[n := Classified(r[n], systemd)];
    }
  }

  method MergeRestartLists(stale: seq<RestartEntry>, recent: seq<RestartEntry>, systemd: bool)
    returns (merged: seq<RestartEntry>)
    ensures merged == MergeRestarts(stale, recent, systemd)
  {
    merged := FoldRestarts(stale + recent);
    SortDependsOnMeaning(merged, stale + recent);
    merged := ClassifyRestarts(SortByService(merged), systemd);
  }
}
