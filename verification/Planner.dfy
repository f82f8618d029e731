/** The plan of one cycle as a function of two snapshots, the parsed configuration and the requests. */
module Planner {
  import opened Order
  import opened Options
  import opened Plan

  /////////// Snapshots and parsed configuration ///////////

  datatype Lookup = Lookup(typ: string, key: string)

  /** The per-cycle configuration view; a missing snapshot is the empty one. */
  datatype Snapshot = Snapshot(
    local: map<string, string>, global: map<string, string>, server: map<string, string>,
    misc: map<string, string>, services: map<string, string>, observed: map<Lookup, string>)
  {
    /** The observed value of a lookup; a missing one reads as the empty string. */
    function Observed(typ: string, key: string): string {
      if Lookup(typ, key) in observed then observed[Lookup(typ, key)] else ""
    }

    predicate Enabled(service: string) {
      service in services
    }

    function Var(key: string): Option<string> {
      if key in server then Some(server[key])
      else if key in misc then Some(misc[key])
      else if key in global then Some(global[key]) else None
    }

    function Value(typ: string, key: string): Option<string> {
      if typ == "VAR" then Var(key)
      else if typ == "LOCAL" then (if key in local then Some(local[key]) else None)
      else if typ == "SERVICE" then Some(if Enabled(key) then "TRUE" else "FALSE")
      else if Lookup(typ, key) in observed then Some(observed[Lookup(typ, key)]) else None
    }
  }

  datatype Conditional = Conditional(
    typ: string, key: string, negated: bool, postconf: map<string, string>, postconfd: map<string, string>)

  datatype Target = Target(path: string, mode: string)

  datatype Section = Section(
    requiredVars: map<string, string>, rewrites: map<string, Target>, postconf: map<string, string>,
    postconfd: map<string, string>, ldap: map<string, string>, proxygen: bool,
    conditionals: seq<Conditional>, restarts: set<string>)

  type Conf = map<string, Section>

  /////////// Plans ///////////

  /** The lists of a plan. `HealFile`, `SyncFile` and `CheckFile` are mapped files: re-synced every cycle, synced
      because their section changed, and local ones that are only checked. */
  datatype Kind =
    | HealFile | SyncFile | CheckFile | RewriteFile | SetParam | DropParam | WriteLdap | Proxygen
    | RestartNow | RestartLater

  datatype Id = Id(kind: Kind, name: string)

  type Table = map<Id, Entry>

  /** The actions a previous execution did not complete. */
  datatype Carry = Carry(actions: Table, restarts: seq<RestartEntry>)

  const NO_CARRY: Carry := Carry(map[], [])

  /** How each candidate target differs from what the host holds; "" and a missing key mean in sync. */
  datatype Host = Host(mapfiles: map<string, string>, drift: map<Id, string>)

  datatype Input = Input(
    prev: Snapshot, cur: Snapshot, conf: Conf, forced: set<string>, requested: set<string>, firstRun: bool,
    tracked: map<string, string>, carry: Carry, scope: set<string>, assumeChanged: bool, host: Option<Host>,
    systemd: bool)

  datatype CyclePlan = CyclePlan(
    firstRun: bool, sections: seq<SectionEntry>, actions: Table, restarts: seq<RestartEntry>,
    deferredRestarts: seq<RestartEntry>, tracked: map<string, string>, enabled: seq<string>)

  datatype Outcome = Planned(plan: CyclePlan) | AllServicesDisabled

  predicate IsEmpty(p: CyclePlan) {
    p.restarts == [] && forall id :: id in p.actions ==> id.kind == HealFile
  }

  /////////// Which sections are processed, and why ///////////

  function TrimBang(s: string): string {
    if s != "" && s[0] == '!' then s[1..] else s
  }

  const SECTION_SERVICE: map<string, string> :=
    map["amavis" := "mta", "dhparam" := "!dhparam", "sasl" := "mta", "webxml" := "mailbox", "nginx" := "proxy"]

  predicate SectionEnabled(sn: string, cur: Snapshot) {
    var svc := if sn in SECTION_SERVICE then SECTION_SERVICE[sn] else sn;
    if svc != "" && svc[0] == '!' then !cur.Enabled(svc[1..]) else cur.Enabled(svc)
  }

  predicate Considered(i: Input, sn: string) {
    sn in i.conf && (i.scope == {} || sn in i.scope) && SectionEnabled(sn, i.cur)
  }

  predicate Compared(i: Input, sn: string) {
    i.forced == {} || sn in i.forced
  }

  /** An empty value counts as undefined: turning empty is a change only when a value was set before. */
  predicate Differs(was: string, now: string) {
    if now == "" then was != "" else was != now
  }

  function Changes(i: Input, sn: string, vars: map<string, string>, keys: seq<string>): seq<Reason>
    requires forall k :: k in keys ==> k in vars
  {
    if keys == [] then []
    else
      var init, key := keys[..|keys| - 1], keys[|keys| - 1];
      assert keys == init + [key];
      var was, now := i.prev.Observed(vars[key], TrimBang(key)), i.cur.Observed(vars[key], TrimBang(key));
      Changes(i, sn, vars, init) +
      (if Differs(was, now) then [ForVariable(sn, vars[key], TrimBang(key), was, now)] else [])
  }

  function SectionChanges(i: Input, sn: string): seq<Reason>
    requires sn in i.conf
  {
    if !Compared(i, sn) then []
    else Changes(i, sn, i.conf[sn].requiredVars, SortedKeys(i.conf[sn].requiredVars.Keys))
  }

  function SectionReasons(i: Input, sn: string): seq<Reason>
    requires sn in i.conf
  {
    (if sn in i.forced then [ForSection(Forced, sn)] else []) +
    (if sn in i.requested then [ForSection(Requested, sn)] else []) +
    (if i.firstRun then [ForSection(FirstRun, sn)] else SectionChanges(i, sn)) +
    (if i.assumeChanged then [ForSection(Evaluated, sn)] else [])
  }

  predicate Processed(i: Input, sn: string) {
    Considered(i, sn) && SectionReasons(i, sn) != []
  }

  /////////// What one section asks for ///////////

  datatype Ask = Ask(value: Value, reasons: seq<Reason>)

  function OneLine(s: string): string {
    if s == "" then "" else [if s[0] == '\n' then ' ' else s[0]] + OneLine(s[1..])
  }

  predicate IsFalse(v: string) {
    v == "" || v[0] == '0' || (|v| >= 2 && ToLower(v[..2]) == "no") || (|v| >= 5 && ToLower(v[..5]) == "false")
  }

  predicate Holds(c: Conditional, cur: Snapshot) {
    var negate := c.key != "" && c.key[0] == '!';
    var v := cur.Value(c.typ, TrimBang(c.key));
    var holds := if v.Some? then !IsFalse(v.value) != negate else negate;
    holds != c.negated
  }

  /** The POSTCONF lines in force: a later block that holds overrides an earlier line of the same key. */
  function Params(base: map<string, string>, blocks: seq<Conditional>, cur: Snapshot, dropped: bool): map<string, string> {
    if blocks == [] then base
    else
      var rest, last := Params(base, blocks[..|blocks| - 1], cur, dropped), blocks[|blocks| - 1];
      if !Holds(last, cur) then rest else rest + (if dropped then last.postconfd else last.postconf)
  }

  function ServiceAction(service: string, cur: Snapshot): Option<Action> {
    if cur.Enabled(service) then Some(Restart)
    else if service == "archiving" then None
    else if service == "opendkim" && cur.Enabled("mta") then Some(Restart)
    else Some(Stop)
  }

  /** The services a section compiles an entry for. */
  function Acted(sec: Section, cur: Snapshot): set<string> {
    set s | s in sec.restarts && ServiceAction(ToLower(s), cur).Some? :: ToLower(s)
  }

  function VarsOf(vars: map<string, string>, typ: string): set<string> {
    set k | k in vars && vars[k] == typ :: TrimBang(k)
  }

  predicate AskedFor(i: Input, sn: string) {
    sn in i.forced || sn in i.requested
  }

  /** What section `sn` asks for, list by list. It restarts its services now unless it was asked for; when it was
      asked for and also changed, it restarts them later. */
  function NamesAsked(i: Input, sn: string, kind: Kind): set<string> {
    if !Considered(i, sn) then {}
    else
      var sec := i.conf[sn];
      if kind == HealFile then (if Compared(i, sn) then VarsOf(sec.requiredVars, "MAPFILE") else {})
      else if SectionReasons(i, sn) == [] then {}
      else
        var changed := SectionChanges(i, sn) != [];
        match kind
        case HealFile => {}
        case SyncFile => if changed || i.firstRun then VarsOf(sec.requiredVars, "MAPFILE") else {}
        case CheckFile => if changed || i.firstRun then VarsOf(sec.requiredVars, "MAPLOCAL") else {}
        case RewriteFile => sec.rewrites.Keys
        case SetParam => Params(sec.postconf, sec.conditionals, i.cur, false).Keys
        case DropParam => Params(sec.postconfd, sec.conditionals, i.cur, true).Keys
        case WriteLdap => set n | n in sec.ldap && sec.ldap[n] != ""
        case Proxygen => if sec.proxygen then {""} else {}
        case RestartNow => if i.firstRun || AskedFor(i, sn) then {} else Acted(sec, i.cur)
        case RestartLater => if i.firstRun || !AskedFor(i, sn) || !changed then {} else Acted(sec, i.cur)
  }

  function Find(m: map<string, string>, n: string): string {
    if n in m then m[n] else ""
  }

  function AskValue(i: Input, sn: string, kind: Kind, n: string): Value
    requires sn in i.conf
  {
    var sec := i.conf[sn];
    match kind
    case HealFile => Nothing
    case SyncFile => Nothing
    case CheckFile => Nothing
    case RewriteFile => if n in sec.rewrites then File(sec.rewrites[n].path, sec.rewrites[n].mode) else Nothing
    case SetParam => Text(OneLine(Find(Params(sec.postconf, sec.conditionals, i.cur, false), n)))
    case DropParam => Text(OneLine(Find(Params(sec.postconfd, sec.conditionals, i.cur, true), n)))
    case WriteLdap => Text(Find(sec.ldap, n))
    case Proxygen => Nothing
    case RestartNow => ActionValue(n, i.cur)
    case RestartLater => ActionValue(n, i.cur)
  }

  function ActionValue(service: string, cur: Snapshot): Value {
    var a := ServiceAction(service, cur);
    if a.Some? then Service(a.value) else Nothing
  }

  function AskReasons(i: Input, sn: string, kind: Kind, n: string): seq<Reason>
    requires sn in i.conf
  {
    if kind == HealFile then [Reason(MapfileSync, sn, "", n, "", "", "", "")]
    else if kind == RestartLater then SectionChanges(i, sn) + [ForSection(Deferred, sn)]
    else SectionReasons(i, sn)
  }

  /** The requests of one list, in key order. */
  function AsksFrom(i: Input, sn: string, kind: Kind, names: seq<string>): map<Id, Ask>
    requires sn in i.conf
  {
    if names == [] then map[]
    else
      var init, n := names[..|names| - 1], names[|names| - 1];
      AsksFrom(i, sn, kind, init)[Id(kind, n) := Ask(AskValue(i, sn, kind, n), AskReasons(i, sn, kind, n))]
  }

  function AsksOf(i: Input, sn: string, kind: Kind): map<Id, Ask>
    requires sn in i.conf
  {
    AsksFrom(i, sn, kind, SortedKeys(NamesAsked(i, sn, kind)))
  }

  /** The lists of a section in the order they are compiled. */
  const LISTS: seq<Kind> :=
    [HealFile, SyncFile, CheckFile, RewriteFile, SetParam, DropParam, Proxygen, WriteLdap, RestartNow, RestartLater]

  function AsksOver(i: Input, sn: string, kinds: seq<Kind>): map<Id, Ask>
    requires sn in i.conf
  {
    if kinds == [] then map[] else AsksOver(i, sn, kinds[..|kinds| - 1]) + AsksOf(i, sn, kinds[|kinds| - 1])
  }

  function Asks(i: Input, sn: string): map<Id, Ask>
    requires sn in i.conf
  {
    AsksOver(i, sn, LISTS)
  }

  function AllAsks(i: Input): map<string, map<Id, Ask>> {
    map sn | sn in i.conf :: Asks(i, sn)
  }

  /////////// Gathering over the sections ///////////

  /** Record that `sn` asks for `id`: the latest value wins, sections and reasons accumulate. */
  function Put(t: Table, id: Id, ask: Ask, sn: string): Entry {
    if id in t then Entry(id.name, ask.value, AddUnique(t[id].sections, sn), AddAll(t[id].reasons, ask.reasons))
    else Entry(id.name, ask.value, [sn], AddAll([], ask.reasons))
  }

  function PutAll(t: Table, asks: map<Id, Ask>, sn: string): Table {
    map id | id in t.Keys + asks.Keys :: if id in asks then Put(t, id, asks[id], sn) else t[id]
  }

  /** The requests of the sections `names`, taken in order. */
  function Gather(asks: map<string, map<Id, Ask>>, names: seq<string>): Table {
    if names == [] then map[]
    else
      var before, sn := Gather(asks, names[..|names| - 1]), names[|names| - 1];
      if sn in asks then PutAll(before, asks[sn], sn) else before
  }

  function Listed(i: Input, names: seq<string>): seq<SectionEntry>
    requires forall n :: n in names ==> n in i.conf
  {
    if names == [] then []
    else
      var init, sn := names[..|names| - 1], names[|names| - 1];
      assert names == init + [sn];
      Listed(i, init) + (if Processed(i, sn) then [SectionEntry(sn, SectionReasons(i, sn))] else [])
  }

  /////////// Service toggles, retries, pruning ///////////

  /** The tracked services that are no longer enabled, and after the first run the enabled ones not tracked yet. */
  function Toggled(i: Input): set<string> {
    (set s | s in i.tracked && !i.cur.Enabled(s)) +
    (set s | s in i.cur.services && s !in i.tracked && !i.firstRun)
  }

  function ToggleOf(i: Input, s: string): (Action, Reason) {
    if s in i.tracked then (Stop, ForService(ServiceDisabled, s)) else (Start, ForService(ServiceEnabled, s))
  }

  function Status(value: string): string {
    if IsFalse(value) then "stopped" else "running"
  }

  function Tracked(i: Input): map<string, string> {
    if !i.firstRun then i.tracked
    else map s | s in i.tracked.Keys + i.cur.services.Keys ::
           if s in i.tracked then i.tracked[s] else Status(i.cur.services[s])
  }

  function RestartIds(services: set<string>): set<Id> {
    set s | s in services :: Id(RestartNow, s)
  }

  /** A restart a section asked for wins over the toggle of the same service, which only adds its reason. */
  function ToggleEntry(t: Table, s: string, toggle: (Action, Reason)): Entry {
    var id := Id(RestartNow, s);
    if id in t then t[id].(reasons := AddUnique(t[id].reasons, toggle.1)) else Entry(s, Service(toggle.0), [], [toggle.1])
  }

  function WithToggles(t: Table, i: Input): Table {
    map id | id in t.Keys + RestartIds(Toggled(i)) ::
      if id in RestartIds(Toggled(i)) then ToggleEntry(t, id.name, ToggleOf(i, id.name)) else t[id]
  }

  function Retried(e: Entry): Entry {
    e.(reasons := AddUnique(e.reasons, RETRY))
  }

  /** A freshly computed action of the same key wins over the carried one. */
  function WithCarry(t: Table, carried: Table): Table {
    map id | id in t.Keys + carried.Keys ::
      if id in carried then Retried(if id in t then t[id] else carried[id]) else t[id]
  }

  function AsEntry(r: RestartEntry): Entry {
    Entry(r.key, Service(r.action), r.sections, r.reasons)
  }

  function WithCarriedRestarts(t: Table, restarts: seq<RestartEntry>): Table {
    if restarts == [] then t
    else
      var before, r := WithCarriedRestarts(t, restarts[..|restarts| - 1]), restarts[|restarts| - 1];
      before[Id(RestartNow, r.key) :=
        Retried(if Id(RestartNow, r.key) in before then before[Id(RestartNow, r.key)] else AsEntry(r))]
  }

  function DriftText(h: Host, id: Id): string {
    if id.kind in {HealFile, SyncFile, CheckFile} then (if id.name in h.mapfiles then h.mapfiles[id.name] else "")
    else if id in h.drift then h.drift[id] else ""
  }

  /** The actions the host observation is about; LDAP writes never make their section count as drifted. */
  predicate Observable(id: Id) {
    id.kind !in {RestartNow, RestartLater}
  }

  function TouchedSections(t: Table, h: Host): set<string> {
    set id, s | id in t && Observable(id) && id.kind != WriteLdap && DriftText(h, id) != "" && s in t[id].sections :: s
  }

  predicate Meets(list: seq<string>, names: set<string>) {
    exists s :: s in list && s in names
  }

  function JoinWith(list: seq<string>): string {
    if list == [] then "" else if |list| == 1 then list[0] else list[0] + ", " + JoinWith(list[1..])
  }

  /** The candidate behind a kept action: a sync may be a promoted heal. */
  function CandidateOf(t: Table, id: Id): Id {
    if id !in t && id.kind == SyncFile then Id(HealFile, id.name) else id
  }

  /** Keep the drifted actions, and the restarts whose sections they touch. A drifted healed file becomes a sync
      unless its section already asks for one. */
  function KeptEntry(t: Table, h: Host, touched: set<string>, id: Id): Option<Entry> {
    var c := CandidateOf(t, id);
    if c !in t || id.kind == RestartLater || id.kind == HealFile then None
    else if id.kind == RestartNow then
      if Meets(t[id].sections, touched)
      then Some(t[id].(reasons := [ForDrift("configuration of section " + JoinWith(t[id].sections) + " would change")])) else None
    else if DriftText(h, id) != "" then Some(t[c].(reasons := [ForDrift(DriftText(h, id))])) else None
  }

  function Promoted(t: Table): set<Id> {
    set id | id in t && id.kind == HealFile :: Id(SyncFile, id.name)
  }

  function Pruned(t: Table, h: Host): Table {
    var touched := TouchedSections(t, h);
    map id | id in t.Keys + Promoted(t) && KeptEntry(t, h, touched, id).Some? :: KeptEntry(t, h, touched, id).value
  }

  function KeepTouched(sections: seq<SectionEntry>, touched: set<string>): seq<SectionEntry> {
    if sections == [] then []
    else
      KeepTouched(sections[..|sections| - 1], touched) +
      (if sections[|sections| - 1].name in touched then [sections[|sections| - 1]] else [])
  }

  /////////// The plan ///////////

  function NamesOf(t: Table, kind: Kind): set<string> {
    set id | id in t && id.kind == kind :: id.name
  }

  function AsRestart(service: string, e: Entry): RestartEntry {
    RestartEntry(service, if e.value.Service? then e.value.action else Restart, e.sections, e.reasons)
  }

  function CollectNamed(t: Table, kind: Kind, names: seq<string>): seq<RestartEntry>
    requires forall n :: n in names ==> Id(kind, n) in t
  {
    if names == [] then []
    else
      assert names[0] in names;
      [AsRestart(names[0], t[Id(kind, names[0])])] + CollectNamed(t, kind, names[1..])
  }

  /** The restart entries of a table in service order. */
  function Collect(t: Table, kind: Kind): seq<RestartEntry> {
    assert forall n :: n in NamesOf(t, kind) ==> Id(kind, n) in t;
    CollectNamed(t, kind, SortedKeys(NamesOf(t, kind)))
  }

  predicate AllDisabled(i: Input) {
    |i.tracked| > 1 && forall s :: s in i.tracked ==> !i.cur.Enabled(s)
  }

  /** Everything a cycle is made of before the host comparison. */
  function Assembled(i: Input): Table {
    WithCarriedRestarts(
      WithCarry(WithToggles(Gather(AllAsks(i), SortedKeys(i.conf.Keys)), i), i.carry.actions), i.carry.restarts)
  }

  function Actions(t: Table): Table {
    t - (set id | id in t && (!Observable(id) || (id.kind == HealFile && Id(SyncFile, id.name) in t)))
  }

  function Finished(i: Input, t: Table, sections: seq<SectionEntry>): CyclePlan {
    CyclePlan(i.firstRun, sections, Actions(t), ClassifiedAll(Collect(t, RestartNow), i.systemd),
              ClassifiedAll(Collect(t, RestartLater), i.systemd), Tracked(i), SortedKeys(i.cur.services.Keys))
  }

  function PlanOf(i: Input): CyclePlan {
    var t, listed := Assembled(i), Listed(i, SortedKeys(i.conf.Keys));
    if i.host.None? then Finished(i, t, listed)
    else Finished(i, Pruned(t, i.host.value), KeepTouched(listed, TouchedSections(t, i.host.value)))
  }

  function Compute(i: Input): Outcome {
    if AllDisabled(i) then AllServicesDisabled else Planned(PlanOf(i))
  }
}
