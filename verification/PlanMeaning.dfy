/** What a plan is in terms of the file, the snapshots and the requests alone. */
module PlanMeaning {
  import opened Order
  import opened Options
  import opened Plan
  import opened Planner
  import opened PlannerFacts

  /////////// Words and values ///////////

  function LowerChar(c: char): char {
    if 'A' <= c <= 'Z' then (c as int + 32) as char else c
  }

  lemma {:induction false} ToLowerMeans(s: string, k: nat)
    requires k < |s|
    ensures ToLower(s)[k] == LowerChar(s[k])
  {
    if k > 0 { ToLowerMeans(s[1..], k - 1); }
  }

  /** `v` starts with `p` in any case. */
  ghost predicate StartsWith(v: string, p: string) {
    |p| <= |v| && forall k :: 0 <= k < |p| ==> LowerChar(v[k]) == p[k]
  }

  /** A value counts as true unless it is empty or starts like "no", "false" or zero. */
  ghost predicate Truthy(v: string) {
    v != "" && !StartsWith(v, "0") && !StartsWith(v, "no") && !StartsWith(v, "false")
  }

  lemma {:induction false} StartsWithIs(v: string, p: string)
    ensures StartsWith(v, p) <==> |p| <= |v| && ToLower(v[..|p|]) == p
  {
    if |p| <= |v| {
      forall k | 0 <= k < |p| ensures ToLower(v[..|p|])[k] == LowerChar(v[k]) { ToLowerMeans(v[..|p|], k); }
    }
  }

  /** Which values are false, letter by letter. */
  lemma {:induction false} FalseValues(v: string)
    ensures IsFalse(v) <==> !Truthy(v)
  {
    hide StartsWith, ToLower;
    StartsWithIs(v, "no");
    StartsWithIs(v, "false");
    StartsWithZero(v);
  }

  lemma {:induction false} StartsWithZero(v: string)
    ensures StartsWith(v, "0") <==> v != "" && v[0] == '0'
  {}

  /** A condition without its negations, read from the snapshot: the server's value hides that of misc, which hides the
      global one. */
  ghost predicate Reads(cur: Snapshot, typ: string, key: string) {
    if typ == "SERVICE" then key in cur.services
    else if typ == "VAR" then
      if key in cur.server then Truthy(cur.server[key])
      else if key in cur.misc then Truthy(cur.misc[key])
      else key in cur.global && Truthy(cur.global[key])
    else if typ == "LOCAL" then key in cur.local && Truthy(cur.local[key])
    else Lookup(typ, key) in cur.observed && Truthy(cur.observed[Lookup(typ, key)])
  }

  ghost predicate BlockOn(c: Conditional, cur: Snapshot) {
    if c.key != "" && c.key[0] == '!' then Reads(cur, c.typ, c.key[1..]) == c.negated
    else Reads(cur, c.typ, c.key) != c.negated
  }

  lemma {:induction false} ReadsIs(cur: Snapshot, typ: string, key: string)
    ensures Reads(cur, typ, key) <==> cur.Value(typ, key).Some? && !IsFalse(cur.Value(typ, key).value)
  {
    hide IsFalse, Truthy;
    var v := cur.Value(typ, key);
    if v.Some? { FalseValues(v.value); }
    YesAndNo();
  }

  lemma {:induction false} YesAndNo()
    ensures IsFalse("FALSE") && !IsFalse("TRUE")
  {
    hide ToLower;
    FalseValues("TRUE");
    FalseValues("FALSE");
  }

  /** A block holds exactly when its condition reads true under an even number of negations. */
  lemma {:induction false} HoldsMeans(c: Conditional, cur: Snapshot)
    ensures Holds(c, cur) <==> BlockOn(c, cur)
  {
    hide Reads, IsFalse;
    ReadsIs(cur, c.typ, TrimBang(c.key));
  }

  /////////// Sections ///////////

  /** The service a section depends on is there; `dhparam` wants it absent. */
  ghost predicate SectionOn(sn: string, services: set<string>) {
    if sn == "amavis" || sn == "sasl" then "mta" in services
    else if sn == "webxml" then "mailbox" in services
    else if sn == "nginx" then "proxy" in services
    else if sn == "dhparam" then "dhparam" !in services
    else if sn != "" && sn[0] == '!' then sn[1..] !in services
    else sn in services
  }

  ghost predicate InPlay(i: Input, sn: string) {
    sn in i.conf && (i.scope == {} || sn in i.scope) && SectionOn(sn, i.cur.services.Keys)
  }

  /** The section is compared and one of its variables has a new value. */
  ghost predicate Moved(i: Input, sn: string) {
    (i.forced == {} || sn in i.forced) && Changed(i, sn)
  }

  /** The section is in play and there is a reason to process it. */
  ghost predicate Due(i: Input, sn: string) {
    InPlay(i, sn) && (sn in i.forced || sn in i.requested || i.firstRun || i.assumeChanged || Moved(i, sn))
  }

  lemma {:induction false} InPlayIs(i: Input, sn: string)
    ensures Considered(i, sn) <==> InPlay(i, sn)
  {
    SectionServices(sn);
  }

  lemma {:induction false} SectionServices(sn: string)
    ensures sn == "amavis" || sn == "sasl" ==> sn in SECTION_SERVICE && SECTION_SERVICE[sn] == "mta"
    ensures sn == "webxml" ==> sn in SECTION_SERVICE && SECTION_SERVICE[sn] == "mailbox"
    ensures sn == "nginx" ==> sn in SECTION_SERVICE && SECTION_SERVICE[sn] == "proxy"
    ensures sn == "dhparam" ==> sn in SECTION_SERVICE && SECTION_SERVICE[sn] == "!dhparam"
    ensures "!dhparam"[1..] == "dhparam"
    ensures sn in SECTION_SERVICE ==> sn in {"amavis", "sasl", "webxml", "nginx", "dhparam"}
  {}

  lemma {:induction false} DueIs(i: Input, sn: string)
    ensures Processed(i, sn) <==> Due(i, sn)
  {
    hide SectionOn, Considered, Processed, Changed;
    InPlayIs(i, sn);
    ProcessedExact(i, sn);
  }

  /** A plan lists exactly the sections that are due; with a scope only sections of the scope. */
  lemma {:induction false} SectionsListed(i: Input, sn: string)
    requires i.host.None?
    ensures sn in NamesIn(PlanOf(i).sections) <==> Due(i, sn)
    ensures sn in NamesIn(PlanOf(i).sections) && i.scope != {} ==> sn in i.scope
  {
    hide PlanOf, Processed, SectionOn, Changed;
    PlanSections(i);
    DueIs(i, sn);
  }

  /////////// Reasons ///////////

  /** `r` tells of the variable `k` of the section, with its two values. */
  ghost predicate TellsOf(i: Input, sn: string, k: string, r: Reason)
    requires sn in i.conf && k in i.conf[sn].requiredVars
  {
    var typ := i.conf[sn].requiredVars[k];
    r == Reason(VarChanged, sn, typ, TrimBang(k), Seen(i.prev, typ, TrimBang(k)), Seen(i.cur, typ, TrimBang(k)), "", "")
  }

  ghost predicate TellsChange(i: Input, sn: string, r: Reason) {
    exists k :: VariableChanged(i, sn, k) && TellsOf(i, sn, k, r)
  }

  ghost predicate Plainly(r: Reason, kind: ReasonKind, sn: string) {
    r == Reason(kind, sn, "", "", "", "", "", "")
  }

  /** Why a section is processed. */
  ghost predicate Why(i: Input, sn: string, r: Reason) {
    || (sn in i.forced && Plainly(r, Forced, sn))
    || (sn in i.requested && Plainly(r, Requested, sn))
    || (i.firstRun && Plainly(r, FirstRun, sn))
    || (!i.firstRun && Moved(i, sn) && TellsChange(i, sn, r))
    || (i.assumeChanged && Plainly(r, Evaluated, sn))
  }

  lemma {:induction false} ChangeReasons(i: Input, sn: string, keys: seq<string>, r: Reason)
    requires sn in i.conf && forall k :: k in keys ==> k in i.conf[sn].requiredVars
    ensures r in Changes(i, sn, i.conf[sn].requiredVars, keys) <==>
            exists k :: k in keys && VariableChanged(i, sn, k) && TellsOf(i, sn, k, r)
  {
    hide VariableChanged, TrimBang, Differs, Seen;
    if keys != [] {
      var init, key := keys[..|keys| - 1], keys[|keys| - 1];
      assert keys == init + [key];
      ChangeReasons(i, sn, init, r);
      DiffersIsChanged(i, sn, key);
      SeenIs(i.prev, i.conf[sn].requiredVars[key], TrimBang(key));
      SeenIs(i.cur, i.conf[sn].requiredVars[key], TrimBang(key));
      assert forall k :: k in keys <==> k in init || k == key;
      assert key in keys;
    }
  }

  lemma {:induction false} SeenIs(s: Snapshot, typ: string, key: string)
    ensures s.Observed(typ, key) == Seen(s, typ, key)
  {}

  lemma {:induction false} SectionChangeReasons(i: Input, sn: string, r: Reason)
    requires sn in i.conf
    ensures r in SectionChanges(i, sn) <==> Moved(i, sn) && TellsChange(i, sn, r)
  {
    hide Changes, TellsOf;
    var keys := SortedKeys(i.conf[sn].requiredVars.Keys);
    ChangeReasons(i, sn, keys, r);
    TellsSomething(i, sn, keys, r);
  }

  lemma {:induction false} TellsSomething(i: Input, sn: string, keys: seq<string>, r: Reason)
    requires sn in i.conf && forall k :: k in keys <==> k in i.conf[sn].requiredVars
    ensures (exists k :: k in keys && VariableChanged(i, sn, k) && TellsOf(i, sn, k, r)) <==> TellsChange(i, sn, r)
    ensures TellsChange(i, sn, r) ==> Changed(i, sn)
  {
    hide Seen, TrimBang, TellsOf;
    if k :| VariableChanged(i, sn, k) && TellsOf(i, sn, k, r) { assert k in keys; }
  }

  lemma {:induction false} ReasonsMean(i: Input, sn: string, r: Reason)
    requires sn in i.conf
    ensures r in SectionReasons(i, sn) <==> Why(i, sn, r)
  {
    hide SectionChanges, Moved, TellsChange;
    SectionChangeReasons(i, sn, r);
  }

  /////////// What a section wants ///////////

  /** A mapped file of the section; a variable may be written with a leading '!'. */
  ghost predicate MapsFile(i: Input, sn: string, typ: string, name: string)
    requires sn in i.conf
  {
    exists k :: k in i.conf[sn].requiredVars && i.conf[sn].requiredVars[k] == typ && TrimBang(k) == name
  }

  /** The section has a RESTART line for the service, which a disabled `archiving` ignores. */
  ghost predicate ActsOn(i: Input, sn: string, service: string)
    requires sn in i.conf
  {
    (exists s :: s in i.conf[sn].restarts && ToLower(s) == service) && (service in i.cur.services || service != "archiving")
  }

  /** A postfix line of the section itself or of a block that holds. */
  ghost predicate HasLine(i: Input, sn: string, dropped: bool, key: string)
    requires sn in i.conf
  {
    || key in (if dropped then i.conf[sn].postconfd else i.conf[sn].postconf)
    || exists b :: b in i.conf[sn].conditionals && BlockOn(b, i.cur) && key in (if dropped then b.postconfd else b.postconf)
  }

  /** What a section in play wants done, kind by kind. */
  ghost predicate Wants(i: Input, sn: string, id: Id) {
    && InPlay(i, sn)
    && match id.kind
       case HealFile => (i.forced == {} || sn in i.forced) && MapsFile(i, sn, "MAPFILE", id.name)
       case SyncFile => Due(i, sn) && (i.firstRun || Moved(i, sn)) && MapsFile(i, sn, "MAPFILE", id.name)
       case CheckFile => Due(i, sn) && (i.firstRun || Moved(i, sn)) && MapsFile(i, sn, "MAPLOCAL", id.name)
       case RewriteFile => Due(i, sn) && id.name in i.conf[sn].rewrites
       case SetParam => Due(i, sn) && HasLine(i, sn, false, id.name)
       case DropParam => Due(i, sn) && HasLine(i, sn, true, id.name)
       case WriteLdap => Due(i, sn) && id.name in i.conf[sn].ldap && i.conf[sn].ldap[id.name] != ""
       case Proxygen => Due(i, sn) && i.conf[sn].proxygen && id.name == ""
       case RestartNow => Due(i, sn) && !i.firstRun && sn !in i.forced && sn !in i.requested && ActsOn(i, sn, id.name)
       case RestartLater => Moved(i, sn) && !i.firstRun && (sn in i.forced || sn in i.requested) && ActsOn(i, sn, id.name)
  }

  lemma {:induction false} MapsFileIs(i: Input, sn: string, typ: string, name: string)
    requires sn in i.conf
    ensures name in VarsOf(i.conf[sn].requiredVars, typ) <==> MapsFile(i, sn, typ, name)
  {}

  lemma {:induction false} ActsOnIs(i: Input, sn: string, service: string)
    requires sn in i.conf
    ensures service in Acted(i.conf[sn], i.cur) <==> ActsOn(i, sn, service)
  {
    hide ToLower;
  }

  lemma {:induction false} HasLineIs(i: Input, sn: string, dropped: bool, key: string)
    requires sn in i.conf
    ensures var sec := i.conf[sn];
            key in Params(if dropped then sec.postconfd else sec.postconf, sec.conditionals, i.cur, dropped) <==> HasLine(i, sn, dropped, key)
  {
    hide Params, BlockOn, Holds;
    var sec := i.conf[sn];
    ParamsLastWins(if dropped then sec.postconfd else sec.postconf, sec.conditionals, i.cur, dropped, key);
    forall b | b in sec.conditionals ensures Holds(b, i.cur) <==> BlockOn(b, i.cur) { HoldsMeans(b, i.cur); }
    var n := LastSetting(sec.conditionals, i.cur, dropped, key);
    if n >= 0 { assert sec.conditionals[n] in sec.conditionals; }
  }

  lemma {:induction false} WantsIs(i: Input, sn: string, id: Id)
    ensures id.name in NamesAsked(i, sn, id.kind) <==> Wants(i, sn, id)
  {
    hide InPlay, Due, Moved, MapsFile, ActsOn, HasLine, Considered, SectionReasons, SectionChanges, Params, VarsOf, Acted;
    InPlayIs(i, sn);
    if Considered(i, sn) {
      InPlayKnown(i, sn);
      AskedReasons(i, sn);
      MapsFileIs(i, sn, "MAPFILE", id.name);
      MapsFileIs(i, sn, "MAPLOCAL", id.name);
      ActsOnIs(i, sn, id.name);
      HasLineIs(i, sn, false, id.name);
      HasLineIs(i, sn, true, id.name);
    }
  }

  lemma {:induction false} InPlayKnown(i: Input, sn: string)
    requires Considered(i, sn)
    ensures sn in i.conf
  {}

  lemma {:induction false} AskedReasons(i: Input, sn: string)
    requires Considered(i, sn)
    ensures SectionReasons(i, sn) != [] <==> Due(i, sn)
    ensures SectionChanges(i, sn) != [] <==> Moved(i, sn)
    ensures Moved(i, sn) ==> Due(i, sn)
  {
    hide SectionReasons, SectionChanges, Considered, InPlay, Changed;
    InPlayKnown(i, sn);
    DueIs(i, sn);
    InPlayIs(i, sn);
    SectionChangesExact(i, sn);
  }

  /////////// What a planned action says ///////////

  /** `line` is `text` on one line. */
  ghost predicate OnOneLine(line: string, text: string) {
    |line| == |text| && forall k :: 0 <= k < |text| ==> line[k] == if text[k] == '\n' then ' ' else text[k]
  }

  lemma {:induction false} OneLineMeans(s: string)
    ensures OnOneLine(OneLine(s), s)
  {
    if s != "" { OneLineMeans(s[1..]); }
  }

  /** `n` is the position of the last block that holds and has a line for the key, or -1. */
  ghost predicate LastBlock(i: Input, sn: string, dropped: bool, key: string, n: int)
    requires sn in i.conf
  {
    var blocks := i.conf[sn].conditionals;
    && -1 <= n < |blocks|
    && (n >= 0 ==> BlockOn(blocks[n], i.cur) && key in (if dropped then blocks[n].postconfd else blocks[n].postconf))
    && forall j :: n < j < |blocks| ==>
         !(BlockOn(blocks[j], i.cur) && key in (if dropped then blocks[j].postconfd else blocks[j].postconf))
  }

  /** The text of a postfix parameter: that of the last block with a line for it, or else that of the section. */
  ghost predicate ParamText(i: Input, sn: string, dropped: bool, key: string, text: string)
    requires sn in i.conf
  {
    exists n :: LastBlock(i, sn, dropped, key, n) &&
      var own, blocks := if dropped then i.conf[sn].postconfd else i.conf[sn].postconf, i.conf[sn].conditionals;
      if n >= 0 then text == (if dropped then blocks[n].postconfd else blocks[n].postconf)[key]
      else key in own && text == own[key]
  }

  lemma {:induction false} ParamTextIs(i: Input, sn: string, dropped: bool, key: string)
    requires sn in i.conf && HasLine(i, sn, dropped, key)
    ensures var sec := i.conf[sn];
            ParamText(i, sn, dropped, key, Find(Params(if dropped then sec.postconfd else sec.postconf, sec.conditionals, i.cur, dropped), key))
  {
    hide Params, BlockOn, Holds, HasLine;
    var sec := i.conf[sn];
    var own := if dropped then sec.postconfd else sec.postconf;
    ParamsLastWins(own, sec.conditionals, i.cur, dropped, key);
    HasLineIs(i, sn, dropped, key);
    var n := LastSetting(sec.conditionals, i.cur, dropped, key);
    forall j | 0 <= j < |sec.conditionals| ensures Holds(sec.conditionals[j], i.cur) <==> BlockOn(sec.conditionals[j], i.cur) {
      HoldsMeans(sec.conditionals[j], i.cur);
    }
    assert LastBlock(i, sn, dropped, key, n);
  }

  /** Restart what is enabled, and `opendkim` while `mta` is; stop everything else. */
  ghost predicate RestartedOn(cur: Snapshot, service: string) {
    service in cur.services || (service == "opendkim" && "mta" in cur.services)
  }

  /** The value of an action the section wants. */
  ghost predicate SaysValue(i: Input, sn: string, id: Id, v: Value)
    requires Wants(i, sn, id)
  {
    var sec := i.conf[sn];
    match id.kind
    case RewriteFile => v == File(sec.rewrites[id.name].path, sec.rewrites[id.name].mode)
    case SetParam => v.Text? && exists text :: ParamText(i, sn, false, id.name, text) && OnOneLine(v.spec, text)
    case DropParam => v.Text? && exists text :: ParamText(i, sn, true, id.name, text) && OnOneLine(v.spec, text)
    case WriteLdap => v == Text(sec.ldap[id.name])
    case RestartNow => v == Service(if RestartedOn(i.cur, id.name) then Restart else Stop)
    case RestartLater => v == Service(if RestartedOn(i.cur, id.name) then Restart else Stop)
    case _ => v == Nothing
  }

  lemma {:induction false} ValueMeans(i: Input, sn: string, id: Id)
    requires Wants(i, sn, id)
    ensures SaysValue(i, sn, id, AskValue(i, sn, id.kind, id.name))
  {
    hide InPlay, Due, Moved, MapsFile, ActsOn, HasLine, Params, ParamText, OnOneLine, OneLine;
    InPlayFile(i, sn);
    var sec := i.conf[sn];
    if id.kind == SetParam || id.kind == DropParam {
      var dropped := id.kind == DropParam;
      ParamTextIs(i, sn, dropped, id.name);
      OneLineMeans(Find(Params(if dropped then sec.postconfd else sec.postconf, sec.conditionals, i.cur, dropped), id.name));
    } else if id.kind == RestartNow || id.kind == RestartLater {
      ActsOnSome(i, sn, id.name);
    }
  }

  lemma {:induction false} InPlayFile(i: Input, sn: string)
    requires InPlay(i, sn)
    ensures sn in i.conf
  {}

  lemma {:induction false} ActsOnSome(i: Input, sn: string, service: string)
    requires sn in i.conf && ActsOn(i, sn, service)
    ensures service in i.cur.services || service != "archiving"
  {}

  /** Why an action is planned: the reasons of its section, or that it is healed or deferred. */
  ghost predicate WhyAction(i: Input, sn: string, id: Id, r: Reason) {
    match id.kind
    case HealFile => r == Reason(MapfileSync, sn, "", id.name, "", "", "", "")
    case RestartLater => (Moved(i, sn) && TellsChange(i, sn, r)) || Plainly(r, Deferred, sn)
    case _ => Why(i, sn, r)
  }

  lemma {:induction false} WhyActionIs(i: Input, sn: string, id: Id, r: Reason)
    requires sn in i.conf
    ensures r in AskReasons(i, sn, id.kind, id.name) <==> WhyAction(i, sn, id, r)
  {
    hide SectionChanges, SectionReasons, Moved, TellsChange, Why;
    SectionChangeReasons(i, sn, r);
    ReasonsMean(i, sn, r);
  }

  /** The entry names exactly the sections that want it, in order, says what the last of them says, and why. */
  ghost predicate Faithful(i: Input, id: Id, value: Value, sections: seq<string>, reasons: seq<Reason>) {
    && sections != [] && Ascending(sections) && (forall sn :: sn in sections <==> Wants(i, sn, id))
    && SaysValue(i, sections[|sections| - 1], id, value)
    && Once(reasons) && forall r :: r in reasons <==> exists sn :: sn in sections && WhyAction(i, sn, id, r)
  }

  lemma {:induction false} ReasonsOnce(asks: map<string, map<Id, Ask>>, who: seq<string>, id: Id)
    ensures Once(ReasonsOf(asks, who, id))
  {
    hide Once;
    if who == [] {
      assert Once<Reason>([]) by { NothingTwice(); }
    } else {
      var before, sn := ReasonsOf(asks, who[..|who| - 1], id), who[|who| - 1];
      ReasonsOnce(asks, who[..|who| - 1], id);
      if AsksFor(asks, sn, id) { AddAllOnce(before, asks[sn][id].reasons); }
    }
  }

  lemma {:induction false} NothingTwice()
    ensures Once<Reason>([])
  {}

  lemma {:induction false} ReasonsUnion(i: Input, who: seq<string>, id: Id, r: Reason)
    requires forall sn :: sn in who ==> sn in i.conf && AsksFor(AllAsks(i), sn, id)
    ensures r in ReasonsOf(AllAsks(i), who, id) <==> exists sn :: sn in who && WhyAction(i, sn, id, r)
  {
    hide WhyAction, Asks, AskValue, AskReasons;
    if who != [] {
      var init, sn := who[..|who| - 1], who[|who| - 1];
      assert who == init + [sn];
      ReasonsUnion(i, init, id, r);
      AsksMembership(i, sn, id);
      WhyActionIs(i, sn, id, r);
      AddAllElements(ReasonsOf(AllAsks(i), init, id), AllAsks(i)[sn][id].reasons);
      assert forall x :: x in who <==> x in init || x == sn;
    }
  }

  /** A gathered entry is faithful to the sections that want it. */
  lemma {:induction false} GatheredFaithful(i: Input, id: Id)
    ensures var t := Gather(AllAsks(i), SortedKeys(i.conf.Keys));
            && (id in t <==> exists sn :: Wants(i, sn, id))
            && (id in t ==> t[id].key == id.name && Faithful(i, id, t[id].value, t[id].sections, t[id].reasons))
  {
    hide Gather, AllAsks, NamesAsked, Wants, Asks, AskValue, AskReasons, SortedKeys, WhyAction, SaysValue, Ascending, Askers, ReasonsOf, Once;
    var asks, names := AllAsks(i), SortedKeys(i.conf.Keys);
    var t := Gather(asks, names);
    GatheredKeys(i, id);
    forall sn ensures id.name in NamesAsked(i, sn, id.kind) <==> Wants(i, sn, id) { WantsIs(i, sn, id); }
    if id in t {
      GatherEntry(asks, names, id);
      var who := Askers(asks, names, id);
      AskersExact(asks, names, id);
      AskersAscending(asks, names, id);
      forall sn ensures sn in who <==> Wants(i, sn, id) { AskerAsks(i, sn, id); }
      forall sn | sn in who ensures sn in i.conf && AsksFor(asks, sn, id) { AskerAsks(i, sn, id); }
      forall r ensures r in t[id].reasons <==> exists sn :: sn in who && WhyAction(i, sn, id, r) { ReasonsUnion(i, who, id, r); }
      AskerAsks(i, who[|who| - 1], id);
      ValueMeans(i, who[|who| - 1], id);
      ReasonsOnce(asks, who, id);
    }
  }

  /////////// The actions of a plan ///////////

  ghost predicate Wanted(i: Input, id: Id) {
    exists sn :: Wants(i, sn, id)
  }

  /** `reasons` are `base`, and the retry if there is one. */
  ghost predicate Marked(reasons: seq<Reason>, base: seq<Reason>, retried: bool) {
    forall r :: r in reasons <==> r in base || (retried && r == Reason(Retry, "", "", "", "", "", "", ""))
  }

  lemma {:induction false} RetriedMarks(e: Entry)
    ensures Marked(Retried(e).reasons, e.reasons, true) && Marked(e.reasons, e.reasons, false)
  {}

  /** A plan's action is one that a section wants, faithful to the sections that want it, or one carried over; a healed
      file is left to a sync of the same file. */
  lemma {:induction false} ActionPlanned(i: Input, id: Id)
    requires i.host.None?
    ensures id in PlanOf(i).actions <==>
              && id.kind !in {RestartNow, RestartLater} && (Wanted(i, id) || id in i.carry.actions)
              && (id.kind == HealFile ==> !Wanted(i, Id(SyncFile, id.name)) && Id(SyncFile, id.name) !in i.carry.actions)
    ensures id in PlanOf(i).actions ==>
              var e := PlanOf(i).actions[id];
              if Wanted(i, id)
              then exists base :: Faithful(i, id, e.value, e.sections, base) && Marked(e.reasons, base, id in i.carry.actions)
              else e == Retried(i.carry.actions[id]) && Marked(e.reasons, i.carry.actions[id].reasons, true)
  {
    hide Assembled, Gather, AllAsks, SortedKeys, Wants, Faithful, Marked, Retried, Collect, Listed, Tracked, ClassifiedAll;
    AssembledMeans(i, Id(SyncFile, id.name));
    if id.kind != RestartNow { AssembledMeans(i, id); }
  }

  lemma {:induction false} AssembledMeans(i: Input, id: Id)
    requires id.kind != RestartNow
    ensures id in Assembled(i) <==> Wanted(i, id) || id in i.carry.actions
    ensures id in Assembled(i) ==>
              var e := Assembled(i)[id];
              if Wanted(i, id)
              then exists base :: Faithful(i, id, e.value, e.sections, base) && Marked(e.reasons, base, id in i.carry.actions)
              else e == Retried(i.carry.actions[id]) && Marked(e.reasons, i.carry.actions[id].reasons, true)
  {
    hide Assembled, Gather, AllAsks, SortedKeys, Wants, Faithful, Marked, Asked;
    var t := Gather(AllAsks(i), SortedKeys(i.conf.Keys));
    GatheredFaithful(i, id);
    GatheredKeys(i, id);
    AssembledKeys(i, id);
    if Wanted(i, id) {
      AssembledEntry(i, id);
      RetriedMarks(t[id]);
    } else if id in i.carry.actions {
      AssembledCarried(i, id);
      RetriedMarks(i.carry.actions[id]);
    }
  }

  lemma {:induction false} AssembledCarried(i: Input, id: Id)
    requires id.kind != RestartNow && id in i.carry.actions && id !in Gather(AllAsks(i), SortedKeys(i.conf.Keys))
    ensures id in Assembled(i) && Assembled(i)[id] == Retried(i.carry.actions[id])
  {
    hide Gather, AllAsks, SortedKeys, Toggled, RestartIds, Retried, WithCarriedRestarts;
    var t := Gather(AllAsks(i), SortedKeys(i.conf.Keys));
    RestartIdsExact(Toggled(i), id);
    CarriedRestartsKeep(WithCarry(WithToggles(t, i), i.carry.actions), i.carry.restarts, id);
  }

  /////////// The restarts of a plan ///////////

  /** The services that hold data and are not restarted behind the administrator's back. */
  ghost predicate Heavy(service: string) {
    ToLower(service) in {"mailbox", "mailboxd", "service", "appserver-db", "mysql", "mariadb", "store", "ldap", "directory",
                         "directory-server"}
  }

  ghost function OnHost(action: Action, service: string, systemd: bool): Action {
    if systemd && Heavy(service) && action == Restart then PendingRestart else action
  }

  lemma {:induction false} CollectedAt(t: Table, kind: Kind, names: seq<string>, e: RestartEntry)
    requires forall n :: n in names ==> Id(kind, n) in t
    ensures e in CollectNamed(t, kind, names) <==> e.key in names && e == AsRestart(e.key, t[Id(kind, e.key)])
    decreases |names|
  {
    if names != [] {
      assert names == [names[0]] + names[1..];
      CollectedAt(t, kind, names[1..], e);
    }
  }

  /** A collected restart is the entry of its service, its action as the host allows it. */
  lemma {:induction false} CollectedRestart(t: Table, kind: Kind, systemd: bool, e: RestartEntry)
    requires e in ClassifiedAll(Collect(t, kind), systemd)
    ensures Id(kind, e.key) in t
    ensures var x := t[Id(kind, e.key)];
            && e.sections == x.sections && e.reasons == x.reasons
            && (x.value.Service? ==> e.action == OnHost(x.value.action, e.key, systemd))
  {
    hide CollectNamed, ToLower;
    var list := Collect(t, kind);
    var n :| 0 <= n < |list| && e == Classified(list[n], systemd);
    CollectedAt(t, kind, SortedKeys(NamesOf(t, kind)), list[n]);
  }

  /** The service was enabled or disabled since it was tracked. */
  ghost predicate Turned(i: Input, service: string) {
    || (service in i.tracked && service !in i.cur.services)
    || (service !in i.tracked && service in i.cur.services && !i.firstRun)
  }

  ghost predicate TellsTurn(i: Input, service: string, r: Reason) {
    r == Reason(if service in i.cur.services then ServiceEnabled else ServiceDisabled, "", "", "", "", "", service, "")
  }

  lemma {:induction false} CarriedKeeps(t: Table, restarts: seq<RestartEntry>, id: Id)
    requires id in t && id.kind == RestartNow
    ensures id in WithCarriedRestarts(t, restarts)
    ensures var e := WithCarriedRestarts(t, restarts)[id];
            e.value == t[id].value && e.sections == t[id].sections && Marked(e.reasons, t[id].reasons, id.name in Services(restarts))
  {
    if restarts == [] {
      assert Services(restarts) == {};
    } else {
      var init, last := restarts[..|restarts| - 1], restarts[|restarts| - 1];
      assert restarts == init + [last];
      assert Services(restarts) == Services(init) + {last.key};
      CarriedKeeps(t, init, id);
    }
  }

  lemma {:induction false} CarriedFirst(t: Table, restarts: seq<RestartEntry>, j: nat)
    requires j < |restarts| && Id(RestartNow, restarts[j].key) !in t
    requires forall m :: 0 <= m < j ==> restarts[m].key != restarts[j].key
    ensures var id := Id(RestartNow, restarts[j].key);
            && id in WithCarriedRestarts(t, restarts)
            && var e := WithCarriedRestarts(t, restarts)[id];
               e.value == Service(restarts[j].action) && e.sections == restarts[j].sections && Marked(e.reasons, restarts[j].reasons, true)
  {
    var init, last := restarts[..|restarts| - 1], restarts[|restarts| - 1];
    if j < |init| {
      CarriedFirst(t, init, j);
    } else {
      NotCarriedBefore(t, init, restarts[j].key);
    }
  }

  lemma {:induction false} NotCarriedBefore(t: Table, restarts: seq<RestartEntry>, service: string)
    requires Id(RestartNow, service) !in t && forall m :: 0 <= m < |restarts| ==> restarts[m].key != service
    ensures Id(RestartNow, service) !in WithCarriedRestarts(t, restarts)
  {
    if restarts != [] { NotCarriedBefore(t, restarts[..|restarts| - 1], service); }
  }

  lemma {:induction false} ToggledAt(t: Table, i: Input, service: string)
    requires Id(RestartNow, service) !in i.carry.actions
    ensures var u, id := WithCarry(WithToggles(t, i), i.carry.actions), Id(RestartNow, service);
            && (id in u <==> id in t || Turned(i, service))
            && (id in u ==> u[id] == if Turned(i, service) then ToggleEntry(t, service, ToggleOf(i, service)) else t[id])
  {
    hide ToggleEntry, ToggleOf, Retried;
    RestartIdsExact(Toggled(i), Id(RestartNow, service));
    assert service in Toggled(i) <==> Turned(i, service);
  }

  lemma {:induction false} ToggleSays(t: Table, i: Input, service: string)
    requires Turned(i, service)
    ensures var id, e := Id(RestartNow, service), ToggleEntry(t, service, ToggleOf(i, service));
            if id in t then
              && e.value == t[id].value && e.sections == t[id].sections
              && forall r :: r in e.reasons <==> r in t[id].reasons || TellsTurn(i, service, r)
            else
              && e.value == Service(if service in i.cur.services then Start else Stop) && e.sections == []
              && forall r :: r in e.reasons <==> TellsTurn(i, service, r)
  {
    assert TellsTurn(i, service, ToggleOf(i, service).1);
  }

  /** What toggles and carried actions leave of the gathered restarts. */
  lemma {:induction false} ToggledRestart(i: Input, service: string)
    requires Id(RestartNow, service) !in i.carry.actions
    ensures var t, id := Gather(AllAsks(i), SortedKeys(i.conf.Keys)), Id(RestartNow, service);
            var u := WithCarry(WithToggles(t, i), i.carry.actions);
            && (id in u <==> id in t || Turned(i, service))
            && (id in t ==> u[id].value == t[id].value && u[id].sections == t[id].sections)
            && (id in t ==> forall r :: r in u[id].reasons <==> r in t[id].reasons || (Turned(i, service) && TellsTurn(i, service, r)))
            && (id !in t && Turned(i, service) ==>
                  && u[id].value == Service(if service in i.cur.services then Start else Stop) && u[id].sections == []
                  && forall r :: r in u[id].reasons <==> TellsTurn(i, service, r))
  {
    hide Gather, AllAsks, SortedKeys, WithCarry, WithToggles, ToggleEntry, ToggleOf, Turned, TellsTurn;
    var t := Gather(AllAsks(i), SortedKeys(i.conf.Keys));
    ToggledAt(t, i, service);
    if Turned(i, service) { ToggleSays(t, i, service); }
  }

  /** The restart of a service in the assembled table: that of the sections that want it, else the toggle, else the
      first one carried over. */
  ghost predicate RestartSays(i: Input, service: string, action: Action, sections: seq<string>) {
    if Wanted(i, Id(RestartNow, service)) then
      && action == (if RestartedOn(i.cur, service) then Restart else Stop)
      && Ascending(sections) && forall sn :: sn in sections <==> Wants(i, sn, Id(RestartNow, service))
    else if Turned(i, service) then action == (if service in i.cur.services then Start else Stop) && sections == []
    else exists j: nat :: FirstCarried(i.carry.restarts, service, j) &&
           i.carry.restarts[j].action == action && i.carry.restarts[j].sections == sections
  }

  /** Why a service is in the restarts of a plan: its sections, its toggle, and that it was carried over. */
  ghost predicate WhyRestart(i: Input, service: string, r: Reason) {
    || (exists sn :: Wants(i, sn, Id(RestartNow, service)) && Why(i, sn, r))
    || (Turned(i, service) && TellsTurn(i, service, r))
    || (service in Services(i.carry.restarts) && r == Reason(Retry, "", "", "", "", "", "", ""))
    || (!Wanted(i, Id(RestartNow, service)) && !Turned(i, service) &&
        exists j: nat :: FirstCarried(i.carry.restarts, service, j) && r in i.carry.restarts[j].reasons)
  }

  ghost predicate FirstCarried(restarts: seq<RestartEntry>, service: string, j: nat) {
    j < |restarts| && restarts[j].key == service && forall m :: 0 <= m < j ==> restarts[m].key != service
  }

  lemma {:induction false} FindFirst(restarts: seq<RestartEntry>, service: string) returns (j: nat)
    requires service in Services(restarts)
    ensures FirstCarried(restarts, service, j)
  {
    j := 0;
    while restarts[j].key != service
      invariant j < |restarts| && forall m :: 0 <= m < j ==> restarts[m].key != service
      decreases |restarts| - j
    {
      var e :| e in restarts && e.key == service;
      assert exists n :: j < n < |restarts| && restarts[n] == e;
      j := j + 1;
    }
  }

  lemma {:induction false} AssembledRestart(i: Input, service: string)
    requires Id(RestartNow, service) !in i.carry.actions && Id(RestartNow, service) in Assembled(i)
    ensures var e := Assembled(i)[Id(RestartNow, service)];
            && e.value.Service? && RestartSays(i, service, e.value.action, e.sections)
            && forall r :: r in e.reasons <==> WhyRestart(i, service, r)
  {
    hide Gather, AllAsks, SortedKeys, WithToggles, WithCarry, WithCarriedRestarts, Ascending, Wants, Turned, Toggled, Asked,
         TellsTurn, Why, Services, FirstCarried;
    var id := Id(RestartNow, service);
    var t := Gather(AllAsks(i), SortedKeys(i.conf.Keys));
    var u := WithCarry(WithToggles(t, i), i.carry.actions);
    GatheredFaithful(i, id);
    ToggledRestart(i, service);
    if id in u {
      CarriedKeeps(u, i.carry.restarts, id);
      if id in t { FaithfulRestart(i, service, t[id]); }
    } else {
      CarriedRestartKeys(u, i.carry.restarts, id);
      var j := FindFirst(i.carry.restarts, service);
      FirstCarriedAt(i.carry.restarts, service, j);
      CarriedFirst(u, i.carry.restarts, j);
    }
  }

  lemma {:induction false} FirstCarriedAt(restarts: seq<RestartEntry>, service: string, j: nat)
    requires FirstCarried(restarts, service, j)
    ensures j < |restarts| && restarts[j].key == service && forall m :: 0 <= m < j ==> restarts[m].key != restarts[j].key
    ensures forall k: nat :: FirstCarried(restarts, service, k) ==> k == j
  {}

  lemma {:induction false} FaithfulRestart(i: Input, service: string, e: Entry)
    requires Faithful(i, Id(RestartNow, service), e.value, e.sections, e.reasons)
    ensures e.value == Service(if RestartedOn(i.cur, service) then Restart else Stop)
    ensures Ascending(e.sections) && forall sn :: sn in e.sections <==> Wants(i, sn, Id(RestartNow, service))
    ensures forall r :: r in e.reasons <==> exists sn :: Wants(i, sn, Id(RestartNow, service)) && Why(i, sn, r)
  {
    hide Wants, Ascending, Why;
  }

  /** Which action each restart of a plan has: a service that sections restart is restarted if it is enabled, pending if
      it is also heavy on a systemd host, and stopped otherwise; a toggled one is started or stopped. */
  lemma {:induction false} RestartPlanned(i: Input, e: RestartEntry)
    requires i.host.None? && (forall id :: id in i.carry.actions ==> id.kind != RestartNow) && e in PlanOf(i).restarts
    ensures exists action :: RestartSays(i, e.key, action, e.sections) && e.action == OnHost(action, e.key, i.systemd)
    ensures forall r :: r in e.reasons <==> WhyRestart(i, e.key, r)
  {
    hide Assembled, Collect, Listed, Tracked, ClassifiedAll, RestartSays, Actions, OnHost, WhyRestart;
    CollectedRestart(Assembled(i), RestartNow, i.systemd, e);
    AssembledRestart(i, e.key);
  }

  /** Which action each deferred restart has. */
  lemma {:induction false} DeferralPlanned(i: Input, e: RestartEntry)
    requires i.host.None? && (forall id :: id in i.carry.actions ==> id.kind != RestartLater) && e in PlanOf(i).deferredRestarts
    ensures e.action == OnHost(if RestartedOn(i.cur, e.key) then Restart else Stop, e.key, i.systemd)
    ensures e.sections != [] && Ascending(e.sections)
    ensures forall sn :: sn in e.sections <==> Wants(i, sn, Id(RestartLater, e.key))
  {
    hide Assembled, Collect, Listed, Tracked, ClassifiedAll, Actions, OnHost, Wants, Ascending, Marked;
    var id := Id(RestartLater, e.key);
    CollectedRestart(Assembled(i), RestartLater, i.systemd, e);
    AssembledMeans(i, id);
    var x := Assembled(i)[id];
    var base :| Faithful(i, id, x.value, x.sections, base);
    FaithfulDeferral(i, e.key, x.value, x.sections, base);
  }

  lemma {:induction false} FaithfulDeferral(i: Input, service: string, v: Value, sections: seq<string>, reasons: seq<Reason>)
    requires Faithful(i, Id(RestartLater, service), v, sections, reasons)
    ensures v == Service(if RestartedOn(i.cur, service) then Restart else Stop)
    ensures sections != [] && Ascending(sections) && forall sn :: sn in sections <==> Wants(i, sn, Id(RestartLater, service))
  {
    hide Wants, WhyAction, Ascending;
  }

  /** Which services a plan restarts, and which it defers. */
  lemma {:induction false} RestartServices(i: Input, service: string)
    requires i.host.None? && forall id :: id in i.carry.actions ==> Observable(id)
    ensures service in Services(PlanOf(i).restarts) <==>
              Wanted(i, Id(RestartNow, service)) || Turned(i, service) || service in Services(i.carry.restarts)
    ensures service in Services(PlanOf(i).deferredRestarts) <==> Wanted(i, Id(RestartLater, service))
  {
    hide PlanOf, NamesAsked, Wants;
    forall sn, kind: Kind ensures service in NamesAsked(i, sn, kind) <==> Wants(i, sn, Id(kind, service)) {
      WantsIs(i, sn, Id(kind, service));
    }
    PlanRestarts(i, service);
    DeferredAsked(i, service);
    assert Asked(i, Id(RestartNow, service)) <==> Wanted(i, Id(RestartNow, service));
    assert Asked(i, Id(RestartLater, service)) <==> Wanted(i, Id(RestartLater, service));
    assert service in Toggled(i) <==> Turned(i, service);
  }

  /** No disabled `archiving` is ever restarted or stopped because of a section. */
  lemma {:induction false} ArchivingLeftAlone(i: Input, sn: string, kind: Kind)
    requires Wants(i, sn, Id(kind, "archiving")) && kind in {RestartNow, RestartLater}
    ensures "archiving" in i.cur.services
  {}

  /////////// The tracked services ///////////

  lemma {:induction false} PlanTracks(i: Input)
    ensures PlanOf(i).tracked == Tracked(i)
  {
    hide Assembled, Collect, Listed, ClassifiedAll, Pruned, TouchedSections, KeepTouched, SortedKeys, Tracked, Actions;
  }

  /** The first plan records each service it does not know, by the truth of its value; later plans change nothing. */
  lemma {:induction false} TrackedMeans(i: Input)
    ensures var known := PlanOf(i).tracked;
            && (!i.firstRun ==> known == i.tracked)
            && (i.firstRun ==> known.Keys == i.tracked.Keys + i.cur.services.Keys)
            && (i.firstRun ==> forall s :: s in known ==>
                  known[s] == if s in i.tracked then i.tracked[s] else if Truthy(i.cur.services[s]) then "running" else "stopped")
  {
    hide PlanOf, Truthy, IsFalse;
    PlanTracks(i);
    forall s | s in i.cur.services ensures IsFalse(i.cur.services[s]) <==> !Truthy(i.cur.services[s]) { FalseValues(i.cur.services[s]); }
  }

  /////////// Sections with their reasons, and the whole plan ///////////

  lemma {:induction false} ListedEntry(i: Input, names: seq<string>, x: SectionEntry)
    requires (forall n :: n in names ==> n in i.conf) && x in Listed(i, names)
    ensures x.name in i.conf && x.reasons == SectionReasons(i, x.name)
  {
    var init, sn := names[..|names| - 1], names[|names| - 1];
    assert names == init + [sn];
    if x in Listed(i, init) { ListedEntry(i, init, x); }
  }

  /** A listed section says exactly why it is processed. */
  lemma {:induction false} SectionSays(i: Input, x: SectionEntry, r: Reason)
    requires i.host.None? && x in PlanOf(i).sections
    ensures r in x.reasons <==> Why(i, x.name, r)
  {
    hide Listed, SectionReasons, Why, Assembled, Collect, ClassifiedAll, Tracked;
    ListedEntry(i, SortedKeys(i.conf.Keys), x);
    ReasonsMean(i, x.name, r);
  }

  /** Without host and carry: each restart a section asked for, now or later, has the action its service calls for; a
      restart no section asked for starts a newly enabled service or stops a disabled one. */
  ghost predicate RightActions(i: Input, p: CyclePlan) {
    && (forall e :: e in p.restarts && e.sections != [] ==> CalledFor(i, e))
    && (forall e :: e in p.deferredRestarts ==> CalledFor(i, e))
    && (forall e :: e in p.restarts && e.sections == [] ==>
          Turned(i, e.key) && e.action == if e.key in i.cur.services then Start else Stop)
  }

  ghost predicate CalledFor(i: Input, e: RestartEntry) {
    if e.key in i.cur.services || (e.key == "opendkim" && "mta" in i.cur.services)
    then e.action == if i.systemd && Heavy(e.key) then PendingRestart else Restart
    else e.action == Stop && e.key != "archiving"
  }

  lemma {:induction false} PlanIsRight(i: Input)
    requires i.host.None? && i.carry == NO_CARRY
    ensures RightActions(i, PlanOf(i))
  {
    hide PlanOf, Wants, Heavy, Ascending;
    forall e | e in PlanOf(i).restarts
      ensures if e.sections != [] then CalledFor(i, e)
              else Turned(i, e.key) && e.action == if e.key in i.cur.services then Start else Stop
    {
      RestartPlanned(i, e);
      if Wanted(i, Id(RestartNow, e.key)) {
        var sn :| Wants(i, sn, Id(RestartNow, e.key));
        if e.key == "archiving" { ArchivingLeftAlone(i, sn, RestartNow); }
      }
    }
    forall e | e in PlanOf(i).deferredRestarts ensures CalledFor(i, e) {
      DeferralPlanned(i, e);
      if e.key == "archiving" { ArchivingLeftAlone(i, e.sections[0], RestartLater); }
    }
  }

  /** A plan says whether it is the first, and names the enabled services in order. */
  lemma {:induction false} PlanHead(i: Input)
    ensures PlanOf(i).firstRun == i.firstRun && Ascending(PlanOf(i).enabled)
    ensures forall s :: s in PlanOf(i).enabled <==> s in i.cur.services
  {
    hide Assembled, Collect, Listed, ClassifiedAll, Pruned, TouchedSections, KeepTouched, Tracked, Actions, Ascending;
  }

  /** Planning is refused exactly when more than one service is tracked and none of them is enabled. */
  lemma {:induction false} RefusedIff(i: Input)
    ensures Compute(i).AllServicesDisabled? <==> |i.tracked| > 1 && i.tracked.Keys !! i.cur.services.Keys
  {
    hide PlanOf;
  }

  /** Without host and carry a plan is empty exactly when no service was turned on or off and no section wants anything
      beyond the healing of mapped files and later restarts. */
  lemma {:induction false} EmptyIff(i: Input)
    requires i.host.None? && i.carry == NO_CARRY
    ensures IsEmpty(PlanOf(i)) <==>
              (forall s :: !Turned(i, s)) && (forall id: Id :: id.kind !in {HealFile, RestartLater} ==> !Wanted(i, id))
  {
    hide PlanOf, Turned, Wanted, Services;
    forall s ensures s in Services(PlanOf(i).restarts) <==> Wanted(i, Id(RestartNow, s)) || Turned(i, s) { NoCarryRestart(i, s); }
    NoServices(PlanOf(i).restarts);
    forall id: Id | id.kind !in {HealFile, RestartNow, RestartLater} ensures id in PlanOf(i).actions <==> Wanted(i, id) { ActionPlanned(i, id); }
    forall id | id in PlanOf(i).actions ensures id.kind !in {RestartNow, RestartLater} { ActionPlanned(i, id); }
    forall id: Id | id.kind == RestartNow ensures id == Id(RestartNow, id.name) {}
  }

  lemma {:induction false} NoCarryRestart(i: Input, s: string)
    requires i.host.None? && i.carry == NO_CARRY
    ensures s in Services(PlanOf(i).restarts) <==> Wanted(i, Id(RestartNow, s)) || Turned(i, s)
  {
    hide PlanOf, Turned, Wanted;
    RestartServices(i, s);
    assert Services([]) == {};
  }

  lemma {:induction false} NoServices(list: seq<RestartEntry>)
    ensures list == [] <==> forall s :: s !in Services(list)
  {
    if list != [] { assert list[0].key in Services(list); }
  }
}
