/** Each detection rule told by the snapshot alone: which findings it gives, on which
    evidence, and that it gives no others (aisecure/engine.py, `analyze`). */
module EngineRules {
  import opened Common
  import opened Ordering
  import opened Snapshots
  import opened Window
  import opened Engine

  // ---- AS-001, AS-005 and AS-002 -------------------------------------------------------------

  predicate Unpatched(a: Asset) { a.patch == "pending" }

  /** A flag or the patch state is unknown, or the row is too old. */
  predicate Uncertain(a: Asset, asOf: int, cfg: Config) {
    a.exposed == None || a.privilegedPath == None || a.sensitivePath == None || a.patch == "unknown"
    || asOf - a.observedAt > cfg.staleSeconds
  }

  /** A successful privileged login from an untrusted device or without an approved change,
      or with both if the configuration asks for both. */
  predicate Questionable(e: Event, cfg: Config) {
    && e.Login? && e.success && e.privileged == Some(true)
    && (if cfg.both then e.deviceTrusted == Some(false) && e.approved == Some(false)
        else e.deviceTrusted == Some(false) || e.approved == Some(false))
  }

  function OfRule(rule: Rule): Finding -> bool { (f: Finding) => f.rule == rule }

  function OnAsset(rule: Rule, a: Asset): Finding { Finding(rule, ["asset:" + a.id], None, 0) }

  function OnLogin(e: Event): Finding { Finding(AS002, [e.id], Some(e.actor), 0) }

  /** One finding for each asset that meets the condition, in the order of the assets. */
  function EachAsset(p: Asset -> bool, rule: Rule, assets: seq<Asset>): seq<Finding> {
    var kept := Filter(p, assets);
    seq(|kept|, i requires 0 <= i < |kept| => OnAsset(rule, kept[i]))
  }

  function EachLogin(cfg: Config, events: seq<Event>): seq<Finding> {
    var kept := Filter((e: Event) => Questionable(e, cfg), events);
    seq(|kept|, i requires 0 <= i < |kept| => OnLogin(kept[i]))
  }

  function UncertainAt(asOf: int, cfg: Config): Asset -> bool { (a: Asset) => Uncertain(a, asOf, cfg) }

  lemma EachAssetLast(p: Asset -> bool, rule: Rule, init: seq<Asset>, a: Asset)
    ensures EachAsset(p, rule, init + [a]) == EachAsset(p, rule, init) + if p(a) then [OnAsset(rule, a)] else []
  {
    assert (init + [a])[..|init|] == init;
  }

  lemma EachLoginLast(cfg: Config, init: seq<Event>, e: Event)
    ensures EachLogin(cfg, init + [e]) == EachLogin(cfg, init) + if Questionable(e, cfg) then [OnLogin(e)] else []
  {
    assert (init + [e])[..|init|] == init;
  }

  lemma OneAsset(a: Asset, asOf: int, cfg: Config)
    ensures Filter(OfRule(AS001), AssetFindings(a, asOf, cfg)) == if Unpatched(a) then [OnAsset(AS001, a)] else []
    ensures Filter(OfRule(AS005), AssetFindings(a, asOf, cfg)) ==
            if Uncertain(a, asOf, cfg) then [OnAsset(AS005, a)] else []
    ensures forall f :: f in AssetFindings(a, asOf, cfg) ==> f.rule == AS001 || f.rule == AS005
  {
    var one, two := OnAsset(AS001, a), OnAsset(AS005, a);
    FilterPair(OfRule(AS001), one, two);
    FilterPair(OfRule(AS005), one, two);
    assert [one] + [two] == [one, two];
  }

  lemma FilterPair(p: Finding -> bool, f: Finding, g: Finding)
    ensures Filter(p, []) == []
    ensures Filter(p, [f]) == if p(f) then [f] else []
    ensures Filter(p, [g]) == if p(g) then [g] else []
    ensures Filter(p, [f, g]) == (if p(f) then [f] else []) + if p(g) then [g] else []
  {
    assert [f][..0] == [] && [g][..0] == [] && [f, g][..1] == [f];
  }

  lemma {:induction false} AssetRules(assets: seq<Asset>, asOf: int, cfg: Config)
    ensures Filter(OfRule(AS001), AllAssetFindings(assets, asOf, cfg)) == EachAsset(Unpatched, AS001, assets)
    ensures Filter(OfRule(AS005), AllAssetFindings(assets, asOf, cfg)) ==
            EachAsset(UncertainAt(asOf, cfg), AS005, assets)
    ensures forall f :: f in AllAssetFindings(assets, asOf, cfg) ==> f.rule == AS001 || f.rule == AS005
  {
    hide AssetFindings, EachAsset, Uncertain, Unpatched;
    if assets == [] {
      NoAsset(Unpatched, AS001);
      NoAsset(UncertainAt(asOf, cfg), AS005);
    } else {
      var init, a := assets[..|assets| - 1], assets[|assets| - 1];
      assert assets == init + [a];
      AssetRules(init, asOf, cfg);
      OneAsset(a, asOf, cfg);
      EachAssetLast(Unpatched, AS001, init, a);
      EachAssetLast(UncertainAt(asOf, cfg), AS005, init, a);
      FilterAppend(OfRule(AS001), AllAssetFindings(init, asOf, cfg), AssetFindings(a, asOf, cfg));
      FilterAppend(OfRule(AS005), AllAssetFindings(init, asOf, cfg), AssetFindings(a, asOf, cfg));
    }
  }

  lemma NoAsset(p: Asset -> bool, rule: Rule)
    ensures EachAsset(p, rule, []) == []
  {
  }

  lemma {:induction false} LoginRule(events: seq<Event>, cfg: Config)
    ensures LoginFindings(events, cfg) == EachLogin(cfg, events)
  {
    if events != [] {
      var init, e := events[..|events| - 1], events[|events| - 1];
      assert events == init + [e];
      LoginRule(init, cfg);
      EachLoginLast(cfg, init, e);
    }
  }

  lemma {:induction false} LoginsOnly(events: seq<Event>, cfg: Config)
    ensures forall f :: f in LoginFindings(events, cfg) ==> f.rule == AS002
  {
    if events != [] { LoginsOnly(events[..|events| - 1], cfg); }
  }

  lemma {:induction false} BulkRules(events: seq<Event>, keys: seq<Key>, exposed: set<string>, cfg: Config)
    ensures forall f :: f in BulkFindings(events, keys, exposed, cfg) ==> f.rule == AS003 || f.rule == AS004
  {
    hide Scan, Sort, ReadsOf, LoginsOf, LatestLogin;
    if keys != [] { BulkRules(events, keys[..|keys| - 1], exposed, cfg); }
  }

  lemma OnlyThese(rule: Rule, a: seq<Finding>, b: seq<Finding>, c: seq<Finding>)
    ensures Filter(OfRule(rule), a + b + c) ==
            Filter(OfRule(rule), a) + Filter(OfRule(rule), b) + Filter(OfRule(rule), c)
  {
    FilterAppend(OfRule(rule), a + b, c);
    FilterAppend(OfRule(rule), a, b);
  }

  /** A snapshot's AS-001 findings are one for each unpatched asset, its AS-005 findings one
      for each uncertain one, and its AS-002 findings one for each questionable login. */
  lemma SingleRulesExactly(s: Snapshot, cfg: Config)
    ensures Filter(OfRule(AS001), Findings(s, cfg)) == EachAsset(Unpatched, AS001, s.assets)
    ensures Filter(OfRule(AS005), Findings(s, cfg)) == EachAsset(UncertainAt(s.asOf, cfg), AS005, s.assets)
    ensures Filter(OfRule(AS002), Findings(s, cfg)) == EachLogin(cfg, s.events)
  {
    hide EachAsset, EachLogin, Uncertain, Unpatched, Filter;
    hide AllAssetFindings, LoginFindings, BulkFindings, KeysOf, Exposed;
    var a, b := AllAssetFindings(s.assets, s.asOf, cfg), LoginFindings(s.events, cfg);
    var c := BulkFindings(s.events, KeysOf(s.events), Exposed(s.assets), cfg);
    AssetRules(s.assets, s.asOf, cfg);
    LoginRule(s.events, cfg);
    BulkRules(s.events, KeysOf(s.events), Exposed(s.assets), cfg);
    OnlyThese(AS001, a, b, c);
    OnlyThese(AS005, a, b, c);
    OnlyThese(AS002, a, b, c);
    LoginsOnly(s.events, cfg);
    FilterAll(OfRule(AS002), b);
    FilterNone(OfRule(AS001), b);
    FilterNone(OfRule(AS005), b);
    FilterNone(OfRule(AS002), a);
    FilterNone(OfRule(AS001), c);
    FilterNone(OfRule(AS005), c);
    FilterNone(OfRule(AS002), c);
  }

  // ---- AS-003 --------------------------------------------------------------------------------

  /** The event is a read by this actor in this session on this asset. */
  predicate ReadIn(e: Event, key: Key) {
    e.FileAccess? && e.actor == key.actor && e.session == key.session && e.asset == key.asset
  }

  /** Events that read within one window. */
  ghost predicate Together(s: Snapshot, key: Key, cfg: Config, picks: set<Event>) {
    && (forall e :: e in picks ==> e in s.events && ReadIn(e, key))
    && (forall d, e :: d in picks && e in picks ==> d.at - e.at <= cfg.window)
  }

  function FilesRead(picks: set<Event>): set<string>
    requires forall e :: e in picks ==> e.FileAccess?
  {
    set e | e in picks :: e.file
  }

  ghost predicate ManyFiles(s: Snapshot, key: Key, cfg: Config, picks: set<Event>) {
    Together(s, key, cfg, picks) && |FilesRead(picks)| >= cfg.threshold
  }

  lemma {:induction false} ReadsAre(events: seq<Event>, key: Key)
    ensures forall r :: r in ReadsOf(events, key) <==> exists e :: e in events && ReadIn(e, key) && r == AsRead(e)
  {
    if events != [] {
      var init, last := events[..|events| - 1], events[|events| - 1];
      ReadsAre(init, key);
      assert events == init + [last];
      forall r
        ensures r in ReadsOf(events, key) <==> exists e :: e in events && ReadIn(e, key) && r == AsRead(e)
      {
        if r in ReadsOf(init, key) {
          var e :| e in init && ReadIn(e, key) && r == AsRead(e);
          assert e in events;
        }
        if e :| e in events && ReadIn(e, key) && r == AsRead(e) {
          assert e in init || e == last;
        }
      }
    }
  }

  lemma LogHolds(s: Snapshot, key: Key)
    ensures forall r :: r in LogOf(s, key) <==> exists e :: e in s.events && ReadIn(e, key) && r == AsRead(e)
  {
    hide ReadsOf, Sort;
    var group := ReadsOf(s.events, key);
    ReadsAre(s.events, key);
    SortPermutes(Window.BY_TIME, group);
    assert forall r :: r in LogOf(s, key) <==> r in multiset(LogOf(s, key));
    assert forall r :: r in group <==> r in multiset(group);
  }

  /** The reads of a group stand by time and, at the same time, by identifier. */
  lemma ReadsInOrder(s: Snapshot, key: Key)
    ensures var log := LogOf(s, key);
            && multiset(log) == multiset(ReadsOf(s.events, key))
            && forall i, j :: 0 <= i < j < |log| ==>
                 || log[i].at < log[j].at
                 || (log[i].at == log[j].at && !TextLess(log[j].id, log[i].id))
  {
    hide TextLess, Sort, ReadsOf;
    SortPermutes(Window.BY_TIME, ReadsOf(s.events, key));
    SortSorted(Window.BY_TIME, ReadsOf(s.events, key));
    var log := LogOf(s, key);
    assert forall i, j :: 0 <= i < j < |log| ==> !StampLess(Window.BY_TIME(log[j]), Window.BY_TIME(log[i]));
  }

  /** The event is the read at one of these positions. */
  predicate Picked(e: Event, key: Key, log: seq<Read>, at: set<nat>) {
    ReadIn(e, key) && exists i :: i in at && i < |log| && log[i] == AsRead(e)
  }

  /** Positions of the log stand for events, and events for positions. */
  lemma PicksOfLog(s: Snapshot, key: Key, cfg: Config, log: seq<Read>, at: set<nat>) returns (picks: set<Event>)
    requires log == LogOf(s, key) && Fits(log, cfg.window, at)
    ensures Together(s, key, cfg, picks) && FilesRead(picks) == FilesAt(log, at)
  {
    hide LogOf, Picked;
    picks := set e | e in s.events && Picked(e, key, log, at);
    PickedReads(key, log, at);
    LogHolds(s, key);
    forall i | i in at ensures exists e :: e in picks && e.file == log[i].file {
      assert log[i] in log;
      var e :| e in s.events && ReadIn(e, key) && log[i] == AsRead(e);
      PickedAt(e, key, log, at, i);
    }
    forall d, e | d in picks && e in picks ensures d.at - e.at <= cfg.window {
      var i :| i in at && i < |log| && log[i] == AsRead(d);
      var j :| j in at && j < |log| && log[j] == AsRead(e);
    }
  }

  lemma PickedReads(key: Key, log: seq<Read>, at: set<nat>)
    ensures forall e :: Picked(e, key, log, at) ==>
              ReadIn(e, key) && exists i :: i in at && i < |log| && log[i] == AsRead(e)
  {
  }

  lemma PickedAt(e: Event, key: Key, log: seq<Read>, at: set<nat>, i: nat)
    requires i in at && i < |log| && ReadIn(e, key) && log[i] == AsRead(e)
    ensures Picked(e, key, log, at)
  {
  }

  lemma LogOfPicks(s: Snapshot, key: Key, cfg: Config, log: seq<Read>, picks: set<Event>) returns (at: set<nat>)
    requires log == LogOf(s, key) && Together(s, key, cfg, picks)
    ensures Fits(log, cfg.window, at) && FilesRead(picks) == FilesAt(log, at)
  {
    hide LogOf;
    LogHolds(s, key);
    at := set i: nat | i < |log| && exists e :: e in picks && AsRead(e) == log[i];
    forall file | file in FilesRead(picks) ensures file in FilesAt(log, at) {
      var e :| e in picks && e.file == file;
      assert AsRead(e) in log;
      var i :| 0 <= i < |log| && log[i] == AsRead(e);
      assert i in at;
    }
    forall i, j | i in at && j in at ensures log[i].at - log[j].at <= cfg.window {
      var d :| d in picks && AsRead(d) == log[i];
      var e :| e in picks && AsRead(e) == log[j];
    }
  }

  lemma BulkIsManyFiles(s: Snapshot, key: Key, cfg: Config)
    ensures BulkAccess(s, key, cfg) <==> exists picks :: ManyFiles(s, key, cfg, picks)
  {
    hide Together, FilesRead;
    var log := LogOf(s, key);
    if BulkAccess(s, key, cfg) {
      var at :| Fits(log, cfg.window, at) && |FilesAt(log, at)| >= cfg.threshold;
      var picks := PicksOfLog(s, key, cfg, log, at);
      assert ManyFiles(s, key, cfg, picks);
    }
    forall picks | ManyFiles(s, key, cfg, picks) ensures BulkAccess(s, key, cfg) {
      var at := LogOfPicks(s, key, cfg, log, picks);
    }
  }

  /** The AS-003 finding of a group: all reads of its first best window, and how many files
      that is. */
  function BulkFinding(s: Snapshot, key: Key, cfg: Config): Finding {
    var best := BestOf(s, key, cfg);
    Finding(AS003, seq(|best|, i requires 0 <= i < |best| => best[i].id), Some(key.actor),
            |set r | r in best :: r.file|)
  }

  lemma {:induction false} PeakIsOfBest(log: seq<Read>, window: nat, n: nat)
    requires n <= |log|
    ensures |Files(Scan(log, window, n).0)| == Scan(log, window, n).1
  {
    hide WindowAt;
    if n > 0 { PeakIsOfBest(log, window, n - 1); } else { assert Files([]) == {}; }
  }

  lemma GroupBulk(s: Snapshot, key: Key, cfg: Config, f: Finding)
    requires cfg.threshold >= 2
    ensures f.rule == AS003 && Reports(s.events, key, Exposed(s.assets), cfg, f) <==>
              f == BulkFinding(s, key, cfg) && exists picks :: ManyFiles(s, key, cfg, picks)
  {
    hide Together, FilesRead, Fits, FilesAt, Correlation, Scan;
    var log := LogOf(s, key);
    BulkIsManyFiles(s, key, cfg);
    SortAscends(ReadsOf(s.events, key));
    BulkExactly(log, cfg.window, cfg.threshold);
    var (best, peak) := Scan(log, cfg.window, |log|);
    PeakIsOfBest(log, cfg.window, |log|);
    if peak >= cfg.threshold {
      var exposed, logins := Exposed(s.assets), LoginsOf(s.events, key.actor, key.session);
      CorrelationRule(best, peak, key, logins, exposed, cfg);
      var all := FindingsOf(s.events, key, exposed, cfg);
      assert EvidenceIds(best) == seq(|best|, i requires 0 <= i < |best| => best[i].id);
      assert all == [BulkFinding(s, key, cfg)] + Correlation(best, peak, key, logins, exposed, cfg);
      assert all[0] == BulkFinding(s, key, cfg);
    }
  }

  lemma CorrelationRule(best: seq<Read>, peak: nat, key: Key, logins: seq<Event>, exposed: set<string>, cfg: Config)
    requires best != [] && forall l :: l in logins ==> l.Login?
    ensures forall f :: f in Correlation(best, peak, key, logins, exposed, cfg) ==> f.rule == AS004
  {
  }

  /** A snapshot's AS-003 findings are exactly those of the groups in which some reads within
      the window touch enough distinct files. */
  lemma BulkRuleOfSnapshot(s: Snapshot, cfg: Config, f: Finding)
    requires cfg.threshold >= 2
    ensures f.rule == AS003 && f in Findings(s, cfg) <==>
              exists key, picks :: f == BulkFinding(s, key, cfg) && ManyFiles(s, key, cfg, picks)
  {
    hide Reports, BulkFinding, ManyFiles, BulkFindings;
    var keys, exposed := KeysOf(s.events), Exposed(s.assets);
    OtherRulesAreOther(s, cfg);
    BulkFindingsByGroup(s.events, keys, exposed, cfg, f);
    if f.rule == AS003 && f in Findings(s, cfg) {
      var key :| key in keys && Reports(s.events, key, exposed, cfg, f);
      GroupBulk(s, key, cfg, f);
    }
    forall key, picks | f == BulkFinding(s, key, cfg) && ManyFiles(s, key, cfg, picks)
      ensures f.rule == AS003 && f in Findings(s, cfg)
    {
      GroupBulk(s, key, cfg, f);
      if key !in keys { EmptyGroup(s, key, cfg, f); }
    }
  }

  lemma EmptyGroup(s: Snapshot, key: Key, cfg: Config, f: Finding)
    requires key !in KeysOf(s.events)
    ensures !Reports(s.events, key, Exposed(s.assets), cfg, f)
  {
    KeysComplete(s.events, key);
    NothingRead(s, key, cfg);
  }

  // ---- AS-004 --------------------------------------------------------------------------------

  /** The successful logins of the group's actor and session, in the order of events. */
  function SessionLogins(s: Snapshot, key: Key): seq<Event> {
    Filter((e: Event) => e.Login? && e.success && e.actor == key.actor && e.session == key.session, s.events)
  }

  /** Not after the first read and not too long before it. */
  predicate InReach(l: Event, start: int, cfg: Config) { l.at <= start && start - l.at <= cfg.lookback }

  /** Of the logins in reach, position `i` is the first of the latest. */
  predicate Deciding(logins: seq<Event>, i: nat, start: int, cfg: Config) {
    && i < |logins| && InReach(logins[i], start, cfg)
    && (forall j :: 0 <= j < i && InReach(logins[j], start, cfg) ==> logins[j].at < logins[i].at)
    && (forall j :: i < j < |logins| && InReach(logins[j], start, cfg) ==> logins[j].at <= logins[i].at)
  }

  /** The asset is listed as unpatched and exposed. */
  predicate OpenAsset(s: Snapshot, id: string) {
    exists a :: a in s.assets && a.id == id && a.patch == "pending" && a.exposed == Some(true)
  }

  /** How many files with a sensitive label the reads touch. */
  function SensitiveCount(best: seq<Read>): nat { |set r | r in best && r.sensitive == Some(true) :: r.file| }

  lemma {:induction false} LoginsAre(events: seq<Event>, key: Key)
    ensures LoginsOf(events, key.actor, key.session) ==
            Filter((e: Event) => e.Login? && e.success && e.actor == key.actor && e.session == key.session, events)
  {
    if events != [] { LoginsAre(events[..|events| - 1], key); }
  }

  /** The group's correlation looks at this login. */
  ghost predicate Blames(s: Snapshot, key: Key, cfg: Config, i: nat) {
    && BestOf(s, key, cfg) != [] && Deciding(SessionLogins(s, key), i, BestOf(s, key, cfg)[0].at, cfg)
    && Questionable(SessionLogins(s, key)[i], cfg) && OpenAsset(s, SessionLogins(s, key)[i].gateway)
  }

  lemma DecidingSplit(logins: seq<Event>, i: nat, start: int, cfg: Config)
    requires i < |logins| && forall l :: l in logins ==> l.Login?
    ensures Deciding(logins, i, start, cfg) <==>
              Decides(logins[..i], logins[i], logins[i + 1..], start, cfg.lookback)
    ensures logins == logins[..i] + [logins[i]] + logins[i + 1..]
  {
    var b, a := logins[..i], logins[i + 1..];
    assert forall j :: 0 <= j < i ==> b[j] == logins[j] && b[j] in b;
    assert forall j :: i < j < |logins| ==> a[j - i - 1] == logins[j] && logins[j] in a;
    assert forall l :: l in b ==> l in logins;
    assert forall l :: l in a ==> l in logins;
  }

  lemma SessionLoginsAre(s: Snapshot, key: Key)
    ensures SessionLogins(s, key) == LoginsOf(s.events, key.actor, key.session)
    ensures forall l :: l in SessionLogins(s, key) ==> l.Login? && l.success
  {
    LoginsAre(s.events, key);
  }

  lemma OpenIsExposed(s: Snapshot, id: string)
    ensures id in Exposed(s.assets) <==> OpenAsset(s, id)
  {
  }

  /** What the finding of a group on this login says. */
  function LinkFinding(key: Key, login: Event, best: seq<Read>): Finding
    requires login.Login?
  {
    Finding(AS004,
            ["asset:" + login.gateway, login.id] + seq(|best|, i requires 0 <= i < |best| => best[i].id),
            Some(key.actor), |set r | r in best :: r.file|)
  }

  ghost predicate Links(s: Snapshot, key: Key, cfg: Config, i: nat, f: Finding) {
    && (exists picks :: ManyFiles(s, key, cfg, picks)) && Blames(s, key, cfg, i)
    && SensitiveCount(BestOf(s, key, cfg)) >= cfg.sensitiveMinimum
    && f == LinkFinding(key, SessionLogins(s, key)[i], BestOf(s, key, cfg))
  }

  lemma CorrelationIs(best: seq<Read>, peak: nat, key: Key, logins: seq<Event>, i: nat, exposed: set<string>,
                      cfg: Config)
    requires best != [] && (forall l :: l in logins ==> l.Login? && l.success)
    requires i < |logins| && Deciding(logins, i, best[0].at, cfg) && peak == |Files(best)|
    ensures Correlation(best, peak, key, logins, exposed, cfg) ==
            if && Questionable(logins[i], cfg) && logins[i].gateway in exposed
               && SensitiveCount(best) >= cfg.sensitiveMinimum
            then [LinkFinding(key, logins[i], best)] else []
  {
    hide Deciding, Decides, SensitiveCount, SensitiveFiles;
    DecidingSplit(logins, i, best[0].at, cfg);
    DecidingLogin(logins[..i], logins[i], logins[i + 1..], best[0].at, cfg.lookback);
    SameFilter(EligibleAt(best[0].at, cfg.lookback), (l: Event) => Eligible(l, best[0].at, cfg.lookback), logins);
    SensitiveIs(best);
    assert EvidenceIds(best) == seq(|best|, i requires 0 <= i < |best| => best[i].id);
  }

  lemma GroupCorrelation(s: Snapshot, key: Key, cfg: Config, f: Finding)
    requires cfg.threshold >= 2
    ensures var (best, peak) := Scan(LogOf(s, key), cfg.window, |LogOf(s, key)|);
            f.rule == AS004 && Reports(s.events, key, Exposed(s.assets), cfg, f) <==>
              peak >= cfg.threshold
              && f in Correlation(best, peak, key, LoginsOf(s.events, key.actor, key.session), Exposed(s.assets), cfg)
  {
    hide Scan, Correlation, LoginsOf, Exposed, EvidenceIds;
    var (best, peak) := Scan(LogOf(s, key), cfg.window, |LogOf(s, key)|);
    if peak >= cfg.threshold {
      var exposed, logins := Exposed(s.assets), LoginsOf(s.events, key.actor, key.session);
      CorrelationRule(best, peak, key, logins, exposed, cfg);
      var first := Finding(AS003, EvidenceIds(best), Some(key.actor), peak);
      assert FindingsOf(s.events, key, exposed, cfg) == [first] + Correlation(best, peak, key, logins, exposed, cfg);
    }
  }

  lemma GroupLinks(s: Snapshot, key: Key, cfg: Config, f: Finding)
    requires cfg.threshold >= 2
    ensures f.rule == AS004 && Reports(s.events, key, Exposed(s.assets), cfg, f) <==>
              exists i: nat :: Links(s, key, cfg, i, f)
  {
    hide ManyFiles, Fits, FilesAt, Scan, Correlation, Deciding, Decides, LogOf, Questionable, SensitiveCount;
    hide SessionLogins, LoginsOf, Exposed, OpenAsset, EvidenceIds, Reports;
    var log, logins, exposed := LogOf(s, key), SessionLogins(s, key), Exposed(s.assets);
    var (best, peak) := Scan(log, cfg.window, |log|);
    GroupCorrelation(s, key, cfg, f);
    BulkIsManyFiles(s, key, cfg);
    PeakReaches(s, key, cfg);
    PeakIsOfBest(log, cfg.window, |log|);
    SessionLoginsAre(s, key);
    if peak >= cfg.threshold {
      forall i: nat | i < |logins| && Deciding(logins, i, best[0].at, cfg)
        ensures Correlation(best, peak, key, logins, exposed, cfg) ==
                if && Questionable(logins[i], cfg) && OpenAsset(s, logins[i].gateway)
                   && SensitiveCount(best) >= cfg.sensitiveMinimum
                then [LinkFinding(key, logins[i], best)] else []
      {
        CorrelationIs(best, peak, key, logins, i, exposed, cfg);
        OpenIsExposed(s, logins[i].gateway);
      }
      forall i: nat | Links(s, key, cfg, i, f) ensures f in Correlation(best, peak, key, logins, exposed, cfg) {
        DecidingInRange(logins, i, best[0].at, cfg);
        assert Correlation(best, peak, key, logins, exposed, cfg) == [LinkFinding(key, logins[i], best)];
      }
      if f in Correlation(best, peak, key, logins, exposed, cfg) {
        var i := SomeDeciding(best, peak, key, logins, exposed, cfg);
        assert Correlation(best, peak, key, logins, exposed, cfg) == [LinkFinding(key, logins[i], best)];
        assert Blames(s, key, cfg, i);
        assert Links(s, key, cfg, i, f);
      }
    }
  }

  lemma SomeDeciding(best: seq<Read>, peak: nat, key: Key, logins: seq<Event>, exposed: set<string>, cfg: Config)
    returns (i: nat)
    requires best != [] && (forall l :: l in logins ==> l.Login?)
    requires Correlation(best, peak, key, logins, exposed, cfg) != []
    ensures i < |logins| && Deciding(logins, i, best[0].at, cfg)
  {
    hide Correlation, Deciding, Decides;
    EligibleExists(best, peak, key, logins, exposed, cfg);
    var b, login, a := SomeDecides(logins, best[0].at, cfg.lookback);
    assert logins[..|b|] == b && logins[|b|] == login && logins[|b| + 1..] == a;
    i := |b|;
    DecidingSplit(logins, i, best[0].at, cfg);
  }

  /** A snapshot's AS-004 findings are exactly those of the groups that have a bulk access with
      enough sensitive files after a questionable login over an exposed, unpatched gateway, told
      with the gateway, the login and every read of the window. */
  lemma CorrelationOfSnapshot(s: Snapshot, cfg: Config, f: Finding)
    requires cfg.threshold >= 2
    ensures f.rule == AS004 && f in Findings(s, cfg) <==> exists key, i: nat :: Links(s, key, cfg, i, f)
  {
    hide Reports, Links, BulkFindings;
    var keys, exposed := KeysOf(s.events), Exposed(s.assets);
    OtherRulesAreOther(s, cfg);
    BulkFindingsByGroup(s.events, keys, exposed, cfg, f);
    if f.rule == AS004 && f in Findings(s, cfg) {
      var key :| key in keys && Reports(s.events, key, exposed, cfg, f);
      GroupLinks(s, key, cfg, f);
    }
    forall key, i: nat | Links(s, key, cfg, i, f) ensures f.rule == AS004 && f in Findings(s, cfg) {
      GroupLinks(s, key, cfg, f);
      if key !in keys { EmptyGroup(s, key, cfg, f); }
    }
  }

  lemma DecidingInRange(logins: seq<Event>, i: nat, start: int, cfg: Config)
    ensures Deciding(logins, i, start, cfg) ==> i < |logins|
  {
  }

  lemma SensitiveIs(best: seq<Read>)
    ensures SensitiveCount(best) == |SensitiveFiles(best)|
  {
    assert SensitiveFiles(best) == set r | r in best && r.sensitive == Some(true) :: r.file;
  }

  lemma PeakReaches(s: Snapshot, key: Key, cfg: Config)
    requires cfg.threshold >= 2
    ensures Scan(LogOf(s, key), cfg.window, |LogOf(s, key)|).1 >= cfg.threshold <==> BulkAccess(s, key, cfg)
  {
    SortAscends(ReadsOf(s.events, key));
    BulkExactly(LogOf(s, key), cfg.window, cfg.threshold);
  }

  // ---- one finding for each group --------------------------------------------------------------

  type Found = seq<(Key, Finding)>

  function Seconds(found: Found): seq<Finding> { seq(|found|, i requires 0 <= i < |found| => found[i].1) }

  ghost predicate Among(found: Found, key: Key) { exists i :: 0 <= i < |found| && found[i].0 == key }

  /** The groups with a finding of this rule, each once and with what it says, in the order
      found. */
  ghost predicate EachOnce(found: Found, s: Snapshot, cfg: Config, rule: Rule) {
    && (forall i, j :: 0 <= i < j < |found| ==> found[i].0 != found[j].0)
    && Filter(OfRule(rule), Findings(s, cfg)) == Seconds(found)
  }

  function OfGroup(s: Snapshot, key: Key, cfg: Config, rule: Rule): seq<Finding> {
    Filter(OfRule(rule), FindingsOf(s.events, key, Exposed(s.assets), cfg))
  }

  lemma {:induction false} KeysDistinct(events: seq<Event>)
    ensures NoDuplicates(KeysOf(events))
  {
    if events != [] { KeysDistinct(events[..|events| - 1]); }
  }

  lemma AtMostOneLink(best: seq<Read>, peak: nat, key: Key, logins: seq<Event>, exposed: set<string>, cfg: Config)
    requires best != [] && forall l :: l in logins ==> l.Login?
    ensures |Correlation(best, peak, key, logins, exposed, cfg)| <= 1
  {
  }

  /** A group has at most one finding of either rule. */
  lemma OneOfGroup(s: Snapshot, key: Key, cfg: Config, rule: Rule)
    requires cfg.threshold >= 2 && (rule == AS003 || rule == AS004)
    ensures |OfGroup(s, key, cfg, rule)| <= 1
  {
    hide Scan, Correlation, LoginsOf, Exposed, EvidenceIds;
    var (best, peak) := Scan(LogOf(s, key), cfg.window, |LogOf(s, key)|);
    if peak >= cfg.threshold {
      var exposed, logins := Exposed(s.assets), LoginsOf(s.events, key.actor, key.session);
      var c := Correlation(best, peak, key, logins, exposed, cfg);
      CorrelationRule(best, peak, key, logins, exposed, cfg);
      AtMostOneLink(best, peak, key, logins, exposed, cfg);
      var first := Finding(AS003, EvidenceIds(best), Some(key.actor), peak);
      FilterPair(OfRule(rule), first, if c == [] then first else c[0]);
      assert FindingsOf(s.events, key, exposed, cfg) == if c == [] then [first] else [first, c[0]];
    } else {
      assert FindingsOf(s.events, key, Exposed(s.assets), cfg) == [];
    }
  }

  lemma OneMore(before: Found, key: Key, f: Finding)
    requires (forall i, j :: 0 <= i < j < |before| ==> before[i].0 != before[j].0) && !Among(before, key)
    ensures var found := before + [(key, f)];
            && (forall i, j :: 0 <= i < j < |found| ==> found[i].0 != found[j].0)
            && Seconds(found) == Seconds(before) + [f]
            && forall k :: Among(found, k) <==> Among(before, k) || k == key
  {
    var found := before + [(key, f)];
    assert found[|before|].0 == key;
    forall k | Among(before, k) ensures Among(found, k) {
      var i :| 0 <= i < |before| && before[i].0 == k;
      assert found[i].0 == k;
    }
    forall i | 0 <= i < |before| ensures found[i].0 != key { assert before[i].0 == found[i].0; }
  }

  lemma {:induction false} GroupsOnce(s: Snapshot, keys: seq<Key>, cfg: Config, rule: Rule) returns (found: Found)
    requires cfg.threshold >= 2 && (rule == AS003 || rule == AS004) && NoDuplicates(keys)
    ensures forall i, j :: 0 <= i < j < |found| ==> found[i].0 != found[j].0
    ensures forall i :: 0 <= i < |found| ==> OfGroup(s, found[i].0, cfg, rule) == [found[i].1]
    ensures forall key :: Among(found, key) <==> key in keys && OfGroup(s, key, cfg, rule) != []
    ensures Filter(OfRule(rule), BulkFindings(s.events, keys, Exposed(s.assets), cfg)) == Seconds(found)
  {
    hide FindingsOf, Exposed, OfGroup, Among, Filter;
    if keys == [] {
      found := [];
      NoneFound(rule);
    } else {
      var init, last := keys[..|keys| - 1], keys[|keys| - 1];
      assert keys == init + [last] && last !in init;
      var before := GroupsOnce(s, init, cfg, rule);
      OneOfGroup(s, last, cfg, rule);
      LastGroup(s, init, last, cfg, rule);
      var mine := OfGroup(s, last, cfg, rule);
      if mine == [] {
        found := before;
      } else {
        OneMore(before, last, mine[0]);
        found := before + [(last, mine[0])];
      }
    }
  }

  lemma NoneFound(rule: Rule)
    ensures Filter(OfRule(rule), []) == Seconds([]) && forall key :: !Among([], key)
  {
  }

  lemma LastGroup(s: Snapshot, init: seq<Key>, last: Key, cfg: Config, rule: Rule)
    ensures Filter(OfRule(rule), BulkFindings(s.events, init + [last], Exposed(s.assets), cfg)) ==
            Filter(OfRule(rule), BulkFindings(s.events, init, Exposed(s.assets), cfg)) + OfGroup(s, last, cfg, rule)
  {
    hide FindingsOf, Exposed, Filter;
    assert (init + [last])[..|init|] == init;
    FilterAppend(OfRule(rule), BulkFindings(s.events, init, Exposed(s.assets), cfg),
                 FindingsOf(s.events, last, Exposed(s.assets), cfg));
  }

  lemma OnlyGroups(s: Snapshot, cfg: Config, rule: Rule)
    requires rule == AS003 || rule == AS004
    ensures Filter(OfRule(rule), Findings(s, cfg)) ==
            Filter(OfRule(rule), BulkFindings(s.events, KeysOf(s.events), Exposed(s.assets), cfg))
  {
    hide AllAssetFindings, LoginFindings, BulkFindings, KeysOf, Exposed, Filter;
    var a, b := AllAssetFindings(s.assets, s.asOf, cfg), LoginFindings(s.events, cfg);
    var c := BulkFindings(s.events, KeysOf(s.events), Exposed(s.assets), cfg);
    AssetRules(s.assets, s.asOf, cfg);
    LoginsOnly(s.events, cfg);
    FilterNone(OfRule(rule), a);
    FilterNone(OfRule(rule), b);
    OnlyThese(rule, a, b, c);
  }

  /** A group has a finding of a rule exactly if it reports one. */
  lemma OfGroupReports(s: Snapshot, key: Key, cfg: Config, rule: Rule)
    ensures forall f :: f in OfGroup(s, key, cfg, rule) <==>
              f.rule == rule && Reports(s.events, key, Exposed(s.assets), cfg, f)
    ensures OfGroup(s, key, cfg, rule) != [] ==> key in KeysOf(s.events)
  {
    hide FindingsOf, Exposed, KeysOf;
    if OfGroup(s, key, cfg, rule) != [] && key !in KeysOf(s.events) {
      var f := OfGroup(s, key, cfg, rule)[0];
      assert f in OfGroup(s, key, cfg, rule);
      EmptyGroup(s, key, cfg, f);
    }
  }

  /** Every group with a bulk access has one AS-003 finding, and there are no others. */
  lemma OneBulkPerGroup(s: Snapshot, cfg: Config) returns (found: Found)
    requires cfg.threshold >= 2
    ensures EachOnce(found, s, cfg, AS003)
    ensures forall i :: 0 <= i < |found| ==> found[i].1 == BulkFinding(s, found[i].0, cfg)
    ensures forall key :: Among(found, key) <==> exists picks :: ManyFiles(s, key, cfg, picks)
  {
    hide Findings, BulkFindings, KeysOf, Exposed, BulkFinding, ManyFiles, OfGroup, Reports, Among, Filter;
    KeysDistinct(s.events);
    OnlyGroups(s, cfg, AS003);
    found := GroupsOnce(s, KeysOf(s.events), cfg, AS003);
    forall key
      ensures forall f :: f in OfGroup(s, key, cfg, AS003) <==>
                f == BulkFinding(s, key, cfg) && exists picks :: ManyFiles(s, key, cfg, picks)
      ensures OfGroup(s, key, cfg, AS003) != [] ==> key in KeysOf(s.events)
    {
      OfGroupReports(s, key, cfg, AS003);
      forall f { GroupBulk(s, key, cfg, f); }
    }
    forall i | 0 <= i < |found| ensures found[i].1 == BulkFinding(s, found[i].0, cfg) {
      assert found[i].1 in OfGroup(s, found[i].0, cfg, AS003);
    }
    forall key ensures OfGroup(s, key, cfg, AS003) != [] <==> exists picks :: ManyFiles(s, key, cfg, picks) {
      if OfGroup(s, key, cfg, AS003) != [] { assert OfGroup(s, key, cfg, AS003)[0] in OfGroup(s, key, cfg, AS003); }
      if exists picks :: ManyFiles(s, key, cfg, picks) {
        assert BulkFinding(s, key, cfg) in OfGroup(s, key, cfg, AS003);
      }
    }
  }

  ghost predicate Linked(s: Snapshot, key: Key, cfg: Config, f: Finding) { exists i: nat :: Links(s, key, cfg, i, f) }

  /** Every group with a correlation has one AS-004 finding, and there are no others. */
  lemma OneLinkPerGroup(s: Snapshot, cfg: Config) returns (found: Found)
    requires cfg.threshold >= 2
    ensures EachOnce(found, s, cfg, AS004)
    ensures forall i :: 0 <= i < |found| ==> Linked(s, found[i].0, cfg, found[i].1)
    ensures forall key :: Among(found, key) <==> exists f :: Linked(s, key, cfg, f)
  {
    hide Findings, BulkFindings, KeysOf, Exposed, Linked, OfGroup, Reports, Among, Filter;
    KeysDistinct(s.events);
    OnlyGroups(s, cfg, AS004);
    found := GroupsOnce(s, KeysOf(s.events), cfg, AS004);
    forall key
      ensures forall f :: f in OfGroup(s, key, cfg, AS004) <==> Linked(s, key, cfg, f)
      ensures OfGroup(s, key, cfg, AS004) != [] ==> key in KeysOf(s.events)
    {
      OfGroupReports(s, key, cfg, AS004);
      forall f: Finding { LinkedIs(s, key, cfg, f); }
    }
    forall i | 0 <= i < |found| ensures Linked(s, found[i].0, cfg, found[i].1) {
      assert found[i].1 in OfGroup(s, found[i].0, cfg, AS004);
    }
    forall key ensures OfGroup(s, key, cfg, AS004) != [] <==> exists f :: Linked(s, key, cfg, f) {
      if OfGroup(s, key, cfg, AS004) != [] { assert OfGroup(s, key, cfg, AS004)[0] in OfGroup(s, key, cfg, AS004); }
      if f :| Linked(s, key, cfg, f) { assert f in OfGroup(s, key, cfg, AS004); }
    }
  }

  lemma LinkedIs(s: Snapshot, key: Key, cfg: Config, f: Finding)
    requires cfg.threshold >= 2
    ensures f.rule == AS004 && Reports(s.events, key, Exposed(s.assets), cfg, f) <==> Linked(s, key, cfg, f)
  {
    hide Reports, Links;
    GroupLinks(s, key, cfg, f);
  }
}
