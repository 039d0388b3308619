/** The detection rules (aisecure/engine.py, `analyze`). Findings are listed in the
    order they are found; the final sort by priority is not part of this model. */
module Engine {
  import opened Common
  import opened Ordering
  import opened Snapshots
  import opened Window

  type Snapshot = Normal

  datatype Config = Config(window: nat, threshold: nat, lookback: nat, sensitiveMinimum: nat, staleSeconds: nat,
                           both: bool)

  datatype Rule = AS001 | AS002 | AS003 | AS004 | AS005

  /** An event's identifier, or an asset's behind its prefix. */
  type Evidence = string

  datatype Finding = Finding(rule: Rule, evidence: seq<Evidence>, actor: Option<string>, distinct: nat)

  datatype Key = Key(actor: string, session: string, asset: string)

  function AssetRef(id: string): Evidence { "asset:" + id }

  // ---- the rules one by one ---------------------------------------------------------

  predicate Suspicious(e: Event, cfg: Config)
    requires e.Login?
  {
    e.privileged == Some(true)
    && if cfg.both then e.deviceTrusted == Some(false) && e.approved == Some(false)
       else e.deviceTrusted == Some(false) || e.approved == Some(false)
  }

  predicate ExposedPending(a: Asset) { a.patch == "pending" && a.exposed == Some(true) }

  function AssetFindings(a: Asset, asOf: int, cfg: Config): seq<Finding> {
    (if a.patch == "pending" then [Finding(AS001, [AssetRef(a.id)], None, 0)] else [])
    + (if a.exposed.None? || a.privilegedPath.None? || a.sensitivePath.None? || a.patch == "unknown"
          || asOf - a.observedAt > cfg.staleSeconds
       then [Finding(AS005, [AssetRef(a.id)], None, 0)] else [])
  }

  function AllAssetFindings(assets: seq<Asset>, asOf: int, cfg: Config): seq<Finding> {
    if assets == [] then []
    else AllAssetFindings(assets[..|assets| - 1], asOf, cfg) + AssetFindings(assets[|assets| - 1], asOf, cfg)
  }

  function Exposed(assets: seq<Asset>): set<string> {
    set a | a in assets && ExposedPending(a) :: a.id
  }

  function LoginFindings(events: seq<Event>, cfg: Config): seq<Finding> {
    if events == [] then []
    else
      var e := events[|events| - 1];
      LoginFindings(events[..|events| - 1], cfg)
      + if e.Login? && e.success && Suspicious(e, cfg) then [Finding(AS002, [e.id], Some(e.actor), 0)] else []
  }

  /** The successful logins of one session, in event order. */
  function LoginsOf(events: seq<Event>, actor: string, session: string): (r: seq<Event>)
    ensures forall e :: e in r ==> e.Login?
  {
    if events == [] then []
    else
      var e := events[|events| - 1];
      LoginsOf(events[..|events| - 1], actor, session)
      + if e.Login? && e.success && e.actor == actor && e.session == session then [e] else []
  }

  predicate Accesses(e: Event, key: Key) {
    e.FileAccess? && Key(e.actor, e.session, e.asset) == key
  }

  function AsRead(e: Event): Read
    requires e.FileAccess?
  {
    Read(e.at, e.id, e.file, e.sensitive)
  }

  function ReadsOf(events: seq<Event>, key: Key): seq<Read> {
    if events == [] then []
    else
      var e := events[|events| - 1];
      ReadsOf(events[..|events| - 1], key) + if Accesses(e, key) then [AsRead(e)] else []
  }

  /** The groups, in the order their first event appears. */
  function KeysOf(events: seq<Event>): seq<Key> {
    if events == [] then []
    else
      var e, keys := events[|events| - 1], KeysOf(events[..|events| - 1]);
      if e.FileAccess? && Key(e.actor, e.session, e.asset) !in keys then keys + [Key(e.actor, e.session, e.asset)]
      else keys
  }

  function SensitiveFiles(best: seq<Read>): set<FileId> {
    set r | r in best && r.sensitive == Some(true) :: r.file
  }

  function EvidenceIds(best: seq<Read>): seq<Evidence> {
    seq(|best|, i requires 0 <= i < |best| => best[i].id)
  }

  predicate Eligible(login: Event, start: int, lookback: nat) {
    login.Login? && 0 <= start - login.at <= lookback
  }

  /** Python's `max(..., key=at)`: the first of the latest. */
  function LatestLogin(logins: seq<Event>): (r: Event)
    requires logins != []
    ensures r in logins && forall l :: l in logins ==> l.at <= r.at
  {
    var last := logins[|logins| - 1];
    if |logins| == 1 then last
    else
      var best := LatestLogin(logins[..|logins| - 1]);
      assert logins == logins[..|logins| - 1] + [last];
      if last.at > best.at then last else best
  }

  function Correlation(best: seq<Read>, peak: nat, key: Key, logins: seq<Event>, exposed: set<string>,
                       cfg: Config): seq<Finding>
    requires best != [] && forall l :: l in logins ==> l.Login?
  {
    var eligible := Filter((l: Event) => Eligible(l, best[0].at, cfg.lookback), logins);
    if eligible == [] then []
    else
      var login := LatestLogin(eligible);
      if !Suspicious(login, cfg) || login.gateway !in exposed || |SensitiveFiles(best)| < cfg.sensitiveMinimum then []
      else [Finding(AS004, [AssetRef(login.gateway), login.id] + EvidenceIds(best), Some(key.actor), peak)]
  }

  function GroupFindings(log: seq<Read>, key: Key, logins: seq<Event>, exposed: set<string>, cfg: Config): seq<Finding>
    requires forall l :: l in logins ==> l.Login?
  {
    var (best, peak) := Scan(log, cfg.window, |log|);
    if peak < cfg.threshold || peak == 0 then []
    else [Finding(AS003, EvidenceIds(best), Some(key.actor), peak)] + Correlation(best, peak, key, logins, exposed, cfg)
  }

  function FindingsOf(events: seq<Event>, key: Key, exposed: set<string>, cfg: Config): seq<Finding> {
    GroupFindings(Sort(BY_TIME, ReadsOf(events, key)), key, LoginsOf(events, key.actor, key.session), exposed, cfg)
  }

  function BulkFindings(events: seq<Event>, keys: seq<Key>, exposed: set<string>, cfg: Config): seq<Finding> {
    if keys == [] then []
    else
      BulkFindings(events, keys[..|keys| - 1], exposed, cfg) + FindingsOf(events, keys[|keys| - 1], exposed, cfg)
  }

  function Findings(s: Snapshot, cfg: Config): seq<Finding> {
    AllAssetFindings(s.assets, s.asOf, cfg) + LoginFindings(s.events, cfg)
    + BulkFindings(s.events, KeysOf(s.events), Exposed(s.assets), cfg)
  }

  // ---- the program -------------------------------------------------------------------

  method Analyze(s: Snapshot, cfg: Config) returns (result: seq<Finding>)
    requires cfg.threshold >= 2
    ensures result == Findings(s, cfg)
  {
    result := [];
    var exposedPending: set<string> := {};
    var i := 0;
    while i < |s.assets|
      invariant 0 <= i <= |s.assets|
      invariant result == AllAssetFindings(s.assets[..i], s.asOf, cfg)
      invariant exposedPending == Exposed(s.assets[..i])
    {
      var a := s.assets[i];
      assert s.assets[..i + 1][..i] == s.assets[..i] && s.assets[..i + 1] == s.assets[..i] + [a];
      result := result + AssetFindings(a, s.asOf, cfg);
      if ExposedPending(a) { exposedPending := exposedPending + {a.id}; }
      i := i + 1;
    }
    assert s.assets[..i] == s.assets;
    var found := LoginPass(s.events, cfg);
    var bulk := BulkPass(s.events, exposedPending, cfg);
    result := result + found + bulk;
  }

  method LoginPass(events: seq<Event>, cfg: Config) returns (result: seq<Finding>)
    ensures result == LoginFindings(events, cfg)
  {
    result := [];
    var i := 0;
    while i < |events|
      invariant 0 <= i <= |events|
      invariant result == LoginFindings(events[..i], cfg)
    {
      var e := events[i];
      assert events[..i + 1][..i] == events[..i];
      if e.Login? && e.success && Suspicious(e, cfg) {
        result := result + [Finding(AS002, [e.id], Some(e.actor), 0)];
      }
      i := i + 1;
    }
    assert events[..i] == events;
  }

  /** The dictionary of groups, keyed in insertion order. */
  method Group(events: seq<Event>) returns (keys: seq<Key>, groups: map<Key, seq<Read>>)
    ensures keys == KeysOf(events)
    ensures forall k :: k in groups <==> k in keys
    ensures forall k :: k in groups ==> groups[k] == ReadsOf(events, k)
  {
    keys, groups := [], map[];
    var i := 0;
    while i < |events|
      invariant 0 <= i <= |events|
      invariant keys == KeysOf(events[..i])
      invariant forall k :: k in groups <==> k in keys
      invariant forall k :: (if k in groups then groups[k] else []) == ReadsOf(events[..i], k)
    {
      var e := events[i];
      assert events[..i + 1][..i] == events[..i];
      if e.FileAccess? {
        var key := Key(e.actor, e.session, e.asset);
        if key !in groups { keys := keys + [key]; }
        groups := groups[key := (if key in groups then groups[key] else []) + [AsRead(e)]];
      }
      i := i + 1;
    }
    assert events[..i] == events;
    forall k | k in groups ensures groups[k] == ReadsOf(events, k) {
      assert (if k in groups then groups[k] else []) == ReadsOf(events, k);
    }
  }

  method BulkPass(events: seq<Event>, exposed: set<string>, cfg: Config) returns (result: seq<Finding>)
    requires cfg.threshold >= 2
    ensures result == BulkFindings(events, KeysOf(events), exposed, cfg)
  {
    hide Scan, Correlation, ReadsOf, LoginsOf, Sort, KeysOf, EvidenceIds, Ascending;
    var keys, groups := Group(events);
    result := [];
    var i := 0;
    while i < |keys|
      invariant 0 <= i <= |keys|
      invariant result == BulkFindings(events, keys[..i], exposed, cfg)
    {
      var key := keys[i];
      assert keys[..i + 1][..i] == keys[..i];
      var log := Sort(BY_TIME, groups[key]);
      SortAscends(groups[key]);
      var best, peak := SlidingPeak(log, cfg.window);
      if peak >= cfg.threshold {
        result := result + ([Finding(AS003, EvidenceIds(best), Some(key.actor), peak)]
                            + Correlation(best, peak, key, LoginsOf(events, key.actor, key.session), exposed, cfg));
      }
      i := i + 1;
    }
    assert keys[..i] == keys;
  }

  // ---- how findings move with the threshold ----------------------------------------------

  predicate Survives(f: Finding, threshold: nat) {
    f.rule.AS003? || f.rule.AS004? ==> f.distinct >= threshold
  }

  function Surviving(threshold: nat): Finding -> bool {
    f => Survives(f, threshold)
  }

  lemma {:induction false} FilterAll(p: Finding -> bool, xs: seq<Finding>)
    requires forall x :: x in xs ==> p(x)
    ensures Filter(p, xs) == xs
  {
    if xs != [] {
      FilterAll(p, xs[..|xs| - 1]);
      assert xs == xs[..|xs| - 1] + [xs[|xs| - 1]];
    }
  }

  lemma {:induction false} FilterNone(p: Finding -> bool, xs: seq<Finding>)
    requires forall x :: x in xs ==> !p(x)
    ensures Filter(p, xs) == []
  {
    if xs != [] {
      FilterNone(p, xs[..|xs| - 1]);
    }
  }

  lemma GroupThreshold(log: seq<Read>, key: Key, logins: seq<Event>, exposed: set<string>, cfg: Config, higher: nat)
    requires forall l :: l in logins ==> l.Login?
    requires 1 <= cfg.threshold <= higher
    ensures GroupFindings(log, key, logins, exposed, cfg.(threshold := higher)) ==
            Filter(Surviving(higher), GroupFindings(log, key, logins, exposed, cfg))
  {
    var (best, peak) := Scan(log, cfg.window, |log|);
    var low := GroupFindings(log, key, logins, exposed, cfg);
    if peak >= cfg.threshold {
      assert Correlation(best, peak, key, logins, exposed, cfg) ==
             Correlation(best, peak, key, logins, exposed, cfg.(threshold := higher)) by {
        SameCorrelation(best, peak, key, logins, exposed, cfg, higher);
      }
      assert forall f :: f in low ==> f.distinct == peak && (f.rule.AS003? || f.rule.AS004?);
      if peak >= higher { FilterAll(Surviving(higher), low); } else { FilterNone(Surviving(higher), low); }
    }
  }

  lemma SameCorrelation(best: seq<Read>, peak: nat, key: Key, logins: seq<Event>, exposed: set<string>, cfg: Config,
                        t: nat)
    requires best != [] && forall l :: l in logins ==> l.Login?
    ensures Correlation(best, peak, key, logins, exposed, cfg) ==
            Correlation(best, peak, key, logins, exposed, cfg.(threshold := t))
  {
    var p, q := (l: Event) => Eligible(l, best[0].at, cfg.lookback),
                (l: Event) => Eligible(l, best[0].at, cfg.(threshold := t).lookback);
    SameFilter(p, q, logins);
  }

  lemma {:induction false} BulkThreshold(events: seq<Event>, keys: seq<Key>, exposed: set<string>, cfg: Config,
                                         higher: nat)
    requires 1 <= cfg.threshold <= higher
    ensures BulkFindings(events, keys, exposed, cfg.(threshold := higher)) ==
            Filter(Surviving(higher), BulkFindings(events, keys, exposed, cfg))
  {
    if keys != [] {
      var key, init := keys[|keys| - 1], keys[..|keys| - 1];
      var log, logins := Sort(BY_TIME, ReadsOf(events, key)), LoginsOf(events, key.actor, key.session);
      BulkThreshold(events, init, exposed, cfg, higher);
      GroupThreshold(log, key, logins, exposed, cfg, higher);
      FilterAppend(Surviving(higher), BulkFindings(events, init, exposed, cfg),
                   GroupFindings(log, key, logins, exposed, cfg));
    }
  }

  lemma {:induction false} OtherRulesIgnoreThreshold(s: Snapshot, cfg: Config, t: nat)
    ensures AllAssetFindings(s.assets, s.asOf, cfg.(threshold := t)) == AllAssetFindings(s.assets, s.asOf, cfg)
    ensures LoginFindings(s.events, cfg.(threshold := t)) == LoginFindings(s.events, cfg)
    ensures forall f :: f in AllAssetFindings(s.assets, s.asOf, cfg) + LoginFindings(s.events, cfg) ==> Survives(f, t)
    decreases |s.assets| + |s.events|
  {
    if s.assets != [] { OtherRulesIgnoreThreshold(s.(assets := s.assets[..|s.assets| - 1]), cfg, t); }
    if s.events != [] { OtherRulesIgnoreThreshold(s.(events := s.events[..|s.events| - 1]), cfg, t); }
  }

  /** Raising the threshold at a fixed window removes exactly the AS-003 and AS-004
      findings with fewer distinct files; all others stay, in order and unchanged. */
  lemma RaisingThresholdFilters(s: Snapshot, cfg: Config, higher: nat)
    requires 1 <= cfg.threshold <= higher
    ensures Findings(s, cfg.(threshold := higher)) == Filter(Surviving(higher), Findings(s, cfg))
  {
    var other := AllAssetFindings(s.assets, s.asOf, cfg) + LoginFindings(s.events, cfg);
    OtherRulesIgnoreThreshold(s, cfg, higher);
    FilterAll(Surviving(higher), other);
    BulkThreshold(s.events, KeysOf(s.events), Exposed(s.assets), cfg, higher);
    FilterAppend(Surviving(higher), other, BulkFindings(s.events, KeysOf(s.events), Exposed(s.assets), cfg));
  }

  // ---- AS-004 ---------------------------------------------------------------------------------

  /** The successful login of the session that the correlation looks at: the latest one
      that is not after the first read and not too long before it. */
  ghost predicate LatestEligible(login: Event, logins: seq<Event>, start: int, lookback: nat) {
    && login in logins && Eligible(login, start, lookback)
    && forall l :: l in logins && Eligible(l, start, lookback) ==> l.at <= login.at
  }

  /** An AS-004 finding names a latest eligible login that is suspicious and came over an
      exposed, unpatched gateway, and the window holds enough sensitive files. */
  lemma CorrelationSound(best: seq<Read>, peak: nat, key: Key, logins: seq<Event>, exposed: set<string>, cfg: Config,
                         f: Finding)
    requires best != [] && (forall l :: l in logins ==> l.Login?)
    requires f in Correlation(best, peak, key, logins, exposed, cfg)
    ensures exists l :: LatestEligible(l, logins, best[0].at, cfg.lookback) && l.Login? && Suspicious(l, cfg)
                        && l.gateway in exposed
                        && |SensitiveFiles(best)| >= cfg.sensitiveMinimum
                        && f == Finding(AS004, [AssetRef(l.gateway), l.id] + EvidenceIds(best),
                                        Some(key.actor), peak)
  {
    var eligible := Filter((l: Event) => Eligible(l, best[0].at, cfg.lookback), logins);
    var login := LatestLogin(eligible);
    assert LatestEligible(login, logins, best[0].at, cfg.lookback);
  }

  /** Among the logins in order, this is the first of the latest eligible ones: eligible
      ones before it are earlier, eligible ones after it are not later. */
  ghost predicate Decides(before: seq<Event>, login: Event, after: seq<Event>, start: int, lookback: nat) {
    && Eligible(login, start, lookback)
    && (forall l :: l in before && Eligible(l, start, lookback) ==> l.at < login.at)
    && (forall l :: l in after && Eligible(l, start, lookback) ==> l.at <= login.at)
  }

  lemma {:induction false} LatestIs(before: seq<Event>, login: Event, after: seq<Event>)
    requires (forall l :: l in before ==> l.at < login.at) && forall l :: l in after ==> l.at <= login.at
    ensures LatestLogin(before + [login] + after) == login
  {
    var all := before + [login] + after;
    if after == [] {
      assert all == before + [login] && all[..|all| - 1] == before;
      assert all[|all| - 1] == login;
    } else {
      var last := after[|after| - 1];
      assert last in after;
      assert all[..|all| - 1] == before + [login] + after[..|after| - 1] && all[|all| - 1] == last;
      LatestIs(before, login, after[..|after| - 1]);
    }
  }

  function EligibleAt(start: int, lookback: nat): Event -> bool {
    (l: Event) => Eligible(l, start, lookback)
  }

  lemma DecidingLogin(before: seq<Event>, login: Event, after: seq<Event>, start: int, lookback: nat)
    requires Decides(before, login, after, start, lookback)
    ensures var eligible := Filter(EligibleAt(start, lookback), before + [login] + after);
            eligible != [] && LatestLogin(eligible) == login
  {
    var p := EligibleAt(start, lookback);
    FilterAppend(p, before + [login], after);
    FilterAppend(p, before, [login]);
    assert [login][..0] == [] && Filter(p, [login]) == [login];
    LatestIs(Filter(p, before), login, Filter(p, after));
  }

  /** Some login decides as soon as one is eligible. */
  lemma {:induction false} SomeDecides(logins: seq<Event>, start: int, lookback: nat)
    returns (before: seq<Event>, login: Event, after: seq<Event>)
    requires exists l :: l in logins && Eligible(l, start, lookback)
    ensures logins == before + [login] + after && Decides(before, login, after, start, lookback)
  {
    var init, last := logins[..|logins| - 1], logins[|logins| - 1];
    assert logins == init + [last];
    if exists l :: l in init && Eligible(l, start, lookback) {
      before, login, after := SomeDecides(init, start, lookback);
      if Eligible(last, start, lookback) && last.at > login.at {
        before, login, after := init, last, [];
      } else {
        after := after + [last];
      }
    } else {
      before, login, after := init, last, [];
    }
  }

  /** AS-004 is reported exactly when the deciding login is suspicious, its gateway is
      exposed and unpatched, and enough sensitive files were read. */
  lemma CorrelationExact(best: seq<Read>, peak: nat, key: Key, before: seq<Event>, login: Event, after: seq<Event>,
                         exposed: set<string>, cfg: Config)
    requires best != [] && (forall l :: l in before + [login] + after ==> l.Login?)
    requires Decides(before, login, after, best[0].at, cfg.lookback)
    ensures login in before + [login] + after
    ensures Correlation(best, peak, key, before + [login] + after, exposed, cfg) != [] <==>
              Suspicious(login, cfg) && login.gateway in exposed && |SensitiveFiles(best)| >= cfg.sensitiveMinimum
  {
    var logins := before + [login] + after;
    assert logins[|before|] == login;
    DecidingLogin(before, login, after, best[0].at, cfg.lookback);
    SameFilter(EligibleAt(best[0].at, cfg.lookback), (l: Event) => Eligible(l, best[0].at, cfg.lookback), logins);
  }

  /** One more login of the session, wherever it stands in the order of events, silences
      an AS-004 finding exactly when it becomes the deciding login and is not both
      suspicious and over an exposed, unpatched gateway. */
  lemma LoginSilencesExactly(best: seq<Read>, peak: nat, key: Key, before: seq<Event>, added: Event, after: seq<Event>,
                             exposed: set<string>, cfg: Config)
    requires best != [] && added.Login? && (forall l :: l in before + after ==> l.Login?)
    requires Correlation(best, peak, key, before + after, exposed, cfg) != []
    ensures forall l :: l in before + [added] + after ==> l.Login?
    ensures Correlation(best, peak, key, before + [added] + after, exposed, cfg) == [] <==>
              Decides(before, added, after, best[0].at, cfg.lookback) &&
                !(Suspicious(added, cfg) && added.gateway in exposed)
  {
    var start, lookback := best[0].at, cfg.lookback;
    assert forall l :: l in before + [added] + after <==> l in before + after || l == added;
    EligibleExists(best, peak, key, before + after, exposed, cfg);
    var b, decided, a := SomeDecides(before + after, start, lookback);
    CorrelationExact(best, peak, key, b, decided, a, exposed, cfg);
    if Decides(before, added, after, start, lookback) {
      CorrelationExact(best, peak, key, before, added, after, exposed, cfg);
    } else {
      var b', a' := Inserted(before, added, after, b, decided, a, start, lookback);
      CorrelationExact(best, peak, key, b', decided, a', exposed, cfg);
    }
  }

  /** Two ways to be silenced: a later login that is benign or over another gateway, and a
      benign login of the same second listed first. */
  lemma BenignLoginSilences(best: seq<Read>, peak: nat, key: Key, logins: seq<Event>, exposed: set<string>,
                            cfg: Config, added: Event)
    requires best != [] && (forall l :: l in logins ==> l.Login?) && Eligible(added, best[0].at, cfg.lookback)
    requires !(Suspicious(added, cfg) && added.gateway in exposed)
    ensures (forall l :: l in [] + [added] + logins ==> l.Login?) && forall l :: l in logins + [added] + [] ==> l.Login?
    ensures (forall l :: l in logins && Eligible(l, best[0].at, cfg.lookback) ==> l.at < added.at) ==>
              Correlation(best, peak, key, logins + [added] + [], exposed, cfg) == []
    ensures (forall l :: l in logins && Eligible(l, best[0].at, cfg.lookback) ==> l.at <= added.at) ==>
              Correlation(best, peak, key, [] + [added] + logins, exposed, cfg) == []
  {
    if forall l :: l in logins && Eligible(l, best[0].at, cfg.lookback) ==> l.at < added.at {
      CorrelationExact(best, peak, key, logins, added, [], exposed, cfg);
    }
    if forall l :: l in logins && Eligible(l, best[0].at, cfg.lookback) ==> l.at <= added.at {
      CorrelationExact(best, peak, key, [], added, logins, exposed, cfg);
    }
  }

  lemma EligibleExists(best: seq<Read>, peak: nat, key: Key, logins: seq<Event>, exposed: set<string>, cfg: Config)
    requires best != [] && (forall l :: l in logins ==> l.Login?)
    requires Correlation(best, peak, key, logins, exposed, cfg) != []
    ensures exists l :: l in logins && Eligible(l, best[0].at, cfg.lookback)
  {
    var eligible := Filter((l: Event) => Eligible(l, best[0].at, cfg.lookback), logins);
    assert eligible[0] in eligible;
  }

  lemma StaysAfter(before: seq<Event>, added: Event, rest: seq<Event>, decided: Event, a: seq<Event>, start: int,
                   lookback: nat)
    requires Decides(before + rest, decided, a, start, lookback)
    requires !Decides(before, added, rest + [decided] + a, start, lookback)
    ensures Decides(before + [added] + rest, decided, a, start, lookback)
  {
    hide Eligible;
    assert decided in rest + [decided] + a;
    assert forall l :: l in before + [added] + rest ==> l in before + rest || l == added;
    assert forall l :: l in rest + [decided] + a ==> l in before + rest || l == decided || l in a;
  }

  lemma StaysBefore(b: seq<Event>, decided: Event, rest: seq<Event>, added: Event, after: seq<Event>, start: int,
                    lookback: nat)
    requires Decides(b, decided, rest + after, start, lookback)
    requires !Decides(b + [decided] + rest, added, after, start, lookback)
    ensures Decides(b, decided, rest + [added] + after, start, lookback)
  {
    hide Eligible;
    assert forall l :: l in rest + [added] + after ==> l in rest + after || l == added;
    assert forall l :: l in b + [decided] + rest ==> l in b || l == decided || l in rest + after;
  }

  /** A login that does not decide leaves the deciding one in place. */
  lemma Inserted(before: seq<Event>, added: Event, after: seq<Event>, b: seq<Event>, decided: Event, a: seq<Event>,
                 start: int, lookback: nat)
    returns (b': seq<Event>, a': seq<Event>)
    requires before + after == b + [decided] + a && Decides(b, decided, a, start, lookback)
    requires !Decides(before, added, after, start, lookback)
    ensures before + [added] + after == b' + [decided] + a' && Decides(b', decided, a', start, lookback)
  {
    hide Decides;
    var all := before + after;
    if |before| <= |b| {
      var rest := b[|before|..];
      assert before == all[..|before|] == b[..|before|] && b == before + rest;
      assert after == all[|before|..] == rest + [decided] + a;
      StaysAfter(before, added, rest, decided, a, start, lookback);
      b', a' := before + [added] + rest, a;
    } else {
      var rest := before[|b| + 1..];
      assert all[..|b| + 1] == b + [decided] && all[|b| + 1..] == a;
      assert before[..|b| + 1] == all[..|b| + 1] && before == b + [decided] + rest;
      assert a == rest + after;
      StaysBefore(b, decided, rest, added, after, start, lookback);
      b', a' := b, rest + [added] + after;
    }
  }

  // ---- AS-004 in a snapshot ---------------------------------------------------------------

  function LogOf(s: Snapshot, key: Key): seq<Read> { Sort(BY_TIME, ReadsOf(s.events, key)) }

  /** The evidence of the group: its first window with the most distinct files. */
  function BestOf(s: Snapshot, key: Key, cfg: Config): seq<Read> {
    Scan(LogOf(s, key), cfg.window, |LogOf(s, key)|).0
  }

  /** The group has an AS-004 finding. */
  ghost predicate Correlated(s: Snapshot, key: Key, cfg: Config) {
    exists f: Finding :: f.rule.AS004? && f in FindingsOf(s.events, key, Exposed(s.assets), cfg)
  }

  lemma {:induction false} LoginsConcat(a: seq<Event>, b: seq<Event>, actor: string, session: string)
    ensures LoginsOf(a + b, actor, session) == LoginsOf(a, actor, session) + LoginsOf(b, actor, session)
  {
    if b == [] {
      assert a + b == a;
    } else {
      assert (a + b)[..|a + b| - 1] == a + b[..|b| - 1];
      LoginsConcat(a, b[..|b| - 1], actor, session);
    }
  }

  lemma {:induction false} ReadsConcat(a: seq<Event>, b: seq<Event>, key: Key)
    ensures ReadsOf(a + b, key) == ReadsOf(a, key) + ReadsOf(b, key)
  {
    if b == [] {
      assert a + b == a;
    } else {
      assert (a + b)[..|a + b| - 1] == a + b[..|b| - 1];
      ReadsConcat(a, b[..|b| - 1], key);
    }
  }

  lemma CorrelatedIs(s: Snapshot, key: Key, cfg: Config)
    ensures var (best, peak) := Scan(LogOf(s, key), cfg.window, |LogOf(s, key)|);
            Correlated(s, key, cfg) <==>
              peak >= cfg.threshold && peak > 0 &&
              Correlation(best, peak, key, LoginsOf(s.events, key.actor, key.session), Exposed(s.assets), cfg) != []
  {
    hide Scan, Eligible, Suspicious, LatestLogin;
    var (best, peak) := Scan(LogOf(s, key), cfg.window, |LogOf(s, key)|);
    if peak >= cfg.threshold && peak > 0 {
      var c := Correlation(best, peak, key, LoginsOf(s.events, key.actor, key.session), Exposed(s.assets), cfg);
      if c != [] { assert FindingsOf(s.events, key, Exposed(s.assets), cfg)[1] == c[0]; }
    }
  }

  /** What one login put between the events `a` and `b` does to the logins and the reads of
      a group. */
  lemma LoginInserted(a: seq<Event>, added: Event, b: seq<Event>, key: Key)
    requires added.Login?
    ensures ReadsOf(a + [added] + b, key) == ReadsOf(a + b, key)
    ensures LoginsOf(a + [added] + b, key.actor, key.session) ==
            LoginsOf(a, key.actor, key.session)
            + (if added.success && added.actor == key.actor && added.session == key.session then [added] else [])
            + LoginsOf(b, key.actor, key.session)
  {
    var one := [added];
    assert one[..0] == [];
    ReadsConcat(a, b, key);
    ReadsConcat(a + one, b, key);
    ReadsConcat(a, one, key);
    LoginsConcat(a + one, b, key.actor, key.session);
    LoginsConcat(a, one, key.actor, key.session);
  }

  /** One more login in a snapshot, wherever it stands among the events, silences the AS-004
      finding of a group exactly when it is a successful login of that session, becomes the
      deciding one, and is not both suspicious and over an exposed, unpatched gateway. */
  lemma SnapshotSilencedExactly(s: Snapshot, a: seq<Event>, added: Event, b: seq<Event>, key: Key, cfg: Config)
    requires s.events == a + b && added.Login? && Correlated(s, key, cfg)
    ensures BestOf(s, key, cfg) != []
    ensures !Correlated(s.(events := a + [added] + b), key, cfg) <==>
              && added.success && added.actor == key.actor && added.session == key.session
              && Decides(LoginsOf(a, key.actor, key.session), added, LoginsOf(b, key.actor, key.session),
                         BestOf(s, key, cfg)[0].at, cfg.lookback)
              && !(Suspicious(added, cfg) && added.gateway in Exposed(s.assets))
  {
    hide Correlated, Correlation, Decides, Suspicious, Scan, LoginsOf, ReadsOf, Exposed, Sort;
    var s' := s.(events := a + [added] + b);
    var (best, peak) := Scan(LogOf(s, key), cfg.window, |LogOf(s, key)|);
    CorrelatedIs(s, key, cfg);
    CorrelatedIs(s', key, cfg);
    LoginInserted(a, added, b, key);
    LoginsConcat(a, b, key.actor, key.session);
    var before, after := LoginsOf(a, key.actor, key.session), LoginsOf(b, key.actor, key.session);
    if added.success && added.actor == key.actor && added.session == key.session {
      LoginSilencesExactly(best, peak, key, before, added, after, Exposed(s.assets), cfg);
    } else {
      assert before + [] + after == before + after;
    }
  }

  // ---- AS-003 is the simple specification --------------------------------------------------

  /** Some reads of this group, no two further apart than the window, touch at least
      `threshold` distinct files. */
  ghost predicate BulkAccess(s: Snapshot, key: Key, cfg: Config) {
    exists picks :: Fits(Sort(BY_TIME, ReadsOf(s.events, key)), cfg.window, picks)
                    && |FilesAt(Sort(BY_TIME, ReadsOf(s.events, key)), picks)| >= cfg.threshold
  }

  predicate Reports(events: seq<Event>, key: Key, exposed: set<string>, cfg: Config, f: Finding) {
    f in FindingsOf(events, key, exposed, cfg)
  }

  lemma {:induction false} BulkFindingsByGroup(events: seq<Event>, keys: seq<Key>, exposed: set<string>, cfg: Config,
                                               f: Finding)
    ensures f in BulkFindings(events, keys, exposed, cfg) <==>
              exists key :: key in keys && Reports(events, key, exposed, cfg, f)
  {
    hide FindingsOf;
    if keys != [] {
      var init, last := keys[..|keys| - 1], keys[|keys| - 1];
      BulkFindingsByGroup(events, init, exposed, cfg, f);
      assert forall k :: k in keys <==> k in init || k == last;
      assert Reports(events, last, exposed, cfg, f) <==> f in FindingsOf(events, last, exposed, cfg);
    }
  }

  lemma {:induction false} KeysComplete(events: seq<Event>, key: Key)
    requires key !in KeysOf(events)
    ensures ReadsOf(events, key) == []
  {
    if events != [] {
      KeysComplete(events[..|events| - 1], key);
    }
  }

  lemma {:induction false} OtherRulesAreOther(s: Snapshot, cfg: Config)
    ensures forall f :: f in AllAssetFindings(s.assets, s.asOf, cfg) + LoginFindings(s.events, cfg) ==>
                          !f.rule.AS003? && !f.rule.AS004?
    decreases |s.assets| + |s.events|
  {
    if s.assets != [] { OtherRulesAreOther(s.(assets := s.assets[..|s.assets| - 1]), cfg); }
    if s.events != [] { OtherRulesAreOther(s.(events := s.events[..|s.events| - 1]), cfg); }
  }

  lemma GroupReportsExactly(s: Snapshot, cfg: Config, key: Key)
    requires cfg.threshold >= 2
    ensures BulkAccess(s, key, cfg) <==>
              exists f: Finding :: f.rule.AS003? && Reports(s.events, key, Exposed(s.assets), cfg, f)
  {
    var log := Sort(BY_TIME, ReadsOf(s.events, key));
    SortAscends(ReadsOf(s.events, key));
    BulkExactly(log, cfg.window, cfg.threshold);
    var (best, peak) := Scan(log, cfg.window, |log|);
    if peak >= cfg.threshold {
      var f := Finding(AS003, EvidenceIds(best), Some(key.actor), peak);
      assert FindingsOf(s.events, key, Exposed(s.assets), cfg)[0] == f;
      assert Reports(s.events, key, Exposed(s.assets), cfg, f);
    } else {
      assert FindingsOf(s.events, key, Exposed(s.assets), cfg) == [];
    }
  }

  /** An AS-003 finding is reported exactly when, in some group of reads by one actor
      in one session on one asset, some reads no two further apart than the window
      touch at least `threshold` distinct files. */
  lemma BulkRuleExact(s: Snapshot, cfg: Config)
    requires cfg.threshold >= 2
    ensures (exists f: Finding :: f.rule.AS003? && f in Findings(s, cfg)) <==> (exists key :: BulkAccess(s, key, cfg))
  {
    var keys, exposed := KeysOf(s.events), Exposed(s.assets);
    OtherRulesAreOther(s, cfg);
    forall f: Finding | f.rule.AS003? && f in Findings(s, cfg) ensures exists key :: BulkAccess(s, key, cfg) {
      BulkFindingsByGroup(s.events, keys, exposed, cfg, f);
      var key :| key in keys && Reports(s.events, key, exposed, cfg, f);
      GroupReportsExactly(s, cfg, key);
    }
    forall key | BulkAccess(s, key, cfg) ensures exists f: Finding :: f.rule.AS003? && f in Findings(s, cfg) {
      GroupReportsExactly(s, cfg, key);
      var f: Finding :| f.rule.AS003? && Reports(s.events, key, exposed, cfg, f);
      if key !in keys {
        KeysComplete(s.events, key);
      } else {
        BulkFindingsByGroup(s.events, keys, exposed, cfg, f);
      }
      assert f in Findings(s, cfg);
    }
  }

  /** A snapshot has an AS-004 finding exactly when one of its groups has. */
  lemma CorrelationReported(s: Snapshot, cfg: Config)
    ensures (exists f: Finding :: f.rule.AS004? && f in Findings(s, cfg)) <==> (exists key :: Correlated(s, key, cfg))
  {
    hide FindingsOf;
    var keys, exposed := KeysOf(s.events), Exposed(s.assets);
    OtherRulesAreOther(s, cfg);
    forall f: Finding | f.rule.AS004? && f in Findings(s, cfg) ensures exists key :: Correlated(s, key, cfg) {
      BulkFindingsByGroup(s.events, keys, exposed, cfg, f);
      var key :| key in keys && Reports(s.events, key, exposed, cfg, f);
      assert Correlated(s, key, cfg);
    }
    forall key | Correlated(s, key, cfg) ensures exists f: Finding :: f.rule.AS004? && f in Findings(s, cfg) {
      var f: Finding :| f.rule.AS004? && f in FindingsOf(s.events, key, exposed, cfg);
      if key !in keys {
        KeysComplete(s.events, key);
        NothingRead(s, key, cfg);
      }
      assert Reports(s.events, key, exposed, cfg, f);
      BulkFindingsByGroup(s.events, keys, exposed, cfg, f);
    }
  }

  lemma NothingRead(s: Snapshot, key: Key, cfg: Config)
    requires ReadsOf(s.events, key) == []
    ensures FindingsOf(s.events, key, Exposed(s.assets), cfg) == []
  {
  }
}
