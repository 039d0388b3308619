/** A suite too large for rounded recall: a document the boundary check accepts, and labels
    on it of which one is missed although its recall rounds to 1.0. */
module LargeSuites {
  import opened Common
  import opened Ordering
  import opened Names
  import opened Snapshots
  import opened Engine
  import opened Sweep
  import opened Canonical
  import N = Normalizer

  const IMPORT_MAX_ASSETS := 20000
  const IMPORT_MAX_EVENTS := 2000000

  const INVENTORY_ROW: N.Item :=
    map[N.Id := N.Text("gate"), N.AssetKind := N.Text("vpn"), N.PatchState := N.Text("applied"),
        N.ObservedAt := N.Time(0), N.Weakness := N.Null, N.InternetExposed := N.Flag(false),
        N.PrivilegedPath := N.Flag(false), N.SensitivePath := N.Flag(false)]

  const LOGIN_ROW: N.Item :=
    map[N.Id := N.Text("login"), N.Type := N.Text("login"), N.At := N.Time(0), N.Actor := N.Text("a"),
        N.Session := N.Text("s"), N.GatewayId := N.Text("gate"), N.Success := N.Flag(true),
        N.Privileged := N.Flag(true), N.DeviceTrusted := N.Flag(false), N.Approved := N.Null]

  const DOCUMENT := N.Document(0, [INVENTORY_ROW], [LOGIN_ROW], [])

  const GATE := Asset("gate", "vpn", "applied", 0, None, Some(false), Some(false), Some(false))

  const ANY_CONDITION := Config(300, 100, 1800, 1, 86400, false)

  function Intrusion(key: N.Keyed): Event {
    Login("login", 0, "actor-" + key("actor", "a"), "session-" + key("session", "s"), "gate", true, Some(true),
          Some(false), None)
  }

  function Intruded(key: N.Keyed): Snapshot { Normal(0, [GATE], [Intrusion(key)], []) }

  function IntrusionFound(key: N.Keyed): Finding {
    Finding(AS002, ["login"], Some("actor-" + key("actor", "a")), 0)
  }

  /** One detected login, expected `n` times over, and a bulk access nobody detects. */
  function LargeSuite(n: nat, key: N.Keyed): Scenario {
    Scenario(Intruded(key), {"login"}, seq(n, _ => Known(AS002)) + [Known(AS003)])
  }

  // ---- the document is accepted ------------------------------------------------------------

  lemma InventoryRowValid()
    ensures N.ValidAsset(INVENTORY_ROW, 0) && N.AsAsset(INVENTORY_ROW, 0) == GATE
  {
    hide Passes, Slug;
    assert INVENTORY_ROW.Keys == N.ASSET_KEYS;
    assert Legal("gate");
  }

  lemma LoginRowValid(key: N.Keyed)
    ensures N.ValidEvent(LOGIN_ROW, 0, {"gate"}) && N.AsEvent(LOGIN_ROW, 0, {"gate"}, key) == Intrusion(key)
  {
    hide Passes, Slug;
    assert LOGIN_ROW.Keys == N.LOGIN_KEYS;
    assert Legal("gate") && Legal("login");
  }

  lemma InventoryAccepted()
    ensures N.Assets([INVENTORY_ROW], 1, 0) == Some([GATE]) && AssetIds([GATE]) == {"gate"}
    ensures Sort(N.BY_ID, [GATE]) == [GATE]
  {
    hide N.ValidAsset, N.AsAsset, INVENTORY_ROW;
    InventoryRowValid();
    assert N.Assets([INVENTORY_ROW], 0, 0) == Some([]);
    assert [] + [GATE] == [GATE];
    SortOne(N.BY_ID, GATE);
  }

  lemma LoginAccepted(key: N.Keyed)
    ensures N.Events([LOGIN_ROW], 1, 0, {"gate"}, key) == Some([Intrusion(key)])
    ensures Sort(N.BY_TIME, [Intrusion(key)]) == [Intrusion(key)]
  {
    hide N.ValidEvent, N.AsEvent, Intrusion, LOGIN_ROW;
    LoginRowValid(key);
    assert N.Events([LOGIN_ROW], 0, 0, {"gate"}, key) == Some([]);
    assert [] + [Intrusion(key)] == [Intrusion(key)];
    SortOne(N.BY_TIME, Intrusion(key));
  }

  lemma DocumentAccepted(key: N.Keyed)
    ensures N.Normalized(DOCUMENT, key, 0, IMPORT_MAX_ASSETS, IMPORT_MAX_EVENTS) == Some(Intruded(key))
  {
    hide N.Assets, N.Events, Sort, Intrusion;
    InventoryAccepted();
    LoginAccepted(key);
    assert N.ValidHeader(DOCUMENT, 0, IMPORT_MAX_ASSETS, IMPORT_MAX_EVENTS);
  }

  lemma SortOne<T(!new)>(key: T -> Stamp, x: T)
    ensures Sort(key, [x]) == [x]
  {
    assert [x][..0] == [];
  }

  // ---- what is found in it -----------------------------------------------------------------

  lemma LoginOnly(cfg: Config, key: N.Keyed)
    requires !cfg.both
    ensures Findings(Intruded(key), cfg) == [IntrusionFound(key)]
  {
    var all := [Intrusion(key)];
    assert all[..|all| - 1] == [];
    assert KeysOf(all) == KeysOf([]) == [];
    assert LoginFindings(all, cfg) == LoginFindings([], cfg) + [IntrusionFound(key)];
    assert AssetFindings(GATE, 0, cfg) == [] && [GATE][..0] == [];
    assert AllAssetFindings([GATE], 0, cfg) == [] && BulkFindings(all, [], Exposed([GATE]), cfg) == [];
  }

  lemma LoginTally(key: N.Keyed, rule: Rule)
    ensures Tally([IntrusionFound(key)], {"login"}, rule).tp == if rule.AS002? then 1 else 0
  {
    var f := IntrusionFound(key);
    assert f.evidence[0] in f.evidence && Touches(f, {"login"});
    assert [f][..0] == [];
  }

  lemma LargeSuiteExpects(n: nat, key: N.Keyed)
    ensures |Filter(Expecting(AS003), LargeSuite(n, key).wanted)| == 1
    ensures |Filter(Expecting(AS004), LargeSuite(n, key).wanted)| == 0
  {
    var many := seq(n, _ => Known(AS002));
    FilterAppend(Expecting(AS003), many, [Known(AS003)]);
    FilterEmpty(Expecting(AS003), many);
    FilterEmpty(Expecting(AS004), LargeSuite(n, key).wanted);
    assert [Known(AS003)][..0] == [];
  }

  /** With 20,001 expected detections or more, a cell that misses one is recommended: the
      document passes the boundary check, the configuration is in bounds, and the search
      over this one cell succeeds. */
  lemma LargeSuiteHidesMiss(n: nat, key: N.Keyed, tie: bool)
    requires n >= 20000
    ensures N.Normalized(DOCUMENT, key, 0, IMPORT_MAX_ASSETS, IMPORT_MAX_EVENTS) == Some(LargeSuite(n, key).snapshot)
    ensures Sound(LargeSuite(n, key).snapshot) && GridAcceptable(ANY_CONDITION, [100], [300])
    ensures Recommended(Grid(ANY_CONDITION, [100], [300], 1, [LargeSuite(n, key)], tie)).Some?
    ensures Recommended(Grid(ANY_CONDITION, [100], [300], 1, [LargeSuite(n, key)], tie)).value.missed == 1
  {
    hide N.Normalized, Sound, Findings;
    var s, cfg := LargeSuite(n, key), At(ANY_CONDITION, 100, 300);
    var findings := Findings(s.snapshot, cfg);
    DocumentAccepted(key);
    NormalizedSound(DOCUMENT, key, 0, IMPORT_MAX_ASSETS, IMPORT_MAX_EVENTS);
    LoginOnly(cfg, key);
    LoginTally(key, AS002);
    LoginTally(key, AS003);
    LoginTally(key, AS004);
    LargeSuiteExpects(n, key);
    MissesAre(findings, s.malicious, s.wanted, AS002);
    MissesAre(findings, s.malicious, s.wanted, AS003);
    MissesAre(findings, s.malicious, s.wanted, AS004);
    OneScenario(s, cfg);
    var c := CellAt(ANY_CONDITION, 100, 300, [s], tie);
    OneCell(ANY_CONDITION, 100, 300, [s], tie);
    assert c.complete && c.missed == 1;
  }

  lemma OneScenario(s: Scenario, cfg: Config)
    ensures Evaluation([s], cfg).missed == ScoreAt(s, cfg).fn && Evaluation([s], cfg).expected == |s.wanted|
  {
    hide ScoreAt;
    var all := [s];
    assert all[..|all| - 1] == [];
    assert Total(Rated(cfg), all) == Add(Total(Rated(cfg), []), ScoreAt(s, cfg), s);
  }

  lemma OneCell(base: Config, t: nat, w: nat, scenarios: seq<Scenario>, tie: bool)
    requires CellAt(base, t, w, scenarios, tie).complete
    ensures Recommended(Grid(base, [t], [w], 1, scenarios, tie)) == Some(CellAt(base, t, w, scenarios, tie))
  {
    hide CellAt;
    var c := CellAt(base, t, w, scenarios, tie);
    assert Row(base, t, [w], 1, scenarios, tie) == [c];
    assert Grid(base, [t], [w], 1, scenarios, tie) == [c];
    assert [c][..0] == [];
  }
}
