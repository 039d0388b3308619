/** Scoring a configuration against labelled scenarios and choosing thresholds
    (aisecure/evaluate.py). Ratios other than recall, and spans in days, are not part
    of this model. */
module Sweep {
  import opened Common
  import opened Ordering
  import opened Engine

  /** An expected rule is free text in a scenario file: it may name no rule at all. */
  datatype Label = Known(rule: Rule) | Unheard(name: string)

  datatype Scenario = Scenario(snapshot: Snapshot, malicious: set<Evidence>, wanted: seq<Label>)

  datatype Counts = Counts(alerts: nat, tp: nat, fp: nat)

  datatype Score = Score(login: Counts, bulk: Counts, linked: Counts, hygiene: nat, missed: seq<Label>, fn: nat)

  datatype Totals = Totals(tp: nat, fp: nat, missed: nat, expected: nat)

  datatype Cell = Cell(threshold: nat, window: nat, tp: nat, fp: nat, missed: nat, complete: bool)

  datatype SweepError = BadConfiguration | NoScenario

  const BEHAVIORAL := [AS002, AS003, AS004]

  // ---- one scenario -------------------------------------------------------------------

  predicate Hygiene(rule: Rule) { rule.AS001? || rule.AS005? }

  predicate Touches(f: Finding, malicious: set<Evidence>) {
    exists e :: e in f.evidence && e in malicious
  }

  function Bump(c: Counts, f: Finding, malicious: set<Evidence>): Counts {
    if Hygiene(f.rule) then Counts(c.alerts + 1, c.tp, c.fp)
    else if Touches(f, malicious) then Counts(c.alerts + 1, c.tp + 1, c.fp)
    else Counts(c.alerts + 1, c.tp, c.fp + 1)
  }

  function Tally(findings: seq<Finding>, malicious: set<Evidence>, rule: Rule): Counts {
    if findings == [] then Counts(0, 0, 0)
    else
      var f, c := findings[|findings| - 1], Tally(findings[..|findings| - 1], malicious, rule);
      if f.rule == rule then Bump(c, f, malicious) else c
  }

  function Undetected(findings: seq<Finding>, malicious: set<Evidence>): Label -> bool {
    (l: Label) => !(l.Known? && Tally(findings, malicious, l.rule).tp > 0)
  }

  function Expecting(rule: Rule): Label -> bool {
    (l: Label) => l == Known(rule)
  }

  function Misses(findings: seq<Finding>, malicious: set<Evidence>, wanted: seq<Label>, rule: Rule): nat {
    |Filter(Expecting(rule), Filter(Undetected(findings, malicious), wanted))|
  }

  function ScoreOf(findings: seq<Finding>, s: Scenario): Score {
    Score(Tally(findings, s.malicious, AS002), Tally(findings, s.malicious, AS003), Tally(findings, s.malicious, AS004),
          Tally(findings, s.malicious, AS001).alerts + Tally(findings, s.malicious, AS005).alerts,
          Filter(Undetected(findings, s.malicious), s.wanted),
          Misses(findings, s.malicious, s.wanted, AS002) + Misses(findings, s.malicious, s.wanted, AS003)
          + Misses(findings, s.malicious, s.wanted, AS004))
  }

  ghost predicate Tallied(perRule: map<Rule, Counts>, findings: seq<Finding>, malicious: set<Evidence>) {
    forall rule: Rule :: rule in perRule && perRule[rule] == Tally(findings, malicious, rule)
  }

  method TallyAll(findings: seq<Finding>, malicious: set<Evidence>) returns (perRule: map<Rule, Counts>)
    ensures Tallied(perRule, findings, malicious)
  {
    var none := Counts(0, 0, 0);
    perRule := map[AS001 := none, AS002 := none, AS003 := none, AS004 := none, AS005 := none];
    forall rule: Rule ensures rule in perRule && perRule[rule] == none {
      match rule case AS001 => case AS002 => case AS003 => case AS004 => case AS005 =>
    }
    var i := 0;
    while i < |findings|
      invariant 0 <= i <= |findings|
      invariant Tallied(perRule, findings[..i], malicious)
    {
      var f := findings[i];
      assert findings[..i + 1][..i] == findings[..i];
      perRule := perRule[f.rule := Bump(perRule[f.rule], f, malicious)];
      i := i + 1;
    }
    assert findings[..i] == findings;
  }

  method Missed(perRule: map<Rule, Counts>, s: Scenario, ghost findings: seq<Finding>) returns (missed: seq<Label>)
    requires Tallied(perRule, findings, s.malicious)
    ensures missed == Filter(Undetected(findings, s.malicious), s.wanted)
  {
    hide Tally;
    missed := [];
    var k := 0;
    while k < |s.wanted|
      invariant 0 <= k <= |s.wanted|
      invariant missed == Filter(Undetected(findings, s.malicious), s.wanted[..k])
    {
      var l := s.wanted[k];
      assert s.wanted[..k + 1][..k] == s.wanted[..k];
      if !(l.Known? && perRule[l.rule].tp > 0) { missed := missed + [l]; }
      k := k + 1;
    }
    assert s.wanted[..k] == s.wanted;
  }

  method Rate(s: Scenario, cfg: Config) returns (score: Score)
    requires cfg.threshold >= 2
    ensures score == ScoreAt(s, cfg)
  {
    var findings := Analyze(s.snapshot, cfg);
    var perRule := TallyAll(findings, s.malicious);
    var missed := Missed(perRule, s, findings);
    score := Score(perRule[AS002], perRule[AS003], perRule[AS004],
                   perRule[AS001].alerts + perRule[AS005].alerts, missed,
                   |Filter(Expecting(AS002), missed)| + |Filter(Expecting(AS003), missed)| +
                   |Filter(Expecting(AS004), missed)|);
  }

  // ---- every scenario -----------------------------------------------------------------

  function ScoreAt(s: Scenario, cfg: Config): Score { ScoreOf(Findings(s.snapshot, cfg), s) }

  function Rated(cfg: Config): Scenario -> Score {
    (s: Scenario) => ScoreAt(s, cfg)
  }

  function Add(t: Totals, score: Score, s: Scenario): Totals {
    Totals(t.tp + score.login.tp + score.bulk.tp + score.linked.tp,
           t.fp + score.login.fp + score.bulk.fp + score.linked.fp,
           t.missed + score.fn, t.expected + |s.wanted|)
  }

  function Total(rate: Scenario -> Score, scenarios: seq<Scenario>): Totals {
    if scenarios == [] then Totals(0, 0, 0, 0)
    else
      var s := scenarios[|scenarios| - 1];
      Add(Total(rate, scenarios[..|scenarios| - 1]), rate(s), s)
  }

  function Evaluation(scenarios: seq<Scenario>, cfg: Config): Totals { Total(Rated(cfg), scenarios) }

  method Evaluate(scenarios: seq<Scenario>, cfg: Config) returns (totals: Result<Totals, SweepError>)
    requires cfg.threshold >= 2
    ensures totals == if scenarios == [] then Err(NoScenario) else Ok(Evaluation(scenarios, cfg))
  {
    if scenarios == [] { return Err(NoScenario); }
    var sum := Totals(0, 0, 0, 0);
    var i := 0;
    while i < |scenarios|
      invariant 0 <= i <= |scenarios|
      invariant sum == Total(Rated(cfg), scenarios[..i])
    {
      assert scenarios[..i + 1][..i] == scenarios[..i];
      var score := Rate(scenarios[i], cfg);
      sum := Add(sum, score, scenarios[i]);
      i := i + 1;
    }
    assert scenarios[..i] == scenarios;
    return Ok(sum);
  }

  // ---- the grid -----------------------------------------------------------------------

  /** The bounds of `RuleConfig.replace`. */
  predicate Acceptable(cfg: Config) {
    && 10 <= cfg.window <= 86400 && 2 <= cfg.threshold <= 1000000 && cfg.lookback <= 604800
    && cfg.sensitiveMinimum <= 1000000 && 3600 <= cfg.staleSeconds <= 8760 * 3600
    && cfg.sensitiveMinimum <= cfg.threshold
  }

  /** Recall, rounded to four places, equals 1.0. `tie` says how a value exactly half
      way between two roundings is rounded. */
  predicate FullRecall(missed: nat, expected: nat, tie: bool) {
    expected > 0 && (20000 * missed < expected || (20000 * missed == expected && tie))
  }

  function CellAt(base: Config, t: nat, w: nat, scenarios: seq<Scenario>, tie: bool): Cell {
    var totals := Evaluation(scenarios, At(base, t, w));
    Cell(t, w, totals.tp, totals.fp, totals.missed, FullRecall(totals.missed, totals.expected, tie))
  }

  function Row(base: Config, t: nat, ws: seq<nat>, n: nat, scenarios: seq<Scenario>, tie: bool): seq<Cell>
    requires n <= |ws|
  {
    if n == 0 then [] else Row(base, t, ws, n - 1, scenarios, tie) + [CellAt(base, t, ws[n - 1], scenarios, tie)]
  }

  function Grid(base: Config, ts: seq<nat>, ws: seq<nat>, n: nat, scenarios: seq<Scenario>, tie: bool): seq<Cell>
    requires n <= |ts|
  {
    if n == 0 then []
    else Grid(base, ts, ws, n - 1, scenarios, tie) + Row(base, ts[n - 1], ws, |ws|, scenarios, tie)
  }

  predicate Prefers(a: Cell, b: Cell) {
    a.fp < b.fp || (a.fp == b.fp && (a.threshold < b.threshold || (a.threshold == b.threshold && a.window > b.window)))
  }

  function Recommended(cells: seq<Cell>): Option<Cell> {
    if cells == [] then None
    else
      var best, c := Recommended(cells[..|cells| - 1]), cells[|cells| - 1];
      if c.complete && (best.None? || Prefers(c, best.value)) then Some(c) else best
  }

  const BY_VALUE := (n: nat) => Stamp(n, "")

  function At(base: Config, t: nat, w: nat): Config { base.(threshold := t, window := w) }

  predicate RowAcceptable(base: Config, t: nat, ws: seq<nat>) {
    forall k :: 0 <= k < |ws| ==> Acceptable(At(base, t, ws[k]))
  }

  predicate GridAcceptable(base: Config, ts: seq<nat>, ws: seq<nat>) {
    forall i :: 0 <= i < |ts| ==> RowAcceptable(base, ts[i], ws)
  }

  method Measure(scenarios: seq<Scenario>, base: Config, t: nat, w: nat, tie: bool)
    returns (r: Result<Cell, SweepError>)
    ensures r.Ok? <==> Acceptable(At(base, t, w)) && scenarios != []
    ensures r.Ok? ==> r.value == CellAt(base, t, w, scenarios, tie)
    ensures r.Err? ==> (r.error == NoScenario <==> scenarios == [] && Acceptable(At(base, t, w)))
  {
    var cfg := At(base, t, w);
    if !Acceptable(cfg) { return Err(BadConfiguration); }
    var totals := Evaluate(scenarios, cfg);
    if totals.Err? { return Err(totals.error); }
    return Ok(Cell(t, w, totals.value.tp, totals.value.fp, totals.value.missed,
                   FullRecall(totals.value.missed, totals.value.expected, tie)));
  }

  /** The cells of one threshold. */
  method SearchRow(scenarios: seq<Scenario>, base: Config, t: nat, ws: seq<nat>, tie: bool)
    returns (r: Result<seq<Cell>, SweepError>)
    ensures r.Ok? <==> RowAcceptable(base, t, ws) && (ws == [] || scenarios != [])
    ensures r.Ok? ==> r.value == Row(base, t, ws, |ws|, scenarios, tie)
    ensures r.Err? ==> ws != [] && (r.error == NoScenario <==> scenarios == [] && Acceptable(At(base, t, ws[0])))
  {
    hide Evaluation;
    var cells := [];
    var i := 0;
    while i < |ws|
      invariant 0 <= i <= |ws|
      invariant cells == Row(base, t, ws, i, scenarios, tie)
      invariant forall k :: 0 <= k < i ==> Acceptable(At(base, t, ws[k]))
      invariant i == 0 || scenarios != []
    {
      var cell := Measure(scenarios, base, t, ws[i], tie);
      if cell.Err? { return Err(cell.error); }
      cells := cells + [cell.value];
      i := i + 1;
    }
    return Ok(cells);
  }

  method SearchGrid(scenarios: seq<Scenario>, base: Config, ts: seq<nat>, ws: seq<nat>, tie: bool)
    returns (r: Result<seq<Cell>, SweepError>)
    ensures r.Ok? <==> GridAcceptable(base, ts, ws) && (ts == [] || ws == [] || scenarios != [])
    ensures r.Ok? ==> r.value == Grid(base, ts, ws, |ts|, scenarios, tie)
    ensures r.Err? ==> ts != [] && ws != []
                       && (r.error == NoScenario <==> scenarios == [] && Acceptable(At(base, ts[0], ws[0])))
  {
    hide Evaluation;
    var cells := [];
    var i := 0;
    while i < |ts|
      invariant 0 <= i <= |ts|
      invariant cells == Grid(base, ts, ws, i, scenarios, tie)
      invariant forall k :: 0 <= k < i ==> RowAcceptable(base, ts[k], ws)
      invariant i == 0 || ws == [] || scenarios != []
    {
      var row := SearchRow(scenarios, base, ts[i], ws, tie);
      if row.Err? { return row; }
      cells := cells + row.value;
      i := i + 1;
    }
    return Ok(cells);
  }

  method Search(scenarios: seq<Scenario>, base: Config, thresholds: seq<nat>, windows: seq<nat>, tie: bool)
    returns (r: Result<(seq<Cell>, Option<Cell>), SweepError>)
    ensures var ts, ws := Sort(BY_VALUE, thresholds), Sort(BY_VALUE, windows);
            && (r.Ok? <==> GridAcceptable(base, ts, ws) && (ts == [] || ws == [] || scenarios != []))
            && (r.Ok? ==> r.value.0 == Grid(base, ts, ws, |ts|, scenarios, tie) && r.value.1 == Recommended(r.value.0))
            && (r.Err? ==> ts != [] && ws != []
                           && (r.error == NoScenario <==> scenarios == [] && Acceptable(At(base, ts[0], ws[0]))))
  {
    var cells := SearchGrid(scenarios, base, Sort(BY_VALUE, thresholds), Sort(BY_VALUE, windows), tie);
    if cells.Err? { return Err(cells.error); }
    var best := Choose(cells.value);
    return Ok((cells.value, best));
  }

  method Choose(cells: seq<Cell>) returns (best: Option<Cell>)
    ensures best == Recommended(cells)
  {
    best := None;
    var i := 0;
    while i < |cells|
      invariant 0 <= i <= |cells|
      invariant best == Recommended(cells[..i])
    {
      assert cells[..i + 1][..i] == cells[..i];
      if cells[i].complete && (best.None? || Prefers(cells[i], best.value)) { best := Some(cells[i]); }
      i := i + 1;
    }
    assert cells[..i] == cells;
  }

  // ---- what a higher threshold changes ------------------------------------------------

  lemma BumpGrows(c: Counts, d: Counts, f: Finding, malicious: set<Evidence>)
    requires c.tp <= d.tp && c.fp <= d.fp
    ensures c.tp <= Bump(d, f, malicious).tp && c.fp <= Bump(d, f, malicious).fp
    ensures Bump(c, f, malicious).tp <= Bump(d, f, malicious).tp && Bump(c, f, malicious).fp <= Bump(d, f, malicious).fp
  {
  }

  lemma TallyLast(findings: seq<Finding>, f: Finding, malicious: set<Evidence>, rule: Rule)
    ensures Tally(findings + [f], malicious, rule) ==
            var c := Tally(findings, malicious, rule); if f.rule == rule then Bump(c, f, malicious) else c
  {
    assert (findings + [f])[..|findings|] == findings;
  }

  lemma {:induction false} TallyShrinks(p: Finding -> bool, findings: seq<Finding>, malicious: set<Evidence>,
                                        rule: Rule)
    ensures Tally(Filter(p, findings), malicious, rule).tp <= Tally(findings, malicious, rule).tp
    ensures Tally(Filter(p, findings), malicious, rule).fp <= Tally(findings, malicious, rule).fp
  {
    hide Bump, Tally;
    if findings != [] {
      var init, last := findings[..|findings| - 1], findings[|findings| - 1];
      TallyShrinks(p, init, malicious, rule);
      assert findings == init + [last];
      TallyLast(init, last, malicious, rule);
      TallyLast(Filter(p, init), last, malicious, rule);
      BumpGrows(Tally(Filter(p, init), malicious, rule), Tally(init, malicious, rule), last, malicious);
    }
  }

  /** A rule counts as missed once per label that expects it, unless one of its
      findings touches the labelled incident. */
  lemma MissesAre(findings: seq<Finding>, malicious: set<Evidence>, wanted: seq<Label>, rule: Rule)
    ensures Misses(findings, malicious, wanted, rule) ==
            if Tally(findings, malicious, rule).tp > 0 then 0 else |Filter(Expecting(rule), wanted)|
  {
    var p, q := Undetected(findings, malicious), Expecting(rule);
    var both := (l: Label) => p(l) && q(l);
    FilterTwice(p, q, both, wanted);
    if Tally(findings, malicious, rule).tp > 0 {
      FilterEmpty(both, wanted);
    } else {
      SameFilter(both, q, wanted);
    }
  }

  lemma ScoreShrinks(findings: seq<Finding>, s: Scenario, p: Finding -> bool)
    ensures var fewer, all := ScoreOf(Filter(p, findings), s), ScoreOf(findings, s);
            && fewer.login.tp <= all.login.tp && fewer.bulk.tp <= all.bulk.tp && fewer.linked.tp <= all.linked.tp
            && fewer.login.fp <= all.login.fp && fewer.bulk.fp <= all.bulk.fp && fewer.linked.fp <= all.linked.fp
            && fewer.fn >= all.fn
  {
    var fewer := Filter(p, findings);
    forall rule | rule in BEHAVIORAL
      ensures Tally(fewer, s.malicious, rule).tp <= Tally(findings, s.malicious, rule).tp
      ensures Tally(fewer, s.malicious, rule).fp <= Tally(findings, s.malicious, rule).fp
      ensures Misses(fewer, s.malicious, s.wanted, rule) >= Misses(findings, s.malicious, s.wanted, rule)
    {
      TallyShrinks(p, findings, s.malicious, rule);
      MissesAre(fewer, s.malicious, s.wanted, rule);
      MissesAre(findings, s.malicious, s.wanted, rule);
    }
    assert AS002 in BEHAVIORAL && AS003 in BEHAVIORAL && AS004 in BEHAVIORAL;
  }

  /** At a fixed window, over any scenarios: true and false positives never grow with
      the threshold and missed detections never shrink. */
  lemma {:induction false} HigherThresholdFindsLess(scenarios: seq<Scenario>, cfg: Config, higher: nat)
    requires 1 <= cfg.threshold <= higher
    ensures var low, high := Evaluation(scenarios, cfg), Evaluation(scenarios, cfg.(threshold := higher));
            high.tp <= low.tp && high.fp <= low.fp && high.missed >= low.missed && high.expected == low.expected
  {
    if scenarios != [] {
      var s := scenarios[|scenarios| - 1];
      HigherThresholdFindsLess(scenarios[..|scenarios| - 1], cfg, higher);
      RaisingThresholdFilters(s.snapshot, cfg, higher);
      ScoreShrinks(Findings(s.snapshot, cfg), s, Surviving(higher));
    }
  }

  /** The thresholds with full recall are downward closed for each window. */
  lemma FullRecallDownwardClosed(scenarios: seq<Scenario>, base: Config, t: nat, higher: nat, w: nat, tie: bool)
    requires 1 <= t <= higher
    requires CellAt(base, higher, w, scenarios, tie).complete
    ensures CellAt(base, t, w, scenarios, tie).complete
  {
    HigherThresholdFindsLess(scenarios, At(base, t, w), higher);
    assert At(base, t, w).(threshold := higher) == At(base, higher, w);
  }

  // ---- what is recommended --------------------------------------------------------------

  lemma {:induction false} RowCells(base: Config, t: nat, ws: seq<nat>, n: nat, scenarios: seq<Scenario>, tie: bool)
    requires n <= |ws|
    ensures forall c :: c in Row(base, t, ws, n, scenarios, tie) <==>
                          c.window in ws[..n] && c == CellAt(base, t, c.window, scenarios, tie)
    ensures forall c :: c in Row(base, t, ws, n, scenarios, tie) ==> c.threshold == t
  {
    hide Evaluation;
    if n > 0 {
      RowCells(base, t, ws, n - 1, scenarios, tie);
      assert ws[..n] == ws[..n - 1] + [ws[n - 1]];
    }
  }

  lemma {:induction false} GridCells(base: Config, ts: seq<nat>, ws: seq<nat>, n: nat, scenarios: seq<Scenario>,
                                     tie: bool)
    requires n <= |ts|
    ensures forall c :: c in Grid(base, ts, ws, n, scenarios, tie) <==>
                          c.threshold in ts[..n] && c.window in ws &&
                          c == CellAt(base, c.threshold, c.window, scenarios, tie)
  {
    hide CellAt, Row;
    if n > 0 {
      GridCells(base, ts, ws, n - 1, scenarios, tie);
      RowCells(base, ts[n - 1], ws, |ws|, scenarios, tie);
      assert ts[..n] == ts[..n - 1] + [ts[n - 1]] && ws[..|ws|] == ws;
    }
  }

  lemma {:induction false} RecommendedIsMinimal(cells: seq<Cell>)
    ensures Recommended(cells).None? <==> forall c :: c in cells ==> !c.complete
    ensures Recommended(cells).Some? ==>
              Recommended(cells).value in cells && Recommended(cells).value.complete
              && forall c :: c in cells && c.complete ==> !Prefers(c, Recommended(cells).value)
  {
    if cells != [] {
      RecommendedIsMinimal(cells[..|cells| - 1]);
      assert cells == cells[..|cells| - 1] + [cells[|cells| - 1]];
    }
  }

  /** The recommended threshold is the only sensible one at its window: any lower
      threshold of the grid also reaches full recall but costs strictly more false
      positives, and any higher one with full recall costs exactly as many. */
  lemma RecommendedThresholdIsTight(base: Config, ts: seq<nat>, ws: seq<nat>, scenarios: seq<Scenario>, tie: bool,
                                    t: nat)
    requires t in ts && 1 <= t
    requires forall u :: u in ts ==> u >= 1
    requires Recommended(Grid(base, ts, ws, |ts|, scenarios, tie)).Some?
    ensures var best := Recommended(Grid(base, ts, ws, |ts|, scenarios, tie)).value;
            var other := CellAt(base, t, best.window, scenarios, tie);
            && (t < best.threshold ==> other.complete && other.fp > best.fp)
            && (t > best.threshold && other.complete ==> other.fp == best.fp)
  {
    var cells := Grid(base, ts, ws, |ts|, scenarios, tie);
    var best := Recommended(cells).value;
    var other := CellAt(base, t, best.window, scenarios, tie);
    RecommendedIsMinimal(cells);
    GridCells(base, ts, ws, |ts|, scenarios, tie);
    assert ts[..|ts|] == ts;
    assert best in cells && other in cells;
    if t < best.threshold {
      FullRecallDownwardClosed(scenarios, base, t, best.threshold, best.window, tie);
    } else if other.complete {
      var cfg := At(base, best.threshold, best.window);
      HigherThresholdFindsLess(scenarios, cfg, t);
      assert cfg.(threshold := t) == At(base, t, best.window);
    }
  }

  // ---- what full recall means ---------------------------------------------------------

  ghost predicate Detected(s: Scenario, cfg: Config, rule: Rule) {
    exists f :: f in Findings(s.snapshot, cfg) && f.rule == rule && Touches(f, s.malicious)
  }

  lemma {:induction false} TallyCounts(findings: seq<Finding>, malicious: set<Evidence>, rule: Rule)
    requires !Hygiene(rule)
    ensures Tally(findings, malicious, rule).alerts ==
              Tally(findings, malicious, rule).tp + Tally(findings, malicious, rule).fp
    ensures Tally(findings, malicious, rule).tp > 0 <==>
              exists f :: f in findings && f.rule == rule && Touches(f, malicious)
  {
    if findings != [] {
      TallyCounts(findings[..|findings| - 1], malicious, rule);
      assert findings == findings[..|findings| - 1] + [findings[|findings| - 1]];
    }
  }

  ghost predicate AllDetected(s: Scenario, cfg: Config) {
    forall rule :: rule in BEHAVIORAL && Known(rule) in s.wanted ==> Detected(s, cfg, rule)
  }

  lemma RuleMissed(s: Scenario, cfg: Config, findings: seq<Finding>, rule: Rule)
    requires findings == Findings(s.snapshot, cfg) && !Hygiene(rule)
    ensures Misses(findings, s.malicious, s.wanted, rule) == 0 <==> (Known(rule) in s.wanted ==> Detected(s, cfg, rule))
  {
    MissesAre(findings, s.malicious, s.wanted, rule);
    TallyCounts(findings, s.malicious, rule);
    FilterEmpty(Expecting(rule), s.wanted);
  }

  lemma ScenarioMissed(s: Scenario, cfg: Config)
    ensures ScoreAt(s, cfg).fn == 0 <==> AllDetected(s, cfg)
  {
    var findings := Findings(s.snapshot, cfg);
    RuleMissed(s, cfg, findings, AS002);
    RuleMissed(s, cfg, findings, AS003);
    RuleMissed(s, cfg, findings, AS004);
    assert AS002 in BEHAVIORAL && AS003 in BEHAVIORAL && AS004 in BEHAVIORAL;
  }

  lemma {:induction false} MissedIsSum(rate: Scenario -> Score, scenarios: seq<Scenario>)
    ensures Total(rate, scenarios).missed == 0 <==> forall s :: s in scenarios ==> rate(s).fn == 0
  {
    if scenarios != [] {
      MissedIsSum(rate, scenarios[..|scenarios| - 1]);
      assert scenarios == scenarios[..|scenarios| - 1] + [scenarios[|scenarios| - 1]];
    }
  }

  /** Nothing counts as missed exactly when every *behavioural* rule a scenario expects
      has a finding on that scenario's incident. Labels naming a hygiene rule or no rule
      at all are expected detections that can never be counted as missed. */
  lemma NoneMissed(scenarios: seq<Scenario>, cfg: Config)
    ensures Evaluation(scenarios, cfg).missed == 0 <==> forall s :: s in scenarios ==> AllDetected(s, cfg)
  {
    MissedIsSum(Rated(cfg), scenarios);
    forall s ensures Rated(cfg)(s).fn == 0 <==> AllDetected(s, cfg) {
      ScenarioMissed(s, cfg);
    }
  }

  /** Rounded full recall means nothing missed exactly while fewer than 20,000
      detections are expected (20,000 too, if the tie rounds down). */
  lemma FullRecallExact(expected: nat, tie: bool)
    ensures (forall missed: nat :: FullRecall(missed, expected, tie) ==> missed == 0) <==>
              expected < 20000 || (expected == 20000 && !tie)
  {
    if !(expected < 20000 || (expected == 20000 && !tie)) {
      assert FullRecall(1, expected, tie);
    }
  }

  /** A recommendation below that size misses no expected behavioural rule. */
  lemma RecommendedMissesNothing(base: Config, ts: seq<nat>, ws: seq<nat>, scenarios: seq<Scenario>, tie: bool,
                                 s: Scenario, rule: Rule)
    requires Recommended(Grid(base, ts, ws, |ts|, scenarios, tie)).Some?
    requires Evaluation(scenarios, base).expected < 20000
    requires s in scenarios && rule in BEHAVIORAL && Known(rule) in s.wanted
    ensures var best := Recommended(Grid(base, ts, ws, |ts|, scenarios, tie)).value;
            best.missed == 0 && Detected(s, At(base, best.threshold, best.window), rule)
  {
    var cells := Grid(base, ts, ws, |ts|, scenarios, tie);
    RecommendedIsMinimal(cells);
    GridCells(base, ts, ws, |ts|, scenarios, tie);
    assert ts[..|ts|] == ts;
    var best := Recommended(cells).value;
    var cfg := At(base, best.threshold, best.window);
    SameExpected(scenarios, base, cfg);
    FullRecallExact(Evaluation(scenarios, base).expected, tie);
    NoneMissed(scenarios, cfg);
  }

  lemma {:induction false} SameExpected(scenarios: seq<Scenario>, a: Config, b: Config)
    ensures Evaluation(scenarios, a).expected == Evaluation(scenarios, b).expected
  {
    if scenarios != [] { SameExpected(scenarios[..|scenarios| - 1], a, b); }
  }
}
