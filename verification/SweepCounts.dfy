/** What the evaluation counts and the search recommends, told by the findings and the
    labels themselves (aisecure/evaluate.py). */
module SweepCounts {
  import opened Common
  import opened Ordering
  import opened Engine
  import opened Sweep

  // ---- one scenario ----------------------------------------------------------------------------

  predicate Judged(rule: Rule) { rule == AS002 || rule == AS003 || rule == AS004 }

  predicate OnIncident(f: Finding, s: Scenario) { exists i: nat :: i < |f.evidence| && f.evidence[i] in s.malicious }

  function Alerts(rule: Rule): Finding -> bool { (f: Finding) => f.rule == rule }

  function Hits(rule: Rule, s: Scenario): Finding -> bool { (f: Finding) => f.rule == rule && OnIncident(f, s) }

  function FalseAlarms(rule: Rule, s: Scenario): Finding -> bool {
    (f: Finding) => f.rule == rule && !OnIncident(f, s)
  }

  function Number<T(!new)>(p: T -> bool, xs: seq<T>): nat { |Filter(p, xs)| }

  /** No finding of the labelled rule, if it is a judged one at all, is on the incident. */
  ghost predicate Overlooked(l: Label, findings: seq<Finding>, s: Scenario) {
    l.Known? && Judged(l.rule) ==> forall f :: f in findings && f.rule == l.rule ==> !OnIncident(f, s)
  }

  predicate JudgedLabel(l: Label) { l == Known(AS002) || l == Known(AS003) || l == Known(AS004) }

  lemma TouchesIs(f: Finding, s: Scenario)
    ensures Touches(f, s.malicious) <==> OnIncident(f, s)
  {
  }

  lemma NumberLast<T(!new)>(p: T -> bool, xs: seq<T>)
    requires xs != []
    ensures Number(p, xs) == Number(p, xs[..|xs| - 1]) + if p(xs[|xs| - 1]) then 1 else 0
  {
  }

  lemma {:induction false} TallyNumbers(findings: seq<Finding>, s: Scenario, rule: Rule)
    ensures var c := Tally(findings, s.malicious, rule);
            && c.alerts == Number(Alerts(rule), findings)
            && c.tp == (if Judged(rule) then Number(Hits(rule, s), findings) else 0)
            && c.fp == (if Judged(rule) then Number(FalseAlarms(rule, s), findings) else 0)
  {
    hide Filter, OnIncident, Touches;
    if findings == [] {
      NoneOf(Alerts(rule));
      NoneOf(Hits(rule, s));
      NoneOf(FalseAlarms(rule, s));
    } else {
      TallyNumbers(findings[..|findings| - 1], s, rule);
      TouchesIs(findings[|findings| - 1], s);
      NumberLast(Alerts(rule), findings);
      NumberLast(Hits(rule, s), findings);
      NumberLast(FalseAlarms(rule, s), findings);
    }
  }

  lemma NoneOf<T(!new)>(p: T -> bool)
    ensures Number(p, []) == 0
  {
  }

  /** A label is missed unless its rule is a judged one with a finding on the incident. */
  ghost predicate MissedAre(missed: seq<Label>, findings: seq<Finding>, s: Scenario) {
    exists p: Label -> bool :: missed == Filter(p, s.wanted) && forall l :: p(l) <==> Overlooked(l, findings, s)
  }

  lemma LabelOverlooked(findings: seq<Finding>, s: Scenario, l: Label)
    ensures Undetected(findings, s.malicious)(l) <==> Overlooked(l, findings, s)
  {
    hide Tally, OnIncident;
    if l.Known? {
      TallyNumbers(findings, s, l.rule);
      if Judged(l.rule) { FilterEmpty(Hits(l.rule, s), findings); }
    }
  }

  lemma {:induction false} ThreeKinds(missed: seq<Label>)
    ensures Number(JudgedLabel, missed) ==
            Number(Expecting(AS002), missed) + Number(Expecting(AS003), missed) + Number(Expecting(AS004), missed)
  {
    hide Filter, Number;
    if missed == [] {
      NoneOf(JudgedLabel);
      NoneOf(Expecting(AS002));
      NoneOf(Expecting(AS003));
      NoneOf(Expecting(AS004));
    } else {
      ThreeKinds(missed[..|missed| - 1]);
      NumberLast(JudgedLabel, missed);
      NumberLast(Expecting(AS002), missed);
      NumberLast(Expecting(AS003), missed);
      NumberLast(Expecting(AS004), missed);
    }
  }

  predicate CountsAre(c: Counts, rule: Rule, findings: seq<Finding>, s: Scenario) {
    && c.alerts == Number(Alerts(rule), findings) && c.tp == Number(Hits(rule, s), findings)
    && c.fp == Number(FalseAlarms(rule, s), findings)
  }

  /** A scenario's score counts its findings by rule and by whether one of their evidence
      identifiers belongs to the incident, its hygiene findings without judging them, and the
      labels of judged rules among those missed. */
  lemma ScoreExactly(s: Scenario, cfg: Config)
    ensures var score, findings := ScoreAt(s, cfg), Findings(s.snapshot, cfg);
            && CountsAre(score.login, AS002, findings, s) && CountsAre(score.bulk, AS003, findings, s)
            && CountsAre(score.linked, AS004, findings, s)
            && score.hygiene == Number(Alerts(AS001), findings) + Number(Alerts(AS005), findings)
            && MissedAre(score.missed, findings, s) && score.fn == Number(JudgedLabel, score.missed)
  {
    hide Tally, Filter, OnIncident, Findings, Overlooked;
    var findings := Findings(s.snapshot, cfg);
    forall rule { TallyNumbers(findings, s, rule); }
    forall l ensures Undetected(findings, s.malicious)(l) <==> Overlooked(l, findings, s) {
      LabelOverlooked(findings, s, l);
    }
    ThreeKinds(ScoreAt(s, cfg).missed);
  }

  // ---- every scenario --------------------------------------------------------------------------

  function Sum(of: Scenario -> nat, scenarios: seq<Scenario>): nat {
    if scenarios == [] then 0 else of(scenarios[0]) + Sum(of, scenarios[1..])
  }

  lemma {:induction false} SumLast(of: Scenario -> nat, init: seq<Scenario>, s: Scenario)
    ensures Sum(of, init + [s]) == Sum(of, init) + of(s)
  {
    if init == [] {
      assert init + [s] == [s];
    } else {
      assert (init + [s])[1..] == init[1..] + [s];
      SumLast(of, init[1..], s);
    }
  }

  function HitsIn(cfg: Config): Scenario -> nat {
    (s: Scenario) =>
      var score := ScoreAt(s, cfg);
      score.login.tp + score.bulk.tp + score.linked.tp
  }

  function FalseAlarmsIn(cfg: Config): Scenario -> nat {
    (s: Scenario) =>
      var score := ScoreAt(s, cfg);
      score.login.fp + score.bulk.fp + score.linked.fp
  }

  function MissedIn(cfg: Config): Scenario -> nat { (s: Scenario) => ScoreAt(s, cfg).fn }

  function WantedIn(): Scenario -> nat { (s: Scenario) => |s.wanted| }

  /** The totals are the sums over the scenarios. */
  lemma {:induction false} TotalsExactly(scenarios: seq<Scenario>, cfg: Config)
    ensures var totals := Evaluation(scenarios, cfg);
            && totals.tp == Sum(HitsIn(cfg), scenarios) && totals.fp == Sum(FalseAlarmsIn(cfg), scenarios)
            && totals.missed == Sum(MissedIn(cfg), scenarios) && totals.expected == Sum(WantedIn(), scenarios)
  {
    hide ScoreAt;
    if scenarios != [] {
      var init, s := scenarios[..|scenarios| - 1], scenarios[|scenarios| - 1];
      assert scenarios == init + [s];
      TotalsExactly(init, cfg);
      SumLast(HitsIn(cfg), init, s);
      SumLast(FalseAlarmsIn(cfg), init, s);
      SumLast(MissedIn(cfg), init, s);
      SumLast(WantedIn(), init, s);
    }
  }

  /** Rounding recall to four places gives 1.0 exactly when it lies less than half a place
      below, or half a place below if such a tie is rounded up. */
  lemma RecallRounds(missed: nat, expected: nat, tie: bool)
    ensures FullRecall(missed, expected, tie) <==>
              && expected > 0
              && var places := 10000.0 * ((expected - missed) as real / expected as real);
                 places > 9999.5 || (places == 9999.5 && tie)
  {
    if expected > 0 {
      var e, m := expected as real, missed as real;
      var ratio := (expected - missed) as real / e;
      assert ratio * e == e - m;
      assert (10000.0 * ratio - 9999.5) * e == 10000.0 * (ratio * e) - 9999.5 * e == 0.5 * e - 10000.0 * m;
      SameSign(10000.0 * ratio - 9999.5, e);
    }
  }

  lemma SameSign(x: real, e: real)
    requires e > 0.0
    ensures (x > 0.0 <==> x * e > 0.0) && (x == 0.0 <==> x * e == 0.0)
  {
  }

  // ---- the search ------------------------------------------------------------------------------

  predicate InBounds(base: Config, t: nat, w: nat) {
    && 2 <= t <= 1000000 && 10 <= w <= 86400 && base.lookback <= 604800 && base.sensitiveMinimum <= 1000000
    && 3600 <= base.staleSeconds <= 31536000 && base.sensitiveMinimum <= t
  }

  /** The cell says of its threshold and window what the evaluation counts under them. */
  predicate CellSays(c: Cell, base: Config, scenarios: seq<Scenario>, tie: bool) {
    var cfg := Config(c.window, c.threshold, base.lookback, base.sensitiveMinimum, base.staleSeconds, base.both);
    && c.tp == Sum(HitsIn(cfg), scenarios) && c.fp == Sum(FalseAlarmsIn(cfg), scenarios)
    && c.missed == Sum(MissedIn(cfg), scenarios)
    && (c.complete <==> FullRecall(c.missed, Sum(WantedIn(), scenarios), tie))
  }

  predicate Listed(cells: seq<Cell>, t: nat, w: nat) { exists c :: c in cells && c.threshold == t && c.window == w }

  lemma CellExactly(base: Config, t: nat, w: nat, scenarios: seq<Scenario>, tie: bool)
    ensures CellSays(CellAt(base, t, w, scenarios, tie), base, scenarios, tie)
  {
    hide Sum, FullRecall, HitsIn, FalseAlarmsIn, MissedIn, WantedIn;
    TotalsExactly(scenarios, At(base, t, w));
  }

  /** The cell costs no more false positives than `d`, at as many has no higher threshold, and
      at the same threshold no shorter window. */
  predicate AtLeastAsGood(c: Cell, d: Cell) {
    && c.fp <= d.fp && (c.fp == d.fp ==> c.threshold <= d.threshold)
    && (c.fp == d.fp && c.threshold == d.threshold ==> c.window >= d.window)
  }

  ghost predicate Ascending(ns: seq<nat>) { forall i, j :: 0 <= i < j < |ns| ==> ns[i] <= ns[j] }

  /** Listed by threshold and, at the same one, by window. */
  ghost predicate InOrder(cells: seq<Cell>) {
    forall i, j :: 0 <= i < j < |cells| ==>
      || cells[i].threshold < cells[j].threshold
      || (cells[i].threshold == cells[j].threshold && cells[i].window <= cells[j].window)
  }

  lemma SortedNumbers(ns: seq<nat>)
    ensures Ascending(Sort(BY_VALUE, ns)) && (NoDuplicates(ns) ==> NoDuplicates(Sort(BY_VALUE, ns)))
  {
    SortSorted(BY_VALUE, ns);
    if NoDuplicates(ns) { SortStrict(BY_VALUE, ns); }
    var r := Sort(BY_VALUE, ns);
    assert forall i, j :: 0 <= i < j < |r| ==> !StampLess(BY_VALUE(r[j]), BY_VALUE(r[i]));
  }

  lemma {:induction false} RowInOrder(base: Config, t: nat, ws: seq<nat>, n: nat, scenarios: seq<Scenario>, tie: bool)
    requires n <= |ws| && Ascending(ws)
    ensures var row := Row(base, t, ws, n, scenarios, tie);
            |row| == n && InOrder(row) && forall k :: 0 <= k < n ==> row[k].threshold == t && row[k].window == ws[k]
  {
    hide Evaluation;
    if n > 0 { RowInOrder(base, t, ws, n - 1, scenarios, tie); }
  }

  lemma JoinedInOrder(before: seq<Cell>, row: seq<Cell>)
    requires InOrder(before) && InOrder(row)
    requires forall c, d :: c in before && d in row ==>
               c.threshold < d.threshold || (c.threshold == d.threshold && c.window <= d.window)
    ensures InOrder(before + row)
  {
  }

  lemma {:induction false} GridInOrder(base: Config, ts: seq<nat>, ws: seq<nat>, n: nat, scenarios: seq<Scenario>,
                                       tie: bool)
    requires n <= |ts| && Ascending(ts) && Ascending(ws)
    ensures var cells := Grid(base, ts, ws, n, scenarios, tie);
            && |cells| == n * |ws| && (forall c :: c in cells ==> c.threshold in ts[..n])
            && (NoDuplicates(ts) ==> InOrder(cells))
  {
    hide Row;
    if n > 0 {
      GridInOrder(base, ts, ws, n - 1, scenarios, tie);
      RowInOrder(base, ts[n - 1], ws, |ws|, scenarios, tie);
      assert ts[..n] == ts[..n - 1] + [ts[n - 1]];
      var before, row := Grid(base, ts, ws, n - 1, scenarios, tie), Row(base, ts[n - 1], ws, |ws|, scenarios, tie);
      Lines(n - 1, |ws|);
      if NoDuplicates(ts) {
        forall c, d | c in before && d in row ensures c.threshold < d.threshold {
          var i :| 0 <= i < n - 1 && ts[i] == c.threshold;
        }
        JoinedInOrder(before, row);
      }
    }
  }

  lemma Lines(n: nat, m: nat)
    ensures (n + 1) * m == n * m + m
  {
  }

  /** The search has a cell for every threshold and window given and no other, in order if no
      threshold is given twice. Each cell says what is counted, and the one recommended is a
      complete one that is at least as good as every complete one, if there is any. */
  lemma SearchExactly(base: Config, thresholds: seq<nat>, windows: seq<nat>, scenarios: seq<Scenario>, tie: bool)
    ensures var ts, ws := Sort(BY_VALUE, thresholds), Sort(BY_VALUE, windows);
            var cells := Grid(base, ts, ws, |ts|, scenarios, tie);
            var best := Recommended(cells);
            && (GridAcceptable(base, ts, ws) <==>
                forall t, w :: t in thresholds && w in windows ==> InBounds(base, t, w))
            && (forall t, w :: t in thresholds && w in windows <==> Listed(cells, t, w))
            && |cells| == |thresholds| * |windows| && (NoDuplicates(thresholds) ==> InOrder(cells))
            && (forall c :: c in cells ==> CellSays(c, base, scenarios, tie))
            && (best.None? <==> forall c :: c in cells ==> !c.complete)
            && (best.Some? ==>
                  && best.value in cells && best.value.complete
                  && forall c :: c in cells && c.complete ==> AtLeastAsGood(best.value, c))
  {
    hide Sort, Grid, Recommended, CellAt, CellSays, Prefers, AtLeastAsGood, Acceptable, InBounds;
    var ts, ws := Sort(BY_VALUE, thresholds), Sort(BY_VALUE, windows);
    var cells := Grid(base, ts, ws, |ts|, scenarios, tie);
    GridCells(base, ts, ws, |ts|, scenarios, tie);
    assert ts[..|ts|] == ts;
    RecommendedIsMinimal(cells);
    SortedNumbers(thresholds);
    SortedNumbers(windows);
    GridInOrder(base, ts, ws, |ts|, scenarios, tie);
    BoundsAre(base, ts, ws);
    forall c | c in cells ensures CellSays(c, base, scenarios, tie) {
      CellExactly(base, c.threshold, c.window, scenarios, tie);
    }
    forall t, w | t in thresholds && w in windows ensures Listed(cells, t, w) {
      var c := CellAt(base, t, w, scenarios, tie);
      CellKnowsItself(base, t, w, scenarios, tie);
      assert c in cells;
    }
    forall c | c in cells ensures c.threshold in thresholds && c.window in windows {}
    forall c, d | !Prefers(d, c) ensures AtLeastAsGood(c, d) { NotPreferred(c, d); }
  }

  lemma CellKnowsItself(base: Config, t: nat, w: nat, scenarios: seq<Scenario>, tie: bool)
    ensures CellAt(base, t, w, scenarios, tie).threshold == t && CellAt(base, t, w, scenarios, tie).window == w
  {
  }

  lemma NotPreferred(c: Cell, d: Cell)
    requires !Prefers(d, c)
    ensures AtLeastAsGood(c, d)
  {
  }

  lemma BoundsAre(base: Config, ts: seq<nat>, ws: seq<nat>)
    ensures GridAcceptable(base, ts, ws) <==> forall t, w :: t in ts && w in ws ==> InBounds(base, t, w)
  {
    forall t: nat, w: nat ensures Acceptable(At(base, t, w)) <==> InBounds(base, t, w) {}
    hide Acceptable, InBounds;
    if GridAcceptable(base, ts, ws) {
      forall t, w | t in ts && w in ws ensures InBounds(base, t, w) {
        var i :| 0 <= i < |ts| && ts[i] == t;
        var j :| 0 <= j < |ws| && ws[j] == w;
        assert RowAcceptable(base, ts[i], ws);
      }
    }
    if forall t, w :: t in ts && w in ws ==> InBounds(base, t, w) {
      forall i, j | 0 <= i < |ts| && 0 <= j < |ws| ensures Acceptable(At(base, ts[i], ws[j])) {
        assert ts[i] in ts && ws[j] in ws;
      }
    }
  }
}
