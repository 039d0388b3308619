/** Which cases the analysis reports, rule by rule, told by the observations alone, and when it
    refuses (aisecure/control/analytics.py, `analyze`). */
module CaseRules {
  import opened Common
  import opened Ordering
  import opened Analytics
  import opened AnalyticsSafety

  // ---- what the rules look at --------------------------------------------------------------

  predicate By(e: Observation, k: Subject) { e.organization == k.organization && e.actor == k.actor }

  predicate Secret(e: Observation) { e.data == Confidential || e.data == Restricted }

  /** Sent out, or tried to, to no target of the organization. */
  predicate Leaves(e: Observation) { e.kind == Egress && e.target != TargetType.Organization && e.outcome != Blocked }

  predicate LoginTry(e: Observation) { e.kind == VpnLogin || e.kind == IdpLogin }

  function SecretLeaving(k: Subject, now: int): Observation -> bool {
    (e: Observation) => By(e, k) && now - 86400 <= e.at && Leaves(e) && Secret(e)
  }

  function AnyLeaving(k: Subject, now: int): Observation -> bool {
    (e: Observation) => By(e, k) && now - 86400 <= e.at && Leaves(e) && (e.data == Internal || Secret(e))
  }

  function FailuresBefore(k: Subject, login: Observation): Observation -> bool {
    (e: Observation) =>
      && By(e, k) && LoginTry(e) && e.outcome == Failure && e.source == login.source
      && login.at - 600 <= e.at < login.at
  }

  function SecretsRead(k: Subject, login: Observation): Observation -> bool {
    (e: Observation) =>
      && By(e, k) && e.session == login.session && login.at <= e.at <= login.at + 3600
      && e.kind == FileRead && e.outcome == Success && Secret(e)
  }

  function SecretsSent(k: Subject, login: Observation, from: int): Observation -> bool {
    (e: Observation) =>
      && By(e, k) && e.session == login.session && login.at <= e.at <= login.at + 3600
      && Leaves(e) && Secret(e) && from <= e.at
  }

  function SentOut(k: Subject, now: int): Observation -> bool {
    (e: Observation) => By(e, k) && now - 86400 <= e.at && e.kind == Egress && e.outcome == Success
  }

  /** A privileged login over a risky asset, without a second factor or from an untrusted
      device, that names its session. */
  predicate Alarming(login: Observation, k: Subject, s: Setting) {
    && (k.organization, login.asset) in s.risks && login.privileged == Some(true)
    && (login.mfa == Some(false) || login.trusted == Some(false))
    && login.session != None && login.session != Some("")
  }

  predicate LoggedIn(login: Observation, k: Subject) { By(login, k) && LoginTry(login) && login.outcome == Success }

  function Total(sent: seq<Observation>): nat {
    if sent == [] then 0 else sent[0].bytes + Total(sent[1..])
  }

  // ---- what a case says --------------------------------------------------------------------

  /** The observations that meet the condition, by time and identifier. */
  ghost predicate Lists(chosen: seq<Observation>, events: seq<Observation>, meets: Observation -> bool) {
    && (forall e :: e in chosen <==> e in events && meets(e))
    && (forall i, j :: 0 <= i < j < |chosen| ==>
          || chosen[i].at < chosen[j].at
          || (chosen[i].at == chosen[j].at && TextLess(chosen[i].id, chosen[j].id)))
  }

  /** The first 32 observations by their identifiers, and how many there are. */
  function Told(rule: Rule, chosen: seq<Observation>): Case {
    Case(rule, seq(if |chosen| > 32 then 32 else |chosen|, i requires 0 <= i < |chosen| => chosen[i].id), |chosen|)
  }

  ghost predicate SecretEgress(events: seq<Observation>, k: Subject, s: Setting, c: Case) {
    exists chosen ::
      chosen != [] && Lists(chosen, events, SecretLeaving(k, s.now)) && c == Told(SensitiveEgress, chosen)
  }

  ghost predicate SlowEgress(events: seq<Observation>, k: Subject, s: Setting, c: Case) {
    exists chosen: seq<Observation> ::
      && |chosen| >= 3 && chosen[|chosen| - 1].at - chosen[0].at >= 600
      && Lists(chosen, events, AnyLeaving(k, s.now)) && c == Told(LowSlow, chosen)
  }

  ghost predicate GuessedLogin(events: seq<Observation>, k: Subject, login: Observation, c: Case) {
    exists failed ::
      && |failed| >= 5 && Lists(failed, events, FailuresBefore(k, login))
      && c == Told(LoginAfterFailures, failed + [login])
  }

  ghost predicate DataTaken(events: seq<Observation>, k: Subject, s: Setting, login: Observation, c: Case) {
    exists taken: seq<Observation>, sent ::
      && Alarming(login, k, s) && taken != [] && Lists(taken, events, SecretsRead(k, login))
      && Lists(sent, events, SecretsSent(k, login, taken[0].at))
      && c == Told(PrivilegedDataPath, [login] + taken + sent)
  }

  ghost predicate LargeVolume(events: seq<Observation>, k: Subject, s: Setting, b: Baseline, c: Case) {
    exists sent ::
      && b.organization == k.organization && b.actor == k.actor && Lists(sent, events, SentOut(k, s.now))
      && 4 * Total(sent) > Threshold4(b.samples) && c == Told(BaselineDeviation, sent)
  }

  // ---- the median --------------------------------------------------------------------------

  /** The middle value of the values in order, or the mean of the two middle ones. */
  ghost predicate Median(m: real, values: seq<real>) {
    exists t: seq<real> ::
      && multiset(t) == multiset(values) && (forall i, j :: 0 <= i < j < |t| ==> t[i] <= t[j])
      && |t| > 0 && m == (t[(|t| - 1) / 2] + t[|t| / 2]) / 2.0
  }

  function Scaled(values: seq<nat>, scale: real): seq<real> {
    seq(|values|, i requires 0 <= i < |values| => values[i] as real * scale)
  }

  function Distances(values: seq<nat>, m: real): seq<real> {
    seq(|values|,
        i requires 0 <= i < |values| => var x := values[i] as real; if x < m then m - x else x - m)
  }

  function Max(a: real, b: real): real { if a < b then b else a }

  lemma ScaledLast(init: seq<nat>, last: nat, scale: real)
    ensures Scaled(init + [last], scale) == Scaled(init, scale) + [last as real * scale]
  {
    var all, both := Scaled(init + [last], scale), Scaled(init, scale) + [last as real * scale];
    forall i | 0 <= i < |all| ensures all[i] == both[i] {
      if i < |init| { assert (init + [last])[i] == init[i]; } else { assert (init + [last])[i] == last; }
    }
    assert all == both;
  }

  lemma {:induction false} InsertScaled(x: nat, xs: seq<nat>, scale: real)
    ensures multiset(Scaled(Insert(BY_SIZE, x, xs), scale)) ==
            multiset(Scaled(xs, scale)) + multiset{x as real * scale}
  {
    hide Scaled;
    if xs == [] {
      ScaledLast([], x, scale);
      assert [] + [x] == [x];
      assert multiset(Scaled([], scale)) == multiset{} by { NoneScaled(scale); }
    } else {
      var init, last := xs[..|xs| - 1], xs[|xs| - 1];
      assert xs == init + [last];
      ScaledLast(init, last, scale);
      ScaledLast(xs, x, scale);
      if StampLess(BY_SIZE(x), BY_SIZE(last)) {
        InsertScaled(x, init, scale);
        ScaledLast(Insert(BY_SIZE, x, init), last, scale);
      }
    }
  }

  lemma NoneScaled(scale: real)
    ensures Scaled([], scale) == []
  {
  }

  lemma {:induction false} SortScaled(xs: seq<nat>, scale: real)
    ensures multiset(Scaled(Sort(BY_SIZE, xs), scale)) == multiset(Scaled(xs, scale))
  {
    hide Scaled, Insert;
    if xs != [] {
      var init, last := xs[..|xs| - 1], xs[|xs| - 1];
      assert xs == init + [last];
      SortScaled(init, scale);
      InsertScaled(last, Sort(BY_SIZE, init), scale);
      ScaledLast(init, last, scale);
    }
  }

  lemma InOrder(a: nat, b: nat, scale: real)
    requires a <= b && scale > 0.0
    ensures a as real * scale <= b as real * scale
  {
  }

  lemma Middle(a: nat, b: nat, scale: real)
    ensures (a as real * scale + b as real * scale) / 2.0 == (a + b) as real * scale / 2.0
  {
  }

  /** The median of the scaled values is the scaled median. */
  lemma MedianScaled(values: seq<nat>, scale: real)
    requires values != [] && scale > 0.0
    ensures Median(Median2(values) as real * scale / 2.0, Scaled(values, scale))
  {
    hide Scaled, Sort;
    var sorted, n := Sort(BY_SIZE, values), |values|;
    SortScaled(values, scale);
    SortedScaled(values, scale);
    Middle(sorted[(n - 1) / 2], sorted[n / 2], scale);
    var t := Scaled(sorted, scale);
    assert Median2(values) == sorted[(n - 1) / 2] + sorted[n / 2];
    assert Median2(values) as real * scale / 2.0 == (t[(n - 1) / 2] + t[n / 2]) / 2.0;
  }

  lemma SortedScaled(values: seq<nat>, scale: real)
    requires values != [] && scale > 0.0
    ensures var sorted, t := Sort(BY_SIZE, values), Scaled(Sort(BY_SIZE, values), scale);
            && |t| == |sorted| == |values| && (forall i :: 0 <= i < |t| ==> t[i] == sorted[i] as real * scale)
            && (forall i, j :: 0 <= i < j < |t| ==> t[i] <= t[j])
  {
    hide Sort;
    var sorted := Sort(BY_SIZE, values);
    var t := Scaled(sorted, scale);
    SortSorted(BY_SIZE, values);
    forall i, j | 0 <= i < j < |t| ensures t[i] <= t[j] {
      assert !StampLess(BY_SIZE(sorted[j]), BY_SIZE(sorted[i]));
      InOrder(sorted[i], sorted[j], scale);
    }
  }

  /** The limit is the largest of three times the median, the median and six times the median
      distance from it or 1024 if that is less, and one MiB. */
  lemma ThresholdExactly(samples: seq<nat>)
    requires samples != []
    ensures exists m, mad :: && Median(m, Scaled(samples, 1.0)) && Median(mad, Distances(samples, m))
                             && Threshold4(samples) as real / 4.0 ==
                                Max(Max(3.0 * m, m + 6.0 * Max(mad, 1024.0)), 1048576.0)
  {
    hide Median, Median2;
    var median2 := Median2(samples);
    var m, far := median2 as real / 2.0, Deviations(samples, median2);
    MedianScaled(samples, 1.0);
    MedianScaled(far, 0.5);
    var mad := Median2(far) as real / 4.0;
    assert Scaled(far, 0.5) == Distances(samples, m);
    var limit := Max(Max(3.0 * m, m + 6.0 * Max(mad, 1024.0)), 1048576.0);
    assert Threshold4(samples) as real == 4.0 * limit;
    assert Median(m, Scaled(samples, 1.0)) && Median(mad, Distances(samples, m));
  }

  // ---- selections ----------------------------------------------------------------------------

  /** The observations of one organization and actor, by time. */
  function Group(events: seq<Observation>, k: Subject): seq<Observation>
    requires Deduplicated(events).Ok?
  {
    Filter(Of(k), Deduplicated(events).value)
  }

  lemma OneEach(events: seq<Observation>)
    requires Deduplicated(events).Ok?
    ensures forall d, e :: d in events && e in events && d.id == e.id ==> d == e
  {
    DistinctKeepsAll(events, |events|);
    assert events[..|events|] == events;
    var r := Distinct(events, |events|).value;
    forall d, e | d in events && e in events && d.id == e.id ensures d == e {
      var i :| 0 <= i < |r| && r[i] == d;
      var j :| 0 <= j < |r| && r[j] == e;
      assert !(i < j) && !(j < i);
    }
  }

  /** What the analysis selects from a group is the one list of what meets the condition. */
  lemma ListIs(events: seq<Observation>, k: Subject, q: Observation -> bool, meets: Observation -> bool)
    requires Deduplicated(events).Ok? && forall e :: meets(e) <==> By(e, k) && q(e)
    ensures Lists(Filter(q, Group(events, k)), events, meets)
    ensures forall chosen :: Lists(chosen, events, meets) ==> chosen == Filter(q, Group(events, k))
  {
    hide Deduplicated, Filter, TextLess;
    var group := Group(events, k);
    DeduplicatedStrict(events);
    FilterStrict(Of(k), Deduplicated(events).value);
    FilterStrict(q, group);
    ByTime(Filter(q, group));
    forall chosen | Lists(chosen, events, meets) ensures chosen == Filter(q, group) {
      ByTime(chosen);
      StrictlySortedUnique(BY_TIME, chosen, Filter(q, group));
    }
  }

  lemma ByTime(chosen: seq<Observation>)
    ensures StrictlySorted(BY_TIME, chosen) <==>
              forall i, j :: 0 <= i < j < |chosen| ==>
                || chosen[i].at < chosen[j].at
                || (chosen[i].at == chosen[j].at && TextLess(chosen[i].id, chosen[j].id))
  {
    hide TextLess;
  }

  lemma ListDistinct(events: seq<Observation>, meets: Observation -> bool, chosen: seq<Observation>)
    requires Deduplicated(events).Ok? && Lists(chosen, events, meets)
    ensures forall i, j :: 0 <= i < j < |chosen| ==> chosen[i].id != chosen[j].id && chosen[i].at <= chosen[j].at
  {
    hide Deduplicated, TextLess;
    OneEach(events);
    forall i, j | 0 <= i < j < |chosen| ensures chosen[i].id != chosen[j].id {
      TextIrreflexive(chosen[i].id);
      assert chosen[i] in events && chosen[j] in events;
    }
  }

  lemma {:induction false} IdsInOrder(group: seq<Observation>)
    requires forall i, j :: 0 <= i < j < |group| ==> group[i].id != group[j].id
    ensures Ids(group) == seq(|group|, i requires 0 <= i < |group| => group[i].id)
  {
    if group != [] {
      var init, last := group[..|group| - 1], group[|group| - 1];
      IdsInOrder(init);
      assert forall i :: 0 <= i < |init| ==> Ids(init)[i] == group[i].id;
    }
  }

  lemma CaseIs(rule: Rule, group: seq<Observation>)
    requires forall i, j :: 0 <= i < j < |group| ==> group[i].id != group[j].id
    ensures CaseFor(rule, group) == if group == [] then [] else [Told(rule, group)]
  {
    hide Ids;
    IdsInOrder(group);
    if group != [] {
      var ids := Ids(group);
      assert Told(rule, group).evidence == if |ids| > LISTED then ids[..LISTED] else ids;
    }
  }

  lemma CaseOfList(events: seq<Observation>, k: Subject, q: Observation -> bool, meets: Observation -> bool,
                   rule: Rule)
    requires Deduplicated(events).Ok? && forall e :: meets(e) <==> By(e, k) && q(e)
    ensures var chosen := Filter(q, Group(events, k));
            && Lists(chosen, events, meets) && (forall other :: Lists(other, events, meets) ==> other == chosen)
            && CaseFor(rule, chosen) == (if chosen == [] then [] else [Told(rule, chosen)])
  {
    hide Deduplicated, Filter, Group, CaseFor, Told, Lists;
    ListIs(events, k, q, meets);
    ListDistinct(events, meets, Filter(q, Group(events, k)));
    CaseIs(rule, Filter(q, Group(events, k)));
  }

  // ---- the cases of one login ----------------------------------------------------------------

  lemma GuessesFound(events: seq<Observation>, k: Subject, login: Observation, c: Case)
    requires Deduplicated(events).Ok? && login in events && LoggedIn(login, k)
    ensures var failures := Filter(FailuresOf(login), Group(events, k));
            |failures| >= 5 && c in CaseFor(LoginAfterFailures, failures + [login]) <==>
              GuessedLogin(events, k, login, c)
  {
    hide Deduplicated, Filter, Group, CaseFor, Told;
    var failures := Filter(FailuresOf(login), Group(events, k));
    CaseOfList(events, k, FailuresOf(login), FailuresBefore(k, login), LoginAfterFailures);
    ListDistinct(events, FailuresBefore(k, login), failures);
    OneEach(events);
    forall i | 0 <= i < |failures| ensures failures[i].id != login.id {
      assert failures[i] in failures;
    }
    CaseIs(LoginAfterFailures, failures + [login]);
  }

  lemma PathDistinct(events: seq<Observation>, k: Subject, login: Observation, taken: seq<Observation>,
                     sent: seq<Observation>, from: int)
    requires Deduplicated(events).Ok? && login in events && LoggedIn(login, k)
    requires Lists(taken, events, SecretsRead(k, login)) && Lists(sent, events, SecretsSent(k, login, from))
    ensures var path := [login] + taken + sent; forall i, j :: 0 <= i < j < |path| ==> path[i].id != path[j].id
  {
    hide Deduplicated, TextLess, Lists;
    OneEach(events);
    ListDistinct(events, SecretsRead(k, login), taken);
    ListDistinct(events, SecretsSent(k, login, from), sent);
    forall e | e in taken ensures e in events && e.kind == FileRead { Listed(taken, events, SecretsRead(k, login), e); }
    forall e | e in sent ensures e in events && e.kind == Egress {
      Listed(sent, events, SecretsSent(k, login, from), e);
    }
    var path := [login] + taken + sent;
    forall i, j | 0 <= i < j < |path| ensures path[i].id != path[j].id {
      if j <= |taken| {
        assert path[j] == taken[j - 1];
      } else {
        assert path[j] == sent[j - 1 - |taken|];
        if 0 < i <= |taken| { assert path[i] == taken[i - 1]; }
        if i > |taken| { assert path[i] == sent[i - 1 - |taken|]; }
      }
    }
  }

  lemma Listed(chosen: seq<Observation>, events: seq<Observation>, meets: Observation -> bool, e: Observation)
    requires Lists(chosen, events, meets) && e in chosen
    ensures e in events && meets(e)
  {
    hide TextLess;
  }

  lemma PathFound(events: seq<Observation>, k: Subject, s: Setting, login: Observation, c: Case)
    requires Deduplicated(events).Ok? && login in events && LoggedIn(login, k)
    ensures Suspicious(login, k, s) && c in CaseFor(PrivilegedDataPath, DataPath(Group(events, k), login)) <==>
              DataTaken(events, k, s, login, c)
  {
    hide Deduplicated, Filter, Group, CaseFor, Told, Lists, Ids;
    var group := Group(events, k);
    var taken := Filter(ReadsAfter(login), group);
    CaseOfList(events, k, ReadsAfter(login), SecretsRead(k, login), PrivilegedDataPath);
    if taken == [] {
      NoCase(PrivilegedDataPath);
    } else {
      ListDistinct(events, SecretsRead(k, login), taken);
      EarliestIs(taken);
      var from := taken[0].at;
      assert Earliest(taken) == from;
      var sent := Filter(EgressAfter(login, from), group);
      CaseOfList(events, k, EgressAfter(login, from), SecretsSent(k, login, from), PrivilegedDataPath);
      PathDistinct(events, k, login, taken, sent, from);
      CaseIs(PrivilegedDataPath, [login] + taken + sent);
    }
  }

  lemma NoCase(rule: Rule)
    ensures CaseFor(rule, []) == []
  {
  }

  lemma LoginFound(events: seq<Observation>, k: Subject, s: Setting, login: Observation, c: Case)
    requires Deduplicated(events).Ok? && login in events && LoggedIn(login, k)
    ensures c in LoginCases(Group(events, k), login, k, s) <==>
              GuessedLogin(events, k, login, c) || DataTaken(events, k, s, login, c)
  {
    hide Deduplicated, Filter, Group, CaseFor, Suspicious, DataPath, GuessedLogin, DataTaken;
    GuessesFound(events, k, login, c);
    PathFound(events, k, s, login, c);
  }

  // ---- all cases of one subject ----------------------------------------------------------------

  lemma {:induction false} TotalLast(init: seq<Observation>, last: Observation)
    ensures Total(init + [last]) == Total(init) + last.bytes
  {
    if init == [] {
      assert init + [last] == [last];
    } else {
      assert (init + [last])[1..] == init[1..] + [last];
      TotalLast(init[1..], last);
    }
  }

  lemma {:induction false} SumIsTotal(group: seq<Observation>)
    ensures Sum(group) == Total(group)
  {
    if group != [] {
      var init, last := group[..|group| - 1], group[|group| - 1];
      assert group == init + [last];
      SumIsTotal(init);
      TotalLast(init, last);
    }
  }

  ghost predicate BaselineCase(group: seq<Observation>, k: Subject, s: Setting, b: Baseline, c: Case) {
    && Subject(b.organization, b.actor) == k && Deviates(group, b, s.now)
    && c in CaseFor(BaselineDeviation, Filter(SentIn(s.now), group))
  }

  lemma {:induction false} BaselinesAre(group: seq<Observation>, k: Subject, s: Setting, n: nat, c: Case)
    requires n <= |s.baselines| && BaselineCases(group, k, s, n).Ok?
    ensures c in BaselineCases(group, k, s, n).value <==>
              exists i :: 0 <= i < n && BaselineCase(group, k, s, s.baselines[i], c)
  {
    hide CaseFor, Deviates, Filter;
    if n > 0 { BaselinesAre(group, k, s, n - 1, c); }
  }

  lemma VolumeFound(events: seq<Observation>, k: Subject, s: Setting, b: Baseline, c: Case)
    requires Deduplicated(events).Ok?
    ensures BaselineCase(Group(events, k), k, s, b, c) <==> LargeVolume(events, k, s, b, c)
  {
    hide Deduplicated, Filter, Group, CaseFor, Told, Lists, Median2, Deviations;
    var sent := Filter(SentIn(s.now), Group(events, k));
    CaseOfList(events, k, SentIn(s.now), SentOut(k, s.now), BaselineDeviation);
    SumIsTotal(sent);
  }

  lemma EgressFound(events: seq<Observation>, k: Subject, s: Setting, c: Case)
    requires Deduplicated(events).Ok?
    ensures c in CaseFor(SensitiveEgress, Filter(SensitiveIn(s.now), Group(events, k))) <==>
              SecretEgress(events, k, s, c)
  {
    hide Deduplicated, Filter, Group, CaseFor, Told, Lists;
    CaseOfList(events, k, SensitiveIn(s.now), SecretLeaving(k, s.now), SensitiveEgress);
  }

  lemma SlowFound(events: seq<Observation>, k: Subject, s: Setting, c: Case)
    requires Deduplicated(events).Ok?
    ensures var transfers := Filter(TransferIn(s.now), Group(events, k));
            |transfers| >= 3 && Spread(transfers) >= 600 && c in CaseFor(LowSlow, transfers) <==>
              SlowEgress(events, k, s, c)
  {
    hide Deduplicated, Filter, Group, CaseFor, Told, Lists, Spread, AnyLeaving, TransferIn;
    var transfers := Filter(TransferIn(s.now), Group(events, k));
    TransfersLeave(k, s.now);
    CaseOfList(events, k, TransferIn(s.now), AnyLeaving(k, s.now), LowSlow);
    SpreadIs(transfers);
    if |transfers| >= 3 && Spread(transfers) >= 600 && c in CaseFor(LowSlow, transfers) {
      assert c == Told(LowSlow, transfers);
    }
  }

  lemma TransfersLeave(k: Subject, now: int)
    ensures forall e :: AnyLeaving(k, now)(e) <==> By(e, k) && TransferIn(now)(e)
  {
  }

  lemma SpreadIs(group: seq<Observation>)
    ensures group != [] ==> Spread(group) == group[|group| - 1].at - group[0].at
  {
  }

  lemma LoginsListed(events: seq<Observation>, k: Subject)
    requires Deduplicated(events).Ok?
    ensures forall login :: login in Filter(Logins(), Group(events, k)) <==> login in events && LoggedIn(login, k)
  {
    hide Deduplicated;
    DeduplicatedStrict(events);
  }

  lemma LoginsFound(events: seq<Observation>, k: Subject, s: Setting, c: Case)
    requires Deduplicated(events).Ok?
    ensures var group := Group(events, k);
            c in AllLoginCases(group, Filter(Logins(), group), |Filter(Logins(), group)|, k, s) <==>
              exists login :: login in events && LoggedIn(login, k)
                              && (GuessedLogin(events, k, login, c) || DataTaken(events, k, s, login, c))
  {
    hide Deduplicated, Filter, Group, LoggedIn, LoginCases, AllLoginCases, GuessedLogin, DataTaken;
    var group := Group(events, k);
    var logins := Filter(Logins(), group);
    LoginsListed(events, k);
    assert logins[..|logins|] == logins;
    if c in AllLoginCases(group, logins, |logins|, k, s) {
      var login := SomeLogin(group, logins, |logins|, k, s, c);
      LoginFound(events, k, s, login, c);
    }
    forall login | login in events && LoggedIn(login, k)
                   && (GuessedLogin(events, k, login, c) || DataTaken(events, k, s, login, c))
      ensures c in AllLoginCases(group, logins, |logins|, k, s)
    {
      LoginFound(events, k, s, login, c);
      EachLogin(group, logins, |logins|, k, s, login);
    }
  }

  /** One of the five rules reports this case on this organization and actor. */
  ghost predicate Reported(events: seq<Observation>, k: Subject, s: Setting, c: Case) {
    || SecretEgress(events, k, s, c)
    || SlowEgress(events, k, s, c)
    || (exists login :: login in events && LoggedIn(login, k)
                        && (GuessedLogin(events, k, login, c) || DataTaken(events, k, s, login, c)))
    || (exists b :: b in s.baselines && LargeVolume(events, k, s, b, c))
  }

  lemma SubjectReported(events: seq<Observation>, k: Subject, s: Setting, c: Case)
    requires Deduplicated(events).Ok? && SubjectCases(events, k, s).Ok?
    ensures c in SubjectCases(events, k, s).value <==> Reported(events, k, s, c)
  {
    hide Deduplicated, Filter, LoggedIn, CaseFor, AllLoginCases, BaselineCases, Spread;
    hide SecretEgress, SlowEgress, GuessedLogin, DataTaken, LargeVolume, BaselineCase;
    var group := Group(events, k);
    EgressFound(events, k, s, c);
    SlowFound(events, k, s, c);
    LoginsFound(events, k, s, c);
    BaselinesAre(group, k, s, |s.baselines|, c);
    forall b ensures BaselineCase(group, k, s, b, c) <==> LargeVolume(events, k, s, b, c) {
      VolumeFound(events, k, s, b, c);
    }
    assert (exists i :: 0 <= i < |s.baselines| && BaselineCase(group, k, s, s.baselines[i], c)) <==>
           exists b :: b in s.baselines && LargeVolume(events, k, s, b, c);
  }

  lemma ReportedHasEvent(events: seq<Observation>, k: Subject, s: Setting, c: Case)
    requires Reported(events, k, s, c)
    ensures exists e :: e in events && By(e, k)
  {
    hide Told, TextLess, Median2, Deviations;
    if SecretEgress(events, k, s, c) {
      var chosen :| && chosen != [] && Lists(chosen, events, SecretLeaving(k, s.now))
                    && c == Told(SensitiveEgress, chosen);
      assert chosen[0] in chosen;
    } else if SlowEgress(events, k, s, c) {
      var chosen: seq<Observation> :| && |chosen| >= 3 && chosen[|chosen| - 1].at - chosen[0].at >= 600
                                      && Lists(chosen, events, AnyLeaving(k, s.now)) && c == Told(LowSlow, chosen);
      assert chosen[0] in chosen;
    } else if b :| b in s.baselines && LargeVolume(events, k, s, b, c) {
      var sent :| Lists(sent, events, SentOut(k, s.now)) && 4 * Total(sent) > Threshold4(b.samples);
      assert sent[0] in sent;
    }
  }

  /** The cases of accepted observations are exactly those that a rule reports on some
      organization and actor. */
  lemma CasesExactly(events: seq<Observation>, s: Setting, c: Case)
    requires Analysis(events, s).Ok?
    ensures c in Analysis(events, s).value <==> exists k :: Reported(events, k, s, c)
  {
    hide Analysis, Reported, SubjectCases, Deduplicated;
    AcceptedDistinct(events, s);
    if c in Analysis(events, s).value {
      var k := CaseHasSubject(events, s, c);
      SubjectReported(events, k, s, c);
    }
    forall k | Reported(events, k, s, c) ensures c in Analysis(events, s).value {
      ReportedHasEvent(events, k, s, c);
      var e :| e in events && By(e, k);
      AllReported(events, k, s, e);
      SubjectReported(events, k, s, c);
    }
  }

  lemma AcceptedDistinct(events: seq<Observation>, s: Setting)
    requires Analysis(events, s).Ok?
    ensures Deduplicated(events).Ok?
  {
  }

  // ---- when the analysis refuses -----------------------------------------------------------------

  ghost predicate Contradicted(events: seq<Observation>) {
    exists d, e :: d in events && e in events && d.id == e.id && d != e
  }

  ghost predicate Untimely(events: seq<Observation>, now: int) {
    exists e :: e in events && !(now - 2592000 <= e.at <= now + 60)
  }

  /** An actor seen has a baseline that reaches into the last day. */
  ghost predicate BaselineTooLate(events: seq<Observation>, s: Setting) {
    exists e, b :: e in events && b in s.baselines && b.organization == e.organization && b.actor == e.actor
                   && b.until >= s.now - 86400
  }

  lemma {:induction false} ContradictionStops(events: seq<Observation>, n: nat)
    requires n <= |events|
    ensures Distinct(events, n).None? <==> Contradicted(events[..n])
  {
    if n > 0 {
      ContradictionStops(events, n - 1);
      assert events[..n] == events[..n - 1] + [events[n - 1]];
      if Distinct(events, n - 1).Some? {
        DistinctKeepsAll(events, n - 1);
        assert Contradicted(events[..n]) <==>
               exists e :: e in events[..n - 1] && e.id == events[n - 1].id && e != events[n - 1];
      } else {
        var d, e :| d in events[..n - 1] && e in events[..n - 1] && d.id == e.id && d != e;
        assert d in events[..n] && e in events[..n];
      }
    }
  }

  lemma LateIs(events: seq<Observation>, s: Setting)
    ensures (exists e :: e in events && HasLate(Subject(e.organization, e.actor), s, |s.baselines|)) <==>
              BaselineTooLate(events, s)
  {
    if BaselineTooLate(events, s) {
      var e, b :| e in events && b in s.baselines && b.organization == e.organization && b.actor == e.actor
                  && b.until >= s.now - 86400;
      var i :| 0 <= i < |s.baselines| && s.baselines[i] == b;
      assert HasLate(Subject(e.organization, e.actor), s, |s.baselines|);
    }
  }

  /** The analysis refuses, in this order, more than 10,000 observations, two different ones of
      one identifier, one outside the last thirty days and the next minute, and one of an actor
      whose baseline reaches into the last day; it accepts everything else. */
  lemma RefusedExactly(events: seq<Observation>, s: Setting)
    ensures var r := Analysis(events, s);
            && (r == Err(TooMany) <==> |events| > 10000)
            && (r == Err(Conflict) <==> |events| <= 10000 && Contradicted(events))
            && (r == Err(BadTime) <==> |events| <= 10000 && !Contradicted(events) && Untimely(events, s.now))
            && (r == Err(LateBaseline) <==> && |events| <= 10000 && !Contradicted(events)
                                            && !Untimely(events, s.now) && BaselineTooLate(events, s))
  {
    hide Distinct, Sort, Contradicted, HasLate, BaselineTooLate, Subjects, Cases, Analysis;
    ContradictionStops(events, |events|);
    assert events[..|events|] == events;
    if Deduplicated(events).Ok? {
      DeduplicatedStrict(events);
      RefusedTimes(events, s);
      LateIs(events, s);
      if !Untimely(events, s.now) { LateBaselineExactly(events, s); }
    } else {
      RefusedEarly(events, s);
    }
  }

  lemma RefusedEarly(events: seq<Observation>, s: Setting)
    requires Deduplicated(events).Err?
    ensures Analysis(events, s) == Err(Deduplicated(events).error)
  {
    hide Deduplicated;
  }

  lemma RefusedTimes(events: seq<Observation>, s: Setting)
    requires Deduplicated(events).Ok? && forall e :: e in Deduplicated(events).value <==> e in events
    ensures Analysis(events, s) == Err(BadTime) <==> Untimely(events, s.now)
    ensures Analysis(events, s).Err? && !Untimely(events, s.now) ==> Analysis(events, s) == Err(LateBaseline)
  {
    hide Deduplicated, Subjects, Cases;
    var items := Deduplicated(events).value;
    CasesRefusedLate(items, Subjects(items, |items|), |Subjects(items, |items|)|, s);
  }

  lemma {:induction false} CasesRefusedLate(items: seq<Observation>, subjects: seq<Subject>, n: nat, s: Setting)
    requires n <= |subjects|
    ensures Cases(items, subjects, n, s).Err? ==> Cases(items, subjects, n, s) == Err(LateBaseline)
  {
    hide HasLate, CaseFor, AllLoginCases, Filter, BaselineCases;
    if n > 0 {
      CasesRefusedLate(items, subjects, n - 1, s);
      LateRefuses(Filter(Of(subjects[n - 1]), items), subjects[n - 1], s, |s.baselines|);
    }
  }
}
