/** Multi-source analysis of collector metadata (aisecure/control/analytics.py,
    `deduplicate` and `analyze`). Tokens are opaque texts; observations arrive
    normalized. */
module Analytics {
  import opened Common
  import opened Ordering

  datatype Kind = VpnLogin | IdpLogin | FileRead | Egress | PrivilegeChange | Heartbeat

  datatype Outcome = Success | Failure | Blocked | OutcomeUnknown

  datatype TargetType = Organization | Personal | TargetUnknown

  datatype DataClass = Public | Internal | Confidential | Restricted | ClassUnknown

  datatype Observation = Observation(id: string, organization: string, source: string, at: int, kind: Kind,
                                     outcome: Outcome, actor: string, session: Option<string>,
                                     asset: Option<string>, target: TargetType, data: DataClass, bytes: nat,
                                     privileged: Option<bool>, mfa: Option<bool>, trusted: Option<bool>)

  datatype Rule = SensitiveEgress | LowSlow | LoginAfterFailures | PrivilegedDataPath | BaselineDeviation

  /** At most 32 identifiers are listed; `count` is how many there are. */
  datatype Case = Case(rule: Rule, evidence: seq<string>, count: nat)

  datatype Samples = Samples(organization: string, actor: string, until: int, samples: seq<nat>)

  /** A reviewed baseline: 14 to 365 daily volumes. */
  type Baseline = b: Samples | 14 <= |b.samples| <= 365 witness Samples("", "", 0, seq(14, _ => 0))

  datatype Subject = Subject(organization: string, actor: string)

  datatype ControlError = TooMany | Conflict | BadTime | LateBaseline

  datatype Setting = Setting(now: int, risks: set<(string, Option<string>)>, baselines: seq<Baseline>)

  const BY_TIME := (e: Observation) => Stamp(e.at, e.id)
  const MAX_OBSERVATIONS := 10000
  const DAY := 86400
  const LISTED := 32

  // ---- deduplication --------------------------------------------------------------------

  /** The dictionary after `n` observations, in the order of insertion; nothing once two
      share an identifier and differ. */
  function Distinct(events: seq<Observation>, n: nat): Option<seq<Observation>>
    requires n <= |events|
  {
    if n == 0 then Some([])
    else
      match Distinct(events, n - 1)
      case None => None
      case Some(before) =>
        if events[n - 1] in before then Some(before)
        else if exists e :: e in before && e.id == events[n - 1].id then None
        else Some(before + [events[n - 1]])
  }

  function Deduplicated(events: seq<Observation>): Result<seq<Observation>, ControlError> {
    if |events| > MAX_OBSERVATIONS then Err(TooMany)
    else match Distinct(events, |events|) case None => Err(Conflict) case Some(items) => Ok(Sort(BY_TIME, items))
  }

  ghost predicate Keyed(seen: map<string, Observation>, items: seq<Observation>) {
    && (forall e :: e in items ==> e.id in seen && seen[e.id] == e)
    && (forall id :: id in seen ==> seen[id] in items && seen[id].id == id)
  }

  lemma KeyedPush(seen: map<string, Observation>, items: seq<Observation>, e: Observation)
    requires Keyed(seen, items) && e.id !in seen
    ensures Keyed(seen[e.id := e], items + [e])
  {
  }

  method Deduplicate(events: seq<Observation>) returns (r: Result<seq<Observation>, ControlError>)
    ensures r == Deduplicated(events)
  {
    if |events| > MAX_OBSERVATIONS { return Err(TooMany); }
    var seen: map<string, Observation>, items: seq<Observation> := map[], [];
    var i := 0;
    while i < |events|
      invariant 0 <= i <= |events|
      invariant Distinct(events, i) == Some(items) && Keyed(seen, items)
    {
      var e := events[i];
      if e.id in seen {
        if seen[e.id] != e {
          assert seen[e.id] in items && e !in items;
          DistinctStops(events, i + 1);
          return Err(Conflict);
        }
      } else {
        KeyedPush(seen, items, e);
        seen, items := seen[e.id := e], items + [e];
      }
      i := i + 1;
    }
    return Ok(Sort(BY_TIME, items));
  }

  lemma {:induction false} DistinctStops(events: seq<Observation>, n: nat)
    requires n <= |events| && Distinct(events, n).None?
    ensures Distinct(events, |events|).None?
    decreases |events| - n
  {
    if n < |events| { DistinctStops(events, n + 1); }
  }

  // ---- selections -----------------------------------------------------------------------

  predicate Sensitive(e: Observation) {
    e.kind.Egress? && (e.data.Confidential? || e.data.Restricted?) && !e.target.Organization? && !e.outcome.Blocked?
  }

  predicate Transfer(e: Observation) {
    e.kind.Egress? && !e.target.Organization? && !e.outcome.Blocked? && !e.data.Public? && !e.data.ClassUnknown?
  }

  predicate IsLogin(e: Observation) { e.kind.VpnLogin? || e.kind.IdpLogin? }

  predicate FailedBefore(e: Observation, login: Observation) {
    IsLogin(e) && e.outcome.Failure? && 0 < login.at - e.at <= 600 && e.source == login.source
  }

  predicate Follows(e: Observation, login: Observation) {
    e.session == login.session && 0 <= e.at - login.at <= 3600
  }

  predicate SensitiveRead(e: Observation) {
    e.kind.FileRead? && e.outcome.Success? && (e.data.Confidential? || e.data.Restricted?)
  }

  predicate Suspicious(login: Observation, subject: Subject, s: Setting) {
    && (subject.organization, login.asset) in s.risks
    && login.privileged == Some(true) && (login.mfa == Some(false) || login.trusted == Some(false))
    && login.session.Some? && login.session.value != ""
  }

  function Of(subject: Subject): Observation -> bool {
    (e: Observation) => Subject(e.organization, e.actor) == subject
  }

  function SensitiveIn(now: int): Observation -> bool { (e: Observation) => e.at >= now - DAY && Sensitive(e) }

  function TransferIn(now: int): Observation -> bool { (e: Observation) => e.at >= now - DAY && Transfer(e) }

  function SentIn(now: int): Observation -> bool {
    (e: Observation) => e.at >= now - DAY && e.kind.Egress? && e.outcome.Success?
  }

  function FailuresOf(login: Observation): Observation -> bool { (e: Observation) => FailedBefore(e, login) }

  function ReadsAfter(login: Observation): Observation -> bool {
    (e: Observation) => Follows(e, login) && SensitiveRead(e)
  }

  function EgressAfter(login: Observation, from: int): Observation -> bool {
    (e: Observation) => Follows(e, login) && Sensitive(e) && e.at >= from
  }

  function Logins(): Observation -> bool { (e: Observation) => IsLogin(e) && e.outcome.Success? }

  // ---- cases ----------------------------------------------------------------------------

  function Ids(group: seq<Observation>): seq<string> {
    if group == [] then []
    else
      var before, id := Ids(group[..|group| - 1]), group[|group| - 1].id;
      if id in before then before else before + [id]
  }

  function CaseFor(rule: Rule, group: seq<Observation>): seq<Case> {
    var ids := Ids(group);
    if ids == [] then [] else [Case(rule, if |ids| > LISTED then ids[..LISTED] else ids, |ids|)]
  }

  function Spread(group: seq<Observation>): int {
    if group == [] then 0 else group[|group| - 1].at - group[0].at
  }

  function Earliest(group: seq<Observation>): int
    requires group != []
  {
    if |group| == 1 then group[0].at
    else
      var before, last := Earliest(group[..|group| - 1]), group[|group| - 1].at;
      if last < before then last else before
  }

  function DataPath(group: seq<Observation>, login: Observation): seq<Observation> {
    var taken := Filter(ReadsAfter(login), group);
    if taken == [] then [] else [login] + taken + Filter(EgressAfter(login, Earliest(taken)), group)
  }

  function LoginCases(group: seq<Observation>, login: Observation, subject: Subject, s: Setting): seq<Case> {
    var failures := Filter(FailuresOf(login), group);
    (if |failures| >= 5 then CaseFor(LoginAfterFailures, failures + [login]) else [])
    + if Suspicious(login, subject, s) then CaseFor(PrivilegedDataPath, DataPath(group, login)) else []
  }

  function AllLoginCases(group: seq<Observation>, logins: seq<Observation>, n: nat, subject: Subject,
                         s: Setting): seq<Case>
    requires n <= |logins|
  {
    if n == 0 then []
    else AllLoginCases(group, logins, n - 1, subject, s) + LoginCases(group, logins[n - 1], subject, s)
  }

  function Sum(group: seq<Observation>): nat {
    if group == [] then 0 else Sum(group[..|group| - 1]) + group[|group| - 1].bytes
  }

  const BY_SIZE := (n: nat) => Stamp(n, "")

  /** Twice the median. */
  function Median2(values: seq<nat>): nat
    requires values != []
  {
    var sorted := Sort(BY_SIZE, values);
    if |values| % 2 == 1 then 2 * sorted[|values| / 2] else sorted[|values| / 2 - 1] + sorted[|values| / 2]
  }

  function Distance(a: nat, b: nat): nat { if a < b then b - a else a - b }

  function Deviations(values: seq<nat>, median2: nat): seq<nat> {
    seq(|values|, i requires 0 <= i < |values| => Distance(2 * values[i], median2))
  }

  function Larger(a: nat, b: nat): nat { if a < b then b else a }

  /** Four times the volume above which a day deviates from the baseline. */
  function Threshold4(samples: seq<nat>): nat
    requires samples != []
  {
    var median2 := Median2(samples);
    var mad4 := Median2(Deviations(samples, median2));
    Larger(Larger(6 * median2, 2 * median2 + 6 * Larger(mad4, 4096)), 4 * 1048576)
  }

  predicate Deviates(group: seq<Observation>, b: Baseline, now: int) {
    4 * Sum(Filter(SentIn(now), group)) > Threshold4(b.samples)
  }

  predicate Late(b: Baseline, subject: Subject, now: int) {
    Subject(b.organization, b.actor) == subject && b.until >= now - DAY
  }

  function BaselineCases(group: seq<Observation>, subject: Subject, s: Setting, n: nat): Result<seq<Case>, ControlError>
    requires n <= |s.baselines|
  {
    if n == 0 then Ok([])
    else
      var b := s.baselines[n - 1];
      match BaselineCases(group, subject, s, n - 1)
      case Err(e) => Err(e)
      case Ok(before) =>
        if Subject(b.organization, b.actor) != subject then Ok(before)
        else if Late(b, subject, s.now) then Err(LateBaseline)
        else if Deviates(group, b, s.now) then Ok(before + CaseFor(BaselineDeviation, Filter(SentIn(s.now), group)))
        else Ok(before)
  }

  function ActorCases(group: seq<Observation>, subject: Subject, s: Setting): Result<seq<Case>, ControlError> {
    var sensitive, transfers := Filter(SensitiveIn(s.now), group), Filter(TransferIn(s.now), group);
    var logins := Filter(Logins(), group);
    match BaselineCases(group, subject, s, |s.baselines|)
    case Err(e) => Err(e)
    case Ok(deviations) =>
      Ok(CaseFor(SensitiveEgress, sensitive)
         + (if |transfers| >= 3 && Spread(transfers) >= 600 then CaseFor(LowSlow, transfers) else [])
         + AllLoginCases(group, logins, |logins|, subject, s) + deviations)
  }

  /** The subjects in the order of their first observation. */
  function Subjects(items: seq<Observation>, n: nat): seq<Subject>
    requires n <= |items|
  {
    if n == 0 then []
    else
      var before, subject := Subjects(items, n - 1), Subject(items[n - 1].organization, items[n - 1].actor);
      if subject in before then before else before + [subject]
  }

  function Cases(items: seq<Observation>, subjects: seq<Subject>, n: nat, s: Setting): Result<seq<Case>, ControlError>
    requires n <= |subjects|
  {
    if n == 0 then Ok([])
    else
      match Cases(items, subjects, n - 1, s)
      case Err(e) => Err(e)
      case Ok(before) =>
        match ActorCases(Filter(Of(subjects[n - 1]), items), subjects[n - 1], s)
        case Err(e) => Err(e)
        case Ok(cases) => Ok(before + cases)
  }

  predicate InRange(e: Observation, now: int) { now - 30 * DAY <= e.at <= now + 60 }

  function Analysis(events: seq<Observation>, s: Setting): Result<seq<Case>, ControlError> {
    match Deduplicated(events)
    case Err(e) => Err(e)
    case Ok(items) =>
      if exists e :: e in items && !InRange(e, s.now) then Err(BadTime)
      else
        var subjects := Subjects(items, |items|);
        Cases(items, subjects, |subjects|, s)
  }

  // ---- the program ----------------------------------------------------------------------

  method Analyze(events: seq<Observation>, s: Setting) returns (r: Result<seq<Case>, ControlError>)
    ensures r == Analysis(events, s)
  {
    hide Deduplicated, Subjects, ActorCases;
    var items := Deduplicate(events);
    if items.Err? { return Err(items.error); }
    var i := 0;
    while i < |items.value|
      invariant 0 <= i <= |items.value|
      invariant forall k :: 0 <= k < i ==> InRange(items.value[k], s.now)
    {
      if !InRange(items.value[i], s.now) {
        assert items.value[i] in items.value;
        return Err(BadTime);
      }
      i := i + 1;
    }
    var subjects, groups := GroupByActor(items.value);
    var cases: seq<Case> := [];
    var n := 0;
    while n < |subjects|
      invariant 0 <= n <= |subjects|
      invariant Cases(items.value, subjects, n, s) == Ok(cases)
    {
      assert subjects[n] in subjects && GroupOf(groups, subjects[n]) == Filter(Of(subjects[n]), items.value);
      var found := AnalyzeActor(groups[subjects[n]], subjects[n], s);
      if found.Err? {
        CasesStop(items.value, subjects, n + 1, s);
        return found;
      }
      cases := cases + found.value;
      n := n + 1;
    }
    return Ok(cases);
  }

  lemma {:induction false} CasesStop(items: seq<Observation>, subjects: seq<Subject>, n: nat, s: Setting)
    requires n <= |subjects| && Cases(items, subjects, n, s).Err?
    ensures Cases(items, subjects, |subjects|, s) == Cases(items, subjects, n, s)
    decreases |subjects| - n
  {
    hide ActorCases;
    if n < |subjects| { CasesStop(items, subjects, n + 1, s); }
  }

  function GroupOf(groups: map<Subject, seq<Observation>>, k: Subject): seq<Observation> {
    if k in groups then groups[k] else []
  }

  ghost predicate Grouped(groups: map<Subject, seq<Observation>>, items: seq<Observation>) {
    forall k: Subject :: GroupOf(groups, k) == Filter(Of(k), items)
  }

  lemma GroupedPush(groups: map<Subject, seq<Observation>>, items: seq<Observation>, e: Observation)
    requires Grouped(groups, items)
    ensures var subject := Subject(e.organization, e.actor);
            Grouped(groups[subject := GroupOf(groups, subject) + [e]], items + [e])
  {
    var subject := Subject(e.organization, e.actor);
    var groups' := groups[subject := GroupOf(groups, subject) + [e]];
    forall k: Subject ensures GroupOf(groups', k) == Filter(Of(k), items + [e]) {
      assert (items + [e])[..|items|] == items;
      assert GroupOf(groups, k) == Filter(Of(k), items);
    }
  }

  method GroupByActor(items: seq<Observation>) returns (subjects: seq<Subject>, groups: map<Subject, seq<Observation>>)
    ensures subjects == Subjects(items, |items|)
    ensures (forall k :: k in groups <==> k in subjects) && Grouped(groups, items)
  {
    hide Grouped;
    subjects, groups := [], map[];
    NothingGrouped();
    var i := 0;
    while i < |items|
      invariant 0 <= i <= |items|
      invariant subjects == Subjects(items, i)
      invariant (forall k :: k in groups <==> k in subjects) && Grouped(groups, items[..i])
    {
      var e := items[i];
      var subject := Subject(e.organization, e.actor);
      assert items[..i + 1] == items[..i] + [e];
      GroupedPush(groups, items[..i], e);
      if subject !in groups { subjects := subjects + [subject]; }
      groups := groups[subject := GroupOf(groups, subject) + [e]];
      i := i + 1;
    }
    assert items[..i] == items;
  }

  lemma NothingGrouped()
    ensures Grouped(map[], [])
  {
  }

  method AnalyzeActor(group: seq<Observation>, subject: Subject, s: Setting)
    returns (r: Result<seq<Case>, ControlError>)
    ensures r == ActorCases(group, subject, s)
  {
    hide Filter, CaseFor, LoginCases, Deviates, Late;
    var sensitive, transfers := Filter(SensitiveIn(s.now), group), Filter(TransferIn(s.now), group);
    var cases := CaseFor(SensitiveEgress, sensitive);
    if |transfers| >= 3 && Spread(transfers) >= 600 { cases := cases + CaseFor(LowSlow, transfers); }
    ghost var first := cases;
    var logins := Filter(Logins(), group);
    var i := 0;
    while i < |logins|
      invariant 0 <= i <= |logins|
      invariant cases == first + AllLoginCases(group, logins, i, subject, s)
    {
      cases := cases + LoginCases(group, logins[i], subject, s);
      i := i + 1;
    }
    ghost var second, deviations := cases, [];
    var n := 0;
    while n < |s.baselines|
      invariant 0 <= n <= |s.baselines|
      invariant BaselineCases(group, subject, s, n) == Ok(deviations) && cases == second + deviations
    {
      var b := s.baselines[n];
      if Subject(b.organization, b.actor) == subject {
        if Late(b, subject, s.now) {
          BaselinesStop(group, subject, s, n + 1);
          return Err(LateBaseline);
        }
        if Deviates(group, b, s.now) {
          cases := cases + CaseFor(BaselineDeviation, Filter(SentIn(s.now), group));
          deviations := deviations + CaseFor(BaselineDeviation, Filter(SentIn(s.now), group));
        }
      }
      n := n + 1;
    }
    return Ok(cases);
  }

  lemma {:induction false} BaselinesStop(group: seq<Observation>, subject: Subject, s: Setting, n: nat)
    requires n <= |s.baselines| && BaselineCases(group, subject, s, n).Err?
    ensures BaselineCases(group, subject, s, |s.baselines|) == BaselineCases(group, subject, s, n)
    decreases |s.baselines| - n
  {
    hide Deviates, Late, CaseFor, Filter;
    if n < |s.baselines| { BaselinesStop(group, subject, s, n + 1); }
  }
}
