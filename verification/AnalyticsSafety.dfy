/** Adding accepted observations never silences a case. */
module AnalyticsSafety {
  import opened Common
  import opened Ordering
  import opened Analytics

  // ---- a part of a list -------------------------------------------------------------------

  function In(items: seq<Observation>): Observation -> bool {
    (e: Observation) => e in items
  }

  /** Selecting from a part is taking that part of the selection. */
  lemma PartOfSelection(p: Observation -> bool, q: Observation -> bool, items: seq<Observation>)
    ensures Filter(q, Filter(p, items)) == Filter(p, Filter(q, items))
  {
    var both := (e: Observation) => p(e) && q(e);
    FilterTwice(p, q, both, items);
    FilterTwice(q, p, both, items);
  }

  lemma {:induction false} PartOfSum(p: Observation -> bool, items: seq<Observation>)
    ensures Sum(Filter(p, items)) <= Sum(items)
  {
    if items != [] {
      var init, last := items[..|items| - 1], items[|items| - 1];
      PartOfSum(p, init);
      assert (Filter(p, init) + [last])[..|Filter(p, init)|] == Filter(p, init);
    }
  }

  lemma {:induction false} FilterStrict(p: Observation -> bool, items: seq<Observation>)
    requires StrictlySorted(BY_TIME, items)
    ensures StrictlySorted(BY_TIME, Filter(p, items))
  {
    hide StampLess;
    if items != [] {
      var init, last := items[..|items| - 1], items[|items| - 1];
      assert items == init + [last];
      FilterStrict(p, init);
      var kept := Filter(p, init);
      forall i | 0 <= i < |kept| ensures StampLess(BY_TIME(kept[i]), BY_TIME(last)) {
        assert kept[i] in init;
        var k :| 0 <= k < |init| && init[k] == kept[i];
        assert items[k] == init[k] && items[|items| - 1] == last;
      }
      assert Filter(p, items) == if p(last) then kept + [last] else kept;
    }
  }

  lemma Ascends(items: seq<Observation>)
    requires StrictlySorted(BY_TIME, items)
    ensures forall i, j :: 0 <= i <= j < |items| ==> items[i].at <= items[j].at
  {
    forall i, j | 0 <= i < j < |items| ensures items[i].at <= items[j].at {
      assert StampLess(BY_TIME(items[i]), BY_TIME(items[j]));
    }
  }

  lemma SpreadGrows(part: seq<Observation>, items: seq<Observation>)
    requires StrictlySorted(BY_TIME, items) && forall e :: e in part ==> e in items
    ensures Spread(part) <= Spread(items)
  {
    Ascends(items);
    if part != [] {
      assert part[0] in items && part[|part| - 1] in items;
    } else if items != [] {
      assert items[0].at <= items[|items| - 1].at;
    }
  }

  lemma {:induction false} IdsAre(group: seq<Observation>)
    ensures NoDuplicates(Ids(group))
    ensures forall id :: id in Ids(group) <==> exists e :: e in group && e.id == id
  {
    if group != [] {
      IdsAre(group[..|group| - 1]);
      assert group == group[..|group| - 1] + [group[|group| - 1]];
    }
  }

  lemma IdsGrow(part: seq<Observation>, group: seq<Observation>)
    requires forall e :: e in part ==> e in group
    ensures |Ids(part)| <= |Ids(group)|
  {
    IdsAre(part);
    IdsAre(group);
    LengthIsCardinality(Ids(part));
    LengthIsCardinality(Ids(group));
    Smaller(Elements(Ids(part)), Elements(Ids(group)));
  }

  /** A case of the same rule that rests on at least as many observations. */
  ghost predicate StillThere(c: Case, cases: seq<Case>) {
    exists d :: d in cases && d.rule == c.rule && d.count >= c.count
  }

  lemma CaseGrows(rule: Rule, part: seq<Observation>, group: seq<Observation>, c: Case)
    requires (forall e :: e in part ==> e in group) && c in CaseFor(rule, part)
    ensures StillThere(c, CaseFor(rule, group))
  {
    IdsGrow(part, group);
    assert CaseFor(rule, group)[0] in CaseFor(rule, group);
  }

  // ---- the same selections from fewer observations ---------------------------------------------

  lemma {:induction false} EarliestIs(group: seq<Observation>)
    requires group != []
    ensures forall e :: e in group ==> Earliest(group) <= e.at
    ensures exists e :: e in group && e.at == Earliest(group)
  {
    if |group| > 1 {
      var init, last := group[..|group| - 1], group[|group| - 1];
      assert group == init + [last];
      EarliestIs(init);
      var e :| e in init && e.at == Earliest(init);
      assert e in group && last in group;
    } else {
      assert group[0] in group;
    }
  }

  lemma DataPathGrows(part: seq<Observation>, group: seq<Observation>, login: Observation)
    requires forall e :: e in part ==> e in group
    ensures forall e :: e in DataPath(part, login) ==> e in DataPath(group, login)
  {
    hide Follows, Sensitive, SensitiveRead, Earliest;
    var few, many := Filter(ReadsAfter(login), part), Filter(ReadsAfter(login), group);
    if few != [] {
      assert few[0] in many;
      EarliestIs(few);
      EarliestIs(many);
      var e :| e in few && e.at == Earliest(few);
      assert Earliest(many) <= Earliest(few);
    }
  }

  lemma LoginKeepsCases(p: Observation -> bool, group: seq<Observation>, login: Observation, subject: Subject,
                        s: Setting, c: Case)
    requires c in LoginCases(Filter(p, group), login, subject, s)
    ensures StillThere(c, LoginCases(group, login, subject, s))
  {
    hide Suspicious, FailedBefore, DataPath, CaseFor;
    var part := Filter(p, group);
    var failures := Filter(FailuresOf(login), group);
    PartOfSelection(p, FailuresOf(login), group);
    var few := Filter(FailuresOf(login), part);
    assert few == Filter(p, failures) && |few| <= |failures|;
    if |few| >= 5 && c in CaseFor(LoginAfterFailures, few + [login]) {
      CaseGrows(LoginAfterFailures, few + [login], failures + [login], c);
    } else {
      DataPathGrows(part, group, login);
      CaseGrows(PrivilegedDataPath, DataPath(part, login), DataPath(group, login), c);
    }
  }

  lemma {:induction false} SomeLogin(group: seq<Observation>, logins: seq<Observation>, n: nat, subject: Subject,
                                     s: Setting, c: Case)
    returns (login: Observation)
    requires n <= |logins| && c in AllLoginCases(group, logins, n, subject, s)
    ensures login in logins && c in LoginCases(group, login, subject, s)
  {
    hide LoginCases;
    if c in LoginCases(group, logins[n - 1], subject, s) {
      login := logins[n - 1];
    } else {
      login := SomeLogin(group, logins, n - 1, subject, s, c);
    }
  }

  lemma {:induction false} EachLogin(group: seq<Observation>, logins: seq<Observation>, n: nat, subject: Subject,
                                     s: Setting, login: Observation)
    requires n <= |logins| && login in logins[..n]
    ensures forall c :: c in LoginCases(group, login, subject, s) ==> c in AllLoginCases(group, logins, n, subject, s)
  {
    hide LoginCases;
    assert logins[..n] == logins[..n - 1] + [logins[n - 1]];
    if login in logins[..n - 1] { EachLogin(group, logins, n - 1, subject, s, login); }
  }

  lemma LoginsKeepCases(p: Observation -> bool, group: seq<Observation>, subject: Subject, s: Setting, c: Case)
    requires var logins := Filter(Logins(), Filter(p, group));
             c in AllLoginCases(Filter(p, group), logins, |logins|, subject, s)
    ensures var logins := Filter(Logins(), group); StillThere(c, AllLoginCases(group, logins, |logins|, subject, s))
  {
    hide LoginCases, AllLoginCases;
    var few, many := Filter(Logins(), Filter(p, group)), Filter(Logins(), group);
    var login := SomeLogin(Filter(p, group), few, |few|, subject, s, c);
    LoginKeepsCases(p, group, login, subject, s, c);
    assert many[..|many|] == many;
    EachLogin(group, many, |many|, subject, s, login);
  }

  lemma {:induction false} BaselinesKeepCases(p: Observation -> bool, group: seq<Observation>, subject: Subject,
                                              s: Setting, n: nat, c: Case)
    requires n <= |s.baselines| && BaselineCases(Filter(p, group), subject, s, n).Ok?
    requires BaselineCases(group, subject, s, n).Ok?
    requires c in BaselineCases(Filter(p, group), subject, s, n).value
    ensures StillThere(c, BaselineCases(group, subject, s, n).value)
  {
    hide CaseFor, Threshold4, Late;
    if c in BaselineCases(Filter(p, group), subject, s, n - 1).value {
      BaselinesKeepCases(p, group, subject, s, n - 1, c);
    } else {
      var sent := Filter(SentIn(s.now), group);
      PartOfSelection(p, SentIn(s.now), group);
      PartOfSum(p, sent);
      CaseGrows(BaselineDeviation, Filter(p, sent), sent, c);
    }
  }

  lemma ActorKeepsCases(p: Observation -> bool, group: seq<Observation>, subject: Subject, s: Setting, c: Case)
    requires StrictlySorted(BY_TIME, group)
    requires ActorCases(Filter(p, group), subject, s).Ok? && ActorCases(group, subject, s).Ok?
    requires c in ActorCases(Filter(p, group), subject, s).value
    ensures StillThere(c, ActorCases(group, subject, s).value)
  {
    hide CaseFor, AllLoginCases, BaselineCases, Spread, StrictlySorted;
    var part := Filter(p, group);
    var transfers := Filter(TransferIn(s.now), group);
    PartOfSelection(p, TransferIn(s.now), group);
    FilterStrict(TransferIn(s.now), group);
    var few := Filter(TransferIn(s.now), part);
    if c in CaseFor(SensitiveEgress, Filter(SensitiveIn(s.now), part)) {
      CaseGrows(SensitiveEgress, Filter(SensitiveIn(s.now), part), Filter(SensitiveIn(s.now), group), c);
    } else if |few| >= 3 && Spread(few) >= 600 && c in CaseFor(LowSlow, few) {
      assert few == Filter(p, transfers) && |few| <= |transfers|;
      SpreadGrows(few, transfers);
      CaseGrows(LowSlow, few, transfers, c);
    } else {
      var logins := Filter(Logins(), part);
      if c in AllLoginCases(part, logins, |logins|, subject, s) {
        LoginsKeepCases(p, group, subject, s, c);
      } else {
        BaselinesKeepCases(p, group, subject, s, |s.baselines|, c);
      }
    }
  }

  // ---- the whole analysis ----------------------------------------------------------------------

  lemma {:induction false} DistinctKeepsAll(events: seq<Observation>, n: nat)
    requires n <= |events| && Distinct(events, n).Some?
    ensures forall e :: e in Distinct(events, n).value <==> e in events[..n]
    ensures var r := Distinct(events, n).value; forall i, j :: 0 <= i < j < |r| ==> r[i].id != r[j].id
    ensures |Distinct(events, n).value| <= n
  {
    if n > 0 {
      DistinctKeepsAll(events, n - 1);
      assert events[..n] == events[..n - 1] + [events[n - 1]];
    }
  }

  lemma DeduplicatedStrict(events: seq<Observation>)
    requires Deduplicated(events).Ok?
    ensures StrictlySorted(BY_TIME, Deduplicated(events).value)
    ensures forall e :: e in Deduplicated(events).value <==> e in events
  {
    var items := Distinct(events, |events|).value;
    DistinctKeepsAll(events, |events|);
    assert events[..|events|] == events;
    SortStrict(BY_TIME, items);
  }

  lemma PartOfAll(events: seq<Observation>, more: seq<Observation>)
    requires Deduplicated(events).Ok? && Deduplicated(more).Ok? && forall e :: e in events ==> e in more
    ensures Deduplicated(events).value == Filter(In(events), Deduplicated(more).value)
  {
    hide Deduplicated;
    DeduplicatedStrict(events);
    DeduplicatedStrict(more);
    FilterStrict(In(events), Deduplicated(more).value);
    StrictlySortedUnique(BY_TIME, Deduplicated(events).value, Filter(In(events), Deduplicated(more).value));
  }

  lemma {:induction false} SubjectsAre(items: seq<Observation>, n: nat)
    requires n <= |items|
    ensures forall k :: k in Subjects(items, n) <==> exists e :: e in items[..n] && Of(k)(e)
  {
    if n > 0 {
      SubjectsAre(items, n - 1);
      assert items[..n] == items[..n - 1] + [items[n - 1]];
      assert Of(Subject(items[n - 1].organization, items[n - 1].actor))(items[n - 1]);
    }
  }

  /** What is reported is what is reported for each subject. */
  lemma {:induction false} CasesOf(items: seq<Observation>, subjects: seq<Subject>, n: nat, s: Setting)
    requires n <= |subjects| && Cases(items, subjects, n, s).Ok?
    ensures forall k :: k in subjects[..n] ==> ActorCases(Filter(Of(k), items), k, s).Ok?
    ensures forall k, c :: k in subjects[..n] && c in ActorCases(Filter(Of(k), items), k, s).value ==>
              c in Cases(items, subjects, n, s).value
    ensures forall c :: c in Cases(items, subjects, n, s).value ==>
              exists k :: k in subjects[..n] && c in ActorCases(Filter(Of(k), items), k, s).value
  {
    hide ActorCases, Filter;
    if n > 0 {
      CasesOf(items, subjects, n - 1, s);
      assert subjects[..n] == subjects[..n - 1] + [subjects[n - 1]];
    }
  }

  /** The cases of one subject: none if it has no observation. */
  function SubjectCases(events: seq<Observation>, k: Subject, s: Setting): Result<seq<Case>, ControlError>
    requires Deduplicated(events).Ok?
  {
    ActorCases(Filter(Of(k), Deduplicated(events).value), k, s)
  }

  /** For one organization and actor: every case found in some events is still there,
      under the same rule and on at least as many observations, when more are known. */
  lemma SubjectKeepsCases(events: seq<Observation>, more: seq<Observation>, k: Subject, s: Setting, c: Case)
    requires Deduplicated(events).Ok? && Deduplicated(more).Ok? && forall e :: e in events ==> e in more
    requires SubjectCases(events, k, s).Ok? && SubjectCases(more, k, s).Ok? && c in SubjectCases(events, k, s).value
    ensures StillThere(c, SubjectCases(more, k, s).value)
  {
    hide ActorCases, Deduplicated;
    PartOfAll(events, more);
    DeduplicatedStrict(more);
    PartOfSelection(In(events), Of(k), Deduplicated(more).value);
    FilterStrict(Of(k), Deduplicated(more).value);
    ActorKeepsCases(In(events), Filter(Of(k), Deduplicated(more).value), k, s, c);
  }

  /** The same for one login of that actor. */
  lemma LoginStillReported(events: seq<Observation>, more: seq<Observation>, login: Observation, k: Subject,
                           s: Setting, c: Case)
    requires Deduplicated(events).Ok? && Deduplicated(more).Ok? && forall e :: e in events ==> e in more
    requires c in LoginCases(Filter(Of(k), Deduplicated(events).value), login, k, s)
    ensures StillThere(c, LoginCases(Filter(Of(k), Deduplicated(more).value), login, k, s))
  {
    hide Deduplicated, LoginCases;
    PartOfAll(events, more);
    PartOfSelection(In(events), Of(k), Deduplicated(more).value);
    LoginKeepsCases(In(events), Filter(Of(k), Deduplicated(more).value), login, k, s, c);
  }

  /** Every case reported is one of some subject's. */
  lemma CaseHasSubject(events: seq<Observation>, s: Setting, c: Case) returns (k: Subject)
    requires Analysis(events, s).Ok? && c in Analysis(events, s).value
    ensures SubjectCases(events, k, s).Ok? && c in SubjectCases(events, k, s).value
    ensures exists e :: e in events && Of(k)(e)
  {
    hide ActorCases, Deduplicated, Subjects, Cases;
    var items := Deduplicated(events).value;
    var subjects := Subjects(items, |items|);
    assert subjects[..|subjects|] == subjects && items[..|items|] == items;
    CasesOf(items, subjects, |subjects|, s);
    k :| k in subjects && c in ActorCases(Filter(Of(k), items), k, s).value;
    SubjectsAre(items, |items|);
    DeduplicatedStrict(events);
  }

  /** Adding observations that the analysis accepts never silences a case: what is reported
      for an organization and actor is still reported for that organization and actor. */
  lemma MoreEvidenceKeepsCases(events: seq<Observation>, more: seq<Observation>, k: Subject, s: Setting, c: Case)
    requires Analysis(events, s).Ok? && Analysis(more, s).Ok? && forall e :: e in events ==> e in more
    requires (exists e :: e in events && Of(k)(e)) && SubjectCases(events, k, s).Ok?
    requires c in SubjectCases(events, k, s).value
    ensures c in Analysis(events, s).value
    ensures SubjectCases(more, k, s).Ok? && StillThere(c, SubjectCases(more, k, s).value)
    ensures forall d :: d in SubjectCases(more, k, s).value ==> d in Analysis(more, s).value
  {
    hide ActorCases, Deduplicated, Subjects, Cases, StillThere;
    var e :| e in events && Of(k)(e);
    AllReported(events, k, s, e);
    AllReported(more, k, s, e);
    SubjectKeepsCases(events, more, k, s, c);
  }

  lemma AllReported(events: seq<Observation>, k: Subject, s: Setting, e: Observation)
    requires Analysis(events, s).Ok? && e in events && Of(k)(e)
    ensures SubjectCases(events, k, s).Ok?
    ensures forall c :: c in SubjectCases(events, k, s).value ==> c in Analysis(events, s).value
  {
    hide ActorCases, Deduplicated, Subjects, Cases;
    var items := Deduplicated(events).value;
    var subjects := Subjects(items, |items|);
    assert subjects[..|subjects|] == subjects && items[..|items|] == items;
    CasesOf(items, subjects, |subjects|, s);
    SubjectsAre(items, |items|);
    DeduplicatedStrict(events);
    assert k in subjects;
  }

  // ---- when the analysis refuses -----------------------------------------------------------------

  ghost predicate HasLate(k: Subject, s: Setting, n: nat)
    requires n <= |s.baselines|
  {
    exists i :: 0 <= i < n && Late(s.baselines[i], k, s.now)
  }

  lemma {:induction false} LateRefuses(group: seq<Observation>, k: Subject, s: Setting, n: nat)
    requires n <= |s.baselines|
    ensures BaselineCases(group, k, s, n).Err? <==> HasLate(k, s, n)
    ensures BaselineCases(group, k, s, n).Err? ==> BaselineCases(group, k, s, n).error == LateBaseline
  {
    hide CaseFor, Deviates;
    if n > 0 { LateRefuses(group, k, s, n - 1); }
  }

  lemma {:induction false} CasesRefuse(items: seq<Observation>, subjects: seq<Subject>, n: nat, s: Setting)
    requires n <= |subjects|
    ensures Cases(items, subjects, n, s).Err? <==> exists k :: k in subjects[..n] && HasLate(k, s, |s.baselines|)
  {
    hide HasLate, CaseFor, AllLoginCases, Filter, BaselineCases;
    if n > 0 {
      CasesRefuse(items, subjects, n - 1, s);
      LateRefuses(Filter(Of(subjects[n - 1]), items), subjects[n - 1], s, |s.baselines|);
      assert subjects[..n] == subjects[..n - 1] + [subjects[n - 1]];
    }
  }

  /** An accepted, well-timed set of observations is refused exactly when one of its
      actors has a baseline that reaches into the last day: an observation of such an
      actor, added to others, makes the whole analysis fail. */
  lemma LateBaselineExactly(events: seq<Observation>, s: Setting)
    requires Deduplicated(events).Ok? && forall e :: e in events ==> InRange(e, s.now)
    ensures Analysis(events, s).Err? <==>
              exists e :: e in events && HasLate(Subject(e.organization, e.actor), s, |s.baselines|)
  {
    hide Deduplicated, Subjects, Cases, HasLate, InRange;
    var items := Deduplicated(events).value;
    var subjects := Subjects(items, |items|);
    DeduplicatedStrict(events);
    assert subjects[..|subjects|] == subjects && items[..|items|] == items;
    CasesRefuse(items, subjects, |subjects|, s);
    SubjectsAre(items, |items|);
    forall e | e in events ensures Subject(e.organization, e.actor) in subjects {
      assert Of(Subject(e.organization, e.actor))(e);
    }
  }
}
