/** One import in full: a log with two different logins under one identifier. It meets
    every hypothesis of the general results, and both logins reach the normalizer. */
module CollidingRows {
  import opened Common
  import opened Ordering
  import opened Names
  import opened Normalizer
  import opened Snapshots
  import opened Importer
  import opened Conservation
  import opened SourceOrder
  import opened Boundary

  const ZEROS := "0000000000000000"
  const FIRST := "0000000000000001"
  const SECOND := "0000000000000002"

  const HASHES :=
    Digests(t => ZEROS, (k, r) => "000000000000000000000000", x => if TimeAt(x, At) == 1 then FIRST else SECOND)

  function ValuesAt(t: int): (v: seq<(FieldName, Value)>)
    ensures |v| == 6
  {
    [(Id, Text("e")), (At, Time(t)), (Actor, Text("a")), (Session, Text("s")), (GatewayId, Text("g")),
     (Success, Flag(true))]
  }

  function RecordAt(t: int): Item {
    map[Id := Text("e"), At := Time(t), Actor := Text("a"), Session := Text("s"), GatewayId := Text("g"),
        Success := Flag(true), Privileged := Null, DeviceTrusted := Null, Approved := Null]
  }

  function LoginAt(t: int): Item { EventOf(LoginLog, RecordAt(t)) }

  const LOG := Feed(LoginLog, "log", seq(64, _ => '0'), [Mapped(ValuesAt(1)), Mapped(ValuesAt(2))])

  // ---- what the log says -------------------------------------------------------------------------

  lemma LetterPasses(s: string, digest: string -> string)
    requires s == "e" || s == "g"
    ensures Slug(s, digest) == s
  {
    hide Passes, Generated;
    PassesExactly(s);
  }

  /** Each field is taken as it stands. */
  lemma FieldAt(t: int, i: nat)
    requires i < 6
    ensures var (name, v) := ValuesAt(t)[i]; Field(LoginLog, name, v, HASHES.name) == Some(v)
  {
    hide Slug;
    LetterPasses("e", HASHES.name);
    LetterPasses("g", HASHES.name);
  }

  lemma FieldsAt(t: int)
    ensures Fields(LoginLog, ValuesAt(t), 6, HASHES.name) ==
              Some(map[Id := Text("e"), At := Time(t), Actor := Text("a"), Session := Text("s"), GatewayId := Text("g"),
                       Success := Flag(true)])
  {
    hide Field, HASHES;
    var v, d := ValuesAt(t), HASHES.name;
    forall i: nat | i < 6 { FieldAt(t, i); }
    var one := map[Id := Text("e")];
    var three := one[At := Time(t)][Actor := Text("a")];
    assert Fields(LoginLog, v, 0, d) == Some(map[]);
    assert Fields(LoginLog, v, 1, d) == Some(one);
    assert Fields(LoginLog, v, 2, d) == Some(one[At := Time(t)]);
    assert Fields(LoginLog, v, 3, d) == Some(three);
    assert Fields(LoginLog, v, 4, d) == Some(three[Session := Text("s")]);
    assert Fields(LoginLog, v, 5, d) == Some(three[Session := Text("s")][GatewayId := Text("g")]);
  }

  lemma AcceptedAt(t: int)
    ensures Accepted(LoginLog, Mapped(ValuesAt(t)), HASHES) == Some(RecordAt(t))
  {
    hide Fields, HASHES;
    FieldsAt(t);
    assert Completed(LoginLog, Fields(LoginLog, ValuesAt(t), 6, HASHES.name).value, HASHES) == RecordAt(t);
  }

  lemma LogRecords()
    ensures Records(LoginLog, LOG.lines, 2, HASHES) == [RecordAt(1), RecordAt(2)]
    ensures AcceptedEvents([LOG], 1, HASHES) == [LoginAt(1), LoginAt(2)]
  {
    hide Accepted, EventOf;
    AcceptedAt(1);
    AcceptedAt(2);
    var r := [RecordAt(1), RecordAt(2)];
    assert Records(LoginLog, LOG.lines, 1, HASHES) == [RecordAt(1)];
    assert EventsOf(LoginLog, r, 1) == [LoginAt(1)];
    assert EventsOf(LoginLog, r, 2) == [LoginAt(1), LoginAt(2)];
    assert AcceptedEvents([LOG], 0, HASHES) == [];
    assert Records(LoginLog, LOG.lines, 2, HASHES) == r;
  }

  lemma Logins()
    ensures forall t :: t == 1 || t == 2 ==> TimeAt(LoginAt(t), At) == t && TextAt(LoginAt(t), Id) == "e"
    ensures RenamedId(LoginAt(2), HASHES) == "e:" + SECOND
  {
  }

  lemma HashesSpelled()
    ensures Spelled(HASHES) && forall k, r :: ':' !in HASHES.row(k, r)
  {
    hide AllKept;
    TwentyFour();
    assert Hex(ZEROS) && Hex(FIRST) && Hex(SECOND);
  }

  lemma TwentyFour()
    ensures var zeros := "000000000000000000000000"; AllKept(zeros) && ':' !in zeros && |zeros| == 24
  {
  }

  lemma HashesDiffer()
    ensures HASHES.body(LoginAt(1)) == FIRST && HASHES.body(LoginAt(2)) == SECOND
    ensures FIRST != SECOND && FIRST != ZEROS && SECOND != ZEROS
  {
    hide EventOf, RecordAt, TimeAt;
    Logins();
    assert FIRST[15] == '1' && SECOND[15] == '2' && ZEROS[15] == '0';
  }

  lemma LogApart()
    ensures RowSet([LOG], HASHES) == {LoginAt(1), LoginAt(2)} && Apart(RowSet([LOG], HASHES), HASHES)
  {
    hide AcceptedEvents, Apart, Mentioned, EventOf, RecordAt, TimeAt, TextAt, Hex, AllKept;
    hide Slug, Fields, Accepted, Records, EventsOf;
    LogRecords();
    HashesSpelled();
    HashesDiffer();
    assert forall x :: x in RowSet([LOG], HASHES) <==> x in [LoginAt(1), LoginAt(2)];
    HashesKeepApart([LOG], HASHES);
  }

  // ---- what is stored and imported ---------------------------------------------------------------

  /** Each identifier in the log stands for itself, so that no two names clash. */
  lemma {:induction false} NamesPass(t: int, n: nat)
    requires n <= 6
    ensures forall p :: p in Namings(LoginLog, ValuesAt(t), n, HASHES.name) ==> p.0 == p.1
  {
    hide Fields, Slug;
    if n > 0 {
      NamesPass(t, n - 1);
      LetterPasses("e", HASHES.name);
      LetterPasses("g", HASHES.name);
    }
  }

  lemma LogBuilds()
    ensures Builds([LOG], 1, HASHES, 10).Ok?
  {
    hide Builds, Namings, ValuesAt;
    NamesPass(1, 6);
    NamesPass(2, 6);
    var d := HASHES.name;
    assert forall p :: p in FeedNamings(LoginLog, LOG.lines, 1, d) ==> p.0 == p.1;
    assert forall p :: p in AllNamings([LOG], 1, d) ==> p.0 == p.1;
    EnterExactly(AllNamings([LOG], 1, d));
    BuildsExactly([LOG], 1, HASHES, 10);
  }

  lemma LogStored()
    ensures Builds([LOG], 1, HASHES, 10).Ok?
    ensures Builds([LOG], 1, HASHES, 10).value.store.events == [LoginAt(1), Renamed(LoginAt(2), HASHES)]
  {
    hide Reads, EventOf, TextAt, TimeAt, Renamed, Records;
    LogBuilds();
    Logins();
    LogRecords();
    RenamedHasId(LoginAt(2), HASHES);
    var st, read := Store([], [], map[]), Reads(LoginLog, LOG.lines, 2, map[], HASHES, 10);
    assert Builds([LOG], 0, HASHES, 10) == Ok(Build(st, map[], []));
    ReadsGiveRecords(LoginLog, LOG.lines, 2, map[], HASHES, 10);
    var r, report := read.value.records, read.value.report;
    assert Absorb(LoginLog, st, report, r, 1, HASHES).0 == Store([], [LoginAt(1)], map["e" := LoginAt(1)]);
  }

  lemma LogImported(now: int)
    requires now >= 2
    ensures Imported([LOG], RecordUnknown, now, None, HASHES, 10).Ok?
    ensures var events := Imported([LOG], RecordUnknown, now, None, HASHES, 10).value.document.events;
            LoginAt(1) in events && Renamed(LoginAt(2), HASHES) in events
  {
    hide Imported, Builds, EventOf, Renamed, TimeAt, RowSet, Apart;
    LogStored();
    LogApart();
    Logins();
    assert LoginAt(1) in RowSet([LOG], HASHES) && InTime(LoginAt(1), now);
    ImportSucceedsExactly([LOG], now, None, HASHES, 10);
    SameTime(LoginAt(2), HASHES);
    var st := StoredEvents([LOG], now, None, HASHES, 10);
    SameMembers(Filter(Within(At, now + LEEWAY), st.events));
    assert st.events[0] == LoginAt(1) && st.events[1] == Renamed(LoginAt(2), HASHES);
  }

  lemma ValueTyped(t: int, i: nat)
    requires i < 6
    ensures var (name, v) := ValuesAt(t)[i]; name in LOGIN_TARGETS && Typed(LOGIN_TARGETS[name].0, v)
  {
  }

  lemma ValuesTyped(t: int)
    ensures WellTyped(LoginLog, Mapped(ValuesAt(t)))
  {
    hide Typed;
    var v := ValuesAt(t);
    assert v[1].0 == At && v[2].0 == Actor && v[3].0 == Session && v[4].0 == GatewayId && v[5].0 == Success;
    forall i: nat | i < 6 { ValueTyped(t, i); }
  }

  lemma LogWellTyped()
    ensures WellTypedFeeds([LOG]) && NamedSources([LOG])
  {
    hide WellTyped, ValuesAt;
    ValuesTyped(1);
    ValuesTyped(2);
    assert ValidLabel("log") && |LOG.sha256| == 64;
  }

  /** Both logins are imported, one under a new identifier, and the normalizer takes
      them. */
  lemma BothLoginsArrive(now: int, key: Keyed)
    requires now >= 2
    ensures Imported([LOG], RecordUnknown, now, None, HASHES, 10).Ok?
    ensures var d := Imported([LOG], RecordUnknown, now, None, HASHES, 10).value.document;
            && LoginAt(1) in d.events && Renamed(LoginAt(2), HASHES) in d.events && LoginAt(2) !in d.events
            && Normalized(d, key, now, |d.assets|, |d.events|).Some?
  {
    hide Imported, RowSet, EventOf, Renamed, Normalized, Builds, TimeAt, Apart;
    LogImported(now);
    LogApart();
    HashesSpelled();
    NoEvidenceLost([LOG], now, None, HASHES, 10);
    Logins();
    LogWellTyped();
    var d := Imported([LOG], RecordUnknown, now, None, HASHES, 10).value.document;
    ImportsAreAccepted([LOG], RecordUnknown, now, HASHES, 10, key, now, |d.assets|, |d.events|);
  }
}
