/** `normalize` is canonical: what it accepts and returns depends only on which assets
    and which events the document holds, not on their order or on repetitions. */
module Canonical {
  import opened Common
  import opened Ordering
  import opened Names
  import opened Normalizer
  import opened Snapshots

  // ---- assets -----------------------------------------------------------------------------

  predicate Yields(item: Item, asOf: int, a: Asset) {
    ValidAsset(item, asOf) && a == AsAsset(item, asOf)
  }

  ghost predicate EachYields(items: seq<Item>, n: nat, asOf: int, r: seq<Asset>)
    requires n <= |items|
  {
    |r| == n && forall i :: 0 <= i < n ==> Yields(items[i], asOf, r[i])
  }

  ghost predicate DistinctIds(r: seq<Asset>) {
    forall i, j :: 0 <= i < j < |r| ==> r[i].id != r[j].id
  }

  /** Assets are accepted exactly when each is valid and no two share an identifier. */
  lemma {:induction false} AssetsSound(items: seq<Item>, n: nat, asOf: int)
    requires n <= |items| && Assets(items, n, asOf).Some?
    ensures EachYields(items, n, asOf, Assets(items, n, asOf).value)
    ensures DistinctIds(Assets(items, n, asOf).value)
  {
    if n > 0 {
      hide ValidAsset, AsAsset;
      AssetsSound(items, n - 1, asOf);
      var before := Assets(items, n - 1, asOf).value;
      AssetKeepsId(items[n - 1], asOf);
      forall i | 0 <= i < n - 1 ensures before[i].id in AssetIds(before) {
        assert before[i] in before;
      }
      assert Yields(items[n - 1], asOf, Assets(items, n, asOf).value[n - 1]);
    }
  }

  lemma AssetKeepsId(item: Item, asOf: int)
    requires ValidAsset(item, asOf)
    ensures Id in item && item[Id] == Text(AsAsset(item, asOf).id)
  {
  }

  lemma {:induction false} AssetsComplete(items: seq<Item>, n: nat, asOf: int, r: seq<Asset>)
    requires n <= |items| && EachYields(items, n, asOf, r) && DistinctIds(r)
    ensures Assets(items, n, asOf) == Some(r)
  {
    hide ValidAsset, AsAsset;
    if n > 0 {
      var before, last := r[..n - 1], r[n - 1];
      assert r == before + [last] && Yields(items[n - 1], asOf, last);
      ShorterYields(items, n, asOf, r);
      AssetsComplete(items, n - 1, asOf, before);
      AssetKeepsId(items[n - 1], asOf);
      NotAmong(r);
    }
  }

  lemma ShorterYields(items: seq<Item>, n: nat, asOf: int, r: seq<Asset>)
    requires 0 < n <= |items| && EachYields(items, n, asOf, r) && DistinctIds(r)
    ensures EachYields(items, n - 1, asOf, r[..n - 1]) && DistinctIds(r[..n - 1])
  {
    hide Yields;
    forall i | 0 <= i < n - 1 ensures Yields(items[i], asOf, r[..n - 1][i]) {
      assert Yields(items[i], asOf, r[i]);
    }
  }

  lemma NotAmong(r: seq<Asset>)
    requires r != [] && DistinctIds(r)
    ensures r[|r| - 1].id !in AssetIds(r[..|r| - 1])
  {
  }

  function IdText(item: Item): string {
    if Id in item && item[Id].Text? then item[Id].s else ""
  }

  const BY_NAME := (item: Item) => Stamp(0, IdText(item))

  /** The assets these items give, one each. */
  function Converted(items: seq<Item>, asOf: int): (r: seq<Asset>)
    requires forall i :: 0 <= i < |items| ==> ValidAsset(items[i], asOf)
    ensures |r| == |items| && forall i :: 0 <= i < |items| ==> r[i] == AsAsset(items[i], asOf)
  {
    seq(|items|, i requires 0 <= i < |items| => AsAsset(items[i], asOf))
  }

  lemma YieldKeepsName(items: seq<Item>, n: nat, asOf: int, r: seq<Asset>, i: nat)
    requires n <= |items| && EachYields(items, n, asOf, r) && i < n
    ensures BY_NAME(items[i]) == Stamp(0, r[i].id)
  {
    hide ValidAsset, AsAsset;
    assert Yields(items[i], asOf, r[i]);
    AssetKeepsId(items[i], asOf);
  }

  lemma PermutedAreDistinct(items: seq<Item>, items': seq<Item>, asOf: int, r: seq<Asset>, r': seq<Asset>)
    requires multiset(items) == multiset(items') && EachYields(items, |items|, asOf, r) && DistinctIds(r)
    requires EachYields(items', |items'|, asOf, r') && |r| == |items| && |r'| == |items'|
    ensures DistinctIds(r')
  {
    hide EachYields;
    forall i, j | 0 <= i < j < |r'| ensures r'[i].id != r'[j].id {
      YieldKeepsName(items', |items'|, asOf, r', i);
      YieldKeepsName(items', |items'|, asOf, r', j);
      if r'[i].id == r'[j].id {
        SameKeyTwice(BY_NAME, items', items, i, j);
        var a, b :| 0 <= a < b < |items| && BY_NAME(items[a]) == BY_NAME(items[b]);
        YieldKeepsName(items, |items|, asOf, r, a);
        YieldKeepsName(items, |items|, asOf, r, b);
      }
    }
  }

  lemma AssetsPermuted(items: seq<Item>, items': seq<Item>, asOf: int)
    requires multiset(items) == multiset(items') && Assets(items, |items|, asOf).Some?
    ensures Assets(items', |items'|, asOf).Some?
    ensures forall a :: a in Assets(items', |items'|, asOf).value ==> a in Assets(items, |items|, asOf).value
  {
    hide ValidAsset, AsAsset, Assets, DistinctIds;
    var r := Assets(items, |items|, asOf).value;
    AssetsSound(items, |items|, asOf);
    forall i | 0 <= i < |items'| ensures ValidAsset(items'[i], asOf) && AsAsset(items'[i], asOf) in r {
      assert items'[i] in multiset(items);
      var k :| 0 <= k < |items| && items'[i] == items[k];
      assert Yields(items[k], asOf, r[k]);
    }
    var r' := Converted(items', asOf);
    assert EachYields(items', |items'|, asOf, r') by {
      forall i | 0 <= i < |items'| ensures Yields(items'[i], asOf, r'[i]) {}
    }
    PermutedAreDistinct(items, items', asOf, r, r');
    AssetsComplete(items', |items'|, asOf, r');
  }

  // ---- events -----------------------------------------------------------------------------

  predicate Gives(item: Item, asOf: int, assets: set<string>, key: Keyed, e: Event) {
    ValidEvent(item, asOf, assets) && e == AsEvent(item, asOf, assets, key)
  }

  /** Every event is valid, and items with one identifier are one event. */
  ghost predicate Agreeing(items: seq<Item>, asOf: int, assets: set<string>, key: Keyed) {
    && (forall x :: x in items ==> ValidEvent(x, asOf, assets))
    && (forall x, y | x in items && y in items ::
          AsEvent(x, asOf, assets, key).id == AsEvent(y, asOf, assets, key).id ==>
            AsEvent(x, asOf, assets, key) == AsEvent(y, asOf, assets, key))
  }

  /** The kept events are exactly those the items give, each once. */
  ghost predicate Keeps(items: seq<Item>, asOf: int, assets: set<string>, key: Keyed, r: seq<Event>) {
    && (forall x :: x in items ==> ValidEvent(x, asOf, assets) && AsEvent(x, asOf, assets, key) in r)
    && (forall e :: e in r ==> exists x :: x in items && Gives(x, asOf, assets, key, e))
    && (forall i, j :: 0 <= i < j < |r| ==> r[i].id != r[j].id)
  }

  lemma {:induction false} EventsExactly(items: seq<Item>, n: nat, asOf: int, assets: set<string>, key: Keyed)
    requires n <= |items|
    ensures Events(items, n, asOf, assets, key).Some? <==> Agreeing(items[..n], asOf, assets, key)
    ensures Events(items, n, asOf, assets, key).Some? ==>
              Keeps(items[..n], asOf, assets, key, Events(items, n, asOf, assets, key).value)
  {
    hide ValidEvent, AsEvent, Agreeing, Keeps;
    if n == 0 {
      NothingKept(asOf, assets, key);
      assert items[..0] == [];
    } else {
      var init, item := items[..n - 1], items[n - 1];
      assert items[..n] == init + [item];
      EventsExactly(items, n - 1, asOf, assets, key);
      if Events(items, n - 1, asOf, assets, key).None? {
        FewerAgree(init, item, asOf, assets, key);
      } else {
        OneMore(init, item, asOf, assets, key, Events(items, n - 1, asOf, assets, key).value);
      }
    }
  }

  lemma NothingKept(asOf: int, assets: set<string>, key: Keyed)
    ensures Agreeing([], asOf, assets, key) && Keeps([], asOf, assets, key, [])
  {
  }

  lemma FewerAgree(init: seq<Item>, item: Item, asOf: int, assets: set<string>, key: Keyed)
    requires !Agreeing(init, asOf, assets, key)
    ensures !Agreeing(init + [item], asOf, assets, key)
  {
    hide ValidEvent, AsEvent;
  }

  function Extended(before: seq<Event>, item: Item, asOf: int, assets: set<string>, key: Keyed): Option<seq<Event>> {
    if !ValidEvent(item, asOf, assets) then None
    else
      var e := AsEvent(item, asOf, assets, key);
      match Find(before, e.id)
      case None => Some(before + [e])
      case Some(earlier) => if earlier == e then Some(before) else None
  }

  lemma OneMore(init: seq<Item>, item: Item, asOf: int, assets: set<string>, key: Keyed, before: seq<Event>)
    requires Keeps(init, asOf, assets, key, before) && Agreeing(init, asOf, assets, key)
    ensures Extended(before, item, asOf, assets, key).Some? <==> Agreeing(init + [item], asOf, assets, key)
    ensures Extended(before, item, asOf, assets, key).Some? ==>
              Keeps(init + [item], asOf, assets, key, Extended(before, item, asOf, assets, key).value)
  {
    hide ValidEvent, AsEvent;
    var items := init + [item];
    assert forall x :: x in items <==> x in init || x == item;
    if ValidEvent(item, asOf, assets) {
      var e := AsEvent(item, asOf, assets, key);
      assert Gives(item, asOf, assets, key, e);
      match Find(before, e.id) {
        case None =>
        case Some(earlier) =>
          var x :| x in init && Gives(x, asOf, assets, key, earlier);
          assert x in items && item in items;
      }
    } else {
      assert item in items;
    }
  }

  lemma SameItemsAgree(items: seq<Item>, items': seq<Item>, asOf: int, assets: set<string>, key: Keyed)
    requires forall x :: x in items <==> x in items'
    ensures Agreeing(items, asOf, assets, key) ==> Agreeing(items', asOf, assets, key)
  {
    hide ValidEvent, AsEvent;
  }

  lemma KeptOrigin(items: seq<Item>, asOf: int, assets: set<string>, key: Keyed, r: seq<Event>, e: Event)
    returns (x: Item)
    requires Keeps(items, asOf, assets, key, r) && e in r
    ensures x in items && Gives(x, asOf, assets, key, e)
  {
    hide Gives, ValidEvent, AsEvent;
    x :| x in items && Gives(x, asOf, assets, key, e);
  }

  lemma ItemKept(items: seq<Item>, asOf: int, assets: set<string>, key: Keyed, r: seq<Event>, x: Item, e: Event)
    requires Keeps(items, asOf, assets, key, r) && x in items && Gives(x, asOf, assets, key, e)
    ensures e in r
  {
    hide ValidEvent, AsEvent;
  }

  lemma SameItemsKept(items: seq<Item>, items': seq<Item>, asOf: int, assets: set<string>, key: Keyed, r: seq<Event>,
                      r': seq<Event>)
    requires forall x :: x in items <==> x in items'
    requires Keeps(items, asOf, assets, key, r) && Keeps(items', asOf, assets, key, r')
    ensures forall e :: e in r ==> e in r'
  {
    hide Keeps, Gives;
    forall e | e in r ensures e in r' {
      var x := KeptOrigin(items, asOf, assets, key, r, e);
      ItemKept(items', asOf, assets, key, r', x, e);
    }
  }

  // ---- the document -------------------------------------------------------------------------

  /** The same header and provenance, the same assets in any order, and the same events
      in any order, repeated at will. */
  ghost predicate SameContent(d: Document, d': Document) {
    && d.asOf == d'.asOf && d.provenance == d'.provenance
    && multiset(d.assets) == multiset(d'.assets) && (forall x :: x in d.events <==> x in d'.events)
  }

  lemma AssetsSorted(r: seq<Asset>, r': seq<Asset>)
    requires DistinctIds(r) && DistinctIds(r') && forall a :: a in r <==> a in r'
    ensures Sort(BY_ID, r) == Sort(BY_ID, r') && StrictlySorted(BY_ID, Sort(BY_ID, r))
  {
    SortStrict(BY_ID, r);
    SortStrict(BY_ID, r');
    StrictlySortedUnique(BY_ID, Sort(BY_ID, r), Sort(BY_ID, r'));
  }

  lemma EventsSorted(r: seq<Event>, r': seq<Event>)
    requires forall i, j :: 0 <= i < j < |r| ==> r[i].id != r[j].id
    requires forall i, j :: 0 <= i < j < |r'| ==> r'[i].id != r'[j].id
    requires forall e :: e in r <==> e in r'
    ensures Sort(BY_TIME, r) == Sort(BY_TIME, r') && StrictlySorted(BY_TIME, Sort(BY_TIME, r))
  {
    SortStrict(BY_TIME, r);
    SortStrict(BY_TIME, r');
    StrictlySortedUnique(BY_TIME, Sort(BY_TIME, r), Sort(BY_TIME, r'));
  }

  lemma AssetPart(items: seq<Item>, items': seq<Item>, asOf: int)
    requires multiset(items) == multiset(items')
    ensures var r, r' := Assets(items, |items|, asOf), Assets(items', |items'|, asOf);
            && (r.Some? <==> r'.Some?)
            && (r.Some? ==> Sort(BY_ID, r.value) == Sort(BY_ID, r'.value) && AssetIds(r.value) == AssetIds(r'.value))
  {
    hide Assets;
    if Assets(items, |items|, asOf).Some? { AssetsPermuted(items, items', asOf); }
    if Assets(items', |items'|, asOf).Some? { AssetsPermuted(items', items, asOf); }
    var r, r' := Assets(items, |items|, asOf), Assets(items', |items'|, asOf);
    if r.Some? {
      AssetsSound(items, |items|, asOf);
      AssetsSound(items', |items'|, asOf);
      AssetsSorted(r.value, r'.value);
    }
  }

  lemma EventPart(items: seq<Item>, items': seq<Item>, asOf: int, assets: set<string>, key: Keyed)
    requires forall x :: x in items <==> x in items'
    ensures var r, r' := Events(items, |items|, asOf, assets, key), Events(items', |items'|, asOf, assets, key);
            && (r.Some? <==> r'.Some?) && (r.Some? ==> Sort(BY_TIME, r.value) == Sort(BY_TIME, r'.value))
  {
    hide Events, Agreeing;
    assert items[..|items|] == items && items'[..|items'|] == items';
    EventsExactly(items, |items|, asOf, assets, key);
    EventsExactly(items', |items'|, asOf, assets, key);
    SameItemsAgree(items, items', asOf, assets, key);
    SameItemsAgree(items', items, asOf, assets, key);
    var r, r' := Events(items, |items|, asOf, assets, key), Events(items', |items'|, asOf, assets, key);
    if r.Some? {
      SameItemsKept(items, items', asOf, assets, key, r.value, r'.value);
      SameItemsKept(items', items, asOf, assets, key, r'.value, r.value);
      EventsSorted(r.value, r'.value);
    }
  }

  /** Permuting assets or events, or repeating events, changes neither acceptance nor
      the result (caps on the number of events apart). */
  lemma NormalizeIsCanonical(d: Document, d': Document, key: Keyed, now: int, maxAssets: nat, maxEvents: nat)
    requires SameContent(d, d') && |d.events| <= maxEvents && |d'.events| <= maxEvents
    ensures Normalized(d, key, now, maxAssets, maxEvents) == Normalized(d', key, now, maxAssets, maxEvents)
  {
    hide Assets, Events, ValidSource;
    assert |multiset(d.assets)| == |d.assets| && |multiset(d'.assets)| == |d'.assets|;
    AssetPart(d.assets, d'.assets, d.asOf);
    var assets := Assets(d.assets, |d.assets|, d.asOf);
    if assets.Some? {
      EventPart(d.events, d'.events, d.asOf, AssetIds(assets.value), key);
    }
  }

  /** The result lists assets strictly by identifier and events strictly by time and
      identifier, and holds exactly the events its items give, no identifier twice. */
  lemma NormalizeResult(d: Document, key: Keyed, now: int, maxAssets: nat, maxEvents: nat)
    requires Normalized(d, key, now, maxAssets, maxEvents).Some?
    ensures var r := Normalized(d, key, now, maxAssets, maxEvents).value;
            && StrictlySorted(BY_ID, r.assets) && |r.assets| == |d.assets| && StrictlySorted(BY_TIME, r.events)
            && Keeps(d.events, d.asOf, AssetIds(r.assets), key, r.events)
  {
    hide ValidEvent, AsEvent, Events, Assets, ValidHeader, Keeps;
    var assets := Assets(d.assets, |d.assets|, d.asOf).value;
    AssetsSound(d.assets, |d.assets|, d.asOf);
    AssetsSorted(assets, assets);
    assert AssetIds(Sort(BY_ID, assets)) == AssetIds(assets);
    var events := Events(d.events, |d.events|, d.asOf, AssetIds(assets), key).value;
    assert d.events[..|d.events|] == d.events;
    EventsExactly(d.events, |d.events|, d.asOf, AssetIds(assets), key);
    KeptSorted(d.events, d.asOf, AssetIds(assets), key, events);
  }

  lemma YieldsTime(item: Item, asOf: int)
    requires ValidAsset(item, asOf)
    ensures AsAsset(item, asOf).observedAt <= asOf + LEEWAY
  {
  }

  lemma KeptResolve(items: seq<Item>, asOf: int, assets: set<string>, key: Keyed, r: seq<Event>)
    requires Keeps(items, asOf, assets, key, r)
    ensures forall e :: e in r ==> TargetOf(e) in assets && e.at <= asOf + LEEWAY
    ensures forall i, j :: 0 <= i < j < |r| ==> r[i].id != r[j].id
  {
    hide ValidEvent, AsEvent, Gives, TargetOf;
    forall e | e in r ensures TargetOf(e) in assets && e.at <= asOf + LEEWAY {
      var x :| x in items && Gives(x, asOf, assets, key, e);
      GivesTarget(x, asOf, assets, key, e);
    }
  }

  lemma GivesTarget(item: Item, asOf: int, assets: set<string>, key: Keyed, e: Event)
    requires Gives(item, asOf, assets, key, e)
    ensures TargetOf(e) in assets && e.at <= asOf + LEEWAY
  {
  }

  lemma SortedDiffer(r: seq<Asset>)
    requires StrictlySorted(BY_ID, r)
    ensures DistinctIds(r)
  {
    hide StampLess;
    forall i, j | 0 <= i < j < |r| ensures r[i].id != r[j].id {
      assert StampLess(BY_ID(r[i]), BY_ID(r[j]));
      StampIrreflexive(BY_ID(r[i]));
    }
  }

  lemma AssetTimes(items: seq<Item>, asOf: int)
    requires Assets(items, |items|, asOf).Some?
    ensures forall a :: a in Sort(BY_ID, Assets(items, |items|, asOf).value) ==> a.observedAt <= asOf + LEEWAY
  {
    hide Assets, ValidAsset, AsAsset;
    var assets := Assets(items, |items|, asOf).value;
    AssetsSound(items, |items|, asOf);
    SortPermutes(BY_ID, assets);
    forall a | a in Sort(BY_ID, assets) ensures a.observedAt <= asOf + LEEWAY {
      var i :| 0 <= i < |assets| && assets[i] == a;
      assert Yields(items[i], asOf, a);
      YieldsTime(items[i], asOf);
    }
  }

  /** Every accepted snapshot has an asset, unique identifiers, resolved references and no
      time after its own. */
  lemma NormalizedSound(d: Document, key: Keyed, now: int, maxAssets: nat, maxEvents: nat)
    requires Normalized(d, key, now, maxAssets, maxEvents).Some?
    ensures Sound(Normalized(d, key, now, maxAssets, maxEvents).value)
  {
    hide ValidSource, Events, Assets, Keeps, StrictlySorted, TargetOf, AssetIds;
    var r := Normalized(d, key, now, maxAssets, maxEvents).value;
    NormalizeResult(d, key, now, maxAssets, maxEvents);
    AssetTimes(d.assets, d.asOf);
    SortedDiffer(r.assets);
    KeptResolve(d.events, d.asOf, AssetIds(r.assets), key, r.events);
  }

  lemma KeptSorted(items: seq<Item>, asOf: int, assets: set<string>, key: Keyed, r: seq<Event>)
    requires Keeps(items, asOf, assets, key, r)
    ensures Keeps(items, asOf, assets, key, Sort(BY_TIME, r)) && StrictlySorted(BY_TIME, Sort(BY_TIME, r))
  {
    hide ValidEvent, AsEvent, Gives;
    EventsSorted(r, r);
    var sorted := Sort(BY_TIME, r);
    SortPermutes(BY_TIME, r);
    forall i, j | 0 <= i < j < |sorted| ensures sorted[i].id != sorted[j].id {
      if sorted[i].id == sorted[j].id {
        SameKeyTwice((e: Event) => Stamp(0, e.id), sorted, r, i, j);
      }
    }
  }

  // ---- what normalizing changes --------------------------------------------------------------

  function Nullified(b: Option<bool>): Value { if b.Some? then Flag(b.value) else Null }

  /** The dictionary a normalized event is written as. */
  function ItemOfEvent(e: Event): Item {
    match e
    case Login(id, at, actor, session, gateway, success, privileged, trusted, approved) =>
      map[Id := Text(id), Type := Text("login"), At := Time(at), Actor := Text(actor), Session := Text(session),
          GatewayId := Text(gateway), Success := Flag(success), Privileged := Nullified(privileged),
          DeviceTrusted := Nullified(trusted), Approved := Nullified(approved)]
    case FileAccess(id, at, actor, session, asset, file, sensitive, bytes) =>
      map[Id := Text(id), Type := Text("file_access"), At := Time(at), Actor := Text(actor), Session := Text(session),
          AssetId := Text(asset), FileId := Text(file), Sensitive := Nullified(sensitive),
          BytesRead := if bytes.Some? then Count(bytes.value) else Null]
  }

  function ItemOfWeakness(v: Option<Vulnerability>): Value {
    if v.None? then Null
    else Object(map[Reference := Text(v.value.reference), KnownExploited := Nullified(v.value.knownExploited),
                    Cvss := if v.value.cvss.Some? then Ratio(v.value.cvss.value) else Null])
  }

  function ItemOfAsset(a: Asset): Item {
    map[Id := Text(a.id), AssetKind := Text(a.kind), PatchState := Text(a.patch), ObservedAt := Time(a.observedAt),
        Weakness := ItemOfWeakness(a.vulnerability), InternetExposed := Nullified(a.exposed),
        PrivilegedPath := Nullified(a.privilegedPath), SensitivePath := Nullified(a.sensitivePath)]
  }

  /** Pseudonyms in place of the people, sessions and files named. */
  function Pseudonymised(item: Item, key: Keyed): Item
    requires {Actor, Session} <= item.Keys && item[Actor].Text? && item[Session].Text?
    requires FileId in item ==> item[FileId].Text?
  {
    var named := item[Actor := Text("actor-" + key("actor", item[Actor].s))]
                     [Session := Text("session-" + key("session", item[Session].s))];
    if FileId in item then named[FileId := Text("file-" + key("file", item[FileId].s))] else named
  }

  lemma LoginRoundTrip(item: Item, asOf: int, assets: set<string>, key: Keyed)
    requires ValidEvent(item, asOf, assets) && item[Type] == Text("login")
    ensures ItemOfEvent(AsEvent(item, asOf, assets, key)) == Pseudonymised(item, key)
  {
    hide Legal, ValidFile;
    assert ItemOfEvent(AsEvent(item, asOf, assets, key)).Keys == LOGIN_KEYS;
    assert Pseudonymised(item, key).Keys == LOGIN_KEYS;
  }

  lemma FileRoundTrip(item: Item, asOf: int, assets: set<string>, key: Keyed)
    requires ValidEvent(item, asOf, assets) && item[Type] != Text("login")
    ensures ItemOfEvent(AsEvent(item, asOf, assets, key)) == Pseudonymised(item, key)
  {
    hide Legal, ValidLogin;
    assert ItemOfEvent(AsEvent(item, asOf, assets, key)).Keys == FILE_KEYS;
    assert Pseudonymised(item, key).Keys == FILE_KEYS;
  }

  /** Normalizing an event replaces the three names by pseudonyms and changes nothing
      else. */
  lemma EventRoundTrip(item: Item, asOf: int, assets: set<string>, key: Keyed)
    requires ValidEvent(item, asOf, assets)
    ensures {Actor, Session} <= item.Keys && item[Actor].Text? && item[Session].Text?
    ensures FileId in item ==> item[FileId].Text?
    ensures ItemOfEvent(AsEvent(item, asOf, assets, key)) == Pseudonymised(item, key)
  {
    hide Legal, AsEvent, Pseudonymised, ItemOfEvent;
    if item[Type] == Text("login") {
      LoginRoundTrip(item, asOf, assets, key);
    } else {
      FileRoundTrip(item, asOf, assets, key);
    }
  }

  /** Scores are written as decimals. */
  function Decimal(v: Value): Value {
    if v.Object? && Cvss in v.fields && v.fields[Cvss].Count?
    then Object(v.fields[Cvss := Ratio(v.fields[Cvss].n as real)])
    else v
  }

  /** Normalizing an asset only turns a whole score into a decimal one. */
  lemma AssetRoundTrip(item: Item, asOf: int)
    requires ValidAsset(item, asOf)
    ensures Weakness in item && ItemOfAsset(AsAsset(item, asOf)) == item[Weakness := Decimal(item[Weakness])]
  {
    hide Legal, Weak, AsWeakness, Decimal;
    WeaknessRoundTrip(item[Weakness]);
    var again := ItemOfAsset(AsAsset(item, asOf));
    assert again.Keys == ASSET_KEYS;
  }

  lemma WeaknessRoundTrip(v: Value)
    requires Weak(v)
    ensures ItemOfWeakness(AsWeakness(v)) == Decimal(v)
  {
    hide Legal;
    if v.Object? {
      assert ItemOfWeakness(AsWeakness(v)).fields.Keys == v.fields.Keys;
      assert ItemOfWeakness(AsWeakness(v)).fields == Decimal(v).fields;
    }
  }
}
