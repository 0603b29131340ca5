/** `fixtureManager`: the fixtures, each with a shallow map of property values. */
module Fixtures {
  import opened Objects
  import opened Arrays
  import opened Entities
  import opened Actions

  predicate IsFixtureAction(a: Action)
  {
    || a.AddFixture? || a.SetFixtureProperties? || a.SetAllFixtureProperties?
    || a.ResetFixtureProperties? || a.RemoveFixture?
  }

  /** SET_FIXTURE_PROPERTIES and RESET_FIXTURE_PROPERTIES look the fixture up by
      id and update the element found: a miss (-1) throws. */
  predicate FixtureActionDefined(fixtures: seq<Fixture>, a: Action)
  {
    (a.SetFixtureProperties? || a.ResetFixtureProperties?) ==> a.fixtureId in Ids(fixtures)
  }

  /** `fixtures.findIndex(fixture => fixture.id === id)`. */
  function FindIndex(fixtures: seq<Fixture>, id: string): (r: int)
    ensures -1 <= r < |fixtures|
    ensures r == -1 <==> id !in Ids(fixtures)
    ensures r >= 0 ==> fixtures[r].id == id && forall j :: 0 <= j < r ==> fixtures[j].id != id
  {
    IndexOf(Ids(fixtures), id)
  }

  /** `f` and `g` agree on every field except perhaps `properties`. */
  ghost predicate SameButProperties(f: Fixture, g: Fixture)
  {
    f.(properties := g.properties) == g
  }

  /** SET_FIXTURE_PROPERTIES: the fixture with that id gets its old properties
      overlaid by the incoming ones; every other field and fixture is kept. */
  function SetFixtureProperties(fixtures: seq<Fixture>, id: string, properties: Object): (r: seq<Fixture>)
    requires id in Ids(fixtures)
    ensures var i := FindIndex(fixtures, id);
      && OnlyAt(fixtures, r, i)
      && SameButProperties(fixtures[i], r[i])
      && Overlays(fixtures[i].properties, properties, r[i].properties)
  {
    var i := FindIndex(fixtures, id);
    var oldProperties := fixtures[i].properties;
    fixtures[i := fixtures[i].(properties := Merge(oldProperties, Merge(oldProperties, properties)))]
  }

  /** RESET_FIXTURE_PROPERTIES: the fixture with that id is left with no
      properties; every other field and fixture is kept. */
  function ResetFixtureProperties(fixtures: seq<Fixture>, id: string): (r: seq<Fixture>)
    requires id in Ids(fixtures)
    ensures var i := FindIndex(fixtures, id);
      OnlyAt(fixtures, r, i) && SameButProperties(fixtures[i], r[i]) && r[i].properties == map[]
  {
    var i := FindIndex(fixtures, id);
    fixtures[i := fixtures[i].(properties := map[])]
  }

  /** SET_ALL_FIXTURE_PROPERTIES, as intended: every fixture whose id is in the
      batch gets its properties overlaid by that entry; ids of the batch that
      name no fixture are ignored. */
  function SetAllFixtureProperties(fixtures: seq<Fixture>, batch: map<string, Object>): (r: seq<Fixture>)
    ensures |r| == |fixtures|
    ensures forall i :: 0 <= i < |fixtures| ==> SameButProperties(fixtures[i], r[i])
    ensures forall i :: 0 <= i < |fixtures| && fixtures[i].id in batch ==>
      Overlays(fixtures[i].properties, batch[fixtures[i].id], r[i].properties)
    ensures forall i :: 0 <= i < |fixtures| && fixtures[i].id !in batch ==> r[i] == fixtures[i]
  {
    seq(|fixtures|, i requires 0 <= i < |fixtures| =>
      var f := fixtures[i];
      if f.id in batch then f.(properties := Merge(f.properties, batch[f.id])) else f)
  }

  /** `fixtureManager`. */
  function FixtureManager(fixtures: seq<Fixture>, a: Action): (r: seq<Fixture>)
    requires FixtureActionDefined(fixtures, a)
    ensures !IsFixtureAction(a) ==> r == fixtures
    ensures a.AddFixture? ==> |r| == |fixtures| + 1 && r[..|fixtures|] == fixtures && r[|fixtures|] == a.fixture
    ensures a.RemoveFixture? ==> r == SpliceRemove(fixtures, a.fixtureIndex)
    ensures a.SetFixtureProperties? ==> r == SetFixtureProperties(fixtures, a.fixtureId, a.properties)
    ensures a.ResetFixtureProperties? ==> r == ResetFixtureProperties(fixtures, a.fixtureId)
    ensures a.SetAllFixtureProperties? ==> r == SetAllFixtureProperties(fixtures, a.fixtureBatch)
  {
    match a
    case AddFixture(fixture) => Push(fixtures, fixture)
    case SetFixtureProperties(id, properties) => SetFixtureProperties(fixtures, id, properties)
    case SetAllFixtureProperties(batch) => SetAllFixtureProperties(fixtures, batch)
    case ResetFixtureProperties(id) => ResetFixtureProperties(fixtures, id)
    case RemoveFixture(i) => SpliceRemove(fixtures, i)
    case _ => fixtures
  }

  /** Removing at the last index the fixture just added restores the fixtures. */
  lemma AddThenRemoveFixture(fixtures: seq<Fixture>, f: Fixture)
    ensures FixtureManager(FixtureManager(fixtures, Actions.AddFixture(f)), Actions.RemoveFixture(|fixtures|)) == fixtures
  {
    PushThenRemoveLast(fixtures, f);
  }

  /** A property update keeps every id where it was, so a later lookup by id
      finds the same fixture. */
  lemma {:induction false} FindIndexAfterSet(fixtures: seq<Fixture>, id: string, properties: Object, other: string)
    requires id in Ids(fixtures)
    ensures Ids(SetFixtureProperties(fixtures, id, properties)) == Ids(fixtures)
    ensures FindIndex(SetFixtureProperties(fixtures, id, properties), other) == FindIndex(fixtures, other)
  {
    var r := SetFixtureProperties(fixtures, id, properties);
    assert forall j :: 0 <= j < |r| ==> r[j].id == fixtures[j].id;
    assert Ids(r) == Ids(fixtures);
  }

  /** Two successive merges into one fixture are one merge of their overlay. */
  lemma {:induction false} SetFixturePropertiesTwice(fixtures: seq<Fixture>, id: string, p: Object, q: Object)
    requires id in Ids(fixtures)
    ensures var once := SetFixtureProperties(fixtures, id, p);
      id in Ids(once) && SetFixtureProperties(once, id, q) == SetFixtureProperties(fixtures, id, Merge(p, q))
  {
    var i := FindIndex(fixtures, id);
    var once := SetFixtureProperties(fixtures, id, p);
    FindIndexAfterSet(fixtures, id, p, id);
    var twice := SetFixtureProperties(once, id, q);
    var direct := SetFixtureProperties(fixtures, id, Merge(p, q));
    MergeTwice(fixtures[i].properties, p, q);
    OverlayUnique(fixtures[i].properties, Merge(p, q), twice[i].properties, direct[i].properties);
    assert twice[i] == direct[i];
  }

  /** Merging {a: 1}, then {b: 2}, then {a: 3} into a fixture with no properties
      leaves it with {a: 3, b: 2}. */
  lemma MergeScenario(fixtures: seq<Fixture>, id: string)
    requires id in Ids(fixtures) && fixtures[FindIndex(fixtures, id)].properties == map[]
    ensures var s1 := SetFixtureProperties(fixtures, id, map["a" := Num(1)]);
      && id in Ids(s1)
      && var s2 := SetFixtureProperties(s1, id, map["b" := Num(2)]);
      && id in Ids(s2)
      && var s3 := SetFixtureProperties(s2, id, map["a" := Num(3)]);
      && FindIndex(s3, id) == FindIndex(fixtures, id)
      && s3[FindIndex(fixtures, id)].properties == map["a" := Num(3), "b" := Num(2)]
  {
    var i := FindIndex(fixtures, id);
    var a1, b2, a3 := map["a" := Num(1)], map["b" := Num(2)], map["a" := Num(3)];
    var ab := Merge(a1, b2);
    var all := Merge(ab, a3);
    MergeOne(a1, "b", Num(2));
    MergeOne(ab, "a", Num(3));
    assert all == map["a" := Num(3), "b" := Num(2)];
    SetFixturePropertiesTwice(fixtures, id, a1, b2);
    FindIndexAfterSet(fixtures, id, ab, id);
    SetFixturePropertiesTwice(fixtures, id, ab, a3);
    FindIndexAfterSet(fixtures, id, all, id);
    var s3 := SetFixtureProperties(fixtures, id, all);
    OverlayUnique(map[], all, s3[i].properties, all);
  }

  /** No two fixtures share an id. */
  ghost predicate UniqueIds(fixtures: seq<Fixture>)
  {
    forall j, k :: 0 <= j < k < |fixtures| ==> fixtures[j].id != fixtures[k].id
  }

  /** A batch with a single entry has the effect of SET_FIXTURE_PROPERTIES. */
  lemma {:induction false} SingleEntryBatch(fixtures: seq<Fixture>, id: string, properties: Object)
    requires UniqueIds(fixtures) && id in Ids(fixtures)
    ensures SetAllFixtureProperties(fixtures, map[id := properties]) == SetFixtureProperties(fixtures, id, properties)
  {
    var i := FindIndex(fixtures, id);
    var r1 := SetAllFixtureProperties(fixtures, map[id := properties]);
    var r2 := SetFixtureProperties(fixtures, id, properties);
    forall j | 0 <= j < |fixtures|
      ensures r1[j] == r2[j]
    {
      if j == i {
        OverlayUnique(fixtures[i].properties, properties, r1[i].properties, r2[i].properties);
      } else {
        assert fixtures[j].id != id;
      }
    }
  }

  /** Batch entries whose id names no fixture have no effect. */
  lemma {:induction false} UnknownIdsIgnored(fixtures: seq<Fixture>, batch: map<string, Object>, id: string)
    requires id !in Ids(fixtures) && id in batch
    ensures SetAllFixtureProperties(fixtures, batch) == SetAllFixtureProperties(fixtures, batch - {id})
  {
    var r1 := SetAllFixtureProperties(fixtures, batch);
    var r2 := SetAllFixtureProperties(fixtures, batch - {id});
    forall j | 0 <= j < |fixtures|
      ensures r1[j] == r2[j]
    {
      assert fixtures[j].id != id;
      if fixtures[j].id in batch {
        OverlayUnique(fixtures[j].properties, batch[fixtures[j].id], r1[j].properties, r2[j].properties);
      }
    }
  }

  // ---------------------------------------------------------------------------
  // SET_ALL_FIXTURE_PROPERTIES as the source writes it.

  /** One element of the array `createFixtureArray` builds: the entry's
      properties, the position of the fixture with that id (or -1) and the id. */
  datatype BatchEntry = BatchEntry(properties: Object, realIndex: int, fixtureId: string)

  /** `arranged` holds one element per id of `batch`, in some order. The source
      sorts by `realIndex` with a comparator that returns a boolean, which does
      not define an order, so the order is left open here. */
  ghost predicate ArrangementOf(arranged: seq<BatchEntry>, fixtures: seq<Fixture>, batch: map<string, Object>)
  {
    && |arranged| == |batch|
    && (forall k :: 0 <= k < |arranged| ==>
          && arranged[k].fixtureId in batch
          && arranged[k].properties == batch[arranged[k].fixtureId]
          && arranged[k].realIndex == FindIndex(fixtures, arranged[k].fixtureId))
    && (forall k, l :: 0 <= k < l < |arranged| ==> arranged[k].fixtureId != arranged[l].fixtureId)
  }

  /** In an arrangement, `realIndex` is -1 exactly for the ids that name no
      fixture, and otherwise the position of the first fixture with that id. */
  lemma ArrangementRealIndex(arranged: seq<BatchEntry>, fixtures: seq<Fixture>, batch: map<string, Object>, k: int)
    requires ArrangementOf(arranged, fixtures, batch) && 0 <= k < |arranged|
    ensures arranged[k].realIndex == -1 <==> arranged[k].fixtureId !in Ids(fixtures)
    ensures arranged[k].realIndex >= 0 ==> fixtures[arranged[k].realIndex].id == arranged[k].fixtureId
  {
  }

  /** The source's `state.map`: the fixture at position `i` is merged with the
      `i`-th arranged entry, whatever fixture that entry names. */
  function SetAllFixturePropertiesAsWritten(fixtures: seq<Fixture>, arranged: seq<BatchEntry>): (r: seq<Fixture>)
    ensures |r| == |fixtures|
    ensures forall i :: 0 <= i < |fixtures| ==> SameButProperties(fixtures[i], r[i])
    ensures forall i :: 0 <= i < |fixtures| && i < |arranged| ==>
      Overlays(fixtures[i].properties, arranged[i].properties, r[i].properties)
    ensures forall i :: |arranged| <= i < |fixtures| ==> r[i] == fixtures[i]
  {
    seq(|fixtures|, i requires 0 <= i < |fixtures| =>
      if i < |arranged| then fixtures[i].(properties := Merge(fixtures[i].properties, arranged[i].properties))
      else fixtures[i])
  }

  /** As written, each changed fixture is overlaid with the properties of some
      batch entry, and the fixtures at positions past the batch size are kept. */
  lemma AsWrittenMergesBatchEntries(fixtures: seq<Fixture>, batch: map<string, Object>, arranged: seq<BatchEntry>, i: int)
    requires ArrangementOf(arranged, fixtures, batch) && 0 <= i < |fixtures|
    ensures var r := SetAllFixturePropertiesAsWritten(fixtures, arranged);
      if i < |batch| then
        exists id :: id in batch && Overlays(fixtures[i].properties, batch[id], r[i].properties)
      else r[i] == fixtures[i]
  {
    if i < |batch| {
      assert arranged[i].fixtureId in batch;
    }
  }

  /** With fixtures "a" and "b" and a batch for "b" only, the source merges the
      entry into "a" and leaves "b" as it was; the intended merge updates "b". */
  lemma AsWrittenMergesIntoWrongFixture(arranged: seq<BatchEntry>)
    requires ArrangementOf(arranged, [Fixture("a", "", "", 0, 1, map[]), Fixture("b", "", "", 0, 2, map[])],
                           map["b" := map["dimmer" := Num(255)]])
    ensures var fixtures := [Fixture("a", "", "", 0, 1, map[]), Fixture("b", "", "", 0, 2, map[])];
      var batch := map["b" := map["dimmer" := Num(255)]];
      var asWritten := SetAllFixturePropertiesAsWritten(fixtures, arranged);
      var intended := SetAllFixtureProperties(fixtures, batch);
      && asWritten[0].properties == map["dimmer" := Num(255)]
      && asWritten[1].properties == map[]
      && intended[0].properties == map[]
      && intended[1].properties == map["dimmer" := Num(255)]
  {
    var batch := map["b" := map["dimmer" := Num(255)]];
    assert |batch| == 1;
    assert arranged[0].properties == map["dimmer" := Num(255)];
  }

  /** When the batch names every fixture, in position order, the code as
      written and the intended merge agree. */
  lemma {:induction false} AsWrittenAgreesOnFullBatch(fixtures: seq<Fixture>, batch: map<string, Object>, arranged: seq<BatchEntry>)
    requires ArrangementOf(arranged, fixtures, batch) && |arranged| == |fixtures|
    requires forall i :: 0 <= i < |arranged| ==> arranged[i].realIndex == i
    ensures SetAllFixturePropertiesAsWritten(fixtures, arranged) == SetAllFixtureProperties(fixtures, batch)
  {
    var r1 := SetAllFixturePropertiesAsWritten(fixtures, arranged);
    var r2 := SetAllFixtureProperties(fixtures, batch);
    forall i | 0 <= i < |fixtures|
      ensures r1[i] == r2[i]
    {
      assert FindIndex(fixtures, arranged[i].fixtureId) == i;
      assert fixtures[i].id == arranged[i].fixtureId;
      OverlayUnique(fixtures[i].properties, batch[fixtures[i].id], r1[i].properties, r2[i].properties);
    }
  }
}
