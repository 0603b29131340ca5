/** `midiManager`: the MIDI controllers, each with mapping entries keyed by
    mapping index, plus the enabled flag and the mapping being learned. */
module Midi {
  import opened Objects
  import opened Arrays
  import opened Entities
  import opened Actions

  datatype MidiState = MidiState(controllers: seq<MidiController>, enabled: bool, learning: Option<int>)

  const InitialMidi := MidiState([], false, None)

  predicate IsMidiAction(a: Action)
  {
    || a.EnableMidi? || a.AddMidi? || a.AddMidiMapping? || a.SetMidiMappingActive?
    || a.AddSceneToMidi? || a.RemoveSceneFromMidi? || a.LearnMidi? || a.RemoveMidi?
  }

  /** The mapping entry `mi` of controller `ci` exists and has a `scenes` list. */
  predicate HasSceneList(s: MidiState, ci: int, mi: int)
  {
    && 0 <= ci < |s.controllers|
    && mi in s.controllers[ci].mapping
    && "scenes" in s.controllers[ci].mapping[mi]
    && s.controllers[ci].mapping[mi]["scenes"].List?
  }

  /** What each action needs to exist: ADD_MIDI_MAPPING reads the controller;
      SET_MIDI_MAPPING_ACTIVE updates a field of an existing entry; `$push` and
      `$splice` need the entry's `scenes` to be an array. */
  predicate MidiActionDefined(s: MidiState, a: Action)
  {
    && (a.AddMidiMapping? ==> 0 <= a.controllerIndex < |s.controllers|)
    && (a.SetMidiMappingActive? ==>
          0 <= a.controllerIndex < |s.controllers| && a.mappingIndex in s.controllers[a.controllerIndex].mapping)
    && (a.AddSceneToMidi? || a.RemoveSceneFromMidi? ==> HasSceneList(s, a.controllerIndex, a.mappingIndex))
  }

  /** `s` and `r` differ at most in mapping entry `mi` of controller `ci`. */
  ghost predicate OnlyEntry(s: MidiState, r: MidiState, ci: int, mi: int)
    requires 0 <= ci < |s.controllers|
  {
    && OnlyAt(s.controllers, r.controllers, ci)
    && r.enabled == s.enabled && r.learning == s.learning
    && r.controllers[ci].id == s.controllers[ci].id
    && r.controllers[ci].mapping.Keys == s.controllers[ci].mapping.Keys + {mi}
    && forall m :: m in s.controllers[ci].mapping && m != mi ==>
         r.controllers[ci].mapping[m] == s.controllers[ci].mapping[m]
  }

  /** Controller `ci` with entry `mi` of its mapping replaced by `entry`. */
  function WithEntry(s: MidiState, ci: int, mi: int, entry: Object): (r: MidiState)
    requires 0 <= ci < |s.controllers|
    ensures OnlyEntry(s, r, ci, mi) && r.controllers[ci].mapping[mi] == entry
  {
    var c := s.controllers[ci];
    s.(controllers := s.controllers[ci := c.(mapping := c.mapping[mi := entry])])
  }

  /** `mapping[mi] || {}`: the entry so far. */
  function EntryOf(entries: map<int, Object>, mi: int): (o: Object)
    ensures mi in entries ==> o == entries[mi]
    ensures mi !in entries ==> o == map[]
  {
    if mi in entries then entries[mi] else map[]
  }

  /** ADD_MIDI_MAPPING: the entry is created when absent and the incoming
      fields are overlaid on it. (`$merge` of the one-key object `{[mi]: ...}`
      sets that one key, see `MergeOne`.) */
  function AddMidiMapping(s: MidiState, ci: int, mi: int, mapping: Object): (r: MidiState)
    requires 0 <= ci < |s.controllers|
    ensures OnlyEntry(s, r, ci, mi)
    ensures Overlays(EntryOf(s.controllers[ci].mapping, mi), mapping, r.controllers[ci].mapping[mi])
    ensures mi !in s.controllers[ci].mapping ==> r.controllers[ci].mapping[mi] == mapping
  {
    MergeIntoEmpty(mapping);
    WithEntry(s, ci, mi, Merge(EntryOf(s.controllers[ci].mapping, mi), mapping))
  }

  /** SET_MIDI_MAPPING_ACTIVE sets the entry's `active` field. */
  function SetMidiMappingActive(s: MidiState, ci: int, mi: int, active: bool): (r: MidiState)
    requires 0 <= ci < |s.controllers| && mi in s.controllers[ci].mapping
    ensures OnlyEntry(s, r, ci, mi)
    ensures r.controllers[ci].mapping[mi] == s.controllers[ci].mapping[mi]["active" := Bool(active)]
  {
    WithEntry(s, ci, mi, s.controllers[ci].mapping[mi]["active" := Bool(active)])
  }

  /** ADD_SCENE_TO_MIDI appends the scene id to the entry's `scenes`. */
  function AddSceneToMidi(s: MidiState, ci: int, mi: int, sceneId: string): (r: MidiState)
    requires HasSceneList(s, ci, mi)
    ensures OnlyEntry(s, r, ci, mi) && HasSceneList(r, ci, mi)
    ensures var e := s.controllers[ci].mapping[mi];
      r.controllers[ci].mapping[mi] == e["scenes" := List(e["scenes"].items + [Str(sceneId)])]
  {
    var e := s.controllers[ci].mapping[mi];
    WithEntry(s, ci, mi, e["scenes" := List(Push(e["scenes"].items, Str(sceneId)))])
  }

  /** REMOVE_SCENE_FROM_MIDI deletes the scene id at `k` from the entry's `scenes`. */
  function RemoveSceneFromMidi(s: MidiState, ci: int, mi: int, k: int): (r: MidiState)
    requires HasSceneList(s, ci, mi)
    ensures OnlyEntry(s, r, ci, mi) && HasSceneList(r, ci, mi)
    ensures var e := s.controllers[ci].mapping[mi];
      && r.controllers[ci].mapping[mi].Keys == e.Keys
      && (forall f :: f in e && f != "scenes" ==> r.controllers[ci].mapping[mi][f] == e[f])
      && (0 <= k < |e["scenes"].items| ==> RemovedAt(e["scenes"].items, k, r.controllers[ci].mapping[mi]["scenes"].items))
      && (-|e["scenes"].items| <= k < 0 ==>
            RemovedAt(e["scenes"].items, |e["scenes"].items| + k, r.controllers[ci].mapping[mi]["scenes"].items))
      && (k < -|e["scenes"].items| && |e["scenes"].items| > 0 ==>
            RemovedAt(e["scenes"].items, 0, r.controllers[ci].mapping[mi]["scenes"].items))
      && (k >= |e["scenes"].items| || |e["scenes"].items| == 0 ==> r.controllers[ci].mapping[mi] == e)
  {
    var e := s.controllers[ci].mapping[mi];
    WithEntry(s, ci, mi, e["scenes" := List(SpliceRemove(e["scenes"].items, k))])
  }

  /** `midiManager`. */
  function MidiManager(s: MidiState, a: Action): (r: MidiState)
    requires MidiActionDefined(s, a)
    ensures !IsMidiAction(a) ==> r == s
    ensures a.EnableMidi? ==> r == s.(enabled := a.enabled)
    ensures a.LearnMidi? ==> r == s.(learning := a.learning)
    ensures a.AddMidi? ==> r.controllers == s.controllers + [a.controller] && r.enabled == s.enabled && r.learning == s.learning
    ensures a.RemoveMidi? ==> r == s.(controllers := SpliceRemove(s.controllers, a.controllerIndex))
    ensures a.AddMidiMapping? ==> r == AddMidiMapping(s, a.controllerIndex, a.mappingIndex, a.mapping)
    ensures a.SetMidiMappingActive? ==> r == SetMidiMappingActive(s, a.controllerIndex, a.mappingIndex, a.active)
    ensures a.AddSceneToMidi? ==> r == AddSceneToMidi(s, a.controllerIndex, a.mappingIndex, a.sceneId)
    ensures a.RemoveSceneFromMidi? ==> r == RemoveSceneFromMidi(s, a.controllerIndex, a.mappingIndex, a.sceneIndex)
  {
    match a
    case EnableMidi(enabled) => s.(enabled := enabled)
    case AddMidi(controller) => s.(controllers := Push(s.controllers, controller))
    case AddMidiMapping(ci, mi, mapping) => AddMidiMapping(s, ci, mi, mapping)
    case SetMidiMappingActive(ci, mi, active) => SetMidiMappingActive(s, ci, mi, active)
    case AddSceneToMidi(ci, mi, sceneId) => AddSceneToMidi(s, ci, mi, sceneId)
    case RemoveSceneFromMidi(ci, mi, k) => RemoveSceneFromMidi(s, ci, mi, k)
    case LearnMidi(learning) => s.(learning := learning)
    case RemoveMidi(ci) => s.(controllers := SpliceRemove(s.controllers, ci))
    case _ => s
  }

  /** REMOVE_MIDI deletes one controller, following `splice` for every index,
      and keeps `enabled` and `learning`. */
  lemma RemoveMidiCases(s: MidiState, i: int)
    ensures var r := MidiManager(s, Actions.RemoveMidi(i));
      && r.enabled == s.enabled && r.learning == s.learning
      && (0 <= i < |s.controllers| ==> RemovedAt(s.controllers, i, r.controllers))
      && (-|s.controllers| <= i < 0 ==> RemovedAt(s.controllers, |s.controllers| + i, r.controllers))
      && (i < -|s.controllers| && |s.controllers| > 0 ==> RemovedAt(s.controllers, 0, r.controllers))
      && (i >= |s.controllers| || |s.controllers| == 0 ==> r == s)
  {
  }

  /** Removing the controller just added restores the state. */
  lemma AddThenRemoveController(s: MidiState, c: MidiController)
    ensures MidiManager(MidiManager(s, Actions.AddMidi(c)), Actions.RemoveMidi(|s.controllers|)) == s
  {
    PushThenRemoveLast(s.controllers, c);
  }

  /** Removing the scene id just added to an entry restores the state. */
  lemma {:induction false} AddThenRemoveSceneInMapping(s: MidiState, ci: int, mi: int, sceneId: string)
    requires HasSceneList(s, ci, mi)
    ensures var k := |s.controllers[ci].mapping[mi]["scenes"].items|;
      RemoveSceneFromMidi(AddSceneToMidi(s, ci, mi, sceneId), ci, mi, k) == s
  {
    var c := s.controllers[ci];
    var e := c.mapping[mi];
    var items := e["scenes"].items;
    var added := AddSceneToMidi(s, ci, mi, sceneId);
    var removed := RemoveSceneFromMidi(added, ci, mi, |items|);
    PushThenRemoveLast(items, Str(sceneId));
    assert removed.controllers[ci].mapping[mi] == e["scenes" := List(items)];
    assert e["scenes" := List(items)] == e;
    assert removed.controllers[ci].mapping == c.mapping;
    assert removed.controllers[ci] == c;
    assert removed.controllers == s.controllers;
  }

  /** Two ADD_MIDI_MAPPING actions on one entry amount to one with their overlay. */
  lemma {:induction false} AddMidiMappingTwice(s: MidiState, ci: int, mi: int, p: Object, q: Object)
    requires 0 <= ci < |s.controllers|
    ensures AddMidiMapping(AddMidiMapping(s, ci, mi, p), ci, mi, q) == AddMidiMapping(s, ci, mi, Merge(p, q))
  {
    var prior := EntryOf(s.controllers[ci].mapping, mi);
    var once := AddMidiMapping(s, ci, mi, p);
    var twice := AddMidiMapping(once, ci, mi, q);
    var direct := AddMidiMapping(s, ci, mi, Merge(p, q));
    assert EntryOf(once.controllers[ci].mapping, mi) == once.controllers[ci].mapping[mi];
    OverlayUnique(prior, p, once.controllers[ci].mapping[mi], Merge(prior, p));
    MergeTwice(prior, p, q);
    OverlayUnique(prior, Merge(p, q), twice.controllers[ci].mapping[mi], direct.controllers[ci].mapping[mi]);
    assert twice.controllers[ci].mapping == direct.controllers[ci].mapping;
    assert twice.controllers[ci] == direct.controllers[ci];
  }
}
