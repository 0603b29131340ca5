# Luminave reducers in Dafny

Luminave is a browser control surface for DMX512 lighting. Its application state
lives in a Redux store, and `src/reducers/index.js` holds one reducer per slice.
A reducer is a total function `(state, action) -> state`. The slices are:

- the tempo (`bpm`) and the live flag (`live`);
- the status of the USB, modV, fivetwelve and Bluetooth connections;
- the DMX512 universes, as sequences of channel values;
- the scenes, with ordered fixture ids and animation ids;
- the animations, with keyframe steps;
- the fixtures, with shallow property maps;
- the MIDI controllers, with lazily created mapping entries;
- the timeline: scene ids, a playing flag and the progress.

This project models each reducer as a Dafny function over sequences, maps and
datatypes. An action is one constructor of `Actions.Action`, and every slice
reducer accepts every action. Each reducer is built from one function per
action type. Each function states its frame:
- which element or field changes, and to what;
- that nothing else changes.

Beside the functions are lemmas for the round trips (add, then remove at the
last index), for merge semantics and idempotence, and for two findings.

The reducers make their edits through the immutability-helper library. They
are written out here directly:
- `$push` is `Arrays.Push`;
- `$splice` follows JavaScript's `Array.prototype.splice` start rules: a
  negative start counts from the end, and both ends clamp. This is
  `Arrays.SpliceRemove` and `Arrays.SpliceReplace`;
- `$set` is record or map update;
- `$merge` and object spread are `Objects.Merge`.

An update addressed to a missing element (`{[i]: {...}}` with no element `i`)
throws a `TypeError`. So does a `findIndex` miss that is then dereferenced. Each
reducer that updates an element by index or id (universes, scenes, animations,
fixtures, MIDI) therefore has a `requires` predicate (`*ActionDefined`) that
says which element must exist for which action. The other reducers need none.

Files, one module each: `objects.dfy`, `arrays.dfy`, `coercion.dfy` (ADD_KEYFRAME
value coercion), `entities.dfy`, `actions.dfy`, `devices.dfy`, `universes.dfy`,
`scenes.dfy`, `animations.dfy`, `fixtures.dfy`, `midi.dfy`, `timeline.dfy`.

Some behaviours of the code that a reader might not expect:
- REMOVE_FIXTURE removes by position (`fixtureIndex`, src/reducers/index.js:269),
  not by id.
- ADD_KEYFRAME keeps a value it cannot coerce as the raw string, after a
  warning (src/reducers/index.js:182, 191-193). The value is not rejected.
- SET_ALL_FIXTURE_PROPERTIES merges by position, and REMOVE_SCENE_FROM_TIMELINE
  drops the last scene when the id is absent. See "## Findings". Each is
  modelled as written, and a corrected definition sits beside it. The reducer
  functions `Fixtures.FixtureManager` and `Timeline.TimelineManager` use the
  corrected definitions (see "## Left out").

## Model

| member | source | states |
|---|---|---|
| Objects.Merge | src/reducers/index.js:218 | object spread and `$merge`: the result has the keys of both objects, incoming keys win, and the other keys keep their old values |
| Objects.MergeTwice | src/reducers/index.js:212-218 | merging `a` and then `b` equals merging the overlay of `b` on `a` (last write wins per key) |
| Objects.MergeOne | src/reducers/index.js:193 | `$merge` of a one-key object sets exactly that key |
| Arrays.Push | src/reducers/index.js:119 | `$push`: the element goes after the last one, and the earlier elements are untouched |
| Arrays.SpliceRemove | src/reducers/index.js:121 | `$splice [[i,1]]`: deletes exactly element `i` (counted from the end when negative) and keeps the rest in order; a start past the end, or an empty array, changes nothing |
| Arrays.SpliceReplace | src/reducers/index.js:125 | `$splice [[i,1,v]]`: replaces element `i` by `v` (counted from the end when negative, element 0 below `-length`); a start past the end, or an empty array, gets `v` appended |
| Arrays.IndexOf | src/reducers/index.js:324 | `indexOf`: the first position holding the value, or -1 exactly when the value is absent |
| Arrays.PushThenRemoveLast | src/reducers/index.js:119-121 | removing at the old length undoes a push |
| Devices.Bpm | src/reducers/index.js:25-32 | SET_BPM replaces the tempo; any other action returns the state unchanged |
| Devices.BpmLastWins | src/reducers/index.js:25-32 | of two SET_BPM actions only the second counts |
| Devices.Live | src/reducers/index.js:37-44 | SET_LIVE replaces the flag; any other action returns the state unchanged |
| Devices.UsbManager | src/reducers/index.js:49-56 | SEND_UNIVERSE_TO_USB records the transmission time; any other action returns the state unchanged |
| Devices.ModvManager | src/reducers/index.js:61-73 | CONNECT_MODV sets only `connected` and SET_MODV_COLOR only `color`; any other action returns the state unchanged |
| Devices.FivetwelveManager | src/reducers/index.js:78-89 | CONNECT_FIVETWELVE sets only `connected`; SEND_UNIVERSE_TO_FIVETWELVE creates or sets only `lastTransmission`; any other action returns the state unchanged |
| Devices.ConnectionManager | src/reducers/index.js:94-111 | CONNECT_USB replaces the USB link and keeps the Bluetooth one, and CONNECT_BLUETOOTH does the reverse; any other action returns the state unchanged |
| Universes.AddUniverse | src/reducers/index.js:118-119 | ADD_UNIVERSE appends the universe and keeps the earlier ones as a prefix |
| Universes.RemoveUniverse | src/reducers/index.js:120-121 | REMOVE_UNIVERSE deletes exactly the universe at the index, keeping the others in order. A negative index counts from the end, and one below `-length` removes the first universe. An index past the end, or an empty list, changes nothing |
| Universes.SetChannel | src/reducers/index.js:122-125 | SET_CHANNEL sets the channel at `channelIndex` of universe `universeIndex` to `value`; the channel count, the other channels and the other universes stay the same. A negative index counts from the end, and one below `-length` sets channel 0. Past the end, or on an empty list, the value is appended |
| Universes.SetChannels | src/reducers/index.js:129-132 | SET_CHANNELS replaces one universe's channels and no other universe |
| Universes.UniverseManager | src/reducers/index.js:116-141 | each universe action acts as its function; GET_CHANNEL and any unrecognised action return the universes unchanged |
| Universes.AddThenRemoveUniverse | src/reducers/index.js:118-121 | ADD_UNIVERSE followed by REMOVE_UNIVERSE at the old length restores the universes |
| Universes.SetChannelLastWins | src/reducers/index.js:122-125 | a second SET_CHANNEL on the same channel overwrites the first |
| Scenes.RunScene | src/reducers/index.js:150-151 | RUN_SCENE sets `isRunning` of that scene only; every other field and scene stays the same |
| Scenes.AddAnimationToScene | src/reducers/index.js:154-155 | appends the animation id to that scene's `animations` only |
| Scenes.RemoveAnimationFromScene | src/reducers/index.js:156-157 | deletes exactly the id at the index from that scene's `animations` only, following `splice` for negative and below-range indices; an index past the end, or an empty list, changes nothing |
| Scenes.AddFixtureToScene | src/reducers/index.js:158-159 | appends the fixture id to that scene's `fixtures` only |
| Scenes.RemoveFixtureFromScene | src/reducers/index.js:160-161 | deletes exactly the id at the index from that scene's `fixtures` only, following `splice` for negative and below-range indices; an index past the end, or an empty list, changes nothing |
| Scenes.SceneManager | src/reducers/index.js:146-165 | ADD_SCENE appends; REMOVE_SCENE is `$splice` at the index (every case as in `Arrays.SpliceRemove`); the other scene actions act as their functions; unrecognised actions return the scenes unchanged |
| Scenes.RunSceneIdempotent | src/reducers/index.js:150-151 | running a scene twice equals running it once |
| Scenes.AddThenRemoveFixtureInScene | src/reducers/index.js:158-161 | adding a fixture id to a scene and removing it at the old length restores the scenes |
| Scenes.AddThenRemoveAnimationInScene | src/reducers/index.js:154-157 | adding an animation id to a scene and removing it at the old length restores the scenes |
| Scenes.SceneFixtureScenario | src/reducers/index.js:158-161 | scene `s1` with no fixtures: adding `f1` gives `["f1"]`, and removing index 0 restores the scene |
| Coercion.ParseInt | src/reducers/index.js:180 | `parseInt`: a number exactly when the string starts with a digit; for an all-digit string, its decimal value |
| Coercion.SplitCommas | src/reducers/index.js:180 | `split(',')`: at least one part, and no part contains a comma |
| Coercion.ParseEach | src/reducers/index.js:180 | `.map(color => parseInt(color))`: one value per part, and value k is `parseInt` of part k |
| Coercion.SplitJoin | src/reducers/index.js:180 | splitting comma-free parts joined by commas gives the parts back |
| Coercion.JoinSplit | src/reducers/index.js:180 | joining the parts of a split gives the string back |
| Coercion.Decimal | src/reducers/index.js:186 | the decimal numeral of a natural number (no exponent form) is a non-empty run of digits |
| Coercion.DecimalRoundTrip | src/reducers/index.js:186 | reading the decimal numeral of a natural number `n` back with `parseInt(_, 10)` gives `n` |
| Coercion.CoerceKeyframeValue | src/reducers/index.js:176-187 | a digit string becomes its integer. Otherwise a string with a comma becomes the list whose item k is `parseInt` of comma-separated part k. Otherwise the raw string is kept, and the warning is raised exactly in that case |
| Coercion.CoerceNumeral | src/reducers/index.js:184-186 | the numeral of `n` is stored as `n`, without a warning |
| Coercion.CoerceColour | src/reducers/index.js:177-180 | two or more comma-separated numerals are stored as the list of their integers |
| Coercion.CoercionExamples | src/reducers/index.js:176-187 | `"5"` gives 5; `"1,2,3"` gives `[1,2,3]`; `"abc"` is kept as is, with a warning |
| Animations.WithKeyframe | src/reducers/index.js:189-193 | the step at `keyframeStep` (created when absent) gains or changes the one property; every other step is the same |
| Animations.StepOf | src/reducers/index.js:190 | `keyframes[keyframeStep] \|\| {}`: the step's properties when the step exists, otherwise the empty object |
| Animations.AddKeyframe | src/reducers/index.js:174-194 | the coerced value is stored under `keyframeProperty` in step `keyframeStep`; that step's other properties, the other steps and the other animations are preserved |
| Animations.RunAnimation | src/reducers/index.js:195-196 | RUN_ANIMATION sets `isRunning` of that animation only |
| Animations.AnimationManager | src/reducers/index.js:170-202 | ADD_ANIMATION appends; REMOVE_ANIMATION is `$splice` at the index (every case as in `Arrays.SpliceRemove`); ADD_KEYFRAME and RUN_ANIMATION act as their functions; unrecognised actions return the animations unchanged |
| Animations.AddThenRemoveAnimation | src/reducers/index.js:172-198 | ADD_ANIMATION followed by REMOVE_ANIMATION at the old length restores the animations |
| Animations.WithKeyframeCommutes | src/reducers/index.js:189-193 | values for two different properties of one step are both kept, whichever comes first |
| Animations.AddKeyframeCommutes | src/reducers/index.js:174-194 | two ADD_KEYFRAME actions for different properties of one step commute |
| Entities.Ids | src/reducers/index.js:213 | the fixture ids, position by position |
| Fixtures.FindIndex | src/reducers/index.js:213 | `findIndex` by id: the first fixture with that id, or -1 exactly when none has it |
| Fixtures.SetFixtureProperties | src/reducers/index.js:212-218 | the fixture with that id gets its old properties overlaid by the incoming ones; its other fields and all other fixtures are unchanged |
| Fixtures.ResetFixtureProperties | src/reducers/index.js:258-266 | the fixture with that id is left with no properties; nothing else changes |
| Fixtures.SetAllFixtureProperties | src/reducers/index.js:223-245 | (corrected merge) same length; only `properties` fields change; a fixture whose id is in the batch gets that entry overlaid, and every other fixture is unchanged |
| Fixtures.FixtureManager | src/reducers/index.js:207-273 | ADD_FIXTURE appends and keeps the earlier fixtures. REMOVE_FIXTURE is `$splice` at the index (every case as in `Arrays.SpliceRemove`). SET_FIXTURE_PROPERTIES, RESET_FIXTURE_PROPERTIES and SET_ALL_FIXTURE_PROPERTIES act as their functions, the last in its corrected form. Unrecognised actions return the fixtures unchanged |
| Fixtures.AddThenRemoveFixture | src/reducers/index.js:268-269 | ADD_FIXTURE followed by REMOVE_FIXTURE at the last index restores the fixtures |
| Fixtures.FindIndexAfterSet | src/reducers/index.js:213-218 | a property merge keeps every id in place, so later lookups by id are unaffected |
| Fixtures.SetFixturePropertiesTwice | src/reducers/index.js:212-218 | two successive merges into one fixture equal one merge of their overlay |
| Fixtures.MergeScenario | src/reducers/index.js:212-218 | merging `{a:1}`, `{b:2}` and then `{a:3}` into an empty property map gives `{a:3,b:2}` |
| Fixtures.SingleEntryBatch | src/reducers/index.js:223-245 | (corrected merge) with unique ids, a one-entry batch has the effect of SET_FIXTURE_PROPERTIES |
| Fixtures.UnknownIdsIgnored | src/reducers/index.js:229 | (corrected merge) a batch entry whose id names no fixture has no effect |
| Fixtures.SetAllFixturePropertiesAsWritten | src/reducers/index.js:239-245 | as written: same length; only `properties` change; the fixture at position `i` is overlaid with the `i`-th sorted entry; fixtures at or beyond the batch size are unchanged |
| Fixtures.ArrangementRealIndex | src/reducers/index.js:225-237 | in the array `createFixtureArray` builds (`ArrangementOf`: one entry per batch id with that id's properties, in an order left open), `realIndex` is -1 exactly for ids that name no fixture, and otherwise the position of a fixture with that id |
| Fixtures.AsWrittenAgreesOnFullBatch | src/reducers/index.js:223-245 | when the batch names every fixture and is in position order, the code as written and the corrected merge give the same fixtures |
| Fixtures.AsWrittenMergesBatchEntries | src/reducers/index.js:237-245 | as written, each changed fixture is overlaid with some batch entry's properties, whatever order the sort leaves |
| Fixtures.AsWrittenMergesIntoWrongFixture | src/reducers/index.js:239-245 | for fixtures `a` and `b` and a batch for `b` only, the code as written changes `a` and leaves `b`; the intended merge changes `b` |
| Midi.EntryOf | src/reducers/index.js:290 | `mapping[mappingIndex] \|\| {}`: the entry when it exists, otherwise the empty object |
| Midi.AddMidiMapping | src/reducers/index.js:288-293 | the entry is created when absent and overlaid with the incoming fields; the other entries, controllers and flags are unchanged |
| Midi.SetMidiMappingActive | src/reducers/index.js:294-295 | sets only the entry's `active` field |
| Midi.AddSceneToMidi | src/reducers/index.js:296-297 | appends the scene id to the entry's `scenes` only |
| Midi.RemoveSceneFromMidi | src/reducers/index.js:298-299 | deletes exactly the scene id at the index from the entry's `scenes`, following `splice` for negative and below-range indices; the entry's other fields are kept; an index past the end, or an empty list, changes nothing |
| Midi.MidiManager | src/reducers/index.js:278-307 | ENABLE_MIDI and LEARN_MIDI each change only their field. ADD_MIDI appends the controller. REMOVE_MIDI is `$splice` on the controllers and keeps the flags. The mapping actions act as their functions. Unrecognised actions return the state unchanged |
| Midi.RemoveMidiCases | src/reducers/index.js:302-303 | REMOVE_MIDI deletes exactly the controller at the index, counted from the end when negative and the first one below `-length`. An index past the end, or an empty list, changes nothing. `enabled` and `learning` are kept |
| Midi.AddThenRemoveController | src/reducers/index.js:286-303 | ADD_MIDI followed by REMOVE_MIDI at the old length restores the state |
| Midi.AddThenRemoveSceneInMapping | src/reducers/index.js:296-299 | ADD_SCENE_TO_MIDI followed by REMOVE_SCENE_FROM_MIDI at the old length restores the state |
| Midi.AddMidiMappingTwice | src/reducers/index.js:288-293 | two ADD_MIDI_MAPPING actions on one entry equal one with their overlay |
| Timeline.RemoveSceneFromTimelineAsWritten | src/reducers/index.js:323-326 | as written: removes the first occurrence when present, and the last scene when the id is absent; an empty timeline is unchanged |
| Timeline.RemoveSceneFromTimeline | src/reducers/index.js:323-326 | (corrected) removes exactly the first occurrence of `sceneId` when present; no change when absent |
| Timeline.TimelineManager | src/reducers/index.js:318-333 | ADD_SCENE_TO_TIMELINE appends. REMOVE_SCENE_FROM_TIMELINE agrees with the code as written when the id is present and changes nothing when it is absent (the corrected form). RESET_TIMELINE empties `scenes` and keeps `playing` and `progress`. PLAY_TIMELINE and SET_TIMELINE_PROGRESS set one field each. Unrecognised actions return the state unchanged |
| Timeline.AsWrittenAgreesWhenPresent | src/reducers/index.js:323-326 | when the id is present, the as-written and corrected removals agree |
| Timeline.AsWrittenRemovesLastScene | src/reducers/index.js:324-325 | removing the absent `s3` from `["s1","s2"]` gives `["s1"]` as written and no change as intended |
| Timeline.AddThenRemoveScene | src/reducers/index.js:321-326 | adding a new scene id and then removing it restores the timeline |
| Timeline.ResetIdempotent | src/reducers/index.js:327-328 | RESET_TIMELINE twice equals RESET_TIMELINE once |

## Findings

| source | as written | input that shows it | evidently intended | confidence | as-written member | corrected member |
|---|---|---|---|---|---|---|
| src/reducers/index.js:239-245 | `state.map` merges the i-th sorted batch entry into the fixture at position i, whatever fixture the entry names. An entry for an unknown id (`realIndex` -1) is merged into a fixture as well. | fixtures `a`, `b`; batch `{b: {properties: {dimmer: 255}}}`: `a` gets `dimmer`, `b` is unchanged | merge each entry into the fixture at its `realIndex` (ids are unique) and ignore unknown ids | medium, not executed | Fixtures.AsWrittenMergesIntoWrongFixture | Fixtures.SetAllFixtureProperties |
| src/reducers/index.js:323-326 | for an id not on the timeline, `indexOf` gives -1, and `splice(-1, 1)` removes the last scene | timeline `["s1","s2"]`, remove `s3`: the result is `["s1"]` | leave the timeline unchanged when the id is absent | medium, not executed | Timeline.AsWrittenRemovesLastScene | Timeline.RemoveSceneFromTimeline |

## Left out

- Fixtures.FixtureManager: for SET_ALL_FIXTURE_PROPERTIES, it uses the corrected by-id merge (`Fixtures.SetAllFixtureProperties`), not the positional merge of src/reducers/index.js:239-245. The two agree when the batch names every fixture in position order (`Fixtures.AsWrittenAgreesOnFullBatch`). For any other batch, the code's result is given only by `Fixtures.SetAllFixturePropertiesAsWritten`.
- Timeline.TimelineManager: for REMOVE_SCENE_FROM_TIMELINE with an id that is not on the timeline, it leaves the scenes unchanged. The code drops the last scene (src/reducers/index.js:324-325, `Timeline.RemoveSceneFromTimelineAsWritten`). The two agree when the id is present.
- The immutability-helper library is not modelled. Its commands are written out as sequence and map operations (see above).
- `clearFixtureInBatch` (src/reducers/index.js:260) changes a module outside the reducers and is not part of this model. RESET_FIXTURE_PROPERTIES only empties the fixture's properties.
- `console.warn` is logging. `Coercion.Coerced.warned` records whether the warning is issued.
- Coercion.CoerceKeyframeValue: the input is treated as numeric only when it is one or more decimal digits. Other strings that JavaScript's `isNaN` accepts (`""`, `" 7"`, `"1.5"`, `"1e3"`, `"0x1F"`) are treated as not numeric. `parseInt` here reads only a leading run of digits: no whitespace, sign, radix prefix or fraction.
- Fixtures.SetAllFixturePropertiesAsWritten: the sort comparator returns a boolean, so the order it produces depends on the JavaScript engine. The model leaves the order of the batch entries open and claims only properties that hold for every order.
- A `fixtureBatch` entry is modelled as its `properties` object. Its other fields are spread into the sorted entry but never read.
- Updates to a missing element throw in the source. They are preconditions here:
  - SET_CHANNEL and SET_CHANNELS need the universe;
  - RUN_SCENE and the four scene list edits need the scene;
  - ADD_KEYFRAME and RUN_ANIMATION need the animation;
  - SET_FIXTURE_PROPERTIES and RESET_FIXTURE_PROPERTIES need a fixture with that id;
  - the MIDI mapping edits need the controller, the entry, or the entry's `scenes` array.
- The store that gives every action to every reducer (`combineReducers`) is not part of this model. Only the reducers are.
- Reducers return the same reference for an unrecognised action. The model states value equality.
- Numbers are modelled as unbounded integers. Fractional tempo, progress and channel values are not modelled. JavaScript's limits are not modelled either: integer precision ends at 2^53, and `String(n)` switches to exponent form from 10^21.
- Some fields that no reducer reads or writes are kept so that records stay recognisable: the ids, a scene's name, and a fixture's type, name, universe and address. Others, such as a controller's name and ports, are left out.
- LEARN_MIDI stores its `mappingIndex` payload in `learning`, whose initial value is `false`. The model represents this as `Option<int>`, with `None` standing for `false`.
- The Polymer components (fixture manager, scene list, live mode) are user-interface code and are not part of this model.
