/** The actions the store dispatches: one constructor per action type constant,
    carrying the payload fields its reducer reads. The store hands every action
    to every slice reducer; each reducer acts on its own types and returns its
    state unchanged for all others, including `Unknown` ones. */
module Actions {
  import opened Objects
  import opened Entities

  datatype Action =
    // bpm, live
    | SetBpm(value: int)
    | SetLive(isLive: bool)
    // usbManager, modvManager, fivetwelveManager, connectionManager
    | SendUniverseToUsb(value: int)
    | ConnectModv(connected: bool)
    | SetModvColor(color: seq<int>)
    | ConnectFivetwelve(connected: bool)
    | SendUniverseToFivetwelve(value: int)
    | ConnectUsb(connected: bool)
    | ConnectBluetooth(connected: bool)
    // universeManager
    | AddUniverse(universe: Universe)
    | RemoveUniverse(universeIndex: int)
    | SetChannel(universeIndex: int, channelIndex: int, value: int)
    | SetChannels(universeIndex: int, channels: seq<int>)
    | GetChannel(universeIndex: int, channelIndex: int)
    // sceneManager
    | AddScene(scene: Scene)
    | RunScene(sceneIndex: int)
    | RemoveScene(sceneIndex: int)
    | AddAnimationToScene(sceneIndex: int, animationId: string)
    | RemoveAnimationFromScene(sceneIndex: int, animationIndex: int)
    | AddFixtureToScene(sceneIndex: int, fixtureId: string)
    | RemoveFixtureFromScene(sceneIndex: int, fixtureIndex: int)
    // animationManager
    | AddAnimation(animation: Animation)
    | AddKeyframe(animationIndex: int, keyframeStep: string, keyframeProperty: string, keyframeValue: string)
    | RunAnimation(animationIndex: int)
    | RemoveAnimation(animationIndex: int)
    // fixtureManager; a batch maps a fixture id to the properties to merge
    | AddFixture(fixture: Fixture)
    | SetFixtureProperties(fixtureId: string, properties: Object)
    | SetAllFixtureProperties(fixtureBatch: map<string, Object>)
    | ResetFixtureProperties(fixtureId: string)
    | RemoveFixture(fixtureIndex: int)
    // midiManager; `learning: None` is the `false` that ends learning
    | EnableMidi(enabled: bool)
    | AddMidi(controller: MidiController)
    | AddMidiMapping(controllerIndex: int, mappingIndex: int, mapping: Object)
    | SetMidiMappingActive(controllerIndex: int, mappingIndex: int, active: bool)
    | AddSceneToMidi(controllerIndex: int, mappingIndex: int, sceneId: string)
    | RemoveSceneFromMidi(controllerIndex: int, mappingIndex: int, sceneIndex: int)
    | LearnMidi(learning: Option<int>)
    | RemoveMidi(controllerIndex: int)
    // timelineManager
    | PlayTimeline(playing: bool)
    | AddSceneToTimeline(sceneId: string)
    | RemoveSceneFromTimeline(sceneId: string)
    | ResetTimeline
    | SetTimelineProgress(progress: int)
    // any other type
    | Unknown(kind: string)
}
