/** The records the state slices hold. Besides the fields the reducers read or
    write, a few that they only carry along are kept so that records stay
    recognisable (the ids, a scene's name, a fixture's type, name, universe and
    address); others, such as a controller's name and ports, are left out. */
module Entities {
  import opened Objects

  /** A DMX512 universe: its channel values in channel order. */
  datatype Universe = Universe(channels: seq<int>)

  /** A scene: the ids of its fixtures and of its animations, in order. */
  datatype Scene = Scene(id: string, name: string, fixtures: seq<string>, animations: seq<string>, isRunning: bool)

  /** An animation: keyframe step to the property values set at that step. */
  datatype Animation = Animation(id: string, keyframes: map<string, Object>, isRunning: bool)

  /** A fixture: its DMX position and the current values of its properties. */
  datatype Fixture = Fixture(id: string, fixtureType: string, name: string, universe: int, address: int, properties: Object)

  /** A MIDI controller: mapping index (a control or note number) to the
      mapping entry, an object whose `active` and `scenes` fields the reducers set. */
  datatype MidiController = MidiController(id: string, mapping: map<int, Object>)

  /** The ids of `fixtures`, in order. */
  function Ids(fixtures: seq<Fixture>): (ids: seq<string>)
    ensures |ids| == |fixtures|
    ensures forall i :: 0 <= i < |fixtures| ==> ids[i] == fixtures[i].id
  {
    seq(|fixtures|, i requires 0 <= i < |fixtures| => fixtures[i].id)
  }
}
