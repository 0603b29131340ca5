/** `universeManager`: the DMX512 universes, each a sequence of channel values. */
module Universes {
  import opened Arrays
  import opened Entities
  import opened Actions

  /** The actions that change the universes (GET_CHANNEL is recognised but changes nothing). */
  predicate IsUniverseEdit(a: Action)
  {
    a.AddUniverse? || a.RemoveUniverse? || a.SetChannel? || a.SetChannels?
  }

  /** The actions whose update addresses a universe that must exist: updating
      a field of a missing element throws. */
  predicate UniverseActionDefined(universes: seq<Universe>, a: Action)
  {
    (a.SetChannel? || a.SetChannels?) ==> 0 <= a.universeIndex < |universes|
  }

  /** ADD_UNIVERSE appends the universe. */
  function AddUniverse(universes: seq<Universe>, u: Universe): (r: seq<Universe>)
    ensures |r| == |universes| + 1 && r[|universes|] == u
    ensures r[..|universes|] == universes
  {
    Push(universes, u)
  }

  /** REMOVE_UNIVERSE deletes the universe at the index, keeping the others in order. */
  function RemoveUniverse(universes: seq<Universe>, i: int): (r: seq<Universe>)
    ensures 0 <= i < |universes| ==> RemovedAt(universes, i, r)
    ensures -|universes| <= i < 0 ==> RemovedAt(universes, |universes| + i, r)
    ensures i < -|universes| && |universes| > 0 ==> RemovedAt(universes, 0, r)
    ensures i >= |universes| || |universes| == 0 ==> r == universes
  {
    SpliceRemove(universes, i)
  }

  /** SET_CHANNEL replaces one channel of one universe. For a channel in range,
      only that channel changes; past the end, the value is appended. */
  function SetChannel(universes: seq<Universe>, ui: int, ci: int, value: int): (r: seq<Universe>)
    requires 0 <= ui < |universes|
    ensures OnlyAt(universes, r, ui)
    ensures 0 <= ci < |universes[ui].channels| ==>
      && |r[ui].channels| == |universes[ui].channels|
      && r[ui].channels[ci] == value
      && forall j :: 0 <= j < |r[ui].channels| && j != ci ==> r[ui].channels[j] == universes[ui].channels[j]
    ensures -|universes[ui].channels| <= ci < 0 ==>
      r[ui].channels == universes[ui].channels[|universes[ui].channels| + ci := value]
    ensures ci < -|universes[ui].channels| && |universes[ui].channels| > 0 ==>
      r[ui].channels == universes[ui].channels[0 := value]
    ensures ci >= |universes[ui].channels| || |universes[ui].channels| == 0 ==>
      r[ui].channels == universes[ui].channels + [value]
  {
    universes[ui := universes[ui].(channels := SpliceReplace(universes[ui].channels, ci, value))]
  }

  /** SET_CHANNELS replaces all channels of one universe. */
  function SetChannels(universes: seq<Universe>, ui: int, channels: seq<int>): (r: seq<Universe>)
    requires 0 <= ui < |universes|
    ensures OnlyAt(universes, r, ui) && r[ui].channels == channels
  {
    universes[ui := universes[ui].(channels := channels)]
  }

  /** `universeManager`. */
  function UniverseManager(universes: seq<Universe>, a: Action): (r: seq<Universe>)
    requires UniverseActionDefined(universes, a)
    ensures !IsUniverseEdit(a) ==> r == universes
    ensures a.AddUniverse? ==> r == AddUniverse(universes, a.universe)
    ensures a.RemoveUniverse? ==> r == RemoveUniverse(universes, a.universeIndex)
    ensures a.SetChannel? ==> r == SetChannel(universes, a.universeIndex, a.channelIndex, a.value)
    ensures a.SetChannels? ==> r == SetChannels(universes, a.universeIndex, a.channels)
  {
    match a
    case AddUniverse(u) => AddUniverse(universes, u)
    case RemoveUniverse(i) => RemoveUniverse(universes, i)
    case SetChannel(ui, ci, value) => SetChannel(universes, ui, ci, value)
    case SetChannels(ui, channels) => SetChannels(universes, ui, channels)
    case GetChannel(_, _) => universes
    case _ => universes
  }

  /** Removing the universe just added restores the universes. */
  lemma AddThenRemoveUniverse(universes: seq<Universe>, u: Universe)
    ensures UniverseManager(UniverseManager(universes, Actions.AddUniverse(u)), Actions.RemoveUniverse(|universes|)) == universes
  {
    PushThenRemoveLast(universes, u);
  }

  /** Setting a channel twice keeps the second value; the first is overwritten. */
  lemma SetChannelLastWins(universes: seq<Universe>, ui: int, ci: int, x: int, y: int)
    requires 0 <= ui < |universes| && 0 <= ci < |universes[ui].channels|
    ensures SetChannel(SetChannel(universes, ui, ci, x), ui, ci, y) == SetChannel(universes, ui, ci, y)
  {
  }
}
