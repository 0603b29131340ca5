/** `timelineManager`: the ids of the scenes on the timeline, in order, plus the
    playing flag and the progress. */
module Timeline {
  import opened Arrays
  import opened Actions

  datatype TimelineState = TimelineState(scenes: seq<string>, playing: bool, progress: int)

  const InitialTimeline := TimelineState([], false, 0)

  predicate IsTimelineAction(a: Action)
  {
    || a.PlayTimeline? || a.AddSceneToTimeline? || a.RemoveSceneFromTimeline?
    || a.ResetTimeline? || a.SetTimelineProgress?
  }

  /** REMOVE_SCENE_FROM_TIMELINE as the source writes it: `splice` at
      `indexOf(sceneId)`, which is -1 when the id is absent. */
  function RemoveSceneFromTimelineAsWritten(t: TimelineState, sceneId: string): (r: TimelineState)
    ensures r.playing == t.playing && r.progress == t.progress
    ensures sceneId in t.scenes ==> RemovedAt(t.scenes, IndexOf(t.scenes, sceneId), r.scenes)
    ensures sceneId !in t.scenes && |t.scenes| > 0 ==> RemovedAt(t.scenes, |t.scenes| - 1, r.scenes)
    ensures |t.scenes| == 0 ==> r == t
  {
    t.(scenes := SpliceRemove(t.scenes, IndexOf(t.scenes, sceneId)))
  }

  /** REMOVE_SCENE_FROM_TIMELINE as intended: the first occurrence of the id is
      removed, and nothing changes when the id is absent. */
  function RemoveSceneFromTimeline(t: TimelineState, sceneId: string): (r: TimelineState)
    ensures r.playing == t.playing && r.progress == t.progress
    ensures sceneId in t.scenes ==>
      exists k :: 0 <= k < |t.scenes| && t.scenes[k] == sceneId && sceneId !in t.scenes[..k] && RemovedAt(t.scenes, k, r.scenes)
    ensures sceneId !in t.scenes ==> r == t
  {
    var k := IndexOf(t.scenes, sceneId);
    if k >= 0 then
      assert sceneId !in t.scenes[..k];
      t.(scenes := SpliceRemove(t.scenes, k))
    else t
  }

  /** `timelineManager`. */
  function TimelineManager(t: TimelineState, a: Action): (r: TimelineState)
    ensures !IsTimelineAction(a) ==> r == t
    ensures a.PlayTimeline? ==> r == t.(playing := a.playing)
    ensures a.SetTimelineProgress? ==> r == t.(progress := a.progress)
    ensures a.AddSceneToTimeline? ==> r == t.(scenes := t.scenes + [a.sceneId])
    ensures a.RemoveSceneFromTimeline? && a.sceneId in t.scenes ==> r == RemoveSceneFromTimelineAsWritten(t, a.sceneId)
    ensures a.RemoveSceneFromTimeline? && a.sceneId !in t.scenes ==> r == t
    ensures a.ResetTimeline? ==> r.scenes == [] && r.playing == t.playing && r.progress == t.progress
  {
    match a
    case PlayTimeline(playing) => t.(playing := playing)
    case AddSceneToTimeline(sceneId) => t.(scenes := Push(t.scenes, sceneId))
    case RemoveSceneFromTimeline(sceneId) => RemoveSceneFromTimeline(t, sceneId)
    case ResetTimeline => t.(scenes := [])
    case SetTimelineProgress(progress) => t.(progress := progress)
    case _ => t
  }

  /** When the id is on the timeline, the source and the intended removal agree. */
  lemma AsWrittenAgreesWhenPresent(t: TimelineState, sceneId: string)
    requires sceneId in t.scenes
    ensures RemoveSceneFromTimelineAsWritten(t, sceneId) == RemoveSceneFromTimeline(t, sceneId)
  {
  }

  /** With ["s1", "s2"] on the timeline, removing the absent "s3" drops "s2" as
      written; the intended removal changes nothing. */
  lemma AsWrittenRemovesLastScene()
    ensures RemoveSceneFromTimelineAsWritten(TimelineState(["s1", "s2"], false, 0), "s3").scenes == ["s1"]
    ensures RemoveSceneFromTimeline(TimelineState(["s1", "s2"], false, 0), "s3").scenes == ["s1", "s2"]
  {
    var t := TimelineState(["s1", "s2"], false, 0);
    assert "s3" !in t.scenes;
    var r := RemoveSceneFromTimelineAsWritten(t, "s3");
    assert RemovedAt(t.scenes, 1, r.scenes);
  }

  /** Removing a scene id that was not on the timeline, right after adding it,
      restores the timeline. */
  lemma {:induction false} AddThenRemoveScene(t: TimelineState, sceneId: string)
    requires sceneId !in t.scenes
    ensures TimelineManager(TimelineManager(t, Actions.AddSceneToTimeline(sceneId)), Actions.RemoveSceneFromTimeline(sceneId)) == t
  {
    var added := t.(scenes := t.scenes + [sceneId]);
    assert IndexOf(added.scenes, sceneId) == |t.scenes|;
    PushThenRemoveLast(t.scenes, sceneId);
  }

  /** RESET_TIMELINE twice is RESET_TIMELINE once. */
  lemma ResetIdempotent(t: TimelineState)
    ensures TimelineManager(TimelineManager(t, ResetTimeline), ResetTimeline) == TimelineManager(t, ResetTimeline)
  {
  }
}
