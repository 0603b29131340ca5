/** `sceneManager`: the scenes, each with the ordered ids of its fixtures and
    animations. */
module Scenes {
  import opened Arrays
  import opened Entities
  import opened Actions

  predicate IsSceneAction(a: Action)
  {
    || a.AddScene? || a.RunScene? || a.RemoveScene?
    || a.AddAnimationToScene? || a.RemoveAnimationFromScene?
    || a.AddFixtureToScene? || a.RemoveFixtureFromScene?
  }

  /** Every action that updates a field of the scene at `sceneIndex` needs that
      scene to exist. */
  predicate SceneActionDefined(scenes: seq<Scene>, a: Action)
  {
    (a.RunScene? || a.AddAnimationToScene? || a.RemoveAnimationFromScene?
     || a.AddFixtureToScene? || a.RemoveFixtureFromScene?)
    ==> 0 <= a.sceneIndex < |scenes|
  }

  /** RUN_SCENE marks the scene as running; nothing else changes. */
  function RunScene(scenes: seq<Scene>, i: int): (r: seq<Scene>)
    requires 0 <= i < |scenes|
    ensures OnlyAt(scenes, r, i)
    ensures r[i].isRunning && r[i].(isRunning := scenes[i].isRunning) == scenes[i]
  {
    scenes[i := scenes[i].(isRunning := true)]
  }

  /** ADD_ANIMATION_TO_SCENE appends the animation id to that scene's list. */
  function AddAnimationToScene(scenes: seq<Scene>, i: int, animationId: string): (r: seq<Scene>)
    requires 0 <= i < |scenes|
    ensures OnlyAt(scenes, r, i)
    ensures r[i].animations == scenes[i].animations + [animationId]
    ensures r[i].(animations := scenes[i].animations) == scenes[i]
  {
    scenes[i := scenes[i].(animations := Push(scenes[i].animations, animationId))]
  }

  /** REMOVE_ANIMATION_FROM_SCENE deletes the id at `k` from that scene's list. */
  function RemoveAnimationFromScene(scenes: seq<Scene>, i: int, k: int): (r: seq<Scene>)
    requires 0 <= i < |scenes|
    ensures OnlyAt(scenes, r, i)
    ensures 0 <= k < |scenes[i].animations| ==> RemovedAt(scenes[i].animations, k, r[i].animations)
    ensures -|scenes[i].animations| <= k < 0 ==> RemovedAt(scenes[i].animations, |scenes[i].animations| + k, r[i].animations)
    ensures k < -|scenes[i].animations| && |scenes[i].animations| > 0 ==> RemovedAt(scenes[i].animations, 0, r[i].animations)
    ensures k >= |scenes[i].animations| || |scenes[i].animations| == 0 ==> r[i].animations == scenes[i].animations
    ensures r[i].(animations := scenes[i].animations) == scenes[i]
  {
    scenes[i := scenes[i].(animations := SpliceRemove(scenes[i].animations, k))]
  }

  /** ADD_FIXTURE_TO_SCENE appends the fixture id to that scene's list. */
  function AddFixtureToScene(scenes: seq<Scene>, i: int, fixtureId: string): (r: seq<Scene>)
    requires 0 <= i < |scenes|
    ensures OnlyAt(scenes, r, i)
    ensures r[i].fixtures == scenes[i].fixtures + [fixtureId]
    ensures r[i].(fixtures := scenes[i].fixtures) == scenes[i]
  {
    scenes[i := scenes[i].(fixtures := Push(scenes[i].fixtures, fixtureId))]
  }

  /** REMOVE_FIXTURE_FROM_SCENE deletes the id at `k` from that scene's list. */
  function RemoveFixtureFromScene(scenes: seq<Scene>, i: int, k: int): (r: seq<Scene>)
    requires 0 <= i < |scenes|
    ensures OnlyAt(scenes, r, i)
    ensures 0 <= k < |scenes[i].fixtures| ==> RemovedAt(scenes[i].fixtures, k, r[i].fixtures)
    ensures -|scenes[i].fixtures| <= k < 0 ==> RemovedAt(scenes[i].fixtures, |scenes[i].fixtures| + k, r[i].fixtures)
    ensures k < -|scenes[i].fixtures| && |scenes[i].fixtures| > 0 ==> RemovedAt(scenes[i].fixtures, 0, r[i].fixtures)
    ensures k >= |scenes[i].fixtures| || |scenes[i].fixtures| == 0 ==> r[i].fixtures == scenes[i].fixtures
    ensures r[i].(fixtures := scenes[i].fixtures) == scenes[i]
  {
    scenes[i := scenes[i].(fixtures := SpliceRemove(scenes[i].fixtures, k))]
  }

  /** `sceneManager`. */
  function SceneManager(scenes: seq<Scene>, a: Action): (r: seq<Scene>)
    requires SceneActionDefined(scenes, a)
    ensures !IsSceneAction(a) ==> r == scenes
    ensures a.AddScene? ==> r == scenes + [a.scene]
    ensures a.RemoveScene? ==> r == SpliceRemove(scenes, a.sceneIndex)
    ensures a.RunScene? ==> r == RunScene(scenes, a.sceneIndex)
    ensures a.AddAnimationToScene? ==> r == AddAnimationToScene(scenes, a.sceneIndex, a.animationId)
    ensures a.RemoveAnimationFromScene? ==> r == RemoveAnimationFromScene(scenes, a.sceneIndex, a.animationIndex)
    ensures a.AddFixtureToScene? ==> r == AddFixtureToScene(scenes, a.sceneIndex, a.fixtureId)
    ensures a.RemoveFixtureFromScene? ==> r == RemoveFixtureFromScene(scenes, a.sceneIndex, a.fixtureIndex)
  {
    match a
    case AddScene(scene) => Push(scenes, scene)
    case RunScene(i) => RunScene(scenes, i)
    case RemoveScene(i) => SpliceRemove(scenes, i)
    case AddAnimationToScene(i, id) => AddAnimationToScene(scenes, i, id)
    case RemoveAnimationFromScene(i, k) => RemoveAnimationFromScene(scenes, i, k)
    case AddFixtureToScene(i, id) => AddFixtureToScene(scenes, i, id)
    case RemoveFixtureFromScene(i, k) => RemoveFixtureFromScene(scenes, i, k)
    case _ => scenes
  }

  /** Running a scene twice is running it once. */
  lemma RunSceneIdempotent(scenes: seq<Scene>, i: int)
    requires 0 <= i < |scenes|
    ensures RunScene(RunScene(scenes, i), i) == RunScene(scenes, i)
  {
  }

  /** Removing the fixture id just added to a scene restores the scenes. */
  lemma AddThenRemoveFixtureInScene(scenes: seq<Scene>, i: int, fixtureId: string)
    requires 0 <= i < |scenes|
    ensures RemoveFixtureFromScene(AddFixtureToScene(scenes, i, fixtureId), i, |scenes[i].fixtures|) == scenes
  {
    PushThenRemoveLast(scenes[i].fixtures, fixtureId);
  }

  /** Removing the animation id just added to a scene restores the scenes. */
  lemma AddThenRemoveAnimationInScene(scenes: seq<Scene>, i: int, animationId: string)
    requires 0 <= i < |scenes|
    ensures RemoveAnimationFromScene(AddAnimationToScene(scenes, i, animationId), i, |scenes[i].animations|) == scenes
  {
    PushThenRemoveLast(scenes[i].animations, animationId);
  }

  /** One scene with no fixtures; adding fixture "f1" gives ["f1"], and removing
      the fixture at index 0 gives [] again. */
  lemma SceneFixtureScenario()
    ensures var s0 := [Scene("s1", "", [], [], false)];
            var s1 := SceneManager(s0, Actions.AddFixtureToScene(0, "f1"));
            var s2 := SceneManager(s1, Actions.RemoveFixtureFromScene(0, 0));
            s1[0].fixtures == ["f1"] && s2 == s0
  {
    AddThenRemoveFixtureInScene([Scene("s1", "", [], [], false)], 0, "f1");
  }
}
