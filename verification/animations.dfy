/** `animationManager`: the animations, each mapping keyframe steps to the
    property values set at that step. */
module Animations {
  import opened Objects
  import opened Arrays
  import opened Entities
  import opened Actions
  import opened Coercion

  predicate IsAnimationAction(a: Action)
  {
    a.AddAnimation? || a.AddKeyframe? || a.RunAnimation? || a.RemoveAnimation?
  }

  /** ADD_KEYFRAME reads the animation at `animationIndex` and RUN_ANIMATION
      updates it: both need it to exist. */
  predicate AnimationActionDefined(animations: seq<Animation>, a: Action)
  {
    (a.AddKeyframe? || a.RunAnimation?) ==> 0 <= a.animationIndex < |animations|
  }

  /** ADD_KEYFRAME: the coerced value is stored under `property` in keyframe
      `step` of the animation at `i`, a step created when absent. The other
      properties of that step, the other steps and the other animations keep
      their values. */
  function AddKeyframe(animations: seq<Animation>, i: int, step: string, property: string, raw: string): (r: seq<Animation>)
    requires 0 <= i < |animations|
    ensures OnlyAt(animations, r, i)
    ensures r[i].id == animations[i].id && r[i].isRunning == animations[i].isRunning
    ensures r[i].keyframes.Keys == animations[i].keyframes.Keys + {step}
    ensures step in animations[i].keyframes ==>
      r[i].keyframes[step].Keys == animations[i].keyframes[step].Keys + {property}
    ensures step !in animations[i].keyframes ==> r[i].keyframes[step].Keys == {property}
    ensures property in r[i].keyframes[step] && r[i].keyframes[step][property] == CoerceKeyframeValue(raw).value
    ensures forall p :: step in animations[i].keyframes && p in animations[i].keyframes[step] && p != property ==>
      r[i].keyframes[step][p] == animations[i].keyframes[step][p]
    ensures forall t :: t in animations[i].keyframes && t != step ==> r[i].keyframes[t] == animations[i].keyframes[t]
  {
    animations[i := animations[i].(keyframes := WithKeyframe(animations[i].keyframes, step, property, CoerceKeyframeValue(raw).value))]
  }

  /** `keyframes[step] || {}`: the step's properties so far. */
  function StepOf(keyframes: map<string, Object>, step: string): (o: Object)
    ensures step in keyframes ==> o == keyframes[step]
    ensures step !in keyframes ==> o == map[]
  {
    if step in keyframes then keyframes[step] else map[]
  }

  /** `keyframes` after `{...oldSteps, ...newStep}` is merged in at `step`:
      the step gains or changes one property. */
  function WithKeyframe(keyframes: map<string, Object>, step: string, property: string, value: Value): (r: map<string, Object>)
    ensures r == keyframes[step := StepOf(keyframes, step)[property := value]]
  {
    var oldStep := StepOf(keyframes, step);
    MergeOne(oldStep, property, value);
    MergeOne(keyframes, step, Merge(oldStep, map[property := value]));
    Merge(keyframes, map[step := Merge(oldStep, map[property := value])])
  }

  /** RUN_ANIMATION marks the animation as running; nothing else changes. */
  function RunAnimation(animations: seq<Animation>, i: int): (r: seq<Animation>)
    requires 0 <= i < |animations|
    ensures OnlyAt(animations, r, i)
    ensures r[i].isRunning && r[i].(isRunning := animations[i].isRunning) == animations[i]
  {
    animations[i := animations[i].(isRunning := true)]
  }

  /** `animationManager`. */
  function AnimationManager(animations: seq<Animation>, a: Action): (r: seq<Animation>)
    requires AnimationActionDefined(animations, a)
    ensures !IsAnimationAction(a) ==> r == animations
    ensures a.AddAnimation? ==> r == animations + [a.animation]
    ensures a.RemoveAnimation? ==> r == SpliceRemove(animations, a.animationIndex)
    ensures a.AddKeyframe? ==> r == AddKeyframe(animations, a.animationIndex, a.keyframeStep, a.keyframeProperty, a.keyframeValue)
    ensures a.RunAnimation? ==> r == RunAnimation(animations, a.animationIndex)
  {
    match a
    case AddAnimation(animation) => Push(animations, animation)
    case AddKeyframe(i, step, property, raw) => AddKeyframe(animations, i, step, property, raw)
    case RunAnimation(i) => RunAnimation(animations, i)
    case RemoveAnimation(i) => SpliceRemove(animations, i)
    case _ => animations
  }

  /** Removing the animation just added restores the animations. */
  lemma AddThenRemoveAnimation(animations: seq<Animation>, x: Animation)
    ensures AnimationManager(AnimationManager(animations, Actions.AddAnimation(x)), Actions.RemoveAnimation(|animations|)) == animations
  {
    PushThenRemoveLast(animations, x);
  }

  /** Values written to two different properties of one step are both kept,
      whichever is written first. */
  lemma {:induction false} WithKeyframeCommutes(k: map<string, Object>, step: string, p: string, q: string, vp: Value, vq: Value)
    requires p != q
    ensures WithKeyframe(WithKeyframe(k, step, p, vp), step, q, vq) == WithKeyframe(WithKeyframe(k, step, q, vq), step, p, vp)
  {
    var o := StepOf(k, step);
    assert o[p := vp][q := vq] == o[q := vq][p := vp];
  }

  /** Two keyframes for different properties of one step can arrive in either order. */
  lemma AddKeyframeCommutes(animations: seq<Animation>, i: int, step: string, p: string, q: string, x: string, y: string)
    requires 0 <= i < |animations| && p != q
    ensures AddKeyframe(AddKeyframe(animations, i, step, p, x), i, step, q, y)
         == AddKeyframe(AddKeyframe(animations, i, step, q, y), i, step, p, x)
  {
    WithKeyframeCommutes(animations[i].keyframes, step, p, q, CoerceKeyframeValue(x).value, CoerceKeyframeValue(y).value);
  }
}
