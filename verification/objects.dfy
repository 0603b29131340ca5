/** JavaScript values as the reducers store them, and the shallow overlay that
    object spread (`{...base, ...top}`) and immutability-helper's `$merge` perform. */
module Objects {

  datatype Option<T> = None | Some(value: T)

  /** A value held in a fixture property, a keyframe step or a MIDI mapping entry.
      Numbers are integers here; `NaN` is what `parseInt` yields without digits. */
  datatype Value = Bool(b: bool) | Num(n: int) | NaN | Str(s: string) | List(items: seq<Value>)

  /** A plain JavaScript object: property name to value. */
  type Object = map<string, Value>

  /** `r` is `base` overlaid with `top`: it has the keys of both, a key of `top`
      takes its value from `top`, every other key keeps its value from `base`. */
  ghost predicate Overlays<K, V>(base: map<K, V>, top: map<K, V>, r: map<K, V>)
  {
    && r.Keys == base.Keys + top.Keys
    && (forall k :: k in top ==> r[k] == top[k])
    && (forall k :: k in base && k !in top ==> r[k] == base[k])
  }

  /** `{...base, ...top}`, and `$merge: top` applied to `base`. */
  function Merge<K, V>(base: map<K, V>, top: map<K, V>): (r: map<K, V>)
    ensures Overlays(base, top, r)
  {
    base + top
  }

  /** An overlay is determined by its two inputs. */
  lemma OverlayUnique<K, V>(base: map<K, V>, top: map<K, V>, r1: map<K, V>, r2: map<K, V>)
    requires Overlays(base, top, r1) && Overlays(base, top, r2)
    ensures r1 == r2
  {
    assert forall k :: k in r1 ==> r1[k] == r2[k];
  }

  /** Merging `a` and then `b` is merging the one overlay of `b` on `a`:
      later writes win key by key and earlier keys persist. */
  lemma {:induction false} MergeTwice<K, V>(m: map<K, V>, a: map<K, V>, b: map<K, V>)
    ensures Merge(Merge(m, a), b) == Merge(m, Merge(a, b))
  {
    OverlayUnique(m, Merge(a, b), Merge(Merge(m, a), b), m + (a + b));
  }

  /** Merging a one-key object sets that key. */
  lemma MergeOne<K, V>(m: map<K, V>, k: K, v: V)
    ensures Merge(m, map[k := v]) == m[k := v]
  {
    OverlayUnique(m, map[k := v], Merge(m, map[k := v]), m[k := v]);
  }

  /** Spreading an object into `{}` copies it. */
  lemma MergeIntoEmpty<K, V>(m: map<K, V>)
    ensures Merge(map[], m) == m
  {
    OverlayUnique(map[], m, Merge(map[], m), m);
  }
}
