/**
  The titles `render_callback` lists: the cached `ID => title` array with the
  current post removed (`unset`) and cut to its first five entries
  (`array_slice(..., 0, 5, true)`).
*/
module Display {
  import opened Wrappers
  import opened TitleMaps

  /** The most titles the block shows. */
  const MaxShown: nat := 5

  function Min(a: int, b: int): int
  {
    if a <= b then a else b
  }

  /** The posts listed below the counts when `currentPostId` is being viewed and
      `cached` is what the cache read returned. */
  function ShownPosts(cached: TitleMap, currentPostId: PostId): (shown: TitleMap)
    ensures currentPostId !in Keys(shown)
    ensures |shown| <= MaxShown
    ensures forall j :: j in Keys(shown) ==> j in Keys(cached) && Lookup(shown, j) == Lookup(cached, j)
    ensures DistinctKeys(cached) ==> DistinctKeys(shown)
    ensures DistinctKeys(cached) ==>
      |shown| == Min(MaxShown, if currentPostId in Keys(cached) then |cached| - 1 else |cached|)
  {
    Slice(Remove(cached, currentPostId), MaxShown)
  }

  /** Reference reading of the same selection, in one pass: walk the array in
      order, skip the entry for `skip`, and stop after `n` entries. */
  function FirstOthers(m: TitleMap, skip: PostId, n: nat): TitleMap
  {
    if n == 0 || m == [] then []
    else if m[0].id == skip then FirstOthers(m[1..], skip, n)
    else [m[0]] + FirstOthers(m[1..], skip, n - 1)
  }

  /** Removing a key and then slicing keeps exactly the first `n` other entries,
      in array order and with their titles. */
  lemma {:induction false} SliceOfRemoveIsFirstOthers(m: TitleMap, skip: PostId, n: nat)
    ensures Slice(Remove(m, skip), n) == FirstOthers(m, skip, n)
  {
    if n != 0 && m != [] {
      SliceOfRemoveIsFirstOthers(m[1..], skip, if m[0].id == skip then n else n - 1);
    }
  }

  /** `unset` keeps every other entry, in array order: removing a key is the
      one-pass walk that skips it and never stops early. */
  lemma RemoveKeepsOrder(m: TitleMap, skip: PostId)
    ensures Remove(m, skip) == FirstOthers(m, skip, |m|)
  {
    SliceOfRemoveIsFirstOthers(m, skip, |m|);
  }

  /** The shown list is the first five entries of the cached array other than
      the current post, in their cached order. */
  lemma ShownPostsInCachedOrder(cached: TitleMap, currentPostId: PostId)
    ensures ShownPosts(cached, currentPostId) == FirstOthers(cached, currentPostId, MaxShown)
  {
    SliceOfRemoveIsFirstOthers(cached, currentPostId, MaxShown);
  }
}
