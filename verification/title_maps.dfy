/**
  PHP ordered arrays keyed by post ID, as association lists.

  The block keeps its posts in a PHP array `[ID => title]`. A PHP array remembers
  insertion order, so it is modelled as a sequence of entries; the operations the
  block uses on it are an element read (`isset($a[$k])`, `$a[$k]`), an element
  write (`$a[$k] = $v`), `unset($a[$k])` and `array_slice($a, 0, $n, true)`.
*/
module TitleMaps {
  import opened Wrappers

  type PostId = int

  /** One `ID => title` pair of a PHP array, or one post yielded by a query. */
  datatype Entry = Entry(id: PostId, title: string)

  type TitleMap = seq<Entry>

  /** The keys of `m`, in array order (`array_keys`). */
  function Keys(m: TitleMap): (ks: seq<PostId>)
    ensures |ks| == |m|
  {
    if m == [] then [] else [m[0].id] + Keys(m[1..])
  }

  /** A well-formed PHP array: no key occurs twice. */
  predicate DistinctKeys(m: TitleMap)
  {
    m == [] || (m[0].id !in Keys(m[1..]) && DistinctKeys(m[1..]))
  }

  /** `$m[$k]` when `isset($m[$k])`, and `None` otherwise. */
  function Lookup(m: TitleMap, k: PostId): (r: Option<string>)
    ensures r.Some? <==> k in Keys(m)
    ensures r.Some? ==> Entry(k, r.value) in m
  {
    if m == [] then None
    else if m[0].id == k then Some(m[0].title)
    else Lookup(m[1..], k)
  }

  /** `$m[$k] = $v`: an existing key keeps its position and takes the new title,
      a new key is appended at the end. */
  function Put(m: TitleMap, k: PostId, v: string): (r: TitleMap)
    ensures k in Keys(m) ==> Keys(r) == Keys(m)
    ensures k !in Keys(m) ==> Keys(r) == Keys(m) + [k]
    ensures k !in Keys(m) ==> r == m + [Entry(k, v)]
    ensures Lookup(r, k) == Some(v)
    ensures forall j :: j != k ==> Lookup(r, j) == Lookup(m, j)
    ensures DistinctKeys(m) ==> DistinctKeys(r)
  {
    if m == [] then
      Cons(Entry(k, v), []);
      [Entry(k, v)]
    else
      var e, rest := m[0], m[1..];
      assert m == [e] + rest;
      Cons(e, rest);
      if e.id == k then
        Cons(Entry(k, v), rest);
        assert Keys([Entry(k, v)] + rest) == Keys(m);
        [Entry(k, v)] + rest
      else
        var r := Put(rest, k, v);
        Cons(e, r);
        if k in Keys(m) then
          assert Keys([e] + r) == Keys(m);
          [e] + r
        else
          assert [e] + r == m + [Entry(k, v)];
          KeysSnoc(m, Entry(k, v));
          DistinctKeysSnoc(m, Entry(k, v));
          [e] + r
  }

  /** `unset($m[$k])`: the entry for `k` goes, every other entry stays, in order. */
  function Remove(m: TitleMap, k: PostId): (r: TitleMap)
    ensures forall j :: j in Keys(r) <==> j in Keys(m) && j != k
    ensures forall j :: j != k ==> Lookup(r, j) == Lookup(m, j)
    ensures k !in Keys(m) ==> r == m
    ensures |r| <= |m|
    ensures DistinctKeys(m) ==> DistinctKeys(r) && |r| == if k in Keys(m) then |m| - 1 else |m|
  {
    if m == [] then []
    else if m[0].id == k then Remove(m[1..], k)
    else [m[0]] + Remove(m[1..], k)
  }

  /** `array_slice($m, 0, $n, true)`: the first `n` entries, keys preserved. */
  function Slice(m: TitleMap, n: nat): (r: TitleMap)
    ensures r <= m
    ensures |r| == if |m| < n then |m| else n
    ensures forall j :: j in Keys(r) ==> j in Keys(m) && Lookup(r, j) == Lookup(m, j)
    ensures DistinctKeys(m) ==> DistinctKeys(r)
  {
    if n == 0 || m == [] then [] else [m[0]] + Slice(m[1..], n - 1)
  }

  /** The definitions above, unfolded once on an array that starts with `e`. */
  lemma Cons(e: Entry, s: TitleMap)
    ensures Keys([e] + s) == [e.id] + Keys(s)
    ensures DistinctKeys([e] + s) == (e.id !in Keys(s) && DistinctKeys(s))
    ensures forall j :: Lookup([e] + s, j) == if e.id == j then Some(e.title) else Lookup(s, j)
  {
    assert ([e] + s)[0] == e && ([e] + s)[1..] == s;
  }

  /** Keys of an array grown by one entry at the end. */
  lemma {:induction false} KeysSnoc(m: TitleMap, e: Entry)
    ensures Keys(m + [e]) == Keys(m) + [e.id]
  {
    if m != [] {
      assert (m + [e])[1..] == m[1..] + [e];
      KeysSnoc(m[1..], e);
    }
  }

  /** An array grown by one entry at the end has distinct keys exactly when the
      old array had and the new key is not among them. */
  lemma {:induction false} DistinctKeysSnoc(m: TitleMap, e: Entry)
    ensures DistinctKeys(m + [e]) <==> DistinctKeys(m) && e.id !in Keys(m)
  {
    if m != [] {
      assert (m + [e])[1..] == m[1..] + [e];
      KeysSnoc(m[1..], e);
      DistinctKeysSnoc(m[1..], e);
    }
  }
}
