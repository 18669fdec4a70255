/**
  The read-through cache behind `get_tag_foo_cat_baz_posts`, as a pure state
  machine over one cache slot. The slot is the object-cache entry
  `site-counts_tag_foo_cat_baz_posts` in group `block_posts`: either absent or an
  `ID => title` array.
*/
module PostCache {
  import opened Wrappers
  import opened TitleMaps

  /** Number of posts asked of the query when the caller gives none. */
  const DefaultPostCount: int := 6

  /** What the post query produced: an error object, or the posts it found, in
      the order `have_posts`/`the_post` walk them (possibly none). */
  datatype QueryResult = QueryError | Found(rows: seq<Entry>)

  /** The query succeeded and yielded at least one post. */
  predicate HasPosts(query: QueryResult)
  {
    query.Found? && |query.rows| > 0
  }

  /** Host guarantee, assumed and never proved: for a non-negative page size,
      the query returns no more posts than `posts_per_page` asks for. */
  predicate PageSized(query: QueryResult, postCount: int)
  {
    0 <= postCount && (query.Found? ==> |query.rows| <= postCount)
  }

  /** What the slot holds whenever this code is the only writer: nothing, or a
      non-empty array with distinct keys. */
  predicate SlotInvariant(slot: Option<TitleMap>)
  {
    slot.Some? ==> |slot.value| > 0 && DistinctKeys(slot.value)
  }

  /** The array built by `$posts[get_the_ID()] = get_the_title()` over the rows,
      in order, starting from `[]`. */
  function Build(rows: seq<Entry>): (m: TitleMap)
    ensures DistinctKeys(m)
    ensures forall k :: k in Keys(m) <==> k in Keys(rows)
    ensures |m| <= |rows|
    ensures |rows| > 0 ==> |m| > 0
    decreases |rows|
  {
    if rows == [] then []
    else
      var last := rows[|rows| - 1];
      assert rows == rows[..|rows| - 1] + [last];
      KeysSnoc(rows[..|rows| - 1], last);
      Put(Build(rows[..|rows| - 1]), last.id, last.title)
  }

  /** One more row extends the built array by one element write. */
  lemma BuildStep(rows: seq<Entry>, i: nat)
    requires i < |rows|
    ensures Build(rows[..i + 1]) == Put(Build(rows[..i]), rows[i].id, rows[i].title)
  {
    assert rows[..i + 1][..i] == rows[..i];
  }

  /** Reference reading of a PHP array write sequence: the title an ID ends up
      with is the one of its last row. */
  function LastTitle(rows: seq<Entry>, k: PostId): Option<string>
  {
    if rows == [] then None
    else if rows[|rows| - 1].id == k then Some(rows[|rows| - 1].title)
    else LastTitle(rows[..|rows| - 1], k)
  }

  /** Each ID of the built array maps to the title of the last row with that ID. */
  lemma {:induction false} BuildKeepsLastTitle(rows: seq<Entry>, k: PostId)
    ensures Lookup(Build(rows), k) == LastTitle(rows, k)
  {
    if rows != [] {
      BuildKeepsLastTitle(rows[..|rows| - 1], k);
    }
  }

  /** When the query yields every ID once, the built array is the rows
      themselves: query order, each ID paired with its own title. */
  lemma {:induction false} BuildInQueryOrder(rows: seq<Entry>)
    requires DistinctKeys(rows)
    ensures Build(rows) == rows
  {
    if rows != [] {
      var init, last := rows[..|rows| - 1], rows[|rows| - 1];
      assert rows == init + [last];
      DistinctKeysSnoc(init, last);
      BuildInQueryOrder(init);
    }
  }

  /** The slot after a call and the array the call returns. */
  datatype Fetched = Fetched(slot: Option<TitleMap>, posts: TitleMap)

  /** One call of `get_tag_foo_cat_baz_posts(forceRefresh)` against `slot`, the
      query yielding `query` if it runs. */
  function Fetch(slot: Option<TitleMap>, forceRefresh: bool, query: QueryResult): (r: Fetched)
    // a hit returns the stored array and leaves the slot alone
    ensures !forceRefresh && slot.Some? ==> r == Fetched(slot, slot.value)
    // the slot is written only with the array of a query that found posts
    ensures r.slot != slot ==> HasPosts(query) && r.slot == Some(r.posts) && r.posts == Build(query.rows)
    // an error or an empty result gives [] and keeps whatever was stored,
    // even on a forced refresh
    ensures (forceRefresh || slot.None?) && !HasPosts(query) ==> r == Fetched(slot, [])
    // a miss or a forced refresh whose query found posts stores and returns the
    // array built from them
    ensures (forceRefresh || slot.None?) && HasPosts(query) ==>
      r == Fetched(Some(Build(query.rows)), Build(query.rows))
    ensures SlotInvariant(slot) ==> SlotInvariant(r.slot) && DistinctKeys(r.posts)
  {
    if forceRefresh || slot.None? then
      if HasPosts(query) then
        var posts := Build(query.rows);
        Fetched(Some(posts), posts)
      else
        Fetched(slot, [])
    else
      Fetched(slot, slot.value)
  }

  /** A call that ran the query and found posts stores and returns the rows, in
      query order, when the query yields each ID once. */
  lemma MissStoresQueryRows(slot: Option<TitleMap>, forceRefresh: bool, query: QueryResult)
    requires forceRefresh || slot.None?
    requires HasPosts(query) && DistinctKeys(query.rows)
    ensures Fetch(slot, forceRefresh, query) == Fetched(Some(query.rows), query.rows)
  {
    BuildInQueryOrder(query.rows);
  }

  /** After a call that returned a non-empty array, the next call without a
      forced refresh returns that same array and leaves the slot as it is,
      whatever the query would now yield. */
  lemma NextReadReturnsFetched(slot: Option<TitleMap>, forceRefresh: bool, query: QueryResult, later: QueryResult)
    ensures var first := Fetch(slot, forceRefresh, query);
            first.posts != [] ==> Fetch(first.slot, false, later) == first
  {
  }

  /** Under the host's page-size guarantee, an array built by a call that ran
      the query has at most `postCount` entries. */
  lemma FetchWithinPageSize(slot: Option<TitleMap>, forceRefresh: bool, query: QueryResult, postCount: int)
    requires PageSized(query, postCount)
    requires forceRefresh || slot.None?
    ensures |Fetch(slot, forceRefresh, query).posts| <= postCount
  {
  }
}
