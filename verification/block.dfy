/**
  The Site Counts block: the parts of its class that keep and read the cached
  list of posts tagged `foo` in category `baz`.
*/
module SiteCounts {
  import opened Wrappers
  import opened TitleMaps
  import opened PostCache
  import opened Display
  import opened RefreshPolicy

  class Block {
    /** The object-cache entry `site-counts_tag_foo_cat_baz_posts` in group
        `block_posts`: `None` while absent, otherwise the stored array. */
    var cachedPosts: Option<TitleMap>

    predicate Valid()
      reads this
    {
      SlotInvariant(cachedPosts)
    }

    /** A block over whatever the cache already holds. */
    constructor (cached: Option<TitleMap>)
      requires SlotInvariant(cached)
      ensures Valid() && cachedPosts == cached
    {
      cachedPosts := cached;
    }

    /** `get_tag_foo_cat_baz_posts($force_refresh, $post_count)`; `query` is
        what the post query for `postCount` posts yields if it is run. */
    method GetTagFooCatBazPosts(forceRefresh: bool, postCount: int, query: QueryResult)
      returns (posts: TitleMap)
      requires Valid()
      modifies this
      ensures Valid()
      ensures Fetched(cachedPosts, posts) == Fetch(old(cachedPosts), forceRefresh, query)
      ensures PageSized(query, postCount) && (forceRefresh || old(cachedPosts).None?) ==>
        |posts| <= postCount
    {
      var stored := cachedPosts;
      if forceRefresh || stored.None? {
        posts := [];
        if query.Found? && |query.rows| > 0 {
          var rows := query.rows;
          var i := 0;
          while i < |rows|
            invariant 0 <= i <= |rows|
            invariant posts == Build(rows[..i])
          {
            BuildStep(rows, i);
            posts := Put(posts, rows[i].id, rows[i].title);
            i := i + 1;
          }
          assert rows[..|rows|] == rows;
          cachedPosts := Some(posts);
          assert Fetch(stored, forceRefresh, query) == Fetched(Some(posts), posts);
        } else {
          assert Fetch(stored, forceRefresh, query) == Fetched(stored, []);
        }
        if PageSized(query, postCount) {
          FetchWithinPageSize(stored, forceRefresh, query, postCount);
        }
      } else {
        posts := stored.value;
      }
    }

    /** `refresh_tag_foo_cat_baz_posts($post_ID, $post)`, run on every save of a
        post or page; `query` is what the forced rebuild's query yields. */
    method RefreshTagFooCatBazPosts(postId: PostId, post: SavedPost, query: QueryResult)
      requires Valid()
      modifies this
      ensures Valid()
      ensures cachedPosts ==
        if ForcesRefresh(post) then Fetch(old(cachedPosts), true, query).slot else old(cachedPosts)
    {
      if post.status == AutoDraft {
        return;
      }
      if post.isRevision {
        return;
      }
      var publishHour := PublishHour(post.publishTime);
      if publishHour < FirstRefreshHour || publishHour > LastRefreshHour {
        return;
      }
      var _ := GetTagFooCatBazPosts(true, DefaultPostCount, query);
    }

    /** The post list `render_callback` prints for the post `currentPostId`:
        it reads the cache (which may populate it) and keeps the titles to show. */
    method RenderCallback(currentPostId: PostId, query: QueryResult) returns (shown: TitleMap)
      requires Valid()
      modifies this
      ensures Valid()
      ensures cachedPosts == Fetch(old(cachedPosts), false, query).slot
      ensures shown == ShownPosts(Fetch(old(cachedPosts), false, query).posts, currentPostId)
      ensures currentPostId !in Keys(shown) && |shown| <= MaxShown
    {
      var posts := GetTagFooCatBazPosts(false, DefaultPostCount, query);
      shown := ShownPosts(posts, currentPostId);
    }
  }
}
