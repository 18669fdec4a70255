# Site Counts block: cached post list, save-hook refresh and display selection

The Site Counts block for WordPress shows three things: post counts per post type,
the current post ID, and up to five titles of posts tagged `foo` in category `baz`.
The title list comes from an expensive query, so its `ID => title` array is kept
in the object cache under key `site-counts_tag_foo_cat_baz_posts` in group
`block_posts`. This project models the three pieces of logic in `php/Block.php`
that do more than call the host:

- **The read-through cache** (`get_tag_foo_cat_baz_posts`). If the slot holds an
  array and no refresh is forced, the stored array is returned. Otherwise the
  query runs and a `while` loop builds the array. The slot is written only when
  the query found at least one post. An error or an empty result returns `[]` and
  keeps the old entry, even on a forced refresh.
  - `PostCache.Fetch` is the pure state machine over one slot.
  - `SiteCounts.Block.GetTagFooCatBazPosts` is the imperative method. It works
    over the field `cachedPosts`, and its loop is proved against `PostCache.Build`.
- **The save-hook refresh policy** (`refresh_tag_foo_cat_baz_posts`). Auto-drafts
  and revisions are skipped. The hour is what `gmdate('H', t)` reads from the
  timestamp `t` that `get_post_time('U', false)` returns, that is `(t / 3600) % 24`.
  With `$gmt = false` this timestamp carries the site's UTC offset, so the hour
  is the site's local wall-clock hour. A refresh is forced only when that hour is between 9 and 17
  inclusive.
- **The display selection** inside `render_callback`. The current post is
  `unset` from the cached array, which is then cut to five entries with
  `array_slice(..., 0, 5, true)`.

A PHP array keyed by post ID is modelled as a sequence of `Entry(id, title)`
(module `TitleMaps`). The model keeps PHP's semantics for it:
- an element write to an existing key keeps that key's position;
- a write to a new key appends;
- `unset` and `array_slice` keep the order of what remains.

Host services become inputs:
- the query result is a `QueryResult`, either an error or the rows in the order
  `the_post` walks them;
- `wp_is_post_revision` is a boolean;
- `get_post_time('U', false, $post)` is an integer timestamp;
- the current post ID is an integer.

Dafny's `/` and `%` with a positive divisor round toward negative infinity. That
matches `gmdate` for timestamps before 1970 too, so the hour function needs no
precondition.

The hook checks no publish status. Every save that is not an auto-draft, such
as a draft, a pending post or a trashed post, can force a refresh if its hour is
in the window. `RefreshPolicy.ForcesRefresh` states exactly that.

## Model

| member | source | states |
|---|---|---|
| `TitleMaps.Lookup` | php/Block.php:130 | `isset($posts[$k])` holds exactly when `k` is a key, and the title read back is the one paired with `k` in the array |
| `TitleMaps.Put` | php/Block.php:212 | `$posts[$id] = $title`: an existing key keeps its place, a new key is appended at the end; afterwards `k` reads back the new title, every other key reads back as before, and distinct keys stay distinct |
| `TitleMaps.Remove` | php/Block.php:130-132 | `unset`: the removed key is gone, the remaining keys are exactly the other keys, each keeps its title, an absent key leaves the array unchanged, and with distinct keys the length drops by exactly one when the key was present |
| `Display.RemoveKeepsOrder` | php/Block.php:130-132 | `unset` keeps every other entry in its array order: the result is the ordered walk that skips the removed key |
| `TitleMaps.Slice` | php/Block.php:134 | `array_slice(..., 0, n, true)` is a prefix of length `min(n, size)`, with keys and titles preserved |
| `Display.ShownPosts` | php/Block.php:127-134 | the shown list never contains the current post ID, whether or not the cache had it; it has at most 5 entries; each entry keeps its cached title; with distinct cached keys it has exactly `min(5, size - 1)` entries when the current post was cached and `min(5, size)` otherwise, so 6 cached posts always yield 5 shown |
| `Display.SliceOfRemoveIsFirstOthers` | php/Block.php:129-134 | removing a key and then slicing to `n` equals one ordered pass that skips that key and stops after `n` entries |
| `Display.ShownPostsInCachedOrder` | php/Block.php:129-134 | the shown list is the first five cached entries other than the current post, in cached order |
| `PostCache.Build` | php/Block.php:210-213 | the array built by the loop has distinct keys, and its key set is exactly the set of IDs the query yielded; it is non-empty when the query yielded a post and never longer than the rows |
| `PostCache.BuildKeepsLastTitle` | php/Block.php:210-213 | each ID of the built array maps to the title of the last row carrying that ID |
| `PostCache.BuildInQueryOrder` | php/Block.php:210-217 | when the query yields each ID once, the built array is the rows themselves: query order, each ID paired with its own title |
| `PostCache.Fetch` | php/Block.php:181-222 | a hit without a forced refresh returns the stored array and leaves the slot alone; the slot changes only to the array built from a query that found posts, and a miss or forced refresh whose query found posts does store and return that array, repeated IDs included; an error or empty result returns `[]` and keeps the slot as it was, on a forced refresh too; the slot invariant (absent, or non-empty with distinct keys) is preserved |
| `PostCache.MissStoresQueryRows` | php/Block.php:187-217 | a call that runs a query yielding distinct IDs stores and returns exactly the query's rows |
| `PostCache.NextReadReturnsFetched` | php/Block.php:184-221 | after any call that returned a non-empty array, the next non-forced call returns that same array and leaves the slot unchanged, whatever the query would now yield |
| `PostCache.FetchWithinPageSize` | php/Block.php:190-207 | if the query respects its page size, an array built on a miss has at most `post_count` entries |
| `RefreshPolicy.PublishHour` | php/Block.php:249 | `gmdate('H', t)` lies in `0..23`, and it is the hour whose 3600-second band holds `t`'s second of the day; on the local-offset timestamp this is the site's local hour |
| `RefreshPolicy.ForcesRefreshWindow` | php/Block.php:239-253 | a save forces a refresh if and only if it is not an auto-draft, not a revision, and its local-offset publish timestamp reads between 09:00:00 and 17:59:59, the site's local time of day |
| `RefreshPolicy.ForcesRefreshIsDaily` | php/Block.php:248-253 | moving the publish time by whole days never changes the decision |
| `SiteCounts.Block.GetTagFooCatBazPosts` | php/Block.php:181-222 | the returned array and the new slot are those of `Fetch` on the old slot, so the loop's invariant ties it to `Build`; the slot invariant is kept; a call that ran the query returns at most `post_count` entries when the host respects the page size |
| `SiteCounts.Block.RefreshTagFooCatBazPosts` | php/Block.php:239-257 | a save that does not force a refresh leaves the cache exactly as it was; this covers auto-drafts, revisions and hours outside 9 to 17. A save that does force one leaves the slot of a forced `Fetch` |
| `SiteCounts.Block.RenderCallback` | php/Block.php:127-137 | rendering reads the cache as a non-forced `Fetch`, which may populate it; the list it prints is `ShownPosts` of what was read, so it has no entry for the current post and at most 5 entries |

## Left out

- HTML output, escaping and translation (`ob_start`, `printf`, `esc_html`, `_n`, `__`, php/Block.php:74-169). This is presentation over host helpers. `RenderCallback` returns the entries the markup would list; an empty list prints no heading.
- Per-type post counts (`get_post_types`, `wp_count_posts`, php/Block.php:70, 81-106). These are host database calls with no local logic.
- Hook registration (`init`, `register_block`, php/Block.php:41-59) and the constructor's `$plugin` field. These only wire the block into the host.
- The filters of the post query (post types, tag, category, date hours, php/Block.php:190-207). The query result is an arbitrary `QueryResult`. That it respects `posts_per_page` is the assumption `PageSized`, never proved.
- How the current post ID is chosen from the block context or from `get_post()` (php/Block.php:72). It is an input, and PHP's conversion of numeric-string keys is not modelled.
- `wp_is_post_revision`, `get_post_time` and the post status are inputs. The site's timezone offset is folded into the publish timestamp input, as `get_post_time('U', false)` folds it in; the model does not compute it. `get_post_time` returning `false` is not modelled.
- The object cache may evict entries at any time, and other code could write the same key. The model lets only these methods change the slot. Two saves or renders at the same time are not modelled: execution is sequential.
- The unused `$post_ID` parameter of the save hook is kept as `postId` and plays no part.
