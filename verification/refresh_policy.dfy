/**
  The save-hook policy of `refresh_tag_foo_cat_baz_posts`: which saves force the
  cached post list to be rebuilt.
*/
module RefreshPolicy {

  const SecondsPerHour: int := 3600
  const SecondsPerDay: int := 86400

  /** Saves whose publish hour is in FirstRefreshHour..LastRefreshHour, both
      ends included, force a refresh. */
  const FirstRefreshHour: int := 9
  const LastRefreshHour: int := 17

  /** The post status WordPress gives a post that was never saved by its author. */
  const AutoDraft: string := "auto-draft"

  /** What the hook reads of the saved post: its status, whether
      `wp_is_post_revision` holds of it, and `get_post_time('U', false, $post)`.
      With `$gmt = false` that timestamp is the Unix time shifted by the site's
      UTC offset, so the hour read from it is the site's local wall-clock hour. */
  datatype SavedPost = SavedPost(status: string, isRevision: bool, publishTime: int)

  /** `t == SecondsPerDay * day + secondOfDay` with `secondOfDay` in range fixes
      `t % SecondsPerDay`. */
  lemma SecondOfDay(t: int, day: int, secondOfDay: int)
    requires 0 <= secondOfDay < SecondsPerDay
    requires t == SecondsPerDay * day + secondOfDay
    ensures t % SecondsPerDay == secondOfDay
  {
  }

  /** `gmdate('H', t)` as a number: the hour of the day that the timestamp `t`
      falls in, read off its second of the day (for values before 1970 too).
      Applied to the local-offset publish timestamp it gives the local hour. */
  function PublishHour(t: int): (h: int)
    ensures 0 <= h < 24
    ensures h * SecondsPerHour <= t % SecondsPerDay < (h + 1) * SecondsPerHour
  {
    var hours := t / SecondsPerHour;
    var h := hours % 24;
    assert t == SecondsPerDay * (hours / 24) + (h * SecondsPerHour + t % SecondsPerHour);
    SecondOfDay(t, hours / 24, h * SecondsPerHour + t % SecondsPerHour);
    h
  }

  /** The guard chain of the hook: not an auto-draft, not a revision, and
      published within the hour window. */
  predicate ForcesRefresh(post: SavedPost)
  {
    && post.status != AutoDraft
    && !post.isRevision
    && FirstRefreshHour <= PublishHour(post.publishTime) <= LastRefreshHour
  }

  /** A save forces a refresh exactly when it is neither an auto-draft nor a
      revision and its publish timestamp reads between 09:00:00 and 17:59:59
      (the site's local time of day). */
  lemma ForcesRefreshWindow(post: SavedPost)
    ensures ForcesRefresh(post) <==>
      && post.status != AutoDraft
      && !post.isRevision
      && 9 * SecondsPerHour <= post.publishTime % SecondsPerDay < 18 * SecondsPerHour
  {
  }

  /** The policy looks only at the time of day: moving the publish time by whole
      days changes nothing. */
  lemma ForcesRefreshIsDaily(post: SavedPost, days: int)
    ensures ForcesRefresh(post.(publishTime := post.publishTime + days * SecondsPerDay))
        == ForcesRefresh(post)
  {
    var t := post.publishTime;
    var t' := t + days * SecondsPerDay;
    assert t' == SecondsPerDay * (t / SecondsPerDay + days) + t % SecondsPerDay;
    SecondOfDay(t', t / SecondsPerDay + days, t % SecondsPerDay);
    assert PublishHour(t) == PublishHour(t');
  }
}
