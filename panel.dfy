/**
 * The dashboard's home panel: the global counts over the published posts,
 * the average engagement rate over the published posts that have views,
 * the greeting for the hour of the day, and the progress bar of the
 * gamification card.
 */
module Panel {
  import opened Clock
  import opened Types
  import opened Seqs

  /** `totalPublishedPosts`. */
  function TotalPublishedPosts(posts: seq<Post>, now: Time): (n: nat)
    ensures n <= |posts|
  {
    |PublishedPosts(posts, now)|
  }

  /** A post is counted exactly when it is published. */
  lemma PublishedMembership(posts: seq<Post>, now: Time)
    ensures forall i :: 0 <= i < |posts| ==> (posts[i] in PublishedPosts(posts, now) <==> IsPublished(posts[i], now))
  {
    FilterMembers(posts, PublishedTest(now));
  }

  /** `totalImpressions`: the views of the published posts, a missing count being 0. */
  function TotalImpressions(posts: seq<Post>, now: Time): (r: int)
    ensures r >= 0
  {
    SumNonNegative(PublishedPosts(posts, now), Views);
    Sum(PublishedPosts(posts, now), Views)
  }

  /** The post has a positive view count. */
  predicate HasViews(p: Post)
  {
    Views(p) > 0
  }

  /** `postsWithStats`: the published posts that have been viewed. */
  function PostsWithStats(posts: seq<Post>, now: Time): seq<Post>
  {
    Filter(PublishedPosts(posts, now), HasViews)
  }

  /**
   * `averageEngagementRate`: the engagement of the viewed published posts per
   * hundred of their views, and 0 when none of them has views.
   */
  function AverageEngagementRate(posts: seq<Post>, now: Time): real
  {
    var withStats := PostsWithStats(posts, now);
    var engagement := Sum(withStats, Engagement);
    var impressions := Sum(withStats, Views);
    if impressions > 0 then (engagement as real / impressions as real) * 100.0 else 0.0
  }

  /** Helper: a list of viewed posts has views exactly when it is not empty. */
  lemma {:induction false} ViewedSumPositive(s: seq<Post>)
    requires forall i :: 0 <= i < |s| ==> HasViews(s[i])
    ensures Sum(s, Views) > 0 <==> s != []
    decreases |s|
  {
    if s != [] {
      ViewedSumPositive(s[..|s| - 1]);
    }
  }

  /**
   * The rate is never negative and is 0 when no published post has views;
   * the views it divides by are the panel's total impressions, since unviewed
   * posts add no views.
   */
  lemma RateFacts(posts: seq<Post>, now: Time)
    ensures AverageEngagementRate(posts, now) >= 0.0
    ensures PostsWithStats(posts, now) == [] ==> AverageEngagementRate(posts, now) == 0.0
    ensures Sum(PostsWithStats(posts, now), Views) == TotalImpressions(posts, now)
  {
    var withStats := PostsWithStats(posts, now);
    ViewedSumPositive(withStats);
    SumNonNegative(withStats, Engagement);
    SumFilterZero(PublishedPosts(posts, now), Views, HasViews);
  }

  /** Adding posts without views, published or not, leaves the average rate as it was. */
  lemma {:induction false} UnviewedPostsDoNotCount(posts: seq<Post>, extra: seq<Post>, now: Time)
    requires forall i :: 0 <= i < |extra| ==> Views(extra[i]) == 0
    ensures AverageEngagementRate(posts + extra, now) == AverageEngagementRate(posts, now)
  {
    var pub := PublishedTest(now);
    FilterAppend(posts, extra, pub);
    FilterAppend(Filter(posts, pub), Filter(extra, pub), HasViews);
    FilterMembers(extra, pub);
    var dropped := Filter(extra, pub);
    forall i | 0 <= i < |dropped|
      ensures !HasViews(dropped[i])
    {
      var k :| 0 <= k < |extra| && extra[k] == dropped[i];
    }
    FilterNone(dropped, HasViews);
    assert PublishedPosts(posts + extra, now) == PublishedPosts(posts, now) + dropped;
    assert PostsWithStats(posts + extra, now) == PostsWithStats(posts, now) + [];
    assert PostsWithStats(posts, now) + [] == PostsWithStats(posts, now);
  }

  /** The three greetings. */
  datatype Greeting = GreetingMorning | GreetingAfternoon | GreetingNight

  /** `getGreeting`: morning before 12, afternoon before 18, night from 18 on. */
  function GreetingForHour(hour: int): (g: Greeting)
    ensures g == GreetingMorning <==> hour < 12
    ensures g == GreetingAfternoon <==> 12 <= hour < 18
    ensures g == GreetingNight <==> hour >= 18
  {
    if hour < 12 then GreetingMorning
    else if hour < 18 then GreetingAfternoon
    else GreetingNight
  }

  function GreetingAt(z: Zone, now: Time): Greeting
  {
    GreetingForHour(HourOf(z, now))
  }

  /** `GamificationCard`'s `progress`: percent of the next level's XP gathered, or 100 when no XP is needed. */
  function Progress(xp: int, xpForNextLevel: int): real
  {
    if xpForNextLevel > 0 then (xp as real / xpForNextLevel as real) * 100.0 else 100.0
  }

  /** With the XP between 0 and the next level's need, the bar is filled between 0 and 100 percent. */
  lemma ProgressBounds(xp: int, xpForNextLevel: int)
    requires 0 <= xp < xpForNextLevel
    ensures 0.0 <= Progress(xp, xpForNextLevel) < 100.0
  {
    var q := xp as real / xpForNextLevel as real;
    assert q * (xpForNextLevel as real) == xp as real;
    assert q < 1.0;
  }
}
