/**
 * The statistics screen (`components/Statistics.tsx`): the current and the
 * previous period, their totals, the period-over-period change shown on each
 * card, the top five posts, the daily chart series and the key-insights card.
 */
module Statistics {
  import opened Types
  import opened Clock
  import opened Seqs
  import StableSort

  /** The range selector: '7d', '30d' or '90d'. */
  datatype DateRange = Last7Days | Last30Days | Last90Days

  /** Period length used for the windows: 7d gives 7 days, 90d gives 90, 30d (and the default branch) 30. */
  function RangeDays(r: DateRange): (n: nat)
    ensures n == 7 || n == 30 || n == 90
    ensures r == Last7Days <==> n == 7
    ensures r == Last90Days <==> n == 90
  {
    match r
    case Last7Days => 7
    case Last90Days => 90
    case Last30Days => 30
  }

  /** Period length used for the chart, written as a second, independent conditional. */
  function ChartDays(r: DateRange): nat
  {
    if r == Last7Days then 7 else if r == Last30Days then 30 else 90
  }

  /** The chart always has one point per day of the period the totals cover. */
  lemma ChartCoversPeriod(r: DateRange)
    ensures ChartDays(r) == RangeDays(r)
  {
  }

  // ---------------------------------------------------------------- periods

  /** The two adjacent windows: [start, end] is the current period, [prevStart, prevEnd) the one before. */
  datatype Windows = Windows(start: Time, end: Time, prevStart: Time, prevEnd: Time)

  function PeriodWindows(now: Time, days: nat): (w: Windows)
    ensures w.end == now && w.prevEnd == w.start
    ensures w.end - w.start == days * DAY_MS
    ensures w.prevEnd - w.prevStart == days * DAY_MS
  {
    var start := now - days * DAY_MS;
    Windows(start, now, start - days * DAY_MS, start)
  }

  /** Current period: both ends included. */
  predicate InCurrent(p: Post, w: Windows)
  {
    p.scheduledAt.Some? && w.start <= p.scheduledAt.value <= w.end
  }

  /** Previous period: start included, end excluded. */
  predicate InPrevious(p: Post, w: Windows)
  {
    p.scheduledAt.Some? && w.prevStart <= p.scheduledAt.value < w.prevEnd
  }

  function CurrentTest(w: Windows): Post -> bool
  {
    p => InCurrent(p, w)
  }

  function PreviousTest(w: Windows): Post -> bool
  {
    p => InPrevious(p, w)
  }


  function CurrentPeriodPosts(posts: seq<Post>, now: Time, days: nat): seq<Post>
  {
    Filter(PublishedPosts(posts, now), CurrentTest(PeriodWindows(now, days)))
  }

  function PreviousPeriodPosts(posts: seq<Post>, now: Time, days: nat): seq<Post>
  {
    Filter(PublishedPosts(posts, now), PreviousTest(PeriodWindows(now, days)))
  }

  /**
   * A post counts in the current (previous) period exactly when it is published
   * and dated inside that window; every post of the current period is later
   * than every post of the previous one, so no post is counted in both.
   */
  lemma {:induction false} PeriodMembership(posts: seq<Post>, now: Time, days: nat)
    ensures forall i :: 0 <= i < |posts| ==>
      (posts[i] in CurrentPeriodPosts(posts, now, days) <==>
         IsPublished(posts[i], now) && InCurrent(posts[i], PeriodWindows(now, days)))
    ensures forall i :: 0 <= i < |posts| ==>
      (posts[i] in PreviousPeriodPosts(posts, now, days) <==>
         IsPublished(posts[i], now) && InPrevious(posts[i], PeriodWindows(now, days)))
    ensures forall c, p ::
      c in CurrentPeriodPosts(posts, now, days) && p in PreviousPeriodPosts(posts, now, days) ==>
        DateOf(p) < DateOf(c)
  {
    var w := PeriodWindows(now, days);
    var pub := PublishedPosts(posts, now);
    var cur := CurrentPeriodPosts(posts, now, days);
    var prev := PreviousPeriodPosts(posts, now, days);
    FilterMembers(posts, PublishedTest(now));
    FilterMembers(pub, CurrentTest(w));
    FilterMembers(pub, PreviousTest(w));
    forall i | 0 <= i < |posts|
      ensures posts[i] in cur <==> IsPublished(posts[i], now) && InCurrent(posts[i], w)
      ensures posts[i] in prev <==> IsPublished(posts[i], now) && InPrevious(posts[i], w)
    {
      var x := posts[i];
      if x in cur {
        var j :| 0 <= j < |cur| && cur[j] == x;
        var k :| 0 <= k < |pub| && pub[k] == x;
      }
      if x in prev {
        var j :| 0 <= j < |prev| && prev[j] == x;
        var k :| 0 <= k < |pub| && pub[k] == x;
      }
      if IsPublished(x, now) {
        assert x in pub;
        var k :| 0 <= k < |pub| && pub[k] == x;
      }
    }
    forall c, p | c in cur && p in prev
      ensures DateOf(p) < DateOf(c)
    {
      var j :| 0 <= j < |cur| && cur[j] == c;
      var k :| 0 <= k < |prev| && prev[k] == p;
    }
  }

  // ----------------------------------------------------------------- totals

  /** The accumulator of `calculateTotals`. */
  datatype Counts = Counts(impressions: int, likes: int, comments: int)

  /** The sums of the views, likes and comments over a list of posts, a missing count reading as 0. */
  function TotalsOf(posts: seq<Post>): Counts
  {
    Counts(Sum(posts, Views), Sum(posts, Likes), Sum(posts, Comments))
  }

  /** `calculateTotals` (and the identical reduce over the current posts): one pass updating the accumulator. */
  method CalculateTotals(posts: seq<Post>) returns (acc: Counts)
    ensures acc == TotalsOf(posts)
  {
    acc := Counts(0, 0, 0);
    for i := 0 to |posts|
      invariant acc == TotalsOf(posts[..i])
    {
      assert posts[..i + 1] == posts[..i] + [posts[i]];
      SumSnoc(posts[..i], posts[i], Views);
      SumSnoc(posts[..i], posts[i], Likes);
      SumSnoc(posts[..i], posts[i], Comments);
      acc := acc.(impressions := acc.impressions + Views(posts[i]));
      acc := acc.(likes := acc.likes + Likes(posts[i]));
      acc := acc.(comments := acc.comments + Comments(posts[i]));
    }
    assert posts[..|posts|] == posts;
  }

  /** Totals are never negative, and the totals of two lists put together add up. */
  lemma {:induction false} TotalsAdd(a: seq<Post>, b: seq<Post>)
    ensures TotalsOf(a + b).impressions == TotalsOf(a).impressions + TotalsOf(b).impressions
    ensures TotalsOf(a + b).likes == TotalsOf(a).likes + TotalsOf(b).likes
    ensures TotalsOf(a + b).comments == TotalsOf(a).comments + TotalsOf(b).comments
    ensures TotalsOf(a).impressions >= 0 && TotalsOf(a).likes >= 0 && TotalsOf(a).comments >= 0
  {
    SumAppend(a, b, Views);
    SumAppend(a, b, Likes);
    SumAppend(a, b, Comments);
    SumNonNegative(a, Views);
    SumNonNegative(a, Likes);
    SumNonNegative(a, Comments);
  }

  /** The totals a card shows: the counts plus engagement and engagement rate. */
  datatype PeriodTotals = PeriodTotals(
    impressions: int, likes: int, comments: int, engagement: int, engagementRate: real)

  /**
   * Engagement is likes plus comments; the rate is engagement per impression in
   * percent, and 0 when there are no impressions.
   */
  function WithEngagement(c: Counts): (t: PeriodTotals)
    ensures t.impressions == c.impressions && t.likes == c.likes && t.comments == c.comments
    ensures t.engagement == c.likes + c.comments
    ensures c.impressions <= 0 ==> t.engagementRate == 0.0
  {
    var engagement := c.likes + c.comments;
    var rate := if c.impressions > 0 then (engagement as real / c.impressions as real) * 100.0 else 0.0;
    PeriodTotals(c.impressions, c.likes, c.comments, engagement, rate)
  }

  /** With impressions, the rate is the engagement per hundred impressions. */
  lemma EngagementRateMeaning(c: Counts)
    requires c.impressions > 0
    ensures WithEngagement(c).engagementRate * (c.impressions as real) == 100.0 * (WithEngagement(c).engagement as real)
  {
  }

  // ------------------------------------------------------- change on a card

  /** `calculatePercentageChange`: growth from 0 shows as 100% (or 0% if still 0). */
  function PercentageChange(current: real, previous: real): (r: real)
    ensures previous == 0.0 ==> r == (if current > 0.0 then 100.0 else 0.0)
    ensures previous != 0.0 ==> r * previous == (current - previous) * 100.0
  {
    if previous == 0.0 then (if current > 0.0 then 100.0 else 0.0)
    else ((current - previous) / previous) * 100.0
  }

  /** The card's arrow: up (green) when the change is not negative. */
  predicate IsPositive(change: real)
  {
    change >= 0.0
  }

  /**
   * Against a positive previous value the arrow points up exactly when the value
   * did not fall; from a previous value of 0 the change lies between 0 and 100
   * and the arrow always points up.
   */
  lemma ChangeDirection(current: real, previous: real)
    requires previous >= 0.0
    ensures previous > 0.0 ==> (IsPositive(PercentageChange(current, previous)) <==> current >= previous)
    ensures previous == 0.0 ==>
      0.0 <= PercentageChange(current, previous) <= 100.0 && IsPositive(PercentageChange(current, previous))
  {
    if previous > 0.0 {
      var r := PercentageChange(current, previous);
      assert r * previous == (current - previous) * 100.0;
      if r >= 0.0 {
        assert r * previous >= 0.0;
      } else {
        assert r * previous < 0.0;
      }
    }
  }

  /** The four worked values: 0 → 0, 0 → 5, 5 → 0 and 100 → 150. */
  lemma ChangeExamples()
    ensures PercentageChange(0.0, 0.0) == 0.0
    ensures PercentageChange(5.0, 0.0) == 100.0
    ensures PercentageChange(0.0, 5.0) == -100.0
    ensures PercentageChange(150.0, 100.0) == 50.0
  {
  }

  // -------------------------------------------------------------- top posts

  /** A post decorated with its own engagement rate, as the top-posts table shows it. */
  datatype RankedPost = RankedPost(post: Post, engagementRate: real)

  /** A post's engagement rate: engagement per hundred views, 0 for a post without views. */
  function PostRate(p: Post): (r: real)
    ensures Views(p) == 0 ==> r == 0.0
    ensures Views(p) > 0 ==> r * (Views(p) as real) == 100.0 * (Engagement(p) as real)
  {
    if p.views.Some? && p.views.value != 0 then (Engagement(p) as real / p.views.value as real) * 100.0
    else 0.0
  }

  function Rank(p: Post): RankedPost
  {
    RankedPost(p, PostRate(p))
  }

  /** The sort key: the views, 0 when missing. */
  function RankedViews(r: RankedPost): int
  {
    Views(r.post)
  }

  const TOP_POSTS: nat := 5

  /** The period's posts decorated and sorted by views, descending and stable. */
  function RankedByViews(current: seq<Post>): (r: seq<RankedPost>)
    ensures |r| == |current|
  {
    StableSort.Sort(Map(current, Rank), RankedViews)
  }

  /** Keep the first five. */
  function TopPosts(current: seq<Post>): seq<RankedPost>
  {
    StableSort.Take(RankedByViews(current), TOP_POSTS)
  }

  /** The best post: the first of the table, or none. */
  function BestPost(top: seq<RankedPost>): (r: Option<RankedPost>)
    ensures r.Some? <==> top != []
    ensures r.Some? ==> r.value == top[0]
  {
    if top == [] then None else Some(top[0])
  }

  /** Helper: every element of a mapped sequence is the image of an element of the original. */
  lemma MapMember<T, U>(s: seq<T>, f: T -> U, x: U)
    requires x in Map(s, f)
    ensures exists j :: 0 <= j < |s| && x == f(s[j])
  {
    var k :| 0 <= k < |Map(s, f)| && Map(s, f)[k] == x;
    assert x == f(s[k]);
  }

  /** Helper: each sorted entry is a period post decorated with its own rate. */
  lemma RankedMember(current: seq<Post>, i: nat)
    requires i < |current|
    ensures RankedByViews(current)[i] == Rank(RankedByViews(current)[i].post)
    ensures RankedByViews(current)[i].post in current
  {
    var ranked := Map(current, Rank);
    var x := RankedByViews(current)[i];
    assert x in multiset(RankedByViews(current));
    assert x in ranked;
    MapMember(current, Rank, x);
  }

  /** Helper: an element left after the first `n` sorted entries has no more views than any of them. */
  lemma RankedDominance(current: seq<Post>, n: nat, q: RankedPost)
    requires n <= |current|
    requires q in multiset(Map(current, Rank)) - multiset(RankedByViews(current)[..n])
    ensures forall i :: 0 <= i < n ==> RankedViews(q) <= RankedViews(RankedByViews(current)[i])
  {
    var sorted := RankedByViews(current);
    assert sorted == sorted[..n] + sorted[n..];
    assert multiset(sorted) == multiset(sorted[..n]) + multiset(sorted[n..]);
    assert q in multiset(sorted[n..]);
    var j :| 0 <= j < |sorted[n..]| && sorted[n..][j] == q;
    assert sorted[n + j] == q;
  }

  /** Helper: each shown entry is a period post decorated with its own rate. */
  lemma TopPostsAreRanked(current: seq<Post>)
    ensures forall i :: 0 <= i < |TopPosts(current)| ==>
      TopPosts(current)[i] == Rank(TopPosts(current)[i].post) && TopPosts(current)[i].post in current
  {
    var top := TopPosts(current);
    assert top == RankedByViews(current)[..|top|];
    forall i | 0 <= i < |top|
      ensures top[i] == Rank(top[i].post) && top[i].post in current
    {
      RankedMember(current, i);
    }
  }

  /** Helper: every decorated post left out has no more views than any shown. */
  lemma TopPostsDominate(current: seq<Post>)
    ensures forall q :: q in multiset(Map(current, Rank)) - multiset(TopPosts(current)) ==>
      forall i :: 0 <= i < |TopPosts(current)| ==> RankedViews(q) <= RankedViews(TopPosts(current)[i])
  {
    var top := TopPosts(current);
    assert top == RankedByViews(current)[..|top|];
    forall q | q in multiset(Map(current, Rank)) - multiset(top)
      ensures forall i :: 0 <= i < |top| ==> RankedViews(q) <= RankedViews(top[i])
    {
      RankedDominance(current, |top|, q);
    }
  }

  /**
   * The table holds min(5, n) decorated posts of the period in non-increasing
   * order of views, each at most as often as the period has it, and every
   * post left out has no more views than any shown.
   */
  lemma TopPostsFacts(current: seq<Post>)
    ensures |TopPosts(current)| == if |current| < TOP_POSTS then |current| else TOP_POSTS
    ensures StableSort.SortedDesc(TopPosts(current), RankedViews)
    ensures forall i :: 0 <= i < |TopPosts(current)| ==>
      TopPosts(current)[i] == Rank(TopPosts(current)[i].post) && TopPosts(current)[i].post in current
    ensures forall q :: q in multiset(Map(current, Rank)) - multiset(TopPosts(current)) ==>
      forall i :: 0 <= i < |TopPosts(current)| ==> RankedViews(q) <= RankedViews(TopPosts(current)[i])
    ensures multiset(TopPosts(current)) <= multiset(Map(current, Rank))
  {
    var sorted := RankedByViews(current);
    var k := |TopPosts(current)|;
    assert TopPosts(current) == sorted[..k];
    assert sorted == sorted[..k] + sorted[k..];
    TopPostsAreRanked(current);
    TopPostsDominate(current);
  }

  /** Helper: the first sorted entry has the most views of the period. */
  lemma FirstHasMostViews(current: seq<Post>)
    requires current != []
    ensures forall i :: 0 <= i < |current| ==> Views(current[i]) <= RankedViews(RankedByViews(current)[0])
  {
    var ranked := Map(current, Rank);
    var sorted := RankedByViews(current);
    forall i | 0 <= i < |current|
      ensures Views(current[i]) <= RankedViews(sorted[0])
    {
      assert ranked[i] in multiset(sorted);
      var j :| 0 <= j < |sorted| && sorted[j] == ranked[i];
      assert RankedViews(ranked[i]) == Views(current[i]);
    }
  }

  /** Helper: by stability, the first sorted entry is the earliest period post with its view count. */
  lemma FirstIsEarliestOfItsViews(current: seq<Post>)
    requires current != []
    ensures exists j ::
      0 <= j < |current| && current[j] == RankedByViews(current)[0].post &&
        forall i :: 0 <= i < j ==> Views(current[i]) != RankedViews(RankedByViews(current)[0])
  {
    var ranked := Map(current, Rank);
    StableSort.FirstOfSortIsEarliest(ranked, RankedViews);
    var j :| 0 <= j < |ranked| && ranked[j] == RankedByViews(current)[0] &&
      forall i :: 0 <= i < j ==> RankedViews(ranked[i]) != RankedViews(ranked[j]);
    assert current[j] == ranked[j].post;
    forall i | 0 <= i < j
      ensures Views(current[i]) != RankedViews(RankedByViews(current)[0])
    {
      assert RankedViews(ranked[i]) == Views(current[i]);
    }
  }

  /**
   * The best post has the most views of the period; among posts tied on views it
   * is the one listed first, because the sort is stable.
   */
  lemma BestPostIsFirstMaximum(current: seq<Post>)
    requires current != []
    ensures BestPost(TopPosts(current)).Some?
    ensures forall i :: 0 <= i < |current| ==> Views(current[i]) <= Views(BestPost(TopPosts(current)).value.post)
    ensures exists j ::
      0 <= j < |current| && current[j] == BestPost(TopPosts(current)).value.post &&
        forall i :: 0 <= i < j ==> Views(current[i]) < Views(current[j])
  {
    var sorted := RankedByViews(current);
    assert TopPosts(current)[0] == sorted[0];
    FirstHasMostViews(current);
    FirstIsEarliestOfItsViews(current);
  }

  // ----------------------------------------------------------- daily series

  /** One point of the chart: the start of a local day and the sums over the period's posts of that day. */
  datatype DailyPoint = DailyPoint(date: Time, impressions: int, engagement: int)

  /** A post with a date. */
  function Dated(p: Post): bool
  {
    p.scheduledAt.Some?
  }

  /** The local day number of a dated post (0 for the others, which `Dated` excludes). */
  function DayKey(z: Zone): Post -> int
  {
    (p: Post) => if p.scheduledAt.Some? then DayNumber(z, p.scheduledAt.value) else 0
  }

  /** The posts dated on local day number `d`. */
  function OnDay(z: Zone, d: int): Post -> bool
  {
    KeyAt(Dated, DayKey(z), d)
  }

  /** The posts dated on a local day in [lo, hi). */
  function InDays(z: Zone, lo: int, hi: int): Post -> bool
  {
    KeyIn(Dated, DayKey(z), lo, hi)
  }

  /** Point `i` of `days` is the local day `days - 1 - i` days before today. */
  function Point(current: seq<Post>, now: Time, z: Zone, days: nat, i: nat): (pt: DailyPoint)
    ensures DayNumber(z, pt.date) == DayNumber(z, now) - (days - 1 - i)
    ensures pt.date == StartOfDay(z, pt.date)
  {
    var d := DayNumber(z, now) - (days - 1 - i);
    var date := d * DAY_MS - z.offsetMs;
    assert DayNumber(z, date) == d by {
      assert (date + z.offsetMs) / DAY_MS == (d * DAY_MS) / DAY_MS;
    }
    var onDay := Filter(current, OnDay(z, d));
    DailyPoint(date, Sum(onDay, Views), Sum(onDay, Engagement))
  }

  /** The chart's points: one per consecutive day, ending today. */
  function DailySeries(current: seq<Post>, now: Time, z: Zone, days: nat): (r: seq<DailyPoint>)
    ensures |r| == days
    ensures forall i :: 0 <= i < days ==> r[i] == Point(current, now, z, days, i)
  {
    seq(days, i requires 0 <= i < days => Point(current, now, z, days, i))
  }

  function PointImpressions(pt: DailyPoint): int { pt.impressions }
  function PointEngagement(pt: DailyPoint): int { pt.engagement }

  /** Helper: point `i` sums the views and the engagement of the posts of its day. */
  lemma PointSums(current: seq<Post>, now: Time, z: Zone, days: nat, i: nat)
    ensures Point(current, now, z, days, i).impressions
         == Sum(Filter(current, OnDay(z, DayNumber(z, now) - (days - 1 - i))), Views)
    ensures Point(current, now, z, days, i).engagement
         == Sum(Filter(current, OnDay(z, DayNumber(z, now) - (days - 1 - i))), Engagement)
  {
  }

  /** Helper: the whole series adds up to the posts of its days. */
  lemma SeriesSums(current: seq<Post>, now: Time, z: Zone, days: nat)
    ensures Sum(DailySeries(current, now, z, days), PointImpressions)
         == Sum(Filter(current, InDays(z, DayNumber(z, now) - days + 1, DayNumber(z, now) + 1)), Views)
    ensures Sum(DailySeries(current, now, z, days), PointEngagement)
         == Sum(Filter(current, InDays(z, DayNumber(z, now) - days + 1, DayNumber(z, now) + 1)), Engagement)
  {
    var lo := DayNumber(z, now) - days + 1;
    var series := DailySeries(current, now, z, days);
    forall i | 0 <= i < days
      ensures PointImpressions(series[i]) == Sum(Filter(current, OnDay(z, lo + i)), Views)
      ensures PointEngagement(series[i]) == Sum(Filter(current, OnDay(z, lo + i)), Engagement)
    {
      PointSums(current, now, z, days, i);
      assert DayNumber(z, now) - (days - 1 - i) == lo + i;
    }
    KeyPrefixSums(series, PointImpressions, current, Views, Dated, DayKey(z), lo, days);
    KeyPrefixSums(series, PointEngagement, current, Engagement, Dated, DayKey(z), lo, days);
    assert series[..days] == series;
  }

  /**
   * The chart never shows more than the period's totals; it shows exactly the
   * totals when every post of the period falls on one of the chart's days (the
   * window reaches back to the same clock time `days` days ago, so a post from
   * the early part of that day is counted in the totals but not in the chart).
   */
  lemma SeriesWithinTotals(current: seq<Post>, now: Time, z: Zone, days: nat)
    ensures Sum(DailySeries(current, now, z, days), PointImpressions) <= TotalsOf(current).impressions
    ensures Sum(DailySeries(current, now, z, days), PointEngagement) <= TotalsOf(current).likes + TotalsOf(current).comments
    ensures (forall i :: 0 <= i < |current| ==> InDays(z, DayNumber(z, now) - days + 1, DayNumber(z, now) + 1)(current[i]))
      ==> Sum(DailySeries(current, now, z, days), PointImpressions) == TotalsOf(current).impressions
    ensures (forall i :: 0 <= i < |current| ==> InDays(z, DayNumber(z, now) - days + 1, DayNumber(z, now) + 1)(current[i]))
      ==> Sum(DailySeries(current, now, z, days), PointEngagement) == TotalsOf(current).likes + TotalsOf(current).comments
  {
    var series := DailySeries(current, now, z, days);
    var window := InDays(z, DayNumber(z, now) - days + 1, DayNumber(z, now) + 1);
    SeriesSums(current, now, z, days);
    SumFilterBound(current, Views, window);
    SumFilterBound(current, Engagement, window);
    EngagementSum(current);
    if forall i :: 0 <= i < |current| ==> window(current[i]) {
      FilterAll(current, window);
    }
  }

  /** Helper: summing engagement is summing likes and comments. */
  lemma {:induction false} EngagementSum(posts: seq<Post>)
    ensures Sum(posts, Engagement) == Sum(posts, Likes) + Sum(posts, Comments)
    decreases |posts|
  {
    if posts != [] {
      EngagementSum(posts[..|posts| - 1]);
    }
  }

  // --------------------------------------------------------------- insights

  /** One line of the key-insights card, with the values it interpolates. */
  datatype Insight =
    | TotalPostsInsight(count: nat)
    | AvgImpressionsInsight(average: int)
    | BestPostInsight(impressions: Option<nat>, title: string)
    | TotalEngagementInsight(engagement: int)
    | BestDayInsight(day: string)
    | BestPostTypeInsight(withImage: bool, percent: real)
    | NoBestPostInsight
    | DefaultTipInsight

  /** Position of each kind of insight in the card. */
  function Order(i: Insight): nat
  {
    match i
    case TotalPostsInsight(_) => 0
    case AvgImpressionsInsight(_) => 1
    case BestPostInsight(_, _) => 2
    case TotalEngagementInsight(_) => 3
    case BestDayInsight(_) => 4
    case BestPostTypeInsight(_, _) => 5
    case NoBestPostInsight => 6
    case DefaultTipInsight => 7
  }

  /** `Math.round(a / n)` for a positive `n`: the nearest integer, halves rounded up. */
  function RoundDiv(a: int, n: int): (r: int)
    requires n > 0
    ensures 2 * n * r <= 2 * a + n < 2 * n * (r + 1)
  {
    (2 * a + n) / (2 * n)
  }

  /** The best post's title in the insight: its first thirty characters (all of a shorter text), then an ellipsis. */
  function ShortTitle(content: string): (r: string)
    ensures |r| == (if |content| < 30 then |content| else 30) + 3
    ensures r[..|r| - 3] == content[..|r| - 3]
    ensures r[|r| - 3..] == "..."
  {
    StableSort.Take(content, 30) + "..."
  }

  /** The posts dated on a given weekday. */
  function OnWeekday(z: Zone, w: int): Post -> bool
  {
    (p: Post) => p.scheduledAt.Some? && Weekday(z, p.scheduledAt.value) == w
  }

  /** The impressions of the posts dated on weekday w. */
  function WeekdayImpressions(posts: seq<Post>, z: Zone, w: int): int
  {
    Sum(Filter(posts, OnWeekday(z, w)), Views)
  }

  function WeekdayTable(posts: seq<Post>, z: Zone): (t: seq<int>)
    ensures |t| == 7
  {
    seq(7, w requires 0 <= w < 7 => WeekdayImpressions(posts, z, w))
  }

  /** The `forEach` that adds each dated post's views to the slot of its weekday. */
  method ImpressionsByWeekday(posts: seq<Post>, z: Zone) returns (byDay: seq<int>)
    ensures byDay == WeekdayTable(posts, z)
  {
    byDay := [0, 0, 0, 0, 0, 0, 0];
    for i := 0 to |posts|
      invariant |byDay| == 7
      invariant forall w :: 0 <= w < 7 ==> byDay[w] == WeekdayImpressions(posts[..i], z, w)
    {
      var p := posts[i];
      assert posts[..i + 1] == posts[..i] + [p];
      forall w | 0 <= w < 7
        ensures WeekdayImpressions(posts[..i + 1], z, w)
             == WeekdayImpressions(posts[..i], z, w) + (if OnWeekday(z, w)(p) then Views(p) else 0)
      {
        FilterAppend(posts[..i], [p], OnWeekday(z, w));
        SumAppend(Filter(posts[..i], OnWeekday(z, w)), Filter([p], OnWeekday(z, w)), Views);
      }
      if p.scheduledAt.Some? {
        var day := Weekday(z, p.scheduledAt.value);
        byDay := byDay[day := byDay[day] + Views(p)];
      }
    }
    assert posts[..|posts|] == posts;
  }

  /**
   * The `reduce` over the keys "0".."6": `a` is the best slot among those
   * before `b`; a later slot wins unless the current one is strictly larger.
   */
  function BestDayFrom(byDay: seq<int>, a: nat, b: nat): (r: nat)
    requires |byDay| == 7 && a < b <= 7
    requires forall j :: 0 <= j < b ==> byDay[j] <= byDay[a]
    requires forall j :: a < j < b ==> byDay[j] < byDay[a]
    ensures r < 7
    ensures forall j :: 0 <= j < 7 ==> byDay[j] <= byDay[r]
    ensures forall j :: r < j < 7 ==> byDay[j] < byDay[r]
    decreases 7 - b
  {
    if b == 7 then a
    else BestDayFrom(byDay, if byDay[a] > byDay[b] then a else b, b + 1)
  }

  /** The weekday with the most impressions; on a tie the highest weekday index wins. */
  function BestDayIndex(byDay: seq<int>): (r: nat)
    requires |byDay| == 7
    ensures r < 7
    ensures forall j :: 0 <= j < 7 ==> byDay[j] <= byDay[r]
    ensures forall j :: r < j < 7 ==> byDay[j] < byDay[r]
  {
    BestDayFrom(byDay, 0, 1)
  }

  function Identity(x: int): int { x }

  /** Sum of the engagement of a list of posts divided by its length. */
  function AverageEngagement(posts: seq<Post>): real
    requires posts != []
  {
    (Sum(posts, Engagement) as real) / (|posts| as real)
  }

  function CountInsights(posts: seq<Post>, totals: PeriodTotals): seq<Insight>
  {
    if |posts| > 0 then [TotalPostsInsight(|posts|), AvgImpressionsInsight(RoundDiv(totals.impressions, |posts|))]
    else []
  }

  function BestPostInsights(best: Option<RankedPost>): seq<Insight>
  {
    if best.Some? then [BestPostInsight(best.value.post.views, ShortTitle(best.value.post.content))] else []
  }

  function EngagementInsights(totals: PeriodTotals): seq<Insight>
  {
    if totals.engagement > 0 then [TotalEngagementInsight(totals.engagement)] else []
  }

  /** The best-day line needs some impressions and a seven-entry list of day names. */
  function BestDayInsights(posts: seq<Post>, z: Zone, dayNames: Option<seq<string>>): seq<Insight>
  {
    if |posts| > 0 then BestDayLine(WeekdayTable(posts, z), dayNames) else []
  }

  /** The best-day line for a table of impressions per weekday. */
  function BestDayLine(table: seq<int>, dayNames: Option<seq<string>>): (r: seq<Insight>)
    requires |table| == 7
    ensures r == [] || (|r| == 1 && r[0].BestDayInsight?)
  {
    if Sum(table, Identity) > 0 && dayNames.Some? && |dayNames.value| == 7 then
      [BestDayInsight(dayNames.value[BestDayIndex(table)])]
    else []
  }

  /** How many percent more the better kind of post engages than the other. */
  function Improvement(better: real, worse: real): (r: real)
    requires worse > 0.0
    ensures better > worse ==> r > 0.0
  {
    (better / worse - 1.0) * 100.0
  }

  /** The post has no image. */
  predicate LacksImage(p: Post)
  {
    !HasImage(p)
  }

  /** The image rule: the better kind wins only when the other kind's average is above 0. */
  function ImageInsights(posts: seq<Post>): seq<Insight>
  {
    var with := Filter(posts, HasImage);
    var without := Filter(posts, LacksImage);
    if |with| > 0 && |without| > 0 then
      var a := AverageEngagement(with);
      var b := AverageEngagement(without);
      if a > b && b > 0.0 then [BestPostTypeInsight(true, Improvement(a, b))]
      else if b > a && a > 0.0 then [BestPostTypeInsight(false, Improvement(b, a))]
      else []
    else []
  }

  /** The card's lines: the five rules in order, the fallback when none fired, the tip when fewer than three. */
  function Insights(posts: seq<Post>, totals: PeriodTotals, best: Option<RankedPost>, z: Zone,
                    dayNames: Option<seq<string>>): seq<Insight>
  {
    Finish(FiredInsights(posts, totals, best, z, dayNames))
  }

  /** The fallback when no rule fired, then the tip when fewer than three lines are shown. */
  function Finish(fired: seq<Insight>): seq<Insight>
  {
    var lines := if fired == [] then [NoBestPostInsight] else fired;
    if |lines| < 3 then lines + [DefaultTipInsight] else lines
  }

  /** `KeyInsightsCard`: pushes each line onto the list as its rule fires. */
  method KeyInsights(posts: seq<Post>, totals: PeriodTotals, best: Option<RankedPost>, z: Zone,
                     dayNames: Option<seq<string>>) returns (insights: seq<Insight>)
    ensures insights == Insights(posts, totals, best, z, dayNames)
  {
    insights := [];
    if |posts| > 0 {
      insights := insights + [TotalPostsInsight(|posts|)];
      insights := insights + [AvgImpressionsInsight(RoundDiv(totals.impressions, |posts|))];
    }
    assert insights == CountInsights(posts, totals);
    if best.Some? {
      insights := insights + [BestPostInsight(best.value.post.views, ShortTitle(best.value.post.content))];
    }
    assert insights == CountInsights(posts, totals) + BestPostInsights(best);
    if totals.engagement > 0 {
      insights := insights + [TotalEngagementInsight(totals.engagement)];
    }
    assert insights == CountInsights(posts, totals) + BestPostInsights(best) + EngagementInsights(totals);
    if |posts| > 0 {
      insights := PushBestDay(insights, posts, z, dayNames);
    } else {
      assert insights == insights + BestDayInsights(posts, z, dayNames);
    }
    insights := PushImageComparison(insights, posts);
    assert insights == FiredInsights(posts, totals, best, z, dayNames);
    if |insights| == 0 {
      insights := insights + [NoBestPostInsight];
    }
    if |insights| < 3 {
      insights := insights + [DefaultTipInsight];
    }
  }

  /** The best-day rule: the weekday table filled by the `forEach`, its best slot, its total. */
  method PushBestDay(insights: seq<Insight>, posts: seq<Post>, z: Zone, dayNames: Option<seq<string>>)
    returns (r: seq<Insight>)
    requires |posts| > 0
    ensures r == insights + BestDayInsights(posts, z, dayNames)
  {
    r := insights;
    var byDay := ImpressionsByWeekday(posts, z);
    assert BestDayInsights(posts, z, dayNames) == BestDayLine(byDay, dayNames);
    var bestDay := BestDayIndex(byDay);
    var total := Sum(byDay, Identity);
    if total > 0 && dayNames.Some? && |dayNames.value| == 7 {
      r := r + [BestDayInsight(dayNames.value[bestDay])];
    } else {
      assert r == insights + [];
    }
  }

  /** The image rule: compare the average engagement of posts with and without an image. */
  method PushImageComparison(insights: seq<Insight>, posts: seq<Post>) returns (r: seq<Insight>)
    ensures r == insights + ImageInsights(posts)
  {
    r := insights;
    var with := Filter(posts, HasImage);
    var without := Filter(posts, LacksImage);
    if |with| > 0 && |without| > 0 {
      var a := AverageEngagement(with);
      var b := AverageEngagement(without);
      if a > b && b > 0.0 {
        r := r + [BestPostTypeInsight(true, Improvement(a, b))];
      } else if b > a && a > 0.0 {
        r := r + [BestPostTypeInsight(false, Improvement(b, a))];
      } else {
        assert r == insights + [];
      }
    } else {
      assert r == insights + [];
    }
  }

  /** Helper: the rules fire in card order, at most once each. */
  predicate StrictlyOrdered(s: seq<Insight>)
  {
    forall i, j :: 0 <= i < j < |s| ==> Order(s[i]) < Order(s[j])
  }

  /** Helper: an ordered run of lines whose kinds lie in [lo, hi). */
  predicate Band(s: seq<Insight>, lo: nat, hi: nat)
  {
    StrictlyOrdered(s) && forall i :: 0 <= i < |s| ==> lo <= Order(s[i]) < hi
  }

  lemma BandConcat(a: seq<Insight>, b: seq<Insight>, lo: nat, mid: nat, hi: nat)
    requires lo <= mid <= hi && Band(a, lo, mid) && Band(b, mid, hi)
    ensures Band(a + b, lo, hi)
  {
    forall i, j | 0 <= i < j < |a + b|
      ensures Order((a + b)[i]) < Order((a + b)[j])
    {
      if j < |a| {
        assert (a + b)[i] == a[i] && (a + b)[j] == a[j];
      } else if i < |a| {
        assert (a + b)[i] == a[i] && (a + b)[j] == b[j - |a|];
      } else {
        assert (a + b)[i] == b[i - |a|] && (a + b)[j] == b[j - |a|];
      }
    }
    forall i | 0 <= i < |a + b|
      ensures lo <= Order((a + b)[i]) < hi
    {
      if i < |a| {
        assert (a + b)[i] == a[i];
      } else {
        assert (a + b)[i] == b[i - |a|];
      }
    }
  }

  /** Helper: the count rule contributes the total and the average, in that order, or nothing. */
  lemma CountBand(posts: seq<Post>, totals: PeriodTotals)
    ensures Band(CountInsights(posts, totals), 0, 2) && |CountInsights(posts, totals)| <= 2
  {
  }

  /** Helper: the best-post and engagement rules contribute at most one line each. */
  lemma SingleBands(best: Option<RankedPost>, totals: PeriodTotals)
    ensures Band(BestPostInsights(best), 2, 3) && |BestPostInsights(best)| <= 1
    ensures Band(EngagementInsights(totals), 3, 4) && |EngagementInsights(totals)| <= 1
  {
  }

  /** Helper: the best-day rule contributes at most one best-day line. */
  lemma BestDayBand(posts: seq<Post>, z: Zone, dayNames: Option<seq<string>>)
    ensures Band(BestDayInsights(posts, z, dayNames), 4, 5) && |BestDayInsights(posts, z, dayNames)| <= 1
  {
    if |posts| > 0 {
      BestDayLineBand(WeekdayTable(posts, z), dayNames);
    }
  }

  /** Helper: the best-day line of any table is at most one best-day line. */
  lemma BestDayLineBand(table: seq<int>, dayNames: Option<seq<string>>)
    requires |table| == 7
    ensures Band(BestDayLine(table, dayNames), 4, 5) && |BestDayLine(table, dayNames)| <= 1
  {
  }

  /** Helper: the image rule contributes at most one post-type line. */
  lemma ImageBand(posts: seq<Post>)
    ensures Band(ImageInsights(posts), 5, 6) && |ImageInsights(posts)| <= 1
  {
    var e := ImageInsights(posts);
    assert e == [] || (|e| == 1 && e[0].BestPostTypeInsight?);
  }

  /** Helper: five consecutive bands make one band of at most six lines. */
  lemma FiveBands(a: seq<Insight>, b: seq<Insight>, c: seq<Insight>, d: seq<Insight>, e: seq<Insight>)
    requires Band(a, 0, 2) && |a| <= 2
    requires Band(b, 2, 3) && |b| <= 1 && Band(c, 3, 4) && |c| <= 1
    requires Band(d, 4, 5) && |d| <= 1 && Band(e, 5, 6) && |e| <= 1
    ensures Band(a + b + c + d + e, 0, 6) && |a + b + c + d + e| <= 6
  {
    BandConcat(a, b, 0, 2, 3);
    BandConcat(a + b, c, 0, 3, 4);
    BandConcat(a + b + c, d, 0, 4, 5);
    BandConcat(a + b + c + d, e, 0, 5, 6);
  }

  /** Helper: the fallback and the tip applied to any run of rule lines in [0, 6) holding at most six. */
  lemma FinishShape(fired: seq<Insight>)
    requires Band(fired, 0, 6) && |fired| <= 6
    ensures 2 <= |Finish(fired)| <= 6 && StrictlyOrdered(Finish(fired))
    ensures NoBestPostInsight in Finish(fired) <==> fired == []
    ensures DefaultTipInsight in Finish(fired) <==> |fired| < 3
  {
    var lines := if fired == [] then [NoBestPostInsight] else fired;
    assert Band(lines, 0, 7);
    if |lines| < 3 {
      BandConcat(lines, [DefaultTipInsight], 0, 7, 8);
    }
  }

  /** The lines collected by the five rules: at most six, in card order. */
  function FiredInsights(posts: seq<Post>, totals: PeriodTotals, best: Option<RankedPost>, z: Zone,
                         dayNames: Option<seq<string>>): seq<Insight>
  {
    CountInsights(posts, totals) + BestPostInsights(best) + EngagementInsights(totals)
      + BestDayInsights(posts, z, dayNames) + ImageInsights(posts)
  }

  /**
   * The card always shows between two and six lines, in the fixed order of
   * the rules; the fallback appears exactly when no rule fired and the tip
   * exactly when fewer than three lines were collected.
   */
  lemma InsightsShape(posts: seq<Post>, totals: PeriodTotals, best: Option<RankedPost>, z: Zone,
                      dayNames: Option<seq<string>>)
    ensures 2 <= |Insights(posts, totals, best, z, dayNames)| <= 6
    ensures StrictlyOrdered(Insights(posts, totals, best, z, dayNames))
    ensures NoBestPostInsight in Insights(posts, totals, best, z, dayNames)
      <==> FiredInsights(posts, totals, best, z, dayNames) == []
    ensures DefaultTipInsight in Insights(posts, totals, best, z, dayNames)
      <==> |FiredInsights(posts, totals, best, z, dayNames)| < 3
  {
    CountBand(posts, totals);
    SingleBands(best, totals);
    BestDayBand(posts, z, dayNames);
    ImageBand(posts);
    FiveBands(CountInsights(posts, totals), BestPostInsights(best), EngagementInsights(totals),
              BestDayInsights(posts, z, dayNames), ImageInsights(posts));
    FinishShape(FiredInsights(posts, totals, best, z, dayNames));
  }

  /** With no posts, no best post and no engagement the card shows the fallback and the tip. */
  lemma InsightsForNoPosts(totals: PeriodTotals, z: Zone, dayNames: Option<seq<string>>)
    requires totals.engagement <= 0
    ensures Insights([], totals, None, z, dayNames) == [NoBestPostInsight, DefaultTipInsight]
  {
    assert Filter([], HasImage) == [];
  }

  /** Image posts averaging 100 engagements against 50 for the others are reported as 100% better. */
  lemma ImageRuleExample(z: Zone)
    ensures var withImg := Post("a", "x", Some(0), Scheduled, Some("img"), Some(1000), Some(100), Some(0), None);
      var plain := Post("b", "y", Some(0), Scheduled, None, Some(1000), Some(50), Some(0), None);
      ImageInsights([withImg, plain]) == [BestPostTypeInsight(true, 100.0)]
  {
    var withImg := Post("a", "x", Some(0), Scheduled, Some("img"), Some(1000), Some(100), Some(0), None);
    var plain := Post("b", "y", Some(0), Scheduled, None, Some(1000), Some(50), Some(0), None);
    assert Filter([withImg, plain], HasImage) == [withImg];
    assert Filter([withImg, plain], LacksImage) == [plain];
    assert [withImg][..0] == [];
    assert [plain][..0] == [];
  }

  // ------------------------------------------------------------ whole page

  datatype Report =
    | NoData
    | Report(totals: PeriodTotals, previous: PeriodTotals, top: seq<RankedPost>,
             best: Option<RankedPost>, daily: seq<DailyPoint>, insights: seq<Insight>)

  /** The totals of one period as a card shows them. */
  method TotalsCard(posts: seq<Post>) returns (t: PeriodTotals)
    ensures t == WithEngagement(TotalsOf(posts))
  {
    var counts := CalculateTotals(posts);
    t := WithEngagement(counts);
  }

  /** Everything the page renders for a range; with no post in the current period only the empty state. */
  function PageReport(posts: seq<Post>, now: Time, z: Zone, range: DateRange, dayNames: Option<seq<string>>)
    : (r: Report)
    ensures r.NoData? <==> CurrentPeriodPosts(posts, now, RangeDays(range)) == []
  {
    var current := CurrentPeriodPosts(posts, now, RangeDays(range));
    if current == [] then NoData
    else
      var totals := WithEngagement(TotalsOf(current));
      var top := TopPosts(current);
      Report(totals, WithEngagement(TotalsOf(PreviousPeriodPosts(posts, now, RangeDays(range)))), top,
             BestPost(top), DailySeries(current, now, z, ChartDays(range)),
             Insights(current, totals, BestPost(top), z, dayNames))
  }

  /** The page component: the totals loops and the insight card's pushes, assembled into a report. */
  method StatisticsPage(posts: seq<Post>, now: Time, z: Zone, range: DateRange, dayNames: Option<seq<string>>)
    returns (report: Report)
    ensures report == PageReport(posts, now, z, range, dayNames)
  {
    var days := RangeDays(range);
    var current := CurrentPeriodPosts(posts, now, days);
    var previous := PreviousPeriodPosts(posts, now, days);
    var prevTotals := TotalsCard(previous);
    var totals := TotalsCard(current);
    var top := TopPosts(current);
    var best := BestPost(top);
    var daily := DailySeries(current, now, z, ChartDays(range));
    var insights := KeyInsights(current, totals, best, z, dayNames);
    if current == [] {
      report := NoData;
    } else {
      report := Report(totals, prevTotals, top, best, daily, insights);
    }
  }

  /**
   * With posts in the period the page shows at most five top posts headed by
   * the best one, one chart point per day of the chart, and two to six insight lines.
   */
  lemma PageReportFacts(posts: seq<Post>, now: Time, z: Zone, range: DateRange, dayNames: Option<seq<string>>)
    requires CurrentPeriodPosts(posts, now, RangeDays(range)) != []
    ensures PageReport(posts, now, z, range, dayNames).Report?
    ensures 1 <= |PageReport(posts, now, z, range, dayNames).top| <= TOP_POSTS
    ensures PageReport(posts, now, z, range, dayNames).best
         == Some(PageReport(posts, now, z, range, dayNames).top[0])
    ensures |PageReport(posts, now, z, range, dayNames).daily| == ChartDays(range)
    ensures 2 <= |PageReport(posts, now, z, range, dayNames).insights| <= 6
  {
    var current := CurrentPeriodPosts(posts, now, RangeDays(range));
    TopPostsFacts(current);
    var top := TopPosts(current);
    InsightsShape(current, WithEngagement(TotalsOf(current)), BestPost(top), z, dayNames);
  }
}
