# Kolink dashboard core, modelled in Dafny

Kolink is a single-page dashboard for planning LinkedIn posts. It keeps drafts
and scheduled posts and shows their statistics. It generates drafts with an AI
service and suggests posts in an "autopilot" mode. It spends credits bought
with a plan and awards experience points and levels for using the app.

This project models the state and the decision logic of that dashboard:

- **Stores.** The React contexts (posts, gamification, credits, plan,
  personalization, knowledge base, inspiration, generation history) are
  classes. Their fields are the context state, and their methods are the
  context operations, each with a `modifies` clause.
- **Screens.** The handlers of the my posts, autopilot, generator,
  knowledge base, header, dashboard tour, login and security screens are
  methods on a class holding that screen's state. A handler that calls
  another context receives that context's store object. Three screens take
  other forms:
  - the help centre is a state record with transition functions;
  - plan selection is a method on the plan and credit stores;
  - the profile's handle field is a function.
- **Derived values.** Totals, top posts, daily series, insights, the panel
  aggregates, the calendar buckets, the post list filter, translations and
  the email check are functions. Lemmas state what the dashboard promises
  about them.

The shared modules are:

- `Types`: the records of `types.ts`;
- `Clock`: integer millisecond time with a fixed local zone offset, calendar
  days and weekdays;
- `Seqs`: filter, map and sum over sequences;
- `StableSort`: the stable descending sort JavaScript's `Array.prototype.sort`
  performs with a numeric comparator;
- `Text`: ECMAScript `trim`, ASCII case mapping, `includes`, `split`, `join`
  and `replace` with a global pattern.

Where the documented behaviour and the code differ, the model follows the code:

- **Best weekday.** Ties go to the highest weekday index, because the `reduce`
  keeps a later day on `>=`.
- **Image insight.** The rule also needs the smaller of the two averages to be
  positive.
- **Post status.** A scheduled post without a date counts as published.
- **Character counter.** It turns orange above 2850 characters.

## Model

| member | source | states |
|---|---|---|
| Types.Views | components/Statistics.tsx:59 | a missing view count reads as 0, so the count is never negative |
| Types.Likes | components/Statistics.tsx:60 | a missing like count reads as 0, so the count is never negative |
| Types.Comments | components/Statistics.tsx:61 | a missing comment count reads as 0, so the count is never negative |
| Types.Engagement | components/Statistics.tsx:362 | a post's engagement is at least its likes and at least its comments |
| Types.PublishedPosts | components/Statistics.tsx:52 | every post kept is scheduled with a date that is not after now |
| Clock.StartOfDay | components/Statistics.tsx:104-108 | midnight of the local day holding an instant: at or before it, less than a day before, on the same day |
| Clock.SameDayIffSameStart | components/Statistics.tsx:108-109 | two instants are on the same local day exactly when their midnights coincide |
| Clock.HourOf | components/Panel.tsx:93 | the local hour is between 0 and 23 |
| Clock.Weekday | components/Statistics.tsx:346 | the weekday is between 0 (Sunday) and 6 |
| Clock.NextDay | components/MyPosts.tsx:355 | one day later is the next local day and the next weekday |
| Clock.FifthOfJanuaryAndFebruary | components/MyPosts.tsx:156 | 1970-01-05 and 1970-02-05 are both the 5th of their month |
| PostsContext.Merge | context/PostsContext.tsx:106 | a field the update leaves out keeps its value, and an empty update changes nothing |
| PostsContext.NewPost | context/PostsContext.tsx:93-100 | the new post has the fresh id and the given text, and is an undated draft in the to-do column |
| PostsContext.UpdatedPosts | context/PostsContext.tsx:104-108 | the list keeps its length; posts with the id are merged, the others stay; with no such post nothing changes |
| PostsContext.Seed | context/PostsContext.tsx:16-91 | the list starts with seven posts |
| PostsContext.SeedFacts | context/PostsContext.tsx:16-91 | in the seed a post is a draft exactly when it is undated, and the seven ids differ |
| PostsContext.AddKeepsDraftIffUndated | context/PostsContext.tsx:93-101 | adding keeps "a post is a draft exactly when it is undated" |
| PostsContext.UpdateKeepsDraftIffUndated | context/PostsContext.tsx:104-108 | an update leaving status and date alone, or setting both to a dated schedule, keeps "draft exactly when undated" |
| PostsContext.RemoveEffect | context/PostsContext.tsx:110-114 | deleting removes every post with the id, keeps all others in order, and changes nothing when no post has the id |
| PostsContext.RemovedPosts | context/PostsContext.tsx:112 | definition only: the posts whose id differs, in order; `RemoveEffect` states what deleting removes and keeps |
| PostsContext.PostStore.constructor | context/PostsContext.tsx:13-16 | the store starts with the seed, dated from the moment the module loads |
| PostsContext.PostStore.AddPost | context/PostsContext.tsx:93-102 | the new draft goes in front, and the earlier posts follow in their order |
| PostsContext.PostStore.UpdatePost | context/PostsContext.tsx:104-108 | the list becomes the merged list |
| PostsContext.PostStore.DeletePost | context/PostsContext.tsx:110-114 | posts with the id are removed only after confirmation; otherwise the list is unchanged |
| StableSort.Insert | components/Statistics.tsx:96 | inserting one element into a sequence gives one more element, the same multiset plus that element, headed by the new element or the old head |
| StableSort.InsertSorted | components/Statistics.tsx:96 | inserting into a sequence sorted by descending key keeps it sorted |
| StableSort.Sort | components/Statistics.tsx:96 | the comparator sort `(a, b) => key(b) - key(a)` returns a permutation of its input, sorted by descending key |
| StableSort.SortIsStable | components/MyPosts.tsx:245 | elements with equal keys come out in their input order, as ECMAScript's stable `Array.prototype.sort` guarantees |
| StableSort.FirstOfSortIsEarliest | components/Statistics.tsx:96-97 | the first element after sorting is the earliest input element with its key |
| StableSort.Take | components/Statistics.tsx:97 | `slice(0, n)` keeps the first min(n, length) elements |
| Statistics.RangeDays | components/Statistics.tsx:39-45 | `7d` gives 7 days, `90d` gives 90, `30d` gives 30, and no other length occurs |
| Statistics.ChartCoversPeriod | components/Statistics.tsx:101 | the chart's own length conditional gives the same number of days as the window switch, for every range |
| Statistics.PeriodWindows | components/Statistics.tsx:47-50 | the current window ends now and spans `days` whole days; the previous window ends where the current one starts and spans as many days |
| Statistics.PeriodMembership | components/Statistics.tsx:52-55 | a post is in the current period iff it is published and dated in [start, now]; in the previous period iff published and dated in [prevStart, start); every current post is later than every previous post, so no post is in both |
| Statistics.CurrentPeriodPosts | components/Statistics.tsx:52-54 | definition only: the published posts that pass the current window's test; `PeriodMembership` states which posts they are |
| Statistics.PreviousPeriodPosts | components/Statistics.tsx:52-55 | definition only: the published posts that pass the previous window's test; `PeriodMembership` states which posts they are and that no post is in both periods |
| Statistics.CalculateTotals | components/Statistics.tsx:57-64 | the accumulating loop ends with the sums of `views`, `likes` and `comments`, a missing field counting 0 |
| Statistics.TotalsAdd | components/Statistics.tsx:57-64 | totals are never negative, and the totals of two lists put together are the sums of their totals |
| Statistics.WithEngagement | components/Statistics.tsx:68-75 | engagement is likes plus comments and the rate is 0 when there are no impressions |
| Statistics.EngagementRateMeaning | components/Statistics.tsx:69 | with impressions, the rate is the engagement per hundred impressions |
| Statistics.PercentageChange | components/Statistics.tsx:185-190 | against a previous 0 the change is 100 if the value grew and 0 otherwise; else it is (current − previous)/previous·100 |
| Statistics.ChangeDirection | components/Statistics.tsx:194-195 | against a positive previous value the arrow points up iff the value did not fall; against 0 the change lies in [0, 100] and points up |
| Statistics.ChangeExamples | components/Statistics.tsx:185-190 | 0→0 gives 0, 0→5 gives 100, 5→0 gives −100, 100→150 gives 50 |
| Statistics.PostRate | components/Statistics.tsx:95 | a post without views has rate 0; otherwise rate·views = 100·(likes + comments) |
| Statistics.RankedByViews | components/Statistics.tsx:94-96 | the decorated, sorted list has one entry per period post |
| Statistics.BestPost | components/Statistics.tsx:99 | the best post is the first table entry, and there is none exactly when the table is empty |
| Statistics.TopPostsFacts | components/Statistics.tsx:94-97 | the table holds min(5, n) entries in non-increasing order of views, each a period post carrying its own rate and no more often than the period holds it, and every post left out has no more views than any shown |
| Statistics.TopPosts | components/Statistics.tsx:94-97 | definition only: the first five of the posts ranked by views; `TopPostsFacts`, `FirstHasMostViews` and `BestPostIsFirstMaximum` state its order, size and contents |
| Statistics.BestPostIsFirstMaximum | components/Statistics.tsx:94-99 | the best post has the most views of the period, and among posts tied on views it is the one listed first (the sort is stable) |
| Statistics.Point | components/Statistics.tsx:102-109 | point i is local midnight of the day `days − 1 − i` days before today |
| Statistics.DailySeries | components/Statistics.tsx:101-114 | the series has exactly `days` points, point i being that day's point |
| Statistics.SeriesWithinTotals | components/Statistics.tsx:101-114 | the chart's impressions and engagement never exceed the period totals, and equal them when every period post falls on a chart day |
| Statistics.RoundDiv | components/Statistics.tsx:326 | `Math.round(a / n)`: the nearest integer, halves rounded up |
| Statistics.ShortTitle | components/Statistics.tsx:333 | the first 30 characters (or all of a shorter text) followed by `...`, stated both for the kept prefix and for the suffix |
| Statistics.ImpressionsByWeekday | components/Statistics.tsx:343-349 | after the `forEach`, slot w holds the summed views of the dated posts of weekday w |
| Statistics.BestDayIndex | components/Statistics.tsx:350 | the chosen weekday has the most impressions and every later weekday has strictly fewer: ties go to the highest index |
| Statistics.BestDayLine | components/Statistics.tsx:351-355 | the best-day rule adds at most one line, a best-day line |
| Statistics.Improvement | components/Statistics.tsx:366-369 | the reported percentage is positive when the better kind engages more |
| Statistics.KeyInsights | components/Statistics.tsx:321-383 | the sequence of pushes builds exactly the card's line list |
| Statistics.PushBestDay | components/Statistics.tsx:341-356 | the best-day rule appends its line, if any, to the lines so far |
| Statistics.PushImageComparison | components/Statistics.tsx:358-372 | the image rule appends its line, if any, to the lines so far |
| Statistics.InsightsShape | components/Statistics.tsx:319-383 | the card shows between 2 and 6 lines in the fixed rule order; the fallback appears iff no rule fired, the tip iff fewer than 3 lines were collected |
| Statistics.InsightsForNoPosts | components/Statistics.tsx:324-380 | with no posts, no best post and no engagement the card is exactly the fallback and the tip |
| Statistics.ImageRuleExample | components/Statistics.tsx:358-372 | image posts averaging 100 engagements against 50 are reported as 100% better |
| Statistics.ImageInsights | components/Statistics.tsx:358-372 | definition only: the image rule, one line when both kinds of post exist and the better kind's average beats a positive other average; `ImageBand` states it adds at most one line |
| Statistics.Insights | components/Statistics.tsx:319-383 | definition only: the five rules in order, then the fallback and the tip; `KeyInsights` is proved to compute it and `InsightsShape` states its shape |
| Statistics.TotalsCard | components/Statistics.tsx:66-75 | a card's totals are the period sums with engagement and rate |
| Statistics.PageReport | components/Statistics.tsx:150-180 | the page shows only the empty state exactly when the current period has no post |
| Statistics.StatisticsPage | components/Statistics.tsx:37-123 | the page's loops and pushes assemble exactly the page report |
| Statistics.PageReportFacts | components/Statistics.tsx:94-123 | with posts in the period: 1 to 5 top posts headed by the best one, one chart point per day and 2 to 6 insight lines |
| Panel.TotalPublishedPosts | components/Panel.tsx:82-83 | the post count is the size of the published selection, never more than the posts |
| Panel.PublishedMembership | components/Panel.tsx:82 | a post is counted exactly when it is scheduled with a date not after now |
| Panel.TotalImpressions | components/Panel.tsx:84 | the summed views of the published posts, a missing count being 0, are never negative |
| Panel.RateFacts | components/Panel.tsx:86-89 | the average rate is never negative, is 0 when no published post has views, and divides by exactly the panel's total impressions |
| Panel.PostsWithStats | components/Panel.tsx:86 | definition only: the published posts with a positive view count; `RateFacts` and `UnviewedPostsDoNotCount` state what the rate built on it does |
| Panel.AverageEngagementRate | components/Panel.tsx:86-89 | definition only: the engagement of the viewed published posts per hundred of their views, 0 without views; `RateFacts` and `UnviewedPostsDoNotCount` state its properties |
| Panel.UnviewedPostsDoNotCount | components/Panel.tsx:86-89 | adding posts without views leaves the average engagement rate unchanged |
| Panel.GreetingForHour | components/Panel.tsx:92-97 | morning iff the hour is below 12, afternoon iff it is in [12, 18), night iff it is 18 or more; the three cases are disjoint and cover every hour |
| Panel.ProgressBounds | components/Panel.tsx:17 | with 0 ≤ xp < xpForNextLevel the bar is filled to at least 0 and less than 100 percent |
| Panel.Progress | components/Panel.tsx:17 | definition only: the percentage of the next level's XP gathered, 100 when no XP is needed; `ProgressBounds` states its range |
| MyPosts.GetStatus | components/MyPosts.tsx:231-235 | a draft is a draft, a scheduled post with a date after now is scheduled, everything else is published, and `all` is never answered |
| MyPosts.ListPublishedVersusStatistics | components/MyPosts.tsx:231-235 | the list calls a post published exactly when the statistics do, or when it is scheduled without a date |
| MyPosts.FilteredPosts | components/MyPosts.tsx:237-246 | the list is sorted by date, latest first, and is a reordering of the posts passing the status filter and the search |
| MyPosts.FilteredPostsMembers | components/MyPosts.tsx:240-244 | a post is listed exactly when it is in the posts and passes both the status filter and the search |
| MyPosts.ShowAllListsEveryPost | components/MyPosts.tsx:241-242 | with `all` and an empty search the list is a reordering of every post |
| MyPosts.UndatedPostsComeLast | components/MyPosts.tsx:245 | when every date is after the epoch, no undated post is listed before a dated one |
| MyPosts.SameDateKeepsListOrder | components/MyPosts.tsx:245 | posts with the same date keep their relative order from the filtered list |
| MyPosts.SearchIgnoresQueryCase | components/MyPosts.tsx:242 | lower-casing the query does not change which posts match |
| MyPosts.ScheduledPostsByDay | components/MyPosts.tsx:153-162 | a day is a key exactly when some scheduled, dated post falls on that day of a month, and its array holds those posts in list order |
| MyPosts.Bucket | components/MyPosts.tsx:153-162 | definition only: the posts dated on a given day of any month, in list order; `ScheduledPostsByDay` and `EachCalendarPostInOneBucket` state how they fill the buckets |
| MyPosts.EachCalendarPostInOneBucket | components/MyPosts.tsx:155-158 | a scheduled, dated post is in the bucket of its own day of the month and in no other; any other post is in none |
| MyPosts.CellShowsOtherMonths | components/MyPosts.tsx:156-180 | a post of 5 February appears in the cell of 5 January, because the bucket key is the day of the month alone |
| MyPosts.CellAsWritten | components/MyPosts.tsx:177-180 | definition only: the grid's cell, looked up by the day of the month alone; `CellShowsOtherMonths` shows a post appearing in the wrong month |
| MyPosts.CellHoldsItsDateOnly | components/MyPosts.tsx:177-180 | a cell keyed by its whole date holds exactly the scheduled, dated posts of that date, in list order |
| MyPosts.Cell | components/MyPosts.tsx:177-180 | definition only: the corrected cell, looked up by the whole local date; `CellHoldsItsDateOnly` states what it holds |
| MyPosts.FirstDayOffset | components/MyPosts.tsx:145 | the blank cells before the 1st number 0 to 6, with Monday first: 6 for a Sunday, 0 for a Monday |
| MyPosts.Find | components/MyPosts.tsx:26 | no result exactly when no post has the id; otherwise the first post with the id |
| MyPosts.MergeWholePost | components/MyPosts.tsx:46-47 | merging a whole post into another gives that post |
| MyPosts.InitialScheduleDateCases | components/MyPosts.tsx:355 | the modal starts at the post's date, else at the drop date, else at the same time on the next local day, in any zone |
| MyPosts.InitialScheduleDate | components/MyPosts.tsx:355 | definition only: the post's date, else the drop date, else the same time tomorrow; `InitialScheduleDateCases` states the three cases |
| MyPosts.LocalMinutes | components/MyPosts.tsx:357 | the time field is a minute of the local day, 0 to 1439 |
| MyPosts.UntouchedFormMovesPostAsWritten | components/MyPosts.tsx:356-360 | at UTC+2 a post at 01:00 local time, saved untouched, moves one day back |
| MyPosts.InitialFormAsWritten | components/MyPosts.tsx:355-357 | definition only: the modal's starting fields, with the date field taken from the UTC day; `UntouchedFormMovesPostAsWritten` shows the day shift |
| MyPosts.UntouchedFormKeepsDate | components/MyPosts.tsx:355-360 | with the date field taken from the local day, an untouched save keeps the post's instant to the minute and keeps its local day |
| MyPosts.InitialForm | components/MyPosts.tsx:355-357 | definition only: the corrected starting fields, with the date field taken from the local day; `UntouchedFormKeepsDate` states that an untouched save keeps the date |
| MyPosts.SavedPost | components/MyPosts.tsx:363-369 | the saved post keeps its id, image and counts, is scheduled at the form's local date and time, and takes the form's text and task column |
| MyPosts.SaveReplacesPost | components/MyPosts.tsx:363-369 | saving replaces every post with the id by the saved one, leaves the others, and keeps "draft exactly when undated" |
| MyPosts.MyPostsView.constructor | components/MyPosts.tsx:15-17 | the modal starts closed, with no post and no drop date |
| MyPosts.MyPostsView.HandleDrop | components/MyPosts.tsx:25-32 | only a draft found by its id opens the modal, on that post and the drop date; otherwise nothing changes |
| MyPosts.MyPostsView.HandlePostClick | components/MyPosts.tsx:34-38 | the modal opens on the post, without a drop date |
| MyPosts.MyPostsView.HandleCloseModal | components/MyPosts.tsx:40-44 | the modal closes and forgets the post and the drop date |
| MyPosts.MyPostsView.HandleSavePost | components/MyPosts.tsx:46-49 | the whole post is merged into the posts with its id, and the modal closes |
| MyPosts.MyPostsView.HandleDeletePost | components/MyPosts.tsx:51-54 | the post is removed when confirmed, and the modal closes either way |
| MyPosts.MyPostsView.HandleTaskStatusChange | components/MyPosts.tsx:248-251 | only the task column of the posts with the id changes, and the task-status success toast is shown |
| MyPosts.MyPostsView.SaveFromModal | components/MyPosts.tsx:359-377 | the post is saved scheduled at the form's date and time and the modal closes; a draft settles 15 XP and shows the level-ups, the XP message and the scheduling message, any other post shows only the update message |
| Gamification.ISqrtIsRoot | context/GamificationContext.tsx:19 | the integer square root is the largest number whose square does not exceed its argument |
| Gamification.ISqrt | context/GamificationContext.tsx:19 | definition only: the integer square root, computed two bits at a time; `ISqrtIsRoot`, `RootIsLargest` and `RootIsBelow` state that it is the floor of the square root |
| Gamification.XpForLevel | context/GamificationContext.tsx:19 | definition only: `100 * level^1.5` rounded down, taken as the integer square root of `10000 * level^3`; `XpAtLeast100`, `XpBelowSquare`, `XpIncreasing` and `XpMonotone` state its bounds and growth |
| Gamification.RootIsLargest | context/GamificationContext.tsx:19 | no number whose square fits below the argument is larger than the integer square root |
| Gamification.RootIsBelow | context/GamificationContext.tsx:19 | every number whose square exceeds the argument is larger than the integer square root |
| Gamification.XpAtLeast100 | context/GamificationContext.tsx:19 | from level 1 on, every level needs at least 100 XP |
| Gamification.XpBelowSquare | context/GamificationContext.tsx:19 | level `l` needs at most `100 * l * l` XP |
| Gamification.XpIncreasing | context/GamificationContext.tsx:19 | every level needs strictly more XP than the one before |
| Gamification.XpMonotone | context/GamificationContext.tsx:19 | a higher level never needs less XP |
| Gamification.TierForLevel | context/GamificationContext.tsx:21-26 | each tier holds exactly its band of levels: 20 and up, 10 to 19, 5 to 9, below 5 |
| Gamification.TierMonotone | context/GamificationContext.tsx:21-26 | the tier never drops as the level rises |
| Gamification.Settle | context/GamificationContext.tsx:39-48 | the level only rises, the XP left is below the need of the level reached and is not negative when the XP given was not, and the XP left plus the needs paid is the XP given |
| Gamification.LevelUps | context/GamificationContext.tsx:45-46 | the levels announced are each level reached, one to the next, in increasing order |
| Gamification.AddXpLoop | context/GamificationContext.tsx:39-48 | the loop ends at the settled level and XP and collects one level-up per level gained |
| Gamification.LevelUpToasts | context/GamificationContext.tsx:46 | one level-up toast per level reached, in order |
| Gamification.GamificationStore.constructor | context/GamificationContext.tsx:31-32 | the store starts at level 1 with 0 XP |
| Gamification.GamificationStore.XpForNextLevel | context/GamificationContext.tsx:34 | definition only: the need of the current level, `XpForLevel(level)` |
| Gamification.GamificationStore.CurrentTier | context/GamificationContext.tsx:35 | definition only: the tier of the current level, whose bands `TierForLevel` states |
| Gamification.GamificationStore.AddXp | context/GamificationContext.tsx:37-54 | the level never drops below 1 nor goes down, the new standing is the settled one, and the toasts are the level-ups followed by the caller's message |
| Gamification.AddXpKeepsStanding | context/GamificationContext.tsx:39-48 | adding a non-negative amount to a settled standing leaves the XP between 0 and the next need, with one toast per level gained |
| Gamification.NoLevelUp | context/GamificationContext.tsx:43 | below the current level's need, the level stays and the XP grows by the amount |
| Gamification.FirstLevelUp | context/GamificationContext.tsx:40-48 | 100 XP at level 1 reach level 2 with nothing left over |
| Credits.Spend | context/CreditContext.tsx:23-29 | the spend succeeds exactly when the balance covers the amount, and then pays it; otherwise the balance stays |
| Credits.SpendKeepsNonNegative | context/CreditContext.tsx:23-29 | spending never takes a non-negative balance below 0 |
| Credits.CreditStore.constructor | context/CreditContext.tsx:13 | the balance starts at 10 |
| Credits.CreditStore.AddCredits | context/CreditContext.tsx:15-17 | the amount is added to the balance |
| Credits.CreditStore.SetCredits | context/CreditContext.tsx:19-21 | the balance becomes the amount |
| Credits.CreditStore.UseCredit | context/CreditContext.tsx:23-29 | the answer and the new balance are those of the spend |
| PlanContext.PlanStore.constructor | context/PlanContext.tsx:12 | the plan starts as Free |
| PlanContext.PlanStore.SetPlan | context/PlanContext.tsx:15 | the plan becomes the one given |
| PlanSelection.Plans | components/settings/PlanSelectionModal.tsx:18-46 | three plans are on offer |
| PlanSelection.PlansFacts | components/settings/PlanSelectionModal.tsx:18-46 | Free cannot be chosen, each paid plan appears once, only Standard is marked popular, and every plan grants credits |
| PlanSelection.SelectPlan | components/settings/PlanSelectionModal.tsx:48-50 | the account takes the chosen plan and exactly that plan's credit amount |
| PlanSelection.SelectIsOverwrite | components/settings/PlanSelectionModal.tsx:48-50 | the result does not depend on the account before, so choosing twice is the same as choosing once |
| PlanSelection.HandleSelectPlan | components/settings/PlanSelectionModal.tsx:48-53 | the plan store and the credit store together move to the selected account |
| Billing.TotalCredits | components/settings/BillingSettings.tsx:17-25 | every plan has a positive credit total |
| Billing.UsageNotClamped | components/settings/BillingSettings.tsx:26 | the usage is 100% at the plan's total, below 100% under it, and above 100% over it, since nothing clamps it |
| Billing.UsagePercentage | components/settings/BillingSettings.tsx:26 | definition only: the balance as a percentage of the plan's total, 0 for a zero total; `UsageNotClamped`, `FullAfterSelection` and `FullAtStart` state its values |
| Billing.FullAfterSelection | components/settings/BillingSettings.tsx:17-26 | each plan on offer grants exactly its billing total, so right after choosing it the usage reads 100% |
| Billing.FullAtStart | components/settings/BillingSettings.tsx:17-26 | the starting 10 credits on Free read 100% |
| Autopilot.InitialKeywordsValid | components/Autopilot.tsx:44-60 | the three starting keywords are at most five and none repeats |
| Autopilot.AddKeyword | components/Autopilot.tsx:158-164 | the trimmed keyword is appended exactly when it is not blank, not yet listed and the list has room; otherwise the list stays; the warning shows exactly when the list is full |
| Autopilot.AddKeepsKeywordsValid | components/Autopilot.tsx:158-164 | adding keeps at most five keywords and none repeated |
| Autopilot.RemoveKeywordEffect | components/Autopilot.tsx:148-150 | removal drops every copy of the keyword, keeps the others in order, and keeps the list valid |
| Autopilot.RemoveKeyword | components/Autopilot.tsx:148-150 | definition only: the keywords other than the removed one, in order; `RemoveKeywordEffect` states its effect |
| Autopilot.MergeThemes | components/Autopilot.tsx:71-72 | the merged list has at most five keywords and starts with the current ones |
| Autopilot.MergeAddsNewThemes | components/Autopilot.tsx:71-72 | everything added is a theme of the reply not yet listed, and while the list is not full no such theme is left out |
| Autopilot.MergeKeepsKeywordsValid | components/Autopilot.tsx:71-72 | a reply without repeated themes keeps the list free of repeats and at most five long |
| Autopilot.RepeatedThemeIsKeptTwice | components/Autopilot.tsx:71-72 | a reply naming a new theme twice puts it in the list twice |
| Autopilot.AnalyzeLockedBelowThreshold | components/Autopilot.tsx:61-63 | with fewer than five posts, hence fewer than five published ones, the analysis stays locked |
| Autopilot.AnalyzeEnabled | components/Autopilot.tsx:238 | definition only: the analyse button is enabled while no analysis runs and with at least five published posts; `AnalyzeLockedBelowThreshold` states the lock |
| Autopilot.AnalyzeUnlocksAtFifthPublished | components/Autopilot.tsx:61-63 | a post added in front lifts the lock exactly when it is published and four published posts were there before; an unpublished post never changes the button |
| Autopilot.NewSuggestions | components/Autopilot.tsx:118-122 | one pending suggestion per content of the reply, in the reply's order, with that content |
| Autopilot.Marked | components/Autopilot.tsx:134-146 | the suggestions with the id take the new status and nothing else changes |
| Autopilot.FindSuggestion | components/Autopilot.tsx:135 | no result exactly when no suggestion has the id; otherwise the first suggestion of the list with that id |
| Autopilot.AutopilotState.constructor | components/Autopilot.tsx:39-49 | three starting keywords, no suggestions, three posts a week, no topics, knowledge on, no error |
| Autopilot.AutopilotState.HandleAddKeyword | components/Autopilot.tsx:158-164 | the list and the warning are those of the add, it stays at most five long and free of repeats; the suggestions, the error, the frequency, the topics and the knowledge switch are kept |
| Autopilot.AutopilotState.HandleRemoveKeyword | components/Autopilot.tsx:148-150 | the list becomes the filtered list and stays valid; the suggestions, the error, the frequency, the topics and the knowledge switch are kept |
| Autopilot.AutopilotState.HandleClearKeywords | components/Autopilot.tsx:152-156 | the list is emptied only after confirmation; the suggestions, the error, the frequency, the topics and the knowledge switch are kept |
| Autopilot.AutopilotState.HandleAnalyze | components/Autopilot.tsx:65-81 | a reply is merged and clears the error; a failed call keeps the list and sets the analysis error; the suggestions, the frequency, the topics and the knowledge switch are kept |
| Autopilot.AutopilotState.HandleGenerate | components/Autopilot.tsx:83-132 | nothing happens without an occupation; without `frequency` credits only the refusal, with the suggestions and the error kept; otherwise the credits are spent and the request carries the frequency, the keywords, the topics, the active practices and the knowledge text; a reply gives one pending suggestion per content and 20 XP, a failure clears the suggestions and sets the error; the keywords, frequency, topics and knowledge switch are always kept |
| Autopilot.AutopilotState.HandleApprove | components/Autopilot.tsx:134-142 | a known suggestion becomes a new draft with its content in front of the posts, earns 5 XP and is marked approved; an unknown id changes nothing; the keywords, the error, the frequency, the topics and the knowledge switch are kept |
| Autopilot.AutopilotState.HandleDiscard | components/Autopilot.tsx:144-146 | the suggestions with the id are marked discarded; the keywords, the error, the frequency, the topics and the knowledge switch are kept |
| Autopilot.MarkUnknownIsNoOp | components/Autopilot.tsx:134-146 | with no suggestion of that id, marking changes nothing |
| Autopilot.ApprovedDraftFacts | components/Autopilot.tsx:137 | an approved suggestion becomes an undated draft with its content, keeping "draft exactly when undated" |
| Generator.CharCountColor | components/Generator.tsx:273-279 | red exactly above 3000 characters, orange exactly from 2851 to 3000, neutral exactly up to 2850 |
| Generator.ColorMonotone | components/Generator.tsx:273-279 | a longer prompt is never shown in a calmer colour |
| Generator.TemplatePrompt | components/Generator.tsx:88-103 | the empty choice clears the prompt; a template whose translation is a string other than its key fills it with that text; any non-empty result is the template's translation |
| Generator.MissingTemplateClearsPrompt | components/Generator.tsx:92-98 | a template whose prompt is not in the loaded translations clears the prompt |
| Generator.GeneratorState.constructor | components/Generator.tsx:50-80 | the whole starting state: empty prompt, no template, enhancement and knowledge on, a professional announcement without custom instructions, the starting advanced settings also as defaults, no post and no error |
| Generator.GeneratorState.HandleTemplateChange | components/Generator.tsx:88-103 | the template is recorded, the prompt becomes the template's prompt, a real template turns enhancement off, and every other field is kept |
| Generator.GeneratorState.HandleEnhancePrompt | components/Generator.tsx:173-193 | a blank prompt is skipped and without a credit nothing else happens, the whole state kept in both cases; otherwise one credit is spent, a successful reply replaces the prompt and a failed one keeps it, and every other field is kept |
| Generator.GeneratorState.HandleGenerate | components/Generator.tsx:195-244 | a blank prompt sets the error at no cost; without a credit nothing changes at all; otherwise one credit is spent and the request is built from the form; a reply becomes the shown and editable post, clears the error, earns 10 XP and goes in front of the history, a failure empties the post and shows its message or the generic one; fields other than these are kept |
| Generator.GeneratorState.RequestFor | components/Generator.tsx:213-231 | the request carries the prompt and the advanced settings, no knowledge text when the switch is off, and every custom practice |
| Generator.GeneratorState.ShowReply | components/Generator.tsx:208-240 | a reply becomes the shown and editable post, clears the error, earns 10 XP and goes in front of the history; a failure empties the post and sets the error; every other field is kept |
| Generator.GeneratorState.HandleReuseHistory | components/Generator.tsx:246-251 | the history item becomes the shown and editable post, and every other field is kept |
| Generator.GeneratorState.HandleSaveDraft | components/Generator.tsx:258-262 | the edited post goes in front of the posts as a new draft, and 5 XP are settled |
| Generator.GeneratorState.HandleSaveDefaults | components/Generator.tsx:264-267 | the current advanced settings become the defaults, and every other field is kept |
| Generator.GeneratorState.HandleResetDefaults | components/Generator.tsx:269-271 | the advanced settings go back to the saved defaults, and every other field, the defaults included, is kept |
| Generator.GeneratorState.SetAdvancedSettings | components/Generator.tsx:409-412 | the advanced settings change, and every other field, the defaults included, is kept |
| Personalization.BasePractices | context/PersonalizationContext.tsx:30-63 | five built-in practices in definition order, each with its translated instruction and active exactly when its flag is on |
| Personalization.Toggled | context/PersonalizationContext.tsx:67-69 | the practice's flag flips, a missing flag counting as off, and no other flag changes |
| Personalization.ToggleTwice | context/PersonalizationContext.tsx:67-69 | toggling a practice twice gives back the same practices |
| Personalization.InitialPractices | context/PersonalizationContext.tsx:48-54 | at the start every built-in practice is active except pain points, the third |
| Personalization.AllBestPractices | components/Generator.tsx:214-216 | the instructions sent are the active built-in ones in order, followed by every custom one in order |
| Personalization.SentPracticesAreChosen | components/Generator.tsx:214-216 | every instruction sent comes from an active built-in practice or from a custom one |
| Personalization.InitialBestPractices | context/PersonalizationContext.tsx:48-63 | with the starting flags and no custom practice, the instructions are hook, storytelling, short paragraphs and end with a question |
| Personalization.PersonalizationStore.constructor | context/PersonalizationContext.tsx:41-65 | the sample identity, the starting flags, and no custom practice |
| Personalization.PersonalizationStore.SetIdentity | context/PersonalizationContext.tsx:41-46 | the identity is replaced and nothing else changes |
| Personalization.PersonalizationStore.ToggleBasePractice | context/PersonalizationContext.tsx:67-69 | the flags become the toggled flags, nothing else changes |
| Personalization.PersonalizationStore.AddCustomPractice | context/PersonalizationContext.tsx:71-78 | a custom practice with the fresh id and the text is appended at the end |
| Personalization.PersonalizationStore.RemoveCustomPractice | context/PersonalizationContext.tsx:80-82 | the custom practices with other ids are kept, in order |
| Personalization.RemovePracticeEffect | context/PersonalizationContext.tsx:80-82 | removal drops every practice with the id and keeps the others in order |
| KnowledgeStore.MergeItem | context/KnowledgeBaseContext.tsx:37 | an item keeps its id unless the update sets one, and an empty update changes nothing |
| KnowledgeStore.UpdatedItems | context/KnowledgeBaseContext.tsx:35-39 | the list keeps its length; items with the id are merged, the others stay; with no such item nothing changes |
| KnowledgeStore.RemoveItemEffect | context/KnowledgeBaseContext.tsx:41-43 | deleting drops every item with the id, keeps the others in order, and changes nothing when no item has the id |
| KnowledgeStore.SeedItems | context/KnowledgeBaseContext.tsx:14-25 | two sample items, `kb-1` and `kb-2` |
| KnowledgeStore.KnowledgeBaseStore.constructor | context/KnowledgeBaseContext.tsx:14 | the store starts with the sample items |
| KnowledgeStore.KnowledgeBaseStore.AddKnowledgeItem | context/KnowledgeBaseContext.tsx:27-33 | the new item goes in front under the fresh id, and the earlier items follow in order |
| KnowledgeStore.KnowledgeBaseStore.UpdateKnowledgeItem | context/KnowledgeBaseContext.tsx:35-39 | the list becomes the merged list |
| KnowledgeStore.KnowledgeBaseStore.DeleteKnowledgeItem | context/KnowledgeBaseContext.tsx:41-43 | the items with other ids are kept, in order |
| KnowledgeStore.KnowledgeContent | components/Generator.tsx:213 | the knowledge text is empty with the switch off or no items, and one item's block when there is one item |
| KnowledgeStore.KnowledgeContentHoldsEveryItem | components/Autopilot.tsx:100 | with the switch on, the text holds every item's bold title followed by its content |
| KnowledgeStore.KnowledgeContentSeparates | components/Generator.tsx:213 | with two or more items, the first block is followed by the horizontal-rule separator and the text of the rest |
| InspirationStore.MergeInspiration | context/InspirationContext.tsx:38 | a post keeps its id unless the update sets one, and an empty update changes nothing |
| InspirationStore.UpdatedInspiration | context/InspirationContext.tsx:36-40 | the list keeps its length; posts with the id are merged and the others stay |
| InspirationStore.RemoveInspirationEffect | context/InspirationContext.tsx:42-44 | deleting drops every post with the id and keeps the others in order |
| InspirationStore.SeedInspiration | context/InspirationContext.tsx:13-22 | two sample posts |
| InspirationStore.InspirationId | context/InspirationContext.tsx:31 | every new id starts with `insp-` |
| InspirationStore.InspirationPostStore.constructor | context/InspirationContext.tsx:26 | the store starts with the sample posts |
| InspirationStore.InspirationPostStore.AddInspirationPost | context/InspirationContext.tsx:28-34 | the new post goes in front under an `insp-` id, and the earlier posts follow in order |
| InspirationStore.InspirationPostStore.UpdateInspirationPost | context/InspirationContext.tsx:36-40 | the list becomes the merged list |
| InspirationStore.InspirationPostStore.DeleteInspirationPost | context/InspirationContext.tsx:42-44 | the posts with other ids are kept, in order |
| HistoryStore.SeedHistory | context/GenerationHistoryContext.tsx:11-14 | two sample items |
| HistoryStore.SeedIsNewestFirst | context/GenerationHistoryContext.tsx:11-14 | the sample items are newest first, both dated before the module loads |
| HistoryStore.PrependKeepsNewestFirst | context/GenerationHistoryContext.tsx:19-26 | putting in front an item no older than the others keeps the history newest first |
| HistoryStore.GenerationHistory.constructor | context/GenerationHistoryContext.tsx:17 | the history starts with the sample items |
| HistoryStore.GenerationHistory.AddPostToHistory | context/GenerationHistoryContext.tsx:19-26 | the content, under a fresh id and dated now, goes in front of the earlier items, and a newest-first history stays newest first |
| I18n.Step | context/i18nContext.tsx:4 | `undefined` and `null` lead to `undefined`; a value is found only as a field of an object |
| I18n.WalkFromUndefined | context/i18nContext.tsx:4 | once the walk reaches `undefined` it stays there to the end of the path |
| I18n.Walk | context/i18nContext.tsx:3-6 | definition only: the `reduce` over the path's segments, one `Step` per segment from the left; `WalkFromUndefined`, `WalkAppend` and `MissingPartGivesUndefined` state its behaviour |
| I18n.WalkAppend | context/i18nContext.tsx:4 | walking a path in two pieces is walking the whole path |
| I18n.MissingPartGivesUndefined | context/i18nContext.tsx:4-5 | a missing value, or a `null` before the last segment, makes the whole lookup `undefined` |
| I18n.Get | context/i18nContext.tsx:3-6 | the value found, `null` included, or the fallback exactly when the walk ends at `undefined` |
| I18n.Placeholder | context/i18nContext.tsx:73 | the placeholder is the name in braces |
| I18n.NoPlaceholdersUnchanged | context/i18nContext.tsx:69-76 | a text without `{` comes out of the interpolation unchanged, whatever the variables |
| I18n.Interpolate | context/i18nContext.tsx:69-76 | definition only: the variables in key order, each replacing every occurrence of its placeholder in what the earlier ones left; `NoPlaceholdersUnchanged`, `InterpolateFillsEveryPlaceholder` and `CountFilledIn` state its effect |
| I18n.InterpolateFillsEveryPlaceholder | context/i18nContext.tsx:72-74 | a text made of pieces without `{`, joined by a variable's placeholder, reads after that variable's replacement as the same pieces joined by its value: every occurrence is filled in and nothing else changes |
| I18n.T | context/i18nContext.tsx:56-78 | the loop of replacements gives the translation: the raw value for `returnObjects` or a non-string, otherwise the string with each variable replaced in turn |
| I18n.Translate | context/i18nContext.tsx:56-78 | definition only: what `t` answers; `T` is proved to compute it, and `KeyIsTheFallback`, `NonStringReturnedAsIs` and `ReturnObjectsIsRaw` state its cases |
| I18n.KeyIsTheFallback | context/i18nContext.tsx:57 | with the language not loaded or the path missing, the answer is the key itself |
| I18n.NonStringReturnedAsIs | context/i18nContext.tsx:63-67 | a found value that is not a string is returned unchanged |
| I18n.ReturnObjectsIsRaw | context/i18nContext.tsx:59-61 | with `returnObjects` the looked-up value is returned without interpolation |
| I18n.CountFilledIn | context/i18nContext.tsx:73-74 | `{count} posts` with count 3 reads `3 posts` |
| KnowledgeBase.FilteredItems | components/KnowledgeBase.tsx:14-20 | an empty query shows every item; otherwise only items whose title or content contains the query, ignoring case |
| KnowledgeBase.FilteredItemsFacts | components/KnowledgeBase.tsx:16-19 | a non-empty query keeps exactly the matching items, in their order |
| KnowledgeBase.QueryCaseIgnored | components/KnowledgeBase.tsx:17-18 | lower-casing the query does not change whether an item matches |
| KnowledgeBase.ListArea | components/KnowledgeBase.tsx:74-113 | items with their count (singular exactly for one) when there are results, "no results" exactly for an empty result of a non-empty query, the empty state otherwise |
| KnowledgeBase.InitialFields | components/KnowledgeBase.tsx:131-132 | the modal starts from the edited item's title and content, or empty fields for a new item |
| KnowledgeBase.Submit | components/KnowledgeBase.tsx:134-141 | the form is refused exactly when the title or the content is blank, and otherwise saved exactly as typed |
| KnowledgeBase.SubmitKeepsSpaces | components/KnowledgeBase.tsx:136-140 | a title with surrounding spaces is saved with them |
| KnowledgeBase.KnowledgeBaseView.constructor | components/KnowledgeBase.tsx:10-12 | an empty search, the modal closed, no item being edited |
| KnowledgeBase.KnowledgeBaseView.HandleOpenModal | components/KnowledgeBase.tsx:22-25 | the modal opens on the item, or on a new one |
| KnowledgeBase.KnowledgeBaseView.HandleCloseModal | components/KnowledgeBase.tsx:27-30 | the modal closes and forgets the item |
| KnowledgeBase.KnowledgeBaseView.HandleSave | components/KnowledgeBase.tsx:32-39 | the edited item takes the new title and content, or a new item goes in front; then the modal closes and the search is kept |
| KnowledgeBase.KnowledgeBaseView.SubmitModal | components/KnowledgeBase.tsx:134-141 | a refused form changes nothing, the modal staying open on the same item; an accepted one is saved as typed and closes it; the search is kept either way |
| KnowledgeBase.KnowledgeBaseView.HandleDelete | components/KnowledgeBase.tsx:41-45 | the item is deleted only after confirmation |
| KnowledgeBase.EditChangesOnlyThatItem | components/KnowledgeBase.tsx:34 | editing sets that item's title and content and leaves every other item |
| HelpCenter.SourceOf | components/HelpCenter.tsx:23-31 | the FAQ tab reads the FAQs, the guides tab the guides, the other tabs nothing |
| HelpCenter.FilteredContent | components/HelpCenter.tsx:21-37 | without a query the tab's whole list; every entry shown comes from that list and, with a query, matches it; the news and contact tabs show none |
| HelpCenter.SearchIsOrderedSelection | components/HelpCenter.tsx:33-36 | the results keep the list's order and every matching entry of the list is shown |
| HelpCenter.SearchIgnoresCase | components/HelpCenter.tsx:28-35 | lower-casing the query does not change the results |
| HelpCenter.SelectCategory | components/HelpCenter.tsx:81-84 | a tab click selects the tab and clears the search |
| HelpCenter.SetQuery | components/HelpCenter.tsx:67 | typing changes the query and keeps the tab |
| HelpCenter.SelectingShowsWholeList | components/HelpCenter.tsx:81-84 | right after a tab is chosen its whole list is shown, whatever was searched before |
| Header.UnreadCount | components/Header.tsx:82 | the badge never counts more than the notifications |
| Header.NoUnreadIffAllRead | components/Header.tsx:82 | the badge is 0 exactly when every notification is read |
| Header.AllRead | components/Header.tsx:96-98 | every notification is kept in place and marked read |
| Header.MarkedRead | components/Header.tsx:100-102 | the notifications with the id are marked read, the others stay as they were |
| Header.Cleared | components/Header.tsx:104-106 | no read notification is left |
| Header.MarkAllLeavesNoneUnread | components/Header.tsx:96-98 | after "mark all as read" the badge is 0 |
| Header.MarkAsReadIdempotent | components/Header.tsx:100-102 | marking the same notification read twice is marking it once |
| Header.ClearReadKeepsUnread | components/Header.tsx:104-106 | clearing keeps the badge, keeps the order, and keeps every unread notification |
| Header.SeedHasTwoUnread | components/Header.tsx:68-82 | the sample notifications show a badge of 2 |
| Header.NotificationCenter.constructor | components/Header.tsx:68-73 | the centre starts with the four sample notifications |
| Header.NotificationCenter.MarkAllAsRead | components/Header.tsx:96-98 | the list becomes the all-read list |
| Header.NotificationCenter.MarkAsRead | components/Header.tsx:100-102 | the list becomes the list with that notification read |
| Header.NotificationCenter.ClearRead | components/Header.tsx:104-106 | the list becomes the unread notifications |
| Header.FirstLetter | components/Header.tsx:79 | an empty part gives no letter, any other its first character |
| Header.Initials | components/Header.tsx:76-80 | an empty name gives no initials, and there are never more than two |
| Header.OneWordInitial | components/Header.tsx:78-79 | a one-word name gives its first letter in upper case |
| Header.TwoWordInitials | components/Header.tsx:78-79 | a name whose first two words are non-empty gives their first letters in upper case |
| Header.EmptyPartSkipped | components/Header.tsx:78-79 | a leading space makes an empty first part, so only the second word's letter shows |
| Dashboard.StepAfter | components/Dashboard.tsx:67-72 | the tour ends exactly when the next index would be past the six steps; otherwise the next index |
| Dashboard.StepBefore | components/Dashboard.tsx:86-88 | one step back, never below the first |
| Dashboard.StepsStayInTour | components/Dashboard.tsx:67-88 | from a step of the tour, back and next stay in the tour, and next ends it exactly at `finish` |
| Dashboard.PrevUndoesNext | components/Dashboard.tsx:67-88 | back after next returns to the step, and next after back returns to a later step |
| Dashboard.DashboardState.constructor | components/Dashboard.tsx:25-32 | the Panel entry, the sidebar closed, no settings tab, the tour inactive at step 0 |
| Dashboard.DashboardState.StartTourIfNew | components/Dashboard.tsx:51-60 | the tour starts exactly when onboarding was not completed before |
| Dashboard.DashboardState.HandleEndTour | components/Dashboard.tsx:62-65 | the tour stops and onboarding is recorded as complete |
| Dashboard.DashboardState.HandleNextStep | components/Dashboard.tsx:67-84 | past the last step the tour ends; otherwise the next step is shown, after opening the closed sidebar on a narrow screen when its target is in the sidebar |
| Dashboard.DashboardState.HandlePrevStep | components/Dashboard.tsx:86-88 | the step becomes the one before, never below the first |
| Dashboard.DashboardState.GoToBilling | components/Dashboard.tsx:90-93 | the settings screen opens on the billing tab |
| Dashboard.DashboardState.GoToSettings | components/Dashboard.tsx:95-98 | the settings screen opens on the given tab |
| Dashboard.DashboardState.HandleSidebarNav | components/Dashboard.tsx:100-105 | the entry becomes active, and choosing settings from the sidebar forgets the pre-selected tab |
| Login.IndexOf | components/LoginPage.tsx:20 | the position of the first occurrence of the character, or the length when there is none |
| Login.EmailShapeIsPattern | components/LoginPage.tsx:20 | the pattern holds exactly when the address is free of whitespace, has exactly one `@` with something before it, and a domain with a `.` that is neither its first nor its last character |
| Login.MatchesEmailPattern | components/LoginPage.tsx:20 | definition only: the pattern read as a plain run, `@`, a plain run, `.` and a plain run; `EmailShapeIsPattern` states what it accepts |
| Login.EmailShape | components/LoginPage.tsx:20 | definition only: no whitespace, exactly one `@` with text before it, and a domain with an inner `.`; `EmailShapeIsPattern` proves it equal to the pattern |
| Login.ShapeGivesPattern | components/LoginPage.tsx:20 | such an address matches the pattern |
| Login.PatternGivesShape | components/LoginPage.tsx:20 | an address matching the pattern has that shape |
| Login.ValidateEmail | components/LoginPage.tsx:16-25 | "required" exactly for the empty address, valid exactly for a non-empty address matching the pattern, "invalid" otherwise |
| Login.ShortAddressAccepted | components/LoginPage.tsx:20 | `a@b.c` is accepted |
| Login.TwoAtsRefused | components/LoginPage.tsx:20 | an address with two `@` is refused as invalid |
| Login.WhitespaceRefused | components/LoginPage.tsx:20 | an address with any whitespace is refused as invalid |
| Login.LoginForm.constructor | components/LoginPage.tsx:10-12 | empty fields and no error |
| Login.LoginForm.HandleEmailChange | components/LoginPage.tsx:66-69 | the address is replaced and the error is cleared |
| Login.LoginForm.HandlePasswordChange | components/LoginPage.tsx:87 | the password is replaced and nothing else changes |
| Login.LoginForm.HandleSubmit | components/LoginPage.tsx:27-43 | an address that is not valid is refused and shown as the error; then a missing password is refused; otherwise the user logs in, exactly once |
| Security.CheckPasswords | components/settings/SecuritySettings.tsx:15-24 | "all fields" exactly when one field is empty, "no match" exactly when all are filled and the new two differ, and the save starts exactly otherwise |
| Security.EmptyFieldComesFirst | components/settings/SecuritySettings.tsx:16-23 | an empty field is reported before a mismatch |
| Security.CurrentPasswordNotCompared | components/settings/SecuritySettings.tsx:15-24 | the current password is only checked for presence, never compared |
| Security.PasswordForm.constructor | components/settings/SecuritySettings.tsx:9-12 | empty fields, not saving |
| Security.PasswordForm.HandleSavePassword | components/settings/SecuritySettings.tsx:15-24 | the answer is the check of the fields, saving starts exactly when the check passes, and the fields stay until the save completes |
| Security.PasswordForm.CompleteSave | components/settings/SecuritySettings.tsx:25-32 | the fields are emptied and saving stops |
| Profile.StripAt | components/ProfileSettings.tsx:33-36 | one leading `@` is removed and nothing else; any other text is kept |
| Profile.StripAtUndoesPrefix | components/ProfileSettings.tsx:35 | stripping a handle typed with `@` gives the handle |
| Profile.StripAtNotIdempotent | components/ProfileSettings.tsx:35 | `@@x` becomes `@x`, and only a second edit gives `x` |
| Profile.StripAtStable | components/ProfileSettings.tsx:35 | a value not starting with `@@` is stable once stripped |

## Left out

- The AI service (`services/geminiService.ts`) is not part of this model. Each reply it would give (a generated post, an enhanced prompt, keyword themes, suggestions) is a parameter, and `None` stands for a failed call.
- Speech dictation in the generator, the clipboard, `alert` and the browser's `localStorage` are browser I/O and are left out. A `confirm()` answer is a `confirmed` parameter. Whether the tour was completed before is a flag.
- The translation files are fetched over the network: the model takes the loaded translations as a given map. Where only a translated label matters (personalization), a translation function is a parameter.
- Timers are taken as immediate. The tour's 300 ms step change on small screens is made at once. The 1000 ms tour start is `StartTourIfNew`. The password screen's delayed completion is the separate `CompleteSave` method. The profile screen's save timer is left out.
- Rendering is left out: toast and message texts (errors and toasts are kept as translation keys, without the toast's kind such as `success`), number and date formatting, the performance chart, tooltip and tour positioning, icons and CSS.
- Floating point is replaced by exact arithmetic. The level's XP threshold `floor(100 * l^1.5)` is the integer square root of `10000 * l^3`. Rates and percentages are `real`. `Math.round` of a non-negative quotient is exact integer rounding.
- Local time uses one fixed zone offset. Daylight-saving changes are not modelled.
- Case-insensitive search folds ASCII letters only. String lengths count code points, not UTF-16 units.
- `I18n.Interpolate`: a variable name with regular-expression metacharacters, and `$` patterns inside a replacement value, are not modelled. Variable values are strings already. `get` on arrays and strings (index and `length` lookups) gives `undefined`.
- Ids, creation stamps and the current time are parameters, and each operation reads the clock once.
- React's re-rendering and stale closures are not modelled: operations run one after another on the current state, for example `addXp` reading `level` and `useCredit` reading `credits`.
- Seed data is shortened: the seed posts and items keep their ids, statuses, dates and counts, with shorter texts.
- The transient loading flags (`isLoading`, `isAnalyzing`, `isEnhancing`, `isSaving` in the generator and autopilot) are left out, except on the password screen, whose save flag the contract states.
- The calendar's month navigation, `daysInMonth` and the "today" highlight are left out. The model states the buckets, the cells and the first-day offset.
- Help-centre lists and the "what's new" entries come from the translations and are taken as given.
- In the header, opening and closing the notification dropdown and the click-outside handler are left out, and so is the level indicator's progress bar (the panel's progress is modelled).
- On the profile screen, only the Twitter handle normalisation is modelled. The other fields are plain text inputs.
- Header.Initials: upper-cases ASCII letters only, so a name starting with a non-ASCII letter such as "ángel ruiz" gives "áR" where the browser's `toUpperCase()` gives "ÁR"; full Unicode case mapping is not modelled.
- MyPosts.MyPostsView.SaveFromModal: the form's date and time are whole numbers (a day number and minutes since midnight), so a cleared date or time field, which in the source makes an invalid date that the list then sorts as 0, cannot be expressed.
- Autopilot.AutopilotState.HandleAnalyze: keeps "no keyword repeated" only when the reply repeats no theme, because the merge adds a theme twice if the reply lists it twice (`RepeatedThemeIsKeptTwice`).
- The autopilot's on/off switch, tone and frequency selection, and the generator's advanced settings, are passed through unchanged and not otherwise modelled.
- `index.tsx`, `App.tsx`, `hooks/*.ts`, the sidebar, the settings tabs other than billing, security and plan selection, the onboarding tour's DOM logic, `LinkedInPreview`, `StatCard`, `Tooltip` and `Placeholder` are not part of this model. They are wiring or rendering.

## Findings

| source | as written | input that shows it | evidently intended | confidence | as-written member | corrected member |
|---|---|---|---|---|---|---|
| components/MyPosts.tsx:356-360 | the modal's date field is filled from `toISOString()`, the UTC day, while its time field and the saved value use local time | at UTC+2, a post at 01:00 local time on day 4 opens with day 3, and saving it untouched moves it to day 3 | the date field shows the local day, so an untouched save keeps the post on its day | not executed | MyPosts.UntouchedFormMovesPostAsWritten | MyPosts.UntouchedFormKeepsDate |
| components/MyPosts.tsx:153-180 | calendar buckets are keyed by `getDate()` alone | a post on the 4th of another month shows in the 4th's cell of the month displayed | a cell holds only posts on that calendar date | not executed | MyPosts.CellShowsOtherMonths | MyPosts.CellHoldsItsDateOnly |
