/**
 * The "My posts" screen (`MyPosts.tsx`): the status a row shows, the list's
 * filter, search and sort, the calendar's buckets by day of the month, the
 * Monday-first grid offset, the handlers behind the edit modal and the
 * modal's save, which schedules the post and rewards scheduling a draft.
 */
module MyPosts {
  import opened Clock
  import opened Types
  import opened Seqs
  import opened Text
  import StableSort
  import opened PostsContext
  import opened Gamification

  /** `PostStatusFilter`. */
  datatype StatusFilter = AllFilter | DraftFilter | ScheduledFilter | PublishedFilter

  /**
   * `getStatus`: drafts are drafts, a scheduled post with a future date is
   * scheduled, and everything else, a scheduled post without a date included,
   * counts as published. It never answers `all`.
   */
  function GetStatus(p: Post, now: Time): (s: StatusFilter)
    ensures s != AllFilter
    ensures s == DraftFilter <==> p.status == Draft
    ensures s == ScheduledFilter <==> p.status == Scheduled && p.scheduledAt.Some? && p.scheduledAt.value > now
  {
    if p.status == Draft then DraftFilter
    else if p.status == Scheduled && p.scheduledAt.Some? && p.scheduledAt.value > now then ScheduledFilter
    else PublishedFilter
  }

  /**
   * The list's "published" is the statistics' published plus the scheduled
   * posts without a date.
   */
  lemma ListPublishedVersusStatistics(p: Post, now: Time)
    ensures GetStatus(p, now) == PublishedFilter
        <==> IsPublished(p, now) || (p.status == Scheduled && p.scheduledAt.None?)
  {
  }

  /** The status tab lets the post through: "all" does, otherwise its computed status must match. */
  predicate StatusMatch(filter: StatusFilter, p: Post, now: Time)
  {
    filter == AllFilter || GetStatus(p, now) == filter
  }

  /** The search lets the post through: an empty query does, otherwise the content must hold the query, ignoring ASCII case. */
  predicate SearchMatch(query: string, p: Post)
  {
    query == "" || Contains(Lower(p.content), Lower(query))
  }

  function ListTest(filter: StatusFilter, query: string, now: Time): Post -> bool
  {
    (p: Post) => StatusMatch(filter, p, now) && SearchMatch(query, p)
  }

  /** The list's sort key: the scheduled time, or 0 for an undated post. */
  function ListKey(p: Post): int
  {
    if p.scheduledAt.Some? then p.scheduledAt.value else 0
  }

  /**
   * `filteredPosts`: the posts passing the status filter and the search, sorted
   * by date, latest first, with equal dates in list order.
   */
  function FilteredPosts(posts: seq<Post>, filter: StatusFilter, query: string, now: Time): (r: seq<Post>)
    ensures StableSort.SortedDesc(r, ListKey)
    ensures multiset(r) == multiset(Filter(posts, ListTest(filter, query, now)))
  {
    StableSort.Sort(Filter(posts, ListTest(filter, query, now)), ListKey)
  }

  /** A post is listed exactly when it is in the list and passes both the status filter and the search. */
  lemma FilteredPostsMembers(posts: seq<Post>, filter: StatusFilter, query: string, now: Time)
    ensures forall i :: 0 <= i < |FilteredPosts(posts, filter, query, now)| ==>
      var p := FilteredPosts(posts, filter, query, now)[i];
      p in posts && StatusMatch(filter, p, now) && SearchMatch(query, p)
    ensures forall i :: 0 <= i < |posts| && StatusMatch(filter, posts[i], now) && SearchMatch(query, posts[i]) ==>
      posts[i] in FilteredPosts(posts, filter, query, now)
  {
    var f := ListTest(filter, query, now);
    var kept := Filter(posts, f);
    var r := FilteredPosts(posts, filter, query, now);
    FilterMembers(posts, f);
    forall i | 0 <= i < |r|
      ensures r[i] in posts && StatusMatch(filter, r[i], now) && SearchMatch(query, r[i])
    {
      assert r[i] in multiset(kept);
      var j :| 0 <= j < |kept| && kept[j] == r[i];
      assert f(kept[j]);
    }
    forall i | 0 <= i < |posts| && StatusMatch(filter, posts[i], now) && SearchMatch(query, posts[i])
      ensures posts[i] in r
    {
      assert f(posts[i]);
      assert posts[i] in multiset(kept);
    }
  }

  /** With `all` and an empty search every post is listed: the list is a reordering of the posts. */
  lemma ShowAllListsEveryPost(posts: seq<Post>, now: Time)
    ensures multiset(FilteredPosts(posts, AllFilter, "", now)) == multiset(posts)
  {
    FilterAll(posts, ListTest(AllFilter, "", now));
  }

  /** When every date is after the epoch, the posts without a date come after every dated post. */
  lemma UndatedPostsComeLast(posts: seq<Post>, filter: StatusFilter, query: string, now: Time)
    requires forall i :: 0 <= i < |posts| && posts[i].scheduledAt.Some? ==> posts[i].scheduledAt.value > 0
    ensures var r := FilteredPosts(posts, filter, query, now);
      forall i, j :: 0 <= i < j < |r| && r[j].scheduledAt.Some? ==> r[i].scheduledAt.Some?
  {
    var r := FilteredPosts(posts, filter, query, now);
    FilteredPostsMembers(posts, filter, query, now);
    forall i, j | 0 <= i < j < |r| && r[j].scheduledAt.Some?
      ensures r[i].scheduledAt.Some?
    {
      assert ListKey(r[i]) >= ListKey(r[j]);
      var k :| 0 <= k < |posts| && posts[k] == r[j];
    }
  }

  /** Posts with the same date keep the order they have in the post list. */
  lemma SameDateKeepsListOrder(posts: seq<Post>, filter: StatusFilter, query: string, now: Time, k: int)
    ensures Filter(FilteredPosts(posts, filter, query, now), StableSort.KeyIs(ListKey, k))
         == Filter(Filter(posts, ListTest(filter, query, now)), StableSort.KeyIs(ListKey, k))
  {
    StableSort.SortIsStable(Filter(posts, ListTest(filter, query, now)), ListKey, k);
  }

  /** The search ignores the case of the query. */
  lemma SearchIgnoresQueryCase(query: string, p: Post)
    ensures SearchMatch(Lower(query), p) == SearchMatch(query, p)
  {
    LowerTwice(query);
  }

  // ---------------------------------------------------------------------
  // Calendar

  /** The posts the calendar places: scheduled ones that have a date. */
  predicate OnCalendar(p: Post)
  {
    p.status == Scheduled && p.scheduledAt.Some?
  }

  function OnDayTest(z: Zone, day: int): Post -> bool
  {
    (p: Post) => OnCalendar(p) && DayOfMonth(z, p.scheduledAt.value) == day
  }

  /** The calendar posts whose date is the `day`-th of its month, of whatever month and year, in list order. */
  function Bucket(posts: seq<Post>, z: Zone, day: int): seq<Post>
  {
    Filter(posts, OnDayTest(z, day))
  }

  /**
   * `scheduledPostsByDay`: the `reduce` that pushes each calendar post onto the
   * array of its day of the month. A day is a key exactly when its bucket is
   * non-empty, and it holds that bucket.
   */
  method ScheduledPostsByDay(posts: seq<Post>, z: Zone) returns (acc: map<int, seq<Post>>)
    ensures forall d :: d in acc ==> acc[d] == Bucket(posts, z, d) && acc[d] != []
    ensures forall d :: Bucket(posts, z, d) != [] ==> d in acc
  {
    acc := map[];
    var i := 0;
    while i < |posts|
      invariant 0 <= i <= |posts|
      invariant forall d :: d in acc ==> acc[d] == Bucket(posts[..i], z, d) && acc[d] != []
      invariant forall d :: Bucket(posts[..i], z, d) != [] ==> d in acc
    {
      var post := posts[i];
      assert posts[..i + 1] == posts[..i] + [post];
      forall d
        ensures Bucket(posts[..i + 1], z, d)
             == Bucket(posts[..i], z, d) + (if OnDayTest(z, d)(post) then [post] else [])
      {
        FilterAppend(posts[..i], [post], OnDayTest(z, d));
        FilterSingleton(post, OnDayTest(z, d));
      }
      if post.status == Scheduled && post.scheduledAt.Some? {
        var day := DayOfMonth(z, post.scheduledAt.value);
        if day !in acc {
          acc := acc[day := []];
        }
        acc := acc[day := acc[day] + [post]];
      }
      i := i + 1;
    }
    assert posts[..|posts|] == posts;
  }

  /**
   * Each calendar post is in the bucket of its own day of the month and in no
   * other; a draft or an undated post is in none.
   */
  lemma EachCalendarPostInOneBucket(posts: seq<Post>, z: Zone, i: int)
    requires 0 <= i < |posts|
    ensures OnCalendar(posts[i]) ==>
      posts[i] in Bucket(posts, z, DayOfMonth(z, posts[i].scheduledAt.value))
    ensures OnCalendar(posts[i]) ==>
      forall d :: d != DayOfMonth(z, posts[i].scheduledAt.value) ==> posts[i] !in Bucket(posts, z, d)
    ensures !OnCalendar(posts[i]) ==> forall d :: posts[i] !in Bucket(posts, z, d)
  {
    forall d
      ensures OnCalendar(posts[i]) && d == DayOfMonth(z, posts[i].scheduledAt.value) ==> posts[i] in Bucket(posts, z, d)
    {
      FilterMembers(posts, OnDayTest(z, d));
    }
  }

  /**
   * The cell of local day number `date` in the month being viewed: the grid
   * reads `scheduledPostsByDay[day]` for the cell's day of the month only.
   */
  function CellAsWritten(posts: seq<Post>, z: Zone, date: int): seq<Post>
  {
    Bucket(posts, z, DayOfMonthOfDay(date))
  }

  /**
   * The day-only key shows a post in a month it is not scheduled in: a post of
   * 1970-02-05 appears in the cell of 1970-01-05.
   */
  lemma CellShowsOtherMonths()
    ensures var p := Post("p", "", Some(35 * DAY_MS), Scheduled, None, None, None, None, None);
      p in CellAsWritten([p], Zone(0), 4) && DayNumber(Zone(0), p.scheduledAt.value) != 4
  {
    var p := Post("p", "", Some(35 * DAY_MS), Scheduled, None, None, None, None, None);
    FifthOfJanuaryAndFebruary();
    assert DayNumber(Zone(0), 35 * DAY_MS) == 35;
    FilterSingleton(p, OnDayTest(Zone(0), 5));
  }

  function OnDateTest(z: Zone, date: int): Post -> bool
  {
    (p: Post) => OnCalendar(p) && DayNumber(z, p.scheduledAt.value) == date
  }

  /** The cell of local day number `date`, keyed by the whole date. */
  function Cell(posts: seq<Post>, z: Zone, date: int): seq<Post>
  {
    Filter(posts, OnDateTest(z, date))
  }

  /**
   * A calendar post is shown in the cell of its own date and in no other cell,
   * and the posts of a cell are those of the day-of-month bucket on that date.
   */
  lemma CellHoldsItsDateOnly(posts: seq<Post>, z: Zone, date: int)
    ensures forall i :: 0 <= i < |Cell(posts, z, date)| ==>
      Cell(posts, z, date)[i] in posts && OnCalendar(Cell(posts, z, date)[i])
      && DayNumber(z, Cell(posts, z, date)[i].scheduledAt.value) == date
    ensures forall i :: 0 <= i < |posts| && OnCalendar(posts[i]) && DayNumber(z, posts[i].scheduledAt.value) == date ==>
      posts[i] in Cell(posts, z, date)
    ensures forall i :: 0 <= i < |Cell(posts, z, date)| ==> Cell(posts, z, date)[i] in CellAsWritten(posts, z, date)
  {
    FilterMembers(posts, OnDateTest(z, date));
    FilterMembers(posts, OnDayTest(z, DayOfMonthOfDay(date)));
    forall i | 0 <= i < |Cell(posts, z, date)|
      ensures Cell(posts, z, date)[i] in CellAsWritten(posts, z, date)
    {
      var p := Cell(posts, z, date)[i];
      assert OnDateTest(z, date)(p);
      var k :| 0 <= k < |posts| && posts[k] == p;
      assert OnDayTest(z, DayOfMonthOfDay(date))(posts[k]);
    }
  }

  /**
   * The blank cells before the 1st in a grid whose weeks start on Monday,
   * from the weekday of the 1st.
   */
  function FirstDayOffset(weekday: int): (r: int)
    requires 0 <= weekday < 7
    ensures 0 <= r < 7
    ensures weekday == 0 ==> r == 6
    ensures weekday == 1 ==> r == 0
    ensures (r + 1) % 7 == weekday
  {
    (weekday + 6) % 7
  }

  // ---------------------------------------------------------------------
  // The edit modal

  /** The first post with the id, if any. */
  function Find(posts: seq<Post>, id: string): (r: Option<Post>)
    ensures r.None? <==> forall i :: 0 <= i < |posts| ==> posts[i].id != id
    ensures r.Some? ==> exists j ::
      0 <= j < |posts| && posts[j] == r.value && r.value.id == id &&
        forall i :: 0 <= i < j ==> posts[i].id != id
    decreases |posts|
  {
    if posts == [] then None
    else if posts[0].id == id then Some(posts[0])
    else
      var r := Find(posts[1..], id);
      if r.Some? then
        var j :| 0 <= j < |posts[1..]| && posts[1..][j] == r.value && r.value.id == id &&
          forall i :: 0 <= i < j ==> posts[1..][i].id != id;
        assert posts[j + 1] == r.value;
        r
      else r
  }

  /** A whole post as an update: every field present. */
  function PatchOf(p: Post): PostPatch
  {
    PostPatch(Some(p.id), Some(p.content), Some(p.scheduledAt), Some(p.status), Some(p.image),
              Some(p.views), Some(p.likes), Some(p.comments), Some(p.taskStatus))
  }

  /** Merging a whole post replaces the post it is merged into. */
  lemma MergeWholePost(q: Post, p: Post)
    ensures Merge(q, PatchOf(p)) == p
  {
  }

  /** The task column the modal opens with: the post's own, or to-do. */
  function InitialTaskStatus(p: Post): TaskStatus
  {
    if p.taskStatus.Some? then p.taskStatus.value else Todo
  }

  /**
   * `post.scheduledAt || initialDate || tomorrow`: the post's date, else the day
   * it was dropped on, else the same time tomorrow.
   */
  function InitialScheduleDate(p: Post, initialDate: Option<Time>, now: Time): Time
  {
    if p.scheduledAt.Some? then p.scheduledAt.value
    else if initialDate.Some? then initialDate.value
    else now + DAY_MS
  }

  /** A dropped draft without a date starts at the drop date; a dated post keeps its date; else tomorrow. */
  lemma InitialScheduleDateCases(z: Zone, p: Post, initialDate: Option<Time>, now: Time)
    ensures p.scheduledAt.Some? ==> InitialScheduleDate(p, initialDate, now) == p.scheduledAt.value
    ensures p.scheduledAt.None? && initialDate.Some? ==> InitialScheduleDate(p, initialDate, now) == initialDate.value
    ensures p.scheduledAt.None? && initialDate.None? ==>
      DayNumber(z, InitialScheduleDate(p, initialDate, now)) == DayNumber(z, now) + 1
  {
    if p.scheduledAt.None? && initialDate.None? {
      NextDay(z, now);
    }
  }

  const MINUTE_MS: int := 60000

  /**
   * The modal's fields: the text, the task column, the date field as a local
   * day number and the time field as minutes since local midnight.
   */
  datatype EditForm = EditForm(content: string, taskStatus: TaskStatus, date: int, minutes: int)

  /** The time field: the local hour and minute, as minutes since midnight. */
  function LocalMinutes(z: Zone, t: Time): (m: int)
    ensures 0 <= m < 24 * 60
  {
    ((t + z.offsetMs) % DAY_MS) / MINUTE_MS
  }

  /** The date field as written: the UTC calendar day. */
  function UtcDay(t: Time): int
  {
    t / DAY_MS
  }

  /** The instant the date and time fields give: a date-time without an offset is read as local time. */
  function LocalInstant(z: Zone, date: int, minutes: int): Time
  {
    date * DAY_MS + minutes * MINUTE_MS - z.offsetMs
  }

  /** The fields the modal opens with, as written: the date field is filled from the UTC day. */
  function InitialFormAsWritten(z: Zone, p: Post, initialDate: Option<Time>, now: Time): EditForm
  {
    var t := InitialScheduleDate(p, initialDate, now);
    EditForm(p.content, InitialTaskStatus(p), UtcDay(t), LocalMinutes(z, t))
  }

  /**
   * Saving an untouched form, as written, moves the post a day back: at
   * UTC+2, a post at 01:00 local time on day 4 opens with day 3 in the date
   * field, because at 23:00 UTC it is still day 3 there.
   */
  lemma UntouchedFormMovesPostAsWritten()
    ensures var z := Zone(2 * HOUR_MS);
      var p := Post("p", "", Some(4 * DAY_MS - HOUR_MS), Scheduled, None, None, None, None, None);
      var f := InitialFormAsWritten(z, p, None, 0);
      DayNumber(z, p.scheduledAt.value) == 4
      && LocalInstant(z, f.date, f.minutes) == p.scheduledAt.value - DAY_MS
      && DayNumber(z, LocalInstant(z, f.date, f.minutes)) == 3
  {
  }

  /** The fields the modal opens with: the date field is filled from the local day. */
  function InitialForm(z: Zone, p: Post, initialDate: Option<Time>, now: Time): EditForm
  {
    var t := InitialScheduleDate(p, initialDate, now);
    EditForm(p.content, InitialTaskStatus(p), DayNumber(z, t), LocalMinutes(z, t))
  }

  /**
   * Saving an untouched form keeps the initial date, down to the minute: the
   * instant read back is the initial one with its seconds dropped, on the same
   * local day.
   */
  lemma {:induction false} UntouchedFormKeepsDate(z: Zone, p: Post, initialDate: Option<Time>, now: Time)
    ensures var t := InitialScheduleDate(p, initialDate, now);
      var f := InitialForm(z, p, initialDate, now);
      LocalInstant(z, f.date, f.minutes) == t - (t + z.offsetMs) % MINUTE_MS
      && 0 <= t - LocalInstant(z, f.date, f.minutes) < MINUTE_MS
      && DayNumber(z, LocalInstant(z, f.date, f.minutes)) == DayNumber(z, t)
  {
    var t := InitialScheduleDate(p, initialDate, now);
    var x := t + z.offsetMs;
    var rest := x % DAY_MS;
    assert x == DAY_MS * (x / DAY_MS) + rest;
    assert rest == MINUTE_MS * (rest / MINUTE_MS) + rest % MINUTE_MS;
    assert x == MINUTE_MS * (1440 * (x / DAY_MS) + rest / MINUTE_MS) + rest % MINUTE_MS;
    ModOfMultiple(x, 1440 * (x / DAY_MS) + rest / MINUTE_MS, rest % MINUTE_MS);
  }

  /** Helper: the remainder of `MINUTE_MS * q + r` for `0 <= r < MINUTE_MS` is `r`. */
  lemma ModOfMultiple(x: int, q: int, r: int)
    requires 0 <= r < MINUTE_MS && x == MINUTE_MS * q + r
    ensures x % MINUTE_MS == r
  {
  }

  /**
   * `{ ...post, content, status: 'scheduled', scheduledAt, taskStatus }`: the
   * post as saved, scheduled at the local date and time of the form.
   */
  function SavedPost(z: Zone, p: Post, f: EditForm): (r: Post)
    ensures r.id == p.id && r.status == Scheduled
    ensures r.scheduledAt == Some(LocalInstant(z, f.date, f.minutes))
    ensures r.content == f.content && r.taskStatus == Some(f.taskStatus)
    ensures r.image == p.image && r.views == p.views && r.likes == p.likes && r.comments == p.comments
  {
    p.(content := f.content, status := Scheduled, scheduledAt := Some(LocalInstant(z, f.date, f.minutes)),
       taskStatus := Some(f.taskStatus))
  }

  /** The XP the save awards: 15 for scheduling a draft, nothing for editing. */
  function ScheduleXp(p: Post): nat
  {
    if p.status == Draft then 15 else 0
  }

  /**
   * Saving from the modal replaces every post with the id by the saved post,
   * leaves the others, and keeps "draft exactly when undated".
   */
  lemma {:induction false} SaveReplacesPost(posts: seq<Post>, z: Zone, p: Post, f: EditForm)
    requires DraftIffUndated(posts)
    ensures var s := SavedPost(z, p, f);
      var r := UpdatedPosts(posts, s.id, PatchOf(s));
      |r| == |posts|
      && (forall i :: 0 <= i < |posts| && posts[i].id == p.id ==> r[i] == s)
      && (forall i :: 0 <= i < |posts| && posts[i].id != p.id ==> r[i] == posts[i])
      && DraftIffUndated(r)
  {
    var s := SavedPost(z, p, f);
    var r := UpdatedPosts(posts, s.id, PatchOf(s));
    forall i | 0 <= i < |posts| && posts[i].id == p.id
      ensures r[i] == s
    {
      MergeWholePost(posts[i], s);
    }
    UpdateKeepsDraftIffUndated(posts, s.id, PatchOf(s));
  }

  /** The state `MyPosts` keeps for the modal. */
  class MyPostsView {
    var isModalOpen: bool
    var editingPost: Option<Post>
    var dropDate: Option<Time>

    constructor()
      ensures !isModalOpen && editingPost == None && dropDate == None
    {
      isModalOpen := false;
      editingPost := None;
      dropDate := None;
    }

    /** `handleDrop`: only an existing draft opens the modal, preset to the day it was dropped on. */
    method HandleDrop(posts: seq<Post>, date: Time, draggedPostId: string)
      modifies this
      ensures Find(posts, draggedPostId).Some? && Find(posts, draggedPostId).value.status == Draft ==>
        isModalOpen && editingPost == Find(posts, draggedPostId) && dropDate == Some(date)
      ensures Find(posts, draggedPostId).None? || Find(posts, draggedPostId).value.status != Draft ==>
        isModalOpen == old(isModalOpen) && editingPost == old(editingPost) && dropDate == old(dropDate)
    {
      var postToSchedule := Find(posts, draggedPostId);
      if postToSchedule.Some? && postToSchedule.value.status == Draft {
        editingPost := postToSchedule;
        dropDate := Some(date);
        isModalOpen := true;
      }
    }

    /** `handlePostClick`: open the modal on the post, without a drop date. */
    method HandlePostClick(post: Post)
      modifies this
      ensures isModalOpen && editingPost == Some(post) && dropDate == None
    {
      editingPost := Some(post);
      dropDate := None;
      isModalOpen := true;
    }

    /** `handleCloseModal`. */
    method HandleCloseModal()
      modifies this
      ensures !isModalOpen && editingPost == None && dropDate == None
    {
      isModalOpen := false;
      editingPost := None;
      dropDate := None;
    }

    /** `handleSavePost`: merge the whole post into the posts with its id, then close. */
    method HandleSavePost(store: PostStore, post: Post)
      modifies this, store
      ensures store.posts == UpdatedPosts(old(store.posts), post.id, PatchOf(post))
      ensures !isModalOpen && editingPost == None && dropDate == None
    {
      store.UpdatePost(post.id, PatchOf(post));
      HandleCloseModal();
    }

    /** `handleDeletePost`: delete (after confirmation), then close either way. */
    method HandleDeletePost(store: PostStore, id: string, confirmed: bool)
      modifies this, store
      ensures store.posts == if confirmed then RemovedPosts(old(store.posts), id) else old(store.posts)
      ensures !isModalOpen && editingPost == None && dropDate == None
    {
      store.DeletePost(id, confirmed);
      HandleCloseModal();
    }

    /**
     * `handleTaskStatusChange` of the list: only the task column of the posts
     * with the id changes, and the success toast is shown (as a translation key).
     */
    method HandleTaskStatusChange(store: PostStore, postId: string, newStatus: TaskStatus)
      returns (toasts: seq<Toast>)
      modifies store
      ensures store.posts == UpdatedPosts(old(store.posts), postId,
        PostPatch(None, None, None, None, None, None, None, None, Some(Some(newStatus))))
      ensures toasts == [InfoToast("myPosts.listView.taskStatusUpdateSuccess")]
    {
      store.UpdatePost(postId, PostPatch(None, None, None, None, None, None, None, None, Some(Some(newStatus))));
      toasts := [InfoToast("myPosts.listView.taskStatusUpdateSuccess")];
    }

    /**
     * `PostEditModal.handleSave`, on the open modal: save the post scheduled
     * at the form's date and time, close, and give 15 XP when it was a draft.
     * The toasts are the level-ups and the XP message, then the scheduling
     * message, for a draft; the update message otherwise (both as translation keys).
     */
    method SaveFromModal(store: PostStore, game: GamificationStore, z: Zone, f: EditForm, xpMessage: string)
      returns (toasts: seq<Toast>)
      requires isModalOpen && editingPost.Some? && game.Valid()
      modifies this, store, game
      ensures store.posts == UpdatedPosts(old(store.posts), old(editingPost).value.id,
        PatchOf(SavedPost(z, old(editingPost).value, f)))
      ensures !isModalOpen && editingPost == None && dropDate == None
      ensures game.Valid()
      ensures old(editingPost).value.status == Draft ==>
        Standing(game.level, game.xp) == Settle(old(game.level), old(game.xp) + ScheduleXp(old(editingPost).value))
      ensures old(editingPost).value.status == Draft ==>
        toasts == LevelUpToasts(LevelUps(old(game.level), game.level))
                  + [InfoToast(xpMessage), InfoToast("myPosts.scheduleSuccess")]
      ensures old(editingPost).value.status != Draft ==>
        game.level == old(game.level) && game.xp == old(game.xp) && toasts == [InfoToast("myPosts.editModal.updateSuccess")]
    {
      var post := editingPost.value;
      var saved := SavedPost(z, post, f);
      HandleSavePost(store, saved);
      if post.status == Draft {
        var levelToasts := game.AddXp(15, xpMessage);
        toasts := levelToasts + [InfoToast("myPosts.scheduleSuccess")];
      } else {
        toasts := [InfoToast("myPosts.editModal.updateSuccess")];
      }
    }
  }
}
