/**
 * The shared records of the dashboard (`types.ts`) and the few derived
 * readings of a post that several screens repeat: `views || 0`, the
 * truthiness of `image`, and "published" as the statistics, the panel and
 * the autopilot compute it.
 */
module Types {
  import opened Clock
  import opened Seqs

  datatype Option<T> = None | Some(value: T)

  /** `Post.status`. */
  datatype PostStatus = Draft | Scheduled

  /** `TaskStatus`: the Kanban column of a post. */
  datatype TaskStatus = Todo | InProgress | Completed

  /**
   * `Post`. Optional and nullable fields are `Option`s: `scheduledAt` is a Date
   * or null, `image` a string, null or absent, the counters absent or a number.
   */
  datatype Post = Post(
    id: string,
    content: string,
    scheduledAt: Option<Time>,
    status: PostStatus,
    image: Option<string>,
    views: Option<nat>,
    likes: Option<nat>,
    comments: Option<nat>,
    taskStatus: Option<TaskStatus>)

  /** `UserIdentity`: who the generated posts speak for. */
  datatype UserIdentity = UserIdentity(name: string, occupation: string, bio: string, customInstructions: string)

  /** `PlanName`. */
  datatype PlanName = Free | Basic | Standard | Premium

  /** `KnowledgeItem`. */
  datatype KnowledgeItem = KnowledgeItem(id: string, title: string, content: string)

  /** `InspirationPost`. */
  datatype InspirationPost = InspirationPost(id: string, content: string)

  /** `GeneratedPostHistoryItem`. */
  datatype HistoryItem = HistoryItem(id: string, content: string, date: Time)

  /** `Notification`. */
  datatype Notification = Notification(id: int, kind: string, read: bool, text: string, time: string)

  /** `NavItem`: the sidebar entries. */
  datatype NavItem = PanelNav | GeneratorNav | MyPostsNav | SettingsNav | StatisticsNav
                   | HelpCenterNav | AutopilotNav | KnowledgeBaseNav

  /** `SettingsTab`. */
  datatype SettingsTab = ProfileTab | GeneralTab | NotificationsTab | BillingTab
                       | IntegrationsTab | SecurityTab | PersonalizationTab

  /** `AdvancedSettings` of the generator; the choices are kept as the strings the form stores. */
  datatype AdvancedSettings = AdvancedSettings(
    length: string, emojiUsage: string, creativity: real, cta: string, hashtags: string, audience: string)

  /** A post's views, 0 when missing. */
  function Views(p: Post): (r: int)
    ensures r >= 0
  {
    if p.views.Some? then p.views.value else 0
  }

  /** A post's likes, 0 when missing. */
  function Likes(p: Post): (r: int)
    ensures r >= 0
  {
    if p.likes.Some? then p.likes.value else 0
  }

  /** A post's comments, 0 when missing. */
  function Comments(p: Post): (r: int)
    ensures r >= 0
  {
    if p.comments.Some? then p.comments.value else 0
  }

  /** Likes plus comments, each defaulting to 0. */
  function Engagement(p: Post): (r: int)
    ensures r >= Likes(p) && r >= Comments(p)
  {
    Likes(p) + Comments(p)
  }

  /** The post has an image: a non-empty image string is present. */
  predicate HasImage(p: Post)
  {
    p.image.Some? && p.image.value != ""
  }

  /**
   * "Published": a scheduled post with a date that is not in the future.
   */
  predicate IsPublished(p: Post, now: Time)
  {
    p.status == Scheduled && p.scheduledAt.Some? && p.scheduledAt.value <= now
  }

  /** The published test, as a value that `Filter` can take. */
  function PublishedTest(now: Time): Post -> bool
  {
    p => IsPublished(p, now)
  }

  /** The published posts: scheduled, dated, and not after now, in list order. */
  function PublishedPosts(posts: seq<Post>, now: Time): (r: seq<Post>)
    ensures forall i :: 0 <= i < |r| ==> IsPublished(r[i], now)
  {
    Filter(posts, PublishedTest(now))
  }

  /** The date of a post, given that it has one. */
  function DateOf(p: Post): Time
    requires p.scheduledAt.Some?
  {
    p.scheduledAt.value
  }
}
