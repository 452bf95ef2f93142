/**
 * The shared post list (`PostsContext`): seven seed posts placed relative to
 * the moment the provider is created, and the three commands that replace
 * the list: add a new draft in front, merge an update into the posts with a
 * given id, and delete the posts with a given id after confirmation.
 */
module PostsContext {
  import opened Clock
  import opened Types
  import opened Seqs

  /** The fields `addPost` takes: a post without `id`, `status` and `scheduledAt`. */
  datatype PostData = PostData(
    content: string, image: Option<string>, views: Option<nat>, likes: Option<nat>,
    comments: Option<nat>, taskStatus: Option<TaskStatus>)

  /** `Partial<Post>`: each field present (`Some`) is copied over the post by the spread. */
  datatype PostPatch = PostPatch(
    id: Option<string>, content: Option<string>, scheduledAt: Option<Option<Time>>,
    status: Option<PostStatus>, image: Option<Option<string>>, views: Option<Option<nat>>,
    likes: Option<Option<nat>>, comments: Option<Option<nat>>, taskStatus: Option<Option<TaskStatus>>)

  function Pick<T>(update: Option<T>, current: T): T
  {
    if update.Some? then update.value else current
  }

  /** The post with the present fields of the update written over it. */
  function Merge(p: Post, u: PostPatch): (r: Post)
    ensures u.status.None? ==> r.status == p.status
    ensures u.scheduledAt.None? ==> r.scheduledAt == p.scheduledAt
    ensures u == PostPatch(None, None, None, None, None, None, None, None, None) ==> r == p
  {
    Post(Pick(u.id, p.id), Pick(u.content, p.content), Pick(u.scheduledAt, p.scheduledAt),
         Pick(u.status, p.status), Pick(u.image, p.image), Pick(u.views, p.views),
         Pick(u.likes, p.likes), Pick(u.comments, p.comments), Pick(u.taskStatus, p.taskStatus))
  }

  /** The post `addPost` builds: the data, a fresh id, a draft without a date, in the to-do column. */
  function NewPost(data: PostData, freshId: string): (p: Post)
    ensures p.id == freshId && p.content == data.content
    ensures p.status == Draft && p.scheduledAt == None && p.taskStatus == Some(Todo)
  {
    Post(freshId, data.content, None, Draft, data.image, data.views, data.likes, data.comments, Some(Todo))
  }

  /**
   * `updatePost`'s new list: the posts with the id are merged, the others
   * stay where they were, and with no post of that id the list is unchanged.
   */
  function UpdatedPosts(posts: seq<Post>, id: string, u: PostPatch): (r: seq<Post>)
    ensures |r| == |posts|
    ensures forall i :: 0 <= i < |posts| && posts[i].id != id ==> r[i] == posts[i]
    ensures forall i :: 0 <= i < |posts| && posts[i].id == id ==> r[i] == Merge(posts[i], u)
    ensures (forall i :: 0 <= i < |posts| ==> posts[i].id != id) ==> r == posts
  {
    seq(|posts|, i requires 0 <= i < |posts| => if posts[i].id == id then Merge(posts[i], u) else posts[i])
  }

  /** The test the filter keeps a post by. */
  function KeepTest(id: string): Post -> bool
  {
    (p: Post) => p.id != id
  }

  /** The posts other than those with the id, in order. */
  function RemovedPosts(posts: seq<Post>, id: string): seq<Post>
  {
    Filter(posts, KeepTest(id))
  }

  /** Every post without a date is a draft, and every draft is without a date. */
  predicate DraftIffUndated(posts: seq<Post>)
  {
    forall i :: 0 <= i < |posts| ==> (posts[i].status == Draft <==> posts[i].scheduledAt.None?)
  }

  const DAY: int := 24 * 60 * 60 * 1000

  /** The seed list, dated relative to the instant `now` at which the module was loaded. */
  function Seed(now: Time): (s: seq<Post>)
    ensures |s| == 7
  {
    [ Post("dummy-1", "Este es un borrador de ejemplo.", None, Draft, None, None, None, None, Some(Todo)),
      Post("dummy-2", "Un post programado para mañana.", Some(now + DAY), Scheduled,
           Some("https://images.unsplash.com/photo-1611162617213"), None, None, None, Some(InProgress)),
      Post("dummy-3", "Hemos lanzado la integración con Gemini.", Some(now - 2 * DAY), Scheduled,
           None, Some(8451), Some(512), Some(45), Some(Completed)),
      Post("dummy-4", "3 consejos para mejorar tu engagement.", Some(now - 5 * DAY), Scheduled,
           None, Some(12345), Some(987), Some(102), Some(Completed)),
      Post("dummy-5", "El futuro del trabajo remoto.", Some(now - 10 * DAY), Scheduled,
           Some("https://images.unsplash.com/photo-1589998059171"), Some(7500), Some(450), Some(68), Some(Completed)),
      Post("dummy-6", "La psicología de la persuasión.", Some(now - 25 * DAY), Scheduled,
           None, Some(15200), Some(1100), Some(150), Some(Completed)),
      Post("dummy-7", "El equipo ha crecido un 50%.", Some(now - 40 * DAY), Scheduled,
           Some("https://images.unsplash.com/photo-1521737604893"), Some(25000), Some(2300), Some(320), Some(Completed)) ]
  }

  /** The seed keeps drafts and undated posts the same, and holds seven distinct ids. */
  lemma SeedFacts(now: Time)
    ensures DraftIffUndated(Seed(now))
    ensures forall i, j :: 0 <= i < j < 7 ==> Seed(now)[i].id != Seed(now)[j].id
  {
  }

  /** Adding keeps the draft/date correspondence. */
  lemma AddKeepsDraftIffUndated(posts: seq<Post>, data: PostData, freshId: string)
    requires DraftIffUndated(posts)
    ensures DraftIffUndated([NewPost(data, freshId)] + posts)
  {
    var r := [NewPost(data, freshId)] + posts;
    assert forall i :: 1 <= i < |r| ==> r[i] == posts[i - 1];
  }

  /** An update that leaves status and date alone, or sets both to a scheduled date, keeps the correspondence. */
  lemma {:induction false} UpdateKeepsDraftIffUndated(posts: seq<Post>, id: string, u: PostPatch)
    requires DraftIffUndated(posts)
    requires (u.status.None? && u.scheduledAt.None?)
      || (u.status == Some(Scheduled) && u.scheduledAt.Some? && u.scheduledAt.value.Some?)
    ensures DraftIffUndated(UpdatedPosts(posts, id, u))
  {
    var r := UpdatedPosts(posts, id, u);
    forall i | 0 <= i < |r|
      ensures r[i].status == Draft <==> r[i].scheduledAt.None?
    {
      if posts[i].id == id {
        assert r[i] == Merge(posts[i], u);
      }
    }
  }

  /**
   * Deleting removes every post with the id and keeps each other post, in
   * order; with no post of that id the list is unchanged.
   */
  lemma {:induction false} RemoveEffect(posts: seq<Post>, id: string)
    ensures forall i :: 0 <= i < |RemovedPosts(posts, id)| ==> RemovedPosts(posts, id)[i].id != id
    ensures forall i :: 0 <= i < |posts| && posts[i].id != id ==> posts[i] in RemovedPosts(posts, id)
    ensures IsSubsequence(RemovedPosts(posts, id), posts)
    ensures (forall i :: 0 <= i < |posts| ==> posts[i].id != id) ==> RemovedPosts(posts, id) == posts
  {
    var f := KeepTest(id);
    FilterMembers(posts, f);
    FilterIsSubsequence(posts, f);
    if forall i :: 0 <= i < |posts| ==> posts[i].id != id {
      FilterAll(posts, f);
    }
  }

  /** `PostsProvider`'s state and commands. */
  class PostStore {
    var posts: seq<Post>

    constructor(now: Time)
      ensures posts == Seed(now)
    {
      posts := Seed(now);
    }

    /** `addPost`: the new draft goes in front of the existing posts, which keep their order. */
    method AddPost(data: PostData, freshId: string)
      modifies this
      ensures posts == [NewPost(data, freshId)] + old(posts)
      ensures |posts| == |old(posts)| + 1 && posts[1..] == old(posts)
    {
      posts := [NewPost(data, freshId)] + posts;
    }

    /** `updatePost`. */
    method UpdatePost(id: string, u: PostPatch)
      modifies this
      ensures posts == UpdatedPosts(old(posts), id, u)
    {
      posts := UpdatedPosts(posts, id, u);
    }

    /** `deletePost`: only after the user confirms. */
    method DeletePost(id: string, confirmed: bool)
      modifies this
      ensures posts == if confirmed then RemovedPosts(old(posts), id) else old(posts)
    {
      if confirmed {
        posts := RemovedPosts(posts, id);
      }
    }
  }
}
