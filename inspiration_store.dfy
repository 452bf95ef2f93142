/**
 * The inspiration posts (`InspirationContext`): examples of posts the user
 * likes, with add (in front, under an `insp-` id), update by id and delete by id.
 */
module InspirationStore {
  import opened Types
  import opened Seqs
  import opened Text

  /** An update of an inspiration post: the fields present replace the post's. */
  datatype InspirationPatch = InspirationPatch(id: Option<string>, content: Option<string>)

  /** The post with the present fields of the update written over it. */
  function MergeInspiration(p: InspirationPost, u: InspirationPatch): (r: InspirationPost)
    ensures u.id.None? ==> r.id == p.id
    ensures u == InspirationPatch(None, None) ==> r == p
  {
    InspirationPost(if u.id.Some? then u.id.value else p.id, if u.content.Some? then u.content.value else p.content)
  }

  /** The update merged into every post with the id; the others are kept. */
  function UpdatedInspiration(posts: seq<InspirationPost>, id: string, u: InspirationPatch): (r: seq<InspirationPost>)
    ensures |r| == |posts|
    ensures forall i :: 0 <= i < |posts| && posts[i].id != id ==> r[i] == posts[i]
    ensures forall i :: 0 <= i < |posts| && posts[i].id == id ==> r[i] == MergeInspiration(posts[i], u)
  {
    seq(|posts|, i requires 0 <= i < |posts| => if posts[i].id == id then MergeInspiration(posts[i], u) else posts[i])
  }

  function KeepInspiration(id: string): InspirationPost -> bool
  {
    (p: InspirationPost) => p.id != id
  }

  /** Deleting drops every post with the id and keeps the others in order. */
  lemma {:induction false} RemoveInspirationEffect(posts: seq<InspirationPost>, id: string)
    ensures forall i :: 0 <= i < |Filter(posts, KeepInspiration(id))| ==> Filter(posts, KeepInspiration(id))[i].id != id
    ensures forall i :: 0 <= i < |posts| && posts[i].id != id ==> posts[i] in Filter(posts, KeepInspiration(id))
    ensures IsSubsequence(Filter(posts, KeepInspiration(id)), posts)
  {
    FilterMembers(posts, KeepInspiration(id));
    FilterIsSubsequence(posts, KeepInspiration(id));
  }

  /** The two sample posts the provider starts with (their texts shortened here). */
  function SeedInspiration(): (s: seq<InspirationPost>)
    ensures |s| == 2
  {
    [ InspirationPost("insp-1", "Acabo de pasar de 0 a 10,000€/mes en 90 días.\n\nSin página web."),
      InspirationPost("insp-2", "La mayoría de la gente fracasa en LinkedIn por una razón:\n\nIntentan ser perfectos.") ]
  }

  /** A new inspiration post's id: the `insp-` prefix and the timestamp text. */
  function InspirationId(stamp: string): (r: string)
    ensures StartsWith(r, "insp-")
  {
    assert ("insp-" + stamp)[..5] == "insp-";
    "insp-" + stamp
  }

  /** `InspirationProvider`'s state and commands. */
  class InspirationPostStore {
    var inspirationPosts: seq<InspirationPost>

    constructor()
      ensures inspirationPosts == SeedInspiration()
    {
      inspirationPosts := SeedInspiration();
    }

    /** `addInspirationPost`: the new post goes in front, under an `insp-` id. */
    method AddInspirationPost(content: string, stamp: string)
      modifies this
      ensures inspirationPosts == [InspirationPost(InspirationId(stamp), content)] + old(inspirationPosts)
      ensures |inspirationPosts| == |old(inspirationPosts)| + 1 && inspirationPosts[1..] == old(inspirationPosts)
    {
      inspirationPosts := [InspirationPost(InspirationId(stamp), content)] + inspirationPosts;
    }

    /** `updateInspirationPost`. */
    method UpdateInspirationPost(id: string, u: InspirationPatch)
      modifies this
      ensures inspirationPosts == UpdatedInspiration(old(inspirationPosts), id, u)
    {
      inspirationPosts := UpdatedInspiration(inspirationPosts, id, u);
    }

    /** `deleteInspirationPost`. */
    method DeleteInspirationPost(id: string)
      modifies this
      ensures inspirationPosts == Filter(old(inspirationPosts), KeepInspiration(id))
    {
      inspirationPosts := Filter(inspirationPosts, KeepInspiration(id));
    }
  }
}
