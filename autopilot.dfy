/**
 * The Autopilot screen (`Autopilot.tsx`): the list of at most five theme
 * keywords (added by hand or merged from an analysis of the published posts),
 * and the batch of suggested posts, generated for `frequency` credits and
 * then approved into drafts or discarded one by one.
 */
module Autopilot {
  import opened Clock
  import opened Types
  import opened Seqs
  import opened Text
  import StableSort
  import opened PostsContext
  import opened Gamification
  import opened Credits
  import opened Personalization
  import opened KnowledgeStore

  const MAX_KEYWORDS: nat := 5
  const POST_THRESHOLD: nat := 5

  /** The keywords the screen starts with. */
  const INITIAL_KEYWORDS: seq<string> := ["Inteligencia Artificial", "Marketing Digital", "Crecimiento de Startups"]

  /** The property the keyword handlers keep: at most five keywords, none twice. */
  predicate KeywordsValid(keywords: seq<string>)
  {
    |keywords| <= MAX_KEYWORDS && NoDuplicates(keywords)
  }

  lemma InitialKeywordsValid()
    ensures KeywordsValid(INITIAL_KEYWORDS)
  {
  }

  /**
   * `handleAddKeyword`: the trimmed keyword is appended when it is not blank,
   * not already there and there is room; otherwise the list stays. The warning
   * is shown exactly when the list is full.
   */
  datatype AddResult = AddResult(keywords: seq<string>, warned: bool)

  function AddKeyword(keywords: seq<string>, newKeyword: string): (r: AddResult)
    ensures r.keywords == keywords || r.keywords == keywords + [Trim(newKeyword)]
    ensures r.keywords == keywords + [Trim(newKeyword)]
        <==> Trim(newKeyword) != "" && Trim(newKeyword) !in keywords && |keywords| < MAX_KEYWORDS
    ensures r.warned <==> |keywords| >= MAX_KEYWORDS
  {
    var kw := Trim(newKeyword);
    if kw != "" && kw !in keywords && |keywords| < MAX_KEYWORDS then AddResult(keywords + [kw], false)
    else AddResult(keywords, |keywords| >= MAX_KEYWORDS)
  }

  /** Adding keeps the list valid. */
  lemma AddKeepsKeywordsValid(keywords: seq<string>, newKeyword: string)
    requires KeywordsValid(keywords)
    ensures KeywordsValid(AddKeyword(keywords, newKeyword).keywords)
  {
    var kw := Trim(newKeyword);
    if kw != "" && kw !in keywords && |keywords| < MAX_KEYWORDS {
      var r := keywords + [kw];
      forall i, j | 0 <= i < j < |r|
        ensures r[i] != r[j]
      {
        if j == |keywords| {
          assert r[i] == keywords[i];
        }
      }
    }
  }

  function KeepKeyword(kw: string): string -> bool
  {
    (k: string) => k != kw
  }

  /** `handleRemoveKeyword`'s new list: every keyword but the removed one, in order. */
  function RemoveKeyword(keywords: seq<string>, keywordToRemove: string): seq<string>
  {
    Filter(keywords, KeepKeyword(keywordToRemove))
  }

  /** Removing drops every copy of the keyword, keeps the others in order, and keeps the list valid. */
  lemma {:induction false} RemoveKeywordEffect(keywords: seq<string>, kw: string)
    ensures kw !in RemoveKeyword(keywords, kw)
    ensures forall i :: 0 <= i < |keywords| && keywords[i] != kw ==> keywords[i] in RemoveKeyword(keywords, kw)
    ensures IsSubsequence(RemoveKeyword(keywords, kw), keywords)
    ensures KeywordsValid(keywords) ==> KeywordsValid(RemoveKeyword(keywords, kw))
  {
    FilterMembers(keywords, KeepKeyword(kw));
    FilterIsSubsequence(keywords, KeepKeyword(kw));
    if NoDuplicates(keywords) {
      FilterNoDuplicates(keywords, KeepKeyword(kw));
    }
  }

  function NotAKeyword(keywords: seq<string>): string -> bool
  {
    (t: string) => t !in keywords
  }

  /**
   * The merge of `handleAnalyze`: the keywords, then the themes not among
   * them in reply order, cut to the first five.
   */
  function MergeThemes(keywords: seq<string>, themes: seq<string>): (r: seq<string>)
    ensures |r| <= MAX_KEYWORDS
    ensures |keywords| <= MAX_KEYWORDS ==> |keywords| <= |r| && r[..|keywords|] == keywords
  {
    StableSort.Take(keywords + Filter(themes, NotAKeyword(keywords)), MAX_KEYWORDS)
  }

  /**
   * What the merge adds are new themes from the reply, in the reply's order,
   * and it stops only when the list is full.
   */
  lemma {:induction false} MergeAddsNewThemes(keywords: seq<string>, themes: seq<string>)
    requires |keywords| <= MAX_KEYWORDS
    ensures var r := MergeThemes(keywords, themes);
      forall i :: |keywords| <= i < |r| ==> r[i] in themes && r[i] !in keywords
    ensures |MergeThemes(keywords, themes)| < MAX_KEYWORDS ==>
      forall i :: 0 <= i < |themes| && themes[i] !in keywords ==> themes[i] in MergeThemes(keywords, themes)
  {
    var added := Filter(themes, NotAKeyword(keywords));
    var r := MergeThemes(keywords, themes);
    FilterMembers(themes, NotAKeyword(keywords));
    forall i | |keywords| <= i < |r|
      ensures r[i] in themes && r[i] !in keywords
    {
      assert r[i] == added[i - |keywords|];
      assert NotAKeyword(keywords)(added[i - |keywords|]);
    }
    if |r| < MAX_KEYWORDS {
      assert r == keywords + added;
    }
  }

  /** A reply without repeated themes keeps the list valid. */
  lemma {:induction false} MergeKeepsKeywordsValid(keywords: seq<string>, themes: seq<string>)
    requires KeywordsValid(keywords) && NoDuplicates(themes)
    ensures KeywordsValid(MergeThemes(keywords, themes))
  {
    var added := Filter(themes, NotAKeyword(keywords));
    var merged := keywords + added;
    FilterNoDuplicates(themes, NotAKeyword(keywords));
    forall i, j | 0 <= i < j < |merged|
      ensures merged[i] != merged[j]
    {
      if i < |keywords| <= j {
        assert merged[j] == added[j - |keywords|];
        assert NotAKeyword(keywords)(added[j - |keywords|]);
        assert merged[i] in keywords;
      } else if |keywords| <= i {
        assert merged[i] == added[i - |keywords|] && merged[j] == added[j - |keywords|];
      }
    }
    var r := MergeThemes(keywords, themes);
    assert forall i :: 0 <= i < |r| ==> r[i] == merged[i];
  }

  /** A reply that names a new theme twice puts it in the list twice. */
  lemma RepeatedThemeIsKeptTwice()
    ensures MergeThemes([], ["IA", "IA"]) == ["IA", "IA"]
    ensures !KeywordsValid(MergeThemes([], ["IA", "IA"]))
  {
    var f := NotAKeyword([]);
    assert ["IA", "IA"][1..] == ["IA"];
    FilterSingleton("IA", f);
    var r := MergeThemes([], ["IA", "IA"]);
    assert r[0] == r[1];
  }

  /** The analyse button is enabled only while idle and with at least five published posts. */
  predicate AnalyzeEnabled(posts: seq<Post>, now: Time, isAnalyzing: bool)
  {
    !isAnalyzing && |PublishedPosts(posts, now)| >= POST_THRESHOLD
  }

  /** Fewer than five published posts keep the analysis locked whatever the other posts are. */
  lemma AnalyzeLockedBelowThreshold(posts: seq<Post>, now: Time)
    requires |posts| < POST_THRESHOLD
    ensures !AnalyzeEnabled(posts, now, false)
  {
  }

  /**
   * A post put in front (as `addPost` does) lifts the lock exactly when it is
   * the fifth published post; a post that is not published never changes the
   * button.
   */
  lemma AnalyzeUnlocksAtFifthPublished(posts: seq<Post>, p: Post, now: Time)
    ensures (!AnalyzeEnabled(posts, now, false) && AnalyzeEnabled([p] + posts, now, false)) <==>
      (IsPublished(p, now) && |PublishedPosts(posts, now)| == POST_THRESHOLD - 1)
    ensures !IsPublished(p, now) ==>
      forall busy :: AnalyzeEnabled([p] + posts, now, busy) == AnalyzeEnabled(posts, now, busy)
  {
    assert ([p] + posts)[1..] == posts;
    assert PublishedTest(now)(p) == IsPublished(p, now);
  }

  /** `SuggestionStatus`. */
  datatype SuggestionStatus = Pending | Approved | Discarded

  datatype Suggestion = Suggestion(id: string, content: string, status: SuggestionStatus)

  /** The id of the i-th new suggestion: a fixed prefix, the timestamp text and the index. */
  function SuggestionId(stamp: string, i: nat): string
  {
    "suggestion-" + stamp + "-" + NatToString(i)
  }

  /** The new suggestions: one pending suggestion per suggested content, in the reply's order. */
  function NewSuggestions(contents: seq<string>, stamp: string): (r: seq<Suggestion>)
    ensures |r| == |contents|
    ensures forall i :: 0 <= i < |r| ==> r[i].status == Pending && r[i].content == contents[i]
  {
    seq(|contents|, i requires 0 <= i < |contents| => Suggestion(SuggestionId(stamp, i), contents[i], Pending))
  }

  /** The suggestions with the id take the new status; the others are kept. */
  function Marked(suggestions: seq<Suggestion>, id: string, status: SuggestionStatus): (r: seq<Suggestion>)
    ensures |r| == |suggestions|
    ensures forall i :: 0 <= i < |r| && suggestions[i].id == id ==> r[i] == suggestions[i].(status := status)
    ensures forall i :: 0 <= i < |r| && suggestions[i].id != id ==> r[i] == suggestions[i]
  {
    seq(|suggestions|, i requires 0 <= i < |suggestions| =>
      if suggestions[i].id == id then suggestions[i].(status := status) else suggestions[i])
  }

  /** The first suggestion with the id, if there is one. */
  function FindSuggestion(suggestions: seq<Suggestion>, id: string): (r: Option<Suggestion>)
    ensures r.None? <==> forall i :: 0 <= i < |suggestions| ==> suggestions[i].id != id
    ensures r.Some? ==> exists i ::
      0 <= i < |suggestions| && suggestions[i] == r.value && r.value.id == id &&
        forall j :: 0 <= j < i ==> suggestions[j].id != id
    decreases |suggestions|
  {
    if suggestions == [] then None
    else if suggestions[0].id == id then Some(suggestions[0])
    else
      var r := FindSuggestion(suggestions[1..], id);
      if r.Some? then
        var j :| 0 <= j < |suggestions[1..]| && suggestions[1..][j] == r.value && r.value.id == id &&
          forall i :: 0 <= i < j ==> suggestions[1..][i].id != id;
        assert suggestions[j + 1] == r.value;
        r
      else r
  }

  /** What `generateAutopilotSuggestions` is asked for (the other form fields are passed through unchanged). */
  datatype AutopilotRequest = AutopilotRequest(
    frequency: nat, themes: seq<string>, customTopics: string, bestPractices: seq<string>, knowledgeBaseContent: string)

  /** How `handleGenerate` ended. */
  datatype GenerateOutcome = NoOccupation | NoCredits(needed: nat) | Requested(request: AutopilotRequest)

  /** `Autopilot`'s state. */
  class AutopilotState {
    var keywords: seq<string>
    var suggestions: seq<Suggestion>
    var frequency: nat
    var customTopics: string
    var useKnowledge: bool
    var error: Option<string>

    /** Three starting keywords, no suggestions, three posts a week, knowledge on. */
    constructor()
      ensures keywords == INITIAL_KEYWORDS && suggestions == [] && frequency == 3
      ensures customTopics == "" && useKnowledge && error == None
    {
      keywords := INITIAL_KEYWORDS;
      suggestions := [];
      frequency := 3;
      customTopics := "";
      useKnowledge := true;
      error := None;
    }

    /** The list never holds more than five keywords; that none is repeated is kept as long as the replies repeat none. */
    ghost predicate Valid()
      reads this
    {
      |keywords| <= MAX_KEYWORDS
    }

    /** `handleAddKeyword`: returns whether the "list full" warning is shown. */
    method HandleAddKeyword(newKeyword: string) returns (warned: bool)
      requires Valid()
      modifies this
      ensures Valid()
      ensures NoDuplicates(old(keywords)) ==> NoDuplicates(keywords)
      ensures AddResult(keywords, warned) == AddKeyword(old(keywords), newKeyword)
      ensures suggestions == old(suggestions)
      ensures frequency == old(frequency) && customTopics == old(customTopics) && useKnowledge == old(useKnowledge)
      ensures error == old(error)
    {
      if NoDuplicates(keywords) {
        AddKeepsKeywordsValid(keywords, newKeyword);
      }
      var kw := Trim(newKeyword);
      warned := false;
      if kw != "" && kw !in keywords && |keywords| < MAX_KEYWORDS {
        keywords := keywords + [kw];
      } else if |keywords| >= MAX_KEYWORDS {
        warned := true;
      }
    }

    /** `handleRemoveKeyword`. */
    method HandleRemoveKeyword(keywordToRemove: string)
      requires Valid()
      modifies this
      ensures Valid()
      ensures NoDuplicates(old(keywords)) ==> NoDuplicates(keywords)
      ensures keywords == RemoveKeyword(old(keywords), keywordToRemove)
      ensures suggestions == old(suggestions)
      ensures frequency == old(frequency) && customTopics == old(customTopics) && useKnowledge == old(useKnowledge)
      ensures error == old(error)
    {
      RemoveKeywordEffect(keywords, keywordToRemove);
      keywords := Filter(keywords, KeepKeyword(keywordToRemove));
    }

    /** `handleClearKeywords`: empties the list once the user confirms. */
    method HandleClearKeywords(confirmed: bool)
      requires Valid()
      modifies this
      ensures Valid()
      ensures keywords == if confirmed then [] else old(keywords)
      ensures suggestions == old(suggestions)
      ensures frequency == old(frequency) && customTopics == old(customTopics) && useKnowledge == old(useKnowledge)
      ensures error == old(error)
    {
      if confirmed {
        keywords := [];
      }
    }

    /**
     * `handleAnalyze`, given the themes the analysis replied with (`None`
     * when the call failed): merges them, or shows the analysis error.
     */
    method HandleAnalyze(reply: Option<seq<string>>)
      requires Valid()
      modifies this
      ensures Valid()
      ensures reply.Some? && NoDuplicates(old(keywords)) && NoDuplicates(reply.value) ==> NoDuplicates(keywords)
      ensures reply.Some? ==> keywords == MergeThemes(old(keywords), reply.value) && error == None
      ensures reply.None? ==> keywords == old(keywords) && error == Some("autopilot.analysis.analyzeError")
      ensures suggestions == old(suggestions)
      ensures frequency == old(frequency) && customTopics == old(customTopics) && useKnowledge == old(useKnowledge)
    {
      error := None;
      if reply.Some? {
        if NoDuplicates(keywords) && NoDuplicates(reply.value) {
          MergeKeepsKeywordsValid(keywords, reply.value);
        }
        keywords := MergeThemes(keywords, reply.value);
      } else {
        error := Some("autopilot.analysis.analyzeError");
      }
    }

    /**
     * `handleGenerate`, given the suggested contents of the reply (`None` when
     * the call failed). Without an occupation nothing happens; without
     * `frequency` credits nothing but the refusal happens; otherwise the credits
     * are spent, the old suggestions are cleared, and on success the new ones
     * come in, merged pending, with 20 XP. A failed call keeps the credits spent.
     */
    method HandleGenerate(identity: UserIdentity, credits: CreditStore, game: GamificationStore,
                          personalization: PersonalizationStore, knowledge: KnowledgeBaseStore,
                          tr: string -> string, reply: Option<seq<string>>, stamp: string, xpMessage: string)
      returns (outcome: GenerateOutcome)
      requires game.Valid()
      modifies this, credits, game
      ensures game.Valid()
      ensures keywords == old(keywords)
      ensures frequency == old(frequency) && customTopics == old(customTopics) && useKnowledge == old(useKnowledge)
      ensures outcome == NoOccupation <==> identity.occupation == ""
      ensures outcome.NoOccupation? ==>
        credits.credits == old(credits.credits) && suggestions == old(suggestions) && error == old(error)
        && game.level == old(game.level) && game.xp == old(game.xp)
      ensures outcome.NoCredits? <==> identity.occupation != "" && old(credits.credits) < frequency
      ensures outcome.NoCredits? ==>
        outcome.needed == frequency && credits.credits == old(credits.credits)
        && suggestions == old(suggestions) && error == old(error)
        && game.level == old(game.level) && game.xp == old(game.xp)
      ensures outcome.Requested? ==>
        credits.credits == old(credits.credits) - frequency
        && outcome.request == AutopilotRequest(frequency, keywords, customTopics,
             AllBestPractices(personalization.Practices(tr), personalization.customPractices),
             KnowledgeContent(knowledge.knowledgeItems, useKnowledge))
      ensures outcome.Requested? && reply.Some? ==>
        suggestions == NewSuggestions(reply.value, stamp) && error == None
        && Standing(game.level, game.xp) == Settle(old(game.level), old(game.xp) + 20)
      ensures outcome.Requested? && reply.None? ==>
        suggestions == [] && error == Some("autopilot.error") && game.level == old(game.level) && game.xp == old(game.xp)
    {
      if identity.occupation == "" {
        return NoOccupation;
      }
      var ok := credits.UseCredit(frequency);
      if !ok {
        return NoCredits(frequency);
      }
      error := None;
      suggestions := [];
      var request := AutopilotRequest(frequency, keywords, customTopics,
        AllBestPractices(personalization.Practices(tr), personalization.customPractices),
        KnowledgeContent(knowledge.knowledgeItems, useKnowledge));
      if reply.Some? {
        suggestions := NewSuggestions(reply.value, stamp);
        var _ := game.AddXp(20, xpMessage);
      } else {
        error := Some("autopilot.error");
      }
      return Requested(request);
    }

    /**
     * `handleApprove`: a suggestion with the id becomes a new draft with its
     * content, earns 5 XP and is marked approved; an unknown id changes nothing.
     */
    method HandleApprove(id: string, posts: PostStore, game: GamificationStore, freshId: string, xpMessage: string)
      requires game.Valid()
      modifies this, posts, game
      ensures game.Valid()
      ensures keywords == old(keywords)
      ensures frequency == old(frequency) && customTopics == old(customTopics) && useKnowledge == old(useKnowledge)
      ensures error == old(error)
      ensures FindSuggestion(old(suggestions), id).Some? ==>
        posts.posts == [NewPost(PostData(FindSuggestion(old(suggestions), id).value.content, None, None, None, None, None), freshId)]
          + old(posts.posts)
        && Standing(game.level, game.xp) == Settle(old(game.level), old(game.xp) + 5)
        && suggestions == Marked(old(suggestions), id, Approved)
      ensures FindSuggestion(old(suggestions), id).None? ==>
        posts.posts == old(posts.posts) && suggestions == old(suggestions)
        && game.level == old(game.level) && game.xp == old(game.xp)
    {
      var suggestion := FindSuggestion(suggestions, id);
      if suggestion.Some? {
        posts.AddPost(PostData(suggestion.value.content, None, None, None, None, None), freshId);
        var _ := game.AddXp(5, xpMessage);
        suggestions := Marked(suggestions, id, Approved);
      }
    }

    /** `handleDiscard`. */
    method HandleDiscard(id: string)
      modifies this
      ensures suggestions == Marked(old(suggestions), id, Discarded)
      ensures keywords == old(keywords)
      ensures frequency == old(frequency) && customTopics == old(customTopics) && useKnowledge == old(useKnowledge)
      ensures error == old(error)
    {
      suggestions := Marked(suggestions, id, Discarded);
    }
  }

  /** With no suggestion of that id, marking changes nothing. */
  lemma MarkUnknownIsNoOp(suggestions: seq<Suggestion>, id: string, status: SuggestionStatus)
    requires FindSuggestion(suggestions, id).None?
    ensures Marked(suggestions, id, status) == suggestions
  {
  }

  /** An approved draft has the suggestion's content and is, like every new post, an undated draft. */
  lemma ApprovedDraftFacts(posts: seq<Post>, content: string, freshId: string)
    requires DraftIffUndated(posts)
    ensures var p := NewPost(PostData(content, None, None, None, None, None), freshId);
      p.content == content && p.status == Draft && DraftIffUndated([p] + posts)
  {
    AddKeepsDraftIffUndated(posts, PostData(content, None, None, None, None, None), freshId);
  }
}
