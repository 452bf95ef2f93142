/**
 * The post generator (`Generator.tsx`): choosing a template fills the prompt,
 * enhancing and generating each cost one credit before the AI service is
 * called, a generated post is shown, rewarded and kept in the history, the
 * advanced settings can be saved as defaults and restored, and the prompt's
 * length is coloured against LinkedIn's 3000-character limit.
 */
module Generator {
  import opened Clock
  import opened Types
  import opened Text
  import opened PostsContext
  import opened Gamification
  import opened Credits
  import opened Personalization
  import opened KnowledgeStore
  import opened HistoryStore
  import opened I18n

  const LINKEDIN_CHAR_LIMIT: nat := 3000

  /** The colour of the character counter. */
  datatype CountColor = NeutralCount | OrangeCount | RedCount

  /**
   * `charCountColor`: red above the limit, orange above 95% of it (2850, which
   * `3000 * 0.95` rounds to exactly), neutral otherwise.
   */
  function CharCountColor(prompt: string): (c: CountColor)
    ensures c == RedCount <==> |prompt| > 3000
    ensures c == OrangeCount <==> 2850 < |prompt| <= 3000
    ensures c == NeutralCount <==> |prompt| <= 2850
  {
    if |prompt| > LINKEDIN_CHAR_LIMIT then RedCount
    else if |prompt| > 2850 then OrangeCount
    else NeutralCount
  }

  /** A longer prompt is never shown in a calmer colour. */
  lemma ColorMonotone(a: string, b: string)
    requires |a| <= |b|
    ensures CharCountColor(a) == RedCount ==> CharCountColor(b) == RedCount
    ensures CharCountColor(a) == OrangeCount ==> CharCountColor(b) != NeutralCount
  {
  }

  /** The translation key of a template's prompt. */
  function TemplateKey(template: string): string
  {
    "generator.template_prompts." + template
  }

  /**
   * The prompt a template choice leaves: the template's translated text when
   * the translation is a string other than the key; otherwise, and for `---`
   * (the empty choice), an empty prompt.
   */
  function TemplatePrompt(translations: map<string, Json>, language: string, template: string): (r: string)
    ensures template == "" ==> r == ""
    ensures template != "" && Translate(translations, language, TemplateKey(template), [], false).JString?
          && Translate(translations, language, TemplateKey(template), [], false).s != TemplateKey(template)
        ==> r == Translate(translations, language, TemplateKey(template), [], false).s
    ensures r != "" ==> Translate(translations, language, TemplateKey(template), [], false) == JString(r)
  {
    if template == "" then ""
    else
      var tp := Translate(translations, language, TemplateKey(template), [], false);
      if tp.JString? && tp.s != TemplateKey(template) then tp.s else ""
  }

  /** A template whose prompt is not in the loaded translations clears the prompt. */
  lemma MissingTemplateClearsPrompt(translations: map<string, Json>, language: string, template: string)
    requires language !in translations
      || Walk(Found(translations[language]), Split(TemplateKey(template), '.')).Undefined?
    ensures TemplatePrompt(translations, language, template) == ""
  {
    var tp := Translate(translations, language, TemplateKey(template), [], false);
    assert tp == JString(TemplateKey(template));
  }

  /** What `generatePost` is asked for (identity, inspiration posts and language are passed through). */
  datatype GenerateRequest = GenerateRequest(
    prompt: string, tone: string, postType: string, customInstructions: string,
    advanced: AdvancedSettings, knowledgeBaseContent: string, bestPractices: seq<string>)

  /** The reply of an AI call: the text, or a failure with its message (possibly empty). */
  datatype Reply = Ok(text: string) | Failed(message: string)

  /** How `handleEnhancePrompt` ended. */
  datatype EnhanceOutcome = EnhanceSkipped | EnhanceNoCredits | Enhanced(ok: bool)

  /** How `handleGenerate` ended. */
  datatype GenerateOutcome = PromptRequired | GenerateNoCredits | GenerateRequested(request: GenerateRequest)

  /** The advanced settings the form starts with. */
  const INITIAL_ADVANCED: AdvancedSettings := AdvancedSettings("medium", "moderate", 0.7, "question", "broad", "")

  /** A snapshot of every field of the generator's state. */
  datatype GeneratorFields = GeneratorFields(
    prompt: string, template: string, enhanceWithAI: bool, tone: string, postType: string,
    customInstructions: string, useKnowledge: bool, advancedSettings: AdvancedSettings,
    defaultAdvancedSettings: AdvancedSettings, generatedPost: string, editablePost: string, error: Option<string>)

  /** `Generator`'s state. */
  class GeneratorState {
    var prompt: string
    var template: string
    var enhanceWithAI: bool
    var tone: string
    var postType: string
    var customInstructions: string
    var useKnowledge: bool
    var advancedSettings: AdvancedSettings
    var defaultAdvancedSettings: AdvancedSettings
    var generatedPost: string
    var editablePost: string
    var error: Option<string>

    /** The whole state at once, so that a handler can say which fields it changes and that the rest are kept. */
    function Fields(): GeneratorFields
      reads this
    {
      GeneratorFields(prompt, template, enhanceWithAI, tone, postType, customInstructions, useKnowledge,
        advancedSettings, defaultAdvancedSettings, generatedPost, editablePost, error)
    }

    /** An empty prompt and no template, enhancement and knowledge on, a professional announcement, the initial settings as defaults. */
    constructor()
      ensures Fields() == GeneratorFields("", "", true, "professional", "announcement", "", true,
                                          INITIAL_ADVANCED, INITIAL_ADVANCED, "", "", None)
    {
      prompt := "";
      template := "";
      enhanceWithAI := true;
      tone := "professional";
      postType := "announcement";
      customInstructions := "";
      useKnowledge := true;
      advancedSettings := INITIAL_ADVANCED;
      defaultAdvancedSettings := INITIAL_ADVANCED;
      generatedPost := "";
      editablePost := "";
      error := None;
    }

    /** `handleTemplateChange`: a real template also turns AI enhancement off. */
    method HandleTemplateChange(newTemplateValue: string, translations: map<string, Json>, language: string)
      modifies this
      ensures Fields() == old(Fields()).(template := newTemplateValue,
                                         prompt := TemplatePrompt(translations, language, newTemplateValue),
                                         enhanceWithAI := newTemplateValue == "" && old(enhanceWithAI))
    {
      template := newTemplateValue;
      if newTemplateValue != "" {
        enhanceWithAI := false;
        var templatePrompt := T(translations, language, TemplateKey(newTemplateValue), [], false);
        if templatePrompt.JString? && templatePrompt.s != TemplateKey(newTemplateValue) {
          prompt := templatePrompt.s;
        } else {
          prompt := "";
        }
      } else {
        prompt := "";
      }
    }

    /**
     * `handleEnhancePrompt`: nothing for a blank prompt; otherwise one credit
     * is spent first, and the prompt is replaced by the enhanced one only when
     * the call succeeds. A failed call keeps the credit spent.
     */
    method HandleEnhancePrompt(credits: CreditStore, reply: Reply) returns (outcome: EnhanceOutcome)
      modifies this, credits
      ensures outcome == EnhanceSkipped <==> IsBlank(old(prompt))
      ensures outcome == EnhanceNoCredits <==> !IsBlank(old(prompt)) && old(credits.credits) < 1
      ensures !outcome.Enhanced? ==> credits.credits == old(credits.credits) && Fields() == old(Fields())
      ensures outcome.Enhanced? ==> credits.credits == old(credits.credits) - 1 && outcome.ok == reply.Ok?
      ensures outcome.Enhanced? ==> Fields() == old(Fields()).(prompt := if reply.Ok? then reply.text else old(prompt))
    {
      if IsBlank(prompt) {
        return EnhanceSkipped;
      }
      var ok := credits.UseCredit(1);
      if !ok {
        return EnhanceNoCredits;
      }
      if reply.Ok? {
        prompt := reply.text;
      }
      return Enhanced(reply.Ok?);
    }

    /**
     * `handleGenerate`: a blank prompt is refused with an error and costs
     * nothing; otherwise one credit is spent first and the request carries the
     * knowledge text and the chosen practices. A generated post is shown and
     * editable, earns 10 XP and goes in front of the history; a failure shows
     * its message (or the generic one) and keeps the credit spent.
     */
    method HandleGenerate(credits: CreditStore, game: GamificationStore, history: GenerationHistory,
                          personalization: PersonalizationStore, knowledge: KnowledgeBaseStore,
                          tr: string -> string, reply: Reply, freshId: string, now: Time, xpMessage: string)
      returns (outcome: GenerateOutcome)
      requires game.Valid()
      modifies this, credits, game, history
      ensures game.Valid()
      ensures outcome == PromptRequired <==> IsBlank(old(prompt))
      ensures outcome == PromptRequired ==> Fields() == old(Fields()).(error := Some("generator.errors.promptRequired"))
      ensures outcome == GenerateNoCredits <==> !IsBlank(old(prompt)) && old(credits.credits) < 1
      ensures outcome == GenerateNoCredits ==> Fields() == old(Fields())
      ensures !outcome.GenerateRequested? ==>
        credits.credits == old(credits.credits) && history.history == old(history.history)
        && game.level == old(game.level) && game.xp == old(game.xp)
      ensures outcome.GenerateRequested? ==>
        credits.credits == old(credits.credits) - 1
        && outcome.request == old(RequestFor(knowledge, personalization, tr))
      ensures outcome.GenerateRequested? && reply.Ok? ==>
        Fields() == old(Fields()).(generatedPost := reply.text, editablePost := reply.text, error := None)
        && Standing(game.level, game.xp) == Settle(old(game.level), old(game.xp) + 10)
        && history.history == [HistoryItem(freshId, reply.text, now)] + old(history.history)
      ensures outcome.GenerateRequested? && reply.Failed? ==>
        Fields() == old(Fields()).(generatedPost := "", editablePost := "",
                                   error := Some(if reply.message != "" then reply.message else "generator.error.generic"))
        && history.history == old(history.history) && game.level == old(game.level) && game.xp == old(game.xp)
    {
      var request := RequestFor(knowledge, personalization, tr);
      ghost var standing := Settle(game.level, game.xp + 10);
      if IsBlank(prompt) {
        error := Some("generator.errors.promptRequired");
        return PromptRequired;
      }
      var ok := credits.UseCredit(1);
      if !ok {
        return GenerateNoCredits;
      }
      ShowReply(game, history, reply, freshId, now, xpMessage);
      assert reply.Ok? ==> Standing(game.level, game.xp) == standing;
      return GenerateRequested(request);
    }

    /**
     * The request `handleGenerate` sends: the form's fields, the knowledge
     * text (empty when the switch is off) and the chosen practices.
     */
    function RequestFor(knowledge: KnowledgeBaseStore, personalization: PersonalizationStore,
                        tr: string -> string): (r: GenerateRequest)
      reads this, knowledge, personalization
      ensures r.prompt == prompt && r.advanced == advancedSettings
      ensures !useKnowledge ==> r.knowledgeBaseContent == ""
      ensures |r.bestPractices| >= |personalization.customPractices|
    {
      GenerateRequest(prompt, tone, postType, customInstructions, advancedSettings,
        KnowledgeContent(knowledge.knowledgeItems, useKnowledge),
        AllBestPractices(personalization.Practices(tr), personalization.customPractices))
    }

    /** The part of `handleGenerate` after the credit is spent: the reply shown, rewarded and recorded. */
    method ShowReply(game: GamificationStore, history: GenerationHistory, reply: Reply,
                     freshId: string, now: Time, xpMessage: string)
      requires game.Valid()
      modifies this, game, history
      ensures game.Valid()
      ensures reply.Ok? ==>
        Fields() == old(Fields()).(generatedPost := reply.text, editablePost := reply.text, error := None)
        && Standing(game.level, game.xp) == Settle(old(game.level), old(game.xp) + 10)
        && history.history == [HistoryItem(freshId, reply.text, now)] + old(history.history)
      ensures reply.Failed? ==>
        Fields() == old(Fields()).(generatedPost := "", editablePost := "",
                                   error := Some(if reply.message != "" then reply.message else "generator.error.generic"))
        && history.history == old(history.history) && game.level == old(game.level) && game.xp == old(game.xp)
    {
      error := None;
      generatedPost := "";
      editablePost := "";
      if reply.Ok? {
        generatedPost := reply.text;
        editablePost := reply.text;
        var _ := game.AddXp(10, xpMessage);
        history.AddPostToHistory(reply.text, freshId, now);
      } else {
        error := Some(if reply.message != "" then reply.message else "generator.error.generic");
      }
    }

    /** `handleReuseHistory`: a history item becomes the shown and editable post. */
    method HandleReuseHistory(content: string)
      modifies this
      ensures Fields() == old(Fields()).(generatedPost := content, editablePost := content)
    {
      generatedPost := content;
      editablePost := content;
    }

    /** `handleSaveDraft`: the edited post becomes a new draft and earns 5 XP. */
    method HandleSaveDraft(posts: PostStore, game: GamificationStore, freshId: string, xpMessage: string)
      requires game.Valid()
      modifies posts, game
      ensures game.Valid()
      ensures posts.posts == [NewPost(PostData(editablePost, None, None, None, None, None), freshId)] + old(posts.posts)
      ensures Standing(game.level, game.xp) == Settle(old(game.level), old(game.xp) + 5)
    {
      posts.AddPost(PostData(editablePost, None, None, None, None, None), freshId);
      var _ := game.AddXp(5, xpMessage);
    }

    /** `handleSaveDefaults`: the current advanced settings become the defaults. */
    method HandleSaveDefaults()
      modifies this
      ensures Fields() == old(Fields()).(defaultAdvancedSettings := old(advancedSettings))
    {
      defaultAdvancedSettings := advancedSettings;
    }

    /** `handleResetDefaults`: the advanced settings go back to the last saved defaults. */
    method HandleResetDefaults()
      modifies this
      ensures Fields() == old(Fields()).(advancedSettings := old(defaultAdvancedSettings))
    {
      advancedSettings := defaultAdvancedSettings;
    }

    /** Changing one advanced setting (any field of the form). */
    method SetAdvancedSettings(s: AdvancedSettings)
      modifies this
      ensures Fields() == old(Fields()).(advancedSettings := s)
    {
      advancedSettings := s;
    }
  }
}
