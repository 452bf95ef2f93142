/**
 * The help centre (`HelpCenter.tsx`): the category tabs and the search over
 * the question-and-answer lists. The FAQ and guide lists are the ones loaded
 * from the translations; they are taken here as given.
 */
module HelpCenter {
  import opened Seqs
  import opened Text

  /** `HelpCategory`. */
  datatype HelpCategory = Faq | Guides | WhatsNew | Contact

  /** `AccordionContent`: one question and its answer. */
  datatype Entry = Entry(q: string, a: string)

  /** The question or the answer contains the query, ignoring ASCII case. */
  predicate EntryMatches(query: string, e: Entry)
  {
    Contains(Lower(e.q), Lower(query)) || Contains(Lower(e.a), Lower(query))
  }

  function EntryTest(query: string): Entry -> bool
  {
    (e: Entry) => EntryMatches(query, e)
  }

  /** The list a category searches: the FAQs, the guides, or nothing. */
  function SourceOf(category: HelpCategory, faqs: seq<Entry>, guides: seq<Entry>): (r: seq<Entry>)
    ensures category == Faq ==> r == faqs
    ensures category == Guides ==> r == guides
    ensures category == WhatsNew || category == Contact ==> r == []
  {
    match category
    case Faq => faqs
    case Guides => guides
    case _ => []
  }

  /**
   * `filteredContent`: without a query the category's whole list; with one,
   * the entries of that list that match it, in their order.
   */
  function FilteredContent(category: HelpCategory, query: string, faqs: seq<Entry>, guides: seq<Entry>)
    : (r: seq<Entry>)
    ensures query == "" ==> r == SourceOf(category, faqs, guides)
    ensures forall i :: 0 <= i < |r| ==> r[i] in SourceOf(category, faqs, guides)
    ensures query != "" ==> forall i :: 0 <= i < |r| ==> EntryMatches(query, r[i])
    ensures category == WhatsNew || category == Contact ==> r == []
  {
    var source := SourceOf(category, faqs, guides);
    if query == "" then source
    else
      FilterMembers(source, EntryTest(query));
      Filter(source, EntryTest(query))
  }

  /** The search keeps every matching entry and keeps the order: an ordered selection of the list. */
  lemma SearchIsOrderedSelection(category: HelpCategory, query: string, faqs: seq<Entry>, guides: seq<Entry>)
    ensures IsSubsequence(FilteredContent(category, query, faqs, guides), SourceOf(category, faqs, guides))
    ensures forall i :: 0 <= i < |SourceOf(category, faqs, guides)| && EntryMatches(query, SourceOf(category, faqs, guides)[i]) ==>
      SourceOf(category, faqs, guides)[i] in FilteredContent(category, query, faqs, guides)
  {
    var source := SourceOf(category, faqs, guides);
    if query == "" {
      SubsequenceRefl(source);
    } else {
      FilterIsSubsequence(source, EntryTest(query));
      FilterMembers(source, EntryTest(query));
    }
  }

  /** The query's own case does not matter. */
  lemma SearchIgnoresCase(category: HelpCategory, query: string, faqs: seq<Entry>, guides: seq<Entry>)
    ensures FilteredContent(category, Lower(query), faqs, guides) == FilteredContent(category, query, faqs, guides)
  {
    if query != "" {
      LowerTwice(query);
      FilterSameTest(SourceOf(category, faqs, guides), EntryTest(Lower(query)), EntryTest(query));
    }
  }

  /** The help centre's state: the search box and the active tab. */
  datatype HelpState = HelpState(searchQuery: string, activeCategory: HelpCategory)

  /** The screen opens on the FAQs with an empty search. */
  const INITIAL_HELP: HelpState := HelpState("", Faq)

  /** A click on a category tab: that category, with the search cleared. */
  function SelectCategory(state: HelpState, category: HelpCategory): (r: HelpState)
    ensures r.activeCategory == category && r.searchQuery == ""
  {
    HelpState("", category)
  }

  /** Typing in the search box changes only the query. */
  function SetQuery(state: HelpState, query: string): (r: HelpState)
    ensures r.searchQuery == query && r.activeCategory == state.activeCategory
  {
    state.(searchQuery := query)
  }

  /** Right after a tab is chosen, the whole list of that tab is shown, whatever was searched before. */
  lemma SelectingShowsWholeList(state: HelpState, category: HelpCategory, faqs: seq<Entry>, guides: seq<Entry>)
    ensures var s := SelectCategory(state, category);
      FilteredContent(s.activeCategory, s.searchQuery, faqs, guides) == SourceOf(category, faqs, guides)
  {
  }
}
