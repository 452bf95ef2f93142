/**
 * The knowledge-base screen (`KnowledgeBase.tsx`): the search over the
 * items, the add/edit modal that refuses a blank title or content, and the
 * save and delete commands it sends to the knowledge store.
 */
module KnowledgeBase {
  import opened Types
  import opened Seqs
  import opened Text
  import opened KnowledgeStore

  /** The title or the content contains the query, ignoring ASCII case. */
  predicate ItemMatches(query: string, item: KnowledgeItem)
  {
    Contains(Lower(item.title), Lower(query)) || Contains(Lower(item.content), Lower(query))
  }

  function MatchTest(query: string): KnowledgeItem -> bool
  {
    (item: KnowledgeItem) => ItemMatches(query, item)
  }

  /** `filteredItems`: every item for an empty query, otherwise the matching ones in their order. */
  function FilteredItems(items: seq<KnowledgeItem>, query: string): (r: seq<KnowledgeItem>)
    ensures query == "" ==> r == items
    ensures query != "" ==> forall i :: 0 <= i < |r| ==> ItemMatches(query, r[i])
  {
    if query == "" then items else Filter(items, MatchTest(query))
  }

  /** A non-empty query keeps exactly the matching items, as an ordered selection. */
  lemma FilteredItemsFacts(items: seq<KnowledgeItem>, query: string)
    requires query != ""
    ensures IsSubsequence(FilteredItems(items, query), items)
    ensures forall i :: 0 <= i < |items| && ItemMatches(query, items[i]) ==> items[i] in FilteredItems(items, query)
    ensures forall i :: 0 <= i < |FilteredItems(items, query)| ==> FilteredItems(items, query)[i] in items
  {
    FilterIsSubsequence(items, MatchTest(query));
    FilterMembers(items, MatchTest(query));
  }

  /** The query's own case does not matter. */
  lemma QueryCaseIgnored(query: string, item: KnowledgeItem)
    ensures ItemMatches(Lower(query), item) == ItemMatches(query, item)
  {
    LowerTwice(query);
  }

  /** What the list area shows: the items with their count label, "no results", or the empty state. */
  datatype ListView = ItemsShown(singular: bool, count: nat) | NoResults | EmptyState

  function ListArea(filtered: seq<KnowledgeItem>, query: string): (v: ListView)
    ensures v.ItemsShown? <==> |filtered| > 0
    ensures v.ItemsShown? ==> (v.singular <==> |filtered| == 1) && v.count == |filtered|
    ensures v == NoResults <==> |filtered| == 0 && query != ""
  {
    if |filtered| > 0 then ItemsShown(|filtered| == 1, |filtered|)
    else if query != "" then NoResults
    else EmptyState
  }

  /** The modal's fields start from the item being edited, or empty. */
  function InitialFields(item: Option<KnowledgeItem>): (f: (string, string))
    ensures item.None? ==> f == ("", "")
    ensures item.Some? ==> f == (item.value.title, item.value.content)
  {
    if item.Some? then (item.value.title, item.value.content) else ("", "")
  }

  /** `KnowledgeModal.handleSubmit`: refused when either field is blank, otherwise the values as typed. */
  datatype SubmitResult = Refused | Submitted(title: string, content: string)

  function Submit(title: string, content: string): (r: SubmitResult)
    ensures r == Refused <==> IsBlank(title) || IsBlank(content)
    ensures r.Submitted? ==> r.title == title && r.content == content
  {
    if IsBlank(title) || IsBlank(content) then Refused else Submitted(title, content)
  }

  /** The values are saved untrimmed: surrounding spaces survive. */
  lemma SubmitKeepsSpaces()
    ensures Submit(" Tono ", "x") == Submitted(" Tono ", "x")
  {
    assert !IsWhitespace(" Tono "[1]);
    assert !IsWhitespace("x"[0]);
  }

  /** `KnowledgeBase`'s state. */
  class KnowledgeBaseView {
    var searchQuery: string
    var isModalOpen: bool
    var editingItem: Option<KnowledgeItem>

    constructor()
      ensures searchQuery == "" && !isModalOpen && editingItem == None
    {
      searchQuery := "";
      isModalOpen := false;
      editingItem := None;
    }

    /** `handleOpenModal(item)`: `None` opens it for a new item. */
    method HandleOpenModal(item: Option<KnowledgeItem>)
      modifies this
      ensures isModalOpen && editingItem == item && searchQuery == old(searchQuery)
    {
      editingItem := item;
      isModalOpen := true;
    }

    method HandleCloseModal()
      modifies this
      ensures !isModalOpen && editingItem == None && searchQuery == old(searchQuery)
    {
      isModalOpen := false;
      editingItem := None;
    }

    /** `handleSave`: updates the item being edited, or adds a new one in front; then closes the modal. */
    method HandleSave(store: KnowledgeBaseStore, title: string, content: string, freshId: string)
      modifies this, store
      ensures old(editingItem).Some? ==>
        store.knowledgeItems == UpdatedItems(old(store.knowledgeItems), old(editingItem).value.id,
                                             KnowledgePatch(None, Some(title), Some(content)))
      ensures old(editingItem).None? ==>
        store.knowledgeItems == [KnowledgeItem(freshId, title, content)] + old(store.knowledgeItems)
      ensures !isModalOpen && editingItem == None && searchQuery == old(searchQuery)
    {
      if editingItem.Some? {
        store.UpdateKnowledgeItem(editingItem.value.id, KnowledgePatch(None, Some(title), Some(content)));
      } else {
        store.AddKnowledgeItem(title, content, freshId);
      }
      HandleCloseModal();
    }

    /** The modal's submit: a refused form changes nothing; an accepted one is saved as typed. */
    method SubmitModal(store: KnowledgeBaseStore, title: string, content: string, freshId: string)
      returns (saved: bool)
      requires isModalOpen
      modifies this, store
      ensures saved <==> !IsBlank(title) && !IsBlank(content)
      ensures !saved ==> store.knowledgeItems == old(store.knowledgeItems) && isModalOpen && editingItem == old(editingItem)
      ensures searchQuery == old(searchQuery)
      ensures saved && old(editingItem).None? ==>
        store.knowledgeItems == [KnowledgeItem(freshId, title, content)] + old(store.knowledgeItems)
      ensures saved && old(editingItem).Some? ==>
        store.knowledgeItems == UpdatedItems(old(store.knowledgeItems), old(editingItem).value.id,
                                             KnowledgePatch(None, Some(title), Some(content)))
      ensures saved ==> !isModalOpen
    {
      var result := Submit(title, content);
      if result == Refused {
        return false;
      }
      HandleSave(store, result.title, result.content, freshId);
      return true;
    }

    /** `handleDelete`: only after confirmation. */
    method HandleDelete(store: KnowledgeBaseStore, id: string, confirmed: bool)
      modifies store
      ensures confirmed ==> store.knowledgeItems == Filter(old(store.knowledgeItems), KeepItem(id))
      ensures !confirmed ==> store.knowledgeItems == old(store.knowledgeItems)
    {
      if confirmed {
        store.DeleteKnowledgeItem(id);
      }
    }
  }

  /** Editing an item changes that item's title and content and no other item. */
  lemma EditChangesOnlyThatItem(items: seq<KnowledgeItem>, id: string, title: string, content: string)
    ensures forall i :: 0 <= i < |items| && items[i].id == id ==>
      UpdatedItems(items, id, KnowledgePatch(None, Some(title), Some(content)))[i] == KnowledgeItem(id, title, content)
    ensures forall i :: 0 <= i < |items| && items[i].id != id ==>
      UpdatedItems(items, id, KnowledgePatch(None, Some(title), Some(content)))[i] == items[i]
  {
  }
}
