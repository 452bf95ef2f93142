/**
 * The knowledge base (`KnowledgeBaseContext`): the items the user wants the
 * generators to know about, with add (in front), update by id and delete by
 * id, and the text block both generators build from the items.
 */
module KnowledgeStore {
  import opened Types
  import opened Seqs
  import opened Text

  /** An update of a knowledge item: the fields present replace the item's. */
  datatype KnowledgePatch = KnowledgePatch(id: Option<string>, title: Option<string>, content: Option<string>)

  function Pick<T>(update: Option<T>, current: T): T
  {
    if update.Some? then update.value else current
  }

  /** The item with the present fields of the update written over it. */
  function MergeItem(item: KnowledgeItem, u: KnowledgePatch): (r: KnowledgeItem)
    ensures u.id.None? ==> r.id == item.id
    ensures u == KnowledgePatch(None, None, None) ==> r == item
  {
    KnowledgeItem(Pick(u.id, item.id), Pick(u.title, item.title), Pick(u.content, item.content))
  }

  /** The update merged into every item with the id; the others are kept. */
  function UpdatedItems(items: seq<KnowledgeItem>, id: string, u: KnowledgePatch): (r: seq<KnowledgeItem>)
    ensures |r| == |items|
    ensures forall i :: 0 <= i < |items| && items[i].id != id ==> r[i] == items[i]
    ensures forall i :: 0 <= i < |items| && items[i].id == id ==> r[i] == MergeItem(items[i], u)
    ensures (forall i :: 0 <= i < |items| ==> items[i].id != id) ==> r == items
  {
    seq(|items|, i requires 0 <= i < |items| => if items[i].id == id then MergeItem(items[i], u) else items[i])
  }

  function KeepItem(id: string): KnowledgeItem -> bool
  {
    (k: KnowledgeItem) => k.id != id
  }

  /** Deleting drops every item with the id and keeps the others in order. */
  lemma {:induction false} RemoveItemEffect(items: seq<KnowledgeItem>, id: string)
    ensures forall i :: 0 <= i < |Filter(items, KeepItem(id))| ==> Filter(items, KeepItem(id))[i].id != id
    ensures forall i :: 0 <= i < |items| && items[i].id != id ==> items[i] in Filter(items, KeepItem(id))
    ensures IsSubsequence(Filter(items, KeepItem(id)), items)
    ensures (forall i :: 0 <= i < |items| ==> items[i].id != id) ==> Filter(items, KeepItem(id)) == items
  {
    FilterMembers(items, KeepItem(id));
    FilterIsSubsequence(items, KeepItem(id));
    if forall i :: 0 <= i < |items| ==> items[i].id != id {
      FilterAll(items, KeepItem(id));
    }
  }

  /** The two sample items the provider starts with (their texts shortened here). */
  function SeedItems(): (s: seq<KnowledgeItem>)
    ensures |s| == 2 && s[0].id == "kb-1" && s[1].id == "kb-2"
  {
    [ KnowledgeItem("kb-1", "Sobre Kolink (Mi Producto)", "Kolink es un micro-SaaS que ayuda a crear contenido para LinkedIn."),
      KnowledgeItem("kb-2", "Tono de Voz de la Marca", "Profesional pero cercano; emojis con moderación.") ]
  }

  /** `KnowledgeBaseProvider`'s state and commands. */
  class KnowledgeBaseStore {
    var knowledgeItems: seq<KnowledgeItem>

    constructor()
      ensures knowledgeItems == SeedItems()
    {
      knowledgeItems := SeedItems();
    }

    /** `addKnowledgeItem`: the new item, with a fresh id, goes in front. */
    method AddKnowledgeItem(title: string, content: string, freshId: string)
      modifies this
      ensures knowledgeItems == [KnowledgeItem(freshId, title, content)] + old(knowledgeItems)
      ensures |knowledgeItems| == |old(knowledgeItems)| + 1 && knowledgeItems[1..] == old(knowledgeItems)
    {
      knowledgeItems := [KnowledgeItem(freshId, title, content)] + knowledgeItems;
    }

    /** `updateKnowledgeItem`. */
    method UpdateKnowledgeItem(id: string, u: KnowledgePatch)
      modifies this
      ensures knowledgeItems == UpdatedItems(old(knowledgeItems), id, u)
    {
      knowledgeItems := UpdatedItems(knowledgeItems, id, u);
    }

    /** `deleteKnowledgeItem`. */
    method DeleteKnowledgeItem(id: string)
      modifies this
      ensures knowledgeItems == Filter(old(knowledgeItems), KeepItem(id))
    {
      knowledgeItems := Filter(knowledgeItems, KeepItem(id));
    }
  }

  /** An item as the generator sends it: the title in bold, a line break, then the content. */
  function Block(item: KnowledgeItem): string
  {
    "**" + item.title + "**\n" + item.content
  }

  const BLOCK_SEPARATOR: string := "\n\n---\n\n"

  /**
   * The knowledge text the generators send: with the switch on, every item's
   * block joined by a horizontal rule between blank lines; with it off, nothing.
   */
  function KnowledgeContent(items: seq<KnowledgeItem>, useKnowledge: bool): (r: string)
    ensures !useKnowledge || items == [] ==> r == ""
    ensures useKnowledge && |items| == 1 ==> r == Block(items[0])
  {
    if useKnowledge then Join(Map(items, Block), BLOCK_SEPARATOR) else ""
  }

  /** With the toggle on, the text holds each item's block, title in bold followed by the content. */
  lemma KnowledgeContentHoldsEveryItem(items: seq<KnowledgeItem>, i: int)
    requires 0 <= i < |items|
    ensures Contains(KnowledgeContent(items, true), "**" + items[i].title + "**\n" + items[i].content)
  {
    JoinHoldsParts(Map(items, Block), BLOCK_SEPARATOR, i);
  }

  /** Two or more items are separated by the horizontal rule. */
  lemma KnowledgeContentSeparates(items: seq<KnowledgeItem>)
    requires |items| >= 2
    ensures KnowledgeContent(items, true)
         == Block(items[0]) + BLOCK_SEPARATOR + KnowledgeContent(items[1..], true)
  {
    assert Map(items, Block)[1..] == Map(items[1..], Block);
  }
}
