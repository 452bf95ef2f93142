/**
 * The history of generated posts (`GenerationHistoryContext`): each new post
 * goes in front with the instant it was generated; nothing is ever removed.
 */
module HistoryStore {
  import opened Clock
  import opened Types

  const HOUR: int := 60 * 60 * 1000

  /** The two sample items, dated two hours and one day before `now`, the instant the module is loaded. */
  function SeedHistory(now: Time): (s: seq<HistoryItem>)
    ensures |s| == 2
  {
    [ HistoryItem("hist-1", "Este es un ejemplo de un post generado anteriormente sobre IA en marketing.", now - 2 * HOUR),
      HistoryItem("hist-2", "Otro post del historial, esta vez sobre liderazgo en equipos remotos.", now - 24 * HOUR) ]
  }

  /** The newest item comes first: dates never increase along the list. */
  predicate NewestFirst(h: seq<HistoryItem>)
  {
    forall i, j :: 0 <= i < j < |h| ==> h[i].date >= h[j].date
  }

  /** The seed is newest first, and its dates are before the start. */
  lemma SeedIsNewestFirst(now: Time)
    ensures NewestFirst(SeedHistory(now))
    ensures forall i :: 0 <= i < 2 ==> SeedHistory(now)[i].date < now
  {
  }

  /** Putting in front an item no older than every other keeps the history newest first. */
  lemma PrependKeepsNewestFirst(h: seq<HistoryItem>, item: HistoryItem)
    requires NewestFirst(h)
    requires forall i :: 0 <= i < |h| ==> h[i].date <= item.date
    ensures NewestFirst([item] + h)
  {
    var r := [item] + h;
    assert forall i :: 1 <= i < |r| ==> r[i] == h[i - 1];
  }

  /** `GenerationHistoryProvider`'s state. */
  class GenerationHistory {
    var history: seq<HistoryItem>

    constructor(now: Time)
      ensures history == SeedHistory(now)
    {
      history := SeedHistory(now);
    }

    /** `addPostToHistory`: the content, under a fresh id and dated `now`, goes in front. */
    method AddPostToHistory(content: string, freshId: string, now: Time)
      modifies this
      ensures history == [HistoryItem(freshId, content, now)] + old(history)
      ensures |history| == |old(history)| + 1 && history[1..] == old(history)
      ensures history[0].content == content
      ensures NewestFirst(old(history)) && (forall i :: 0 <= i < |old(history)| ==> old(history)[i].date <= now)
        ==> NewestFirst(history)
    {
      if NewestFirst(history) && forall i :: 0 <= i < |history| ==> history[i].date <= now {
        PrependKeepsNewestFirst(history, HistoryItem(freshId, content, now));
      }
      history := [HistoryItem(freshId, content, now)] + history;
    }
  }
}
