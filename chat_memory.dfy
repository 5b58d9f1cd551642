/**
 * The chat memory utility: a module-level store of message lists keyed by session id, where
 * each save appends a question and its answer and a list past twenty messages loses its
 * oldest pair.
 */
module ChatMemory {

  import opened Js

  /** A stored message: `{ type, content }` with type "human" or "ai". */
  datatype Message = Message(kind: string, content: Value)

  /** The length past which a save removes the oldest pair. */
  const HistoryCap: nat := 20

  /** The list `getChatHistory` hands out: the stored one, or a new empty one. */
  function History(store: map<string, seq<Message>>, id: string): seq<Message>
  {
    if id in store then store[id] else []
  }

  /** The pair `saveToMemory` pushes. */
  function Pair(question: Value, answer: Value): seq<Message>
  {
    [Message("human", question), Message("ai", answer)]
  }

  /** A history after a save: the pair appended, then `splice(0, 2)` once if past twenty. */
  function Saved(history: seq<Message>, question: Value, answer: Value): (r: seq<Message>)
    ensures |r| >= 2 && r[|r| - 2..] == Pair(question, answer)
    ensures |history| <= HistoryCap ==> |r| <= HistoryCap
    ensures |r| % 2 == |history| % 2
  {
    var full := history + Pair(question, answer);
    if |full| > HistoryCap then full[2..] else full
  }

  /** Every list in the store has an even length of at most twenty. */
  ghost predicate Bounded(store: map<string, seq<Message>>)
  {
    forall id :: id in store ==> |store[id]| <= HistoryCap && |store[id]| % 2 == 0
  }

  class MemoryStore {
    /** `memoryStore`: the message list of each session id. */
    var store: map<string, seq<Message>>

    constructor()
      ensures store == map[] && Bounded(store)
    {
      store := map[];
    }

    /** `getChatHistory(id)`: an unknown id is given an empty list first. */
    method GetChatHistory(id: string) returns (h: seq<Message>)
      modifies this
      ensures h == History(old(store), id)
      ensures store == old(store)[id := h]
    {
      if id !in store {
        store := store[id := []];
      }
      h := store[id];
    }

    /** `saveToMemory(id, question, answer)`: returns the list now stored for the session. */
    method SaveToMemory(id: string, question: Value, answer: Value) returns (h: seq<Message>)
      modifies this
      ensures h == Saved(History(old(store), id), question, answer)
      ensures store == old(store)[id := h]
    {
      h := GetChatHistory(id);
      h := h + Pair(question, answer);
      if |h| > HistoryCap {
        h := h[2..];
      }
      store := store[id := h];
    }

    /** `clearMemory(id)`. */
    method ClearMemory(id: string)
      modifies this
      ensures store == old(store) - {id}
    {
      store := store - {id};
    }
  }

  /** Reading a history keeps the store bounded: it adds at most an empty list. */
  lemma GetKeepsBounded(store: map<string, seq<Message>>, id: string)
    requires Bounded(store)
    ensures Bounded(store[id := History(store, id)])
  {
  }

  /**
   * Saving keeps the store bounded: from an even list of at most twenty the list stays even
   * and at most twenty long.
   */
  lemma {:induction false} SaveKeepsBounded(store: map<string, seq<Message>>, id: string, question: Value, answer: Value)
    requires Bounded(store)
    ensures Bounded(store[id := Saved(History(store, id), question, answer)])
  {
    var h := History(store, id);
    assert |h| <= HistoryCap && |h| % 2 == 0;
    var s := Saved(h, question, answer);
    assert |s| <= HistoryCap && |s| % 2 == 0;
    var m := store[id := s];
    forall k | k in m
      ensures |m[k]| <= HistoryCap && |m[k]| % 2 == 0
    {
      if k != id {
        assert m[k] == store[k];
      }
    }
  }

  /** Clearing keeps the store bounded. */
  lemma ClearKeepsBounded(store: map<string, seq<Message>>, id: string)
    requires Bounded(store)
    ensures Bounded(store - {id})
  {
  }

  /** Saving touches only the session saved to. */
  lemma SaveKeepsOtherSessions(store: map<string, seq<Message>>, id: string, other: string, question: Value, answer: Value)
    requires other != id
    ensures History(store[id := Saved(History(store, id), question, answer)], other) == History(store, other)
  {
  }

  /** After a clear the session reads as an empty list. */
  lemma ClearedHistoryIsEmpty(store: map<string, seq<Message>>, id: string)
    ensures History(store - {id}, id) == []
  {
  }

  /**
   * On a full list of twenty exactly the oldest pair goes; on eighteen or fewer nothing goes.
   * A list that was already longer (never the case in a bounded store) loses only two, so it
   * stays as long as it was.
   */
  lemma OldestPairDropped(history: seq<Message>, question: Value, answer: Value)
    ensures |history| == HistoryCap ==> Saved(history, question, answer) == history[2..] + Pair(question, answer)
    ensures |history| <= HistoryCap - 2 ==> Saved(history, question, answer) == history + Pair(question, answer)
    ensures |history| > HistoryCap ==> |Saved(history, question, answer)| == |history|
  {
    if |history| >= HistoryCap {
      assert (history + Pair(question, answer))[2..] == history[2..] + Pair(question, answer);
    }
  }
}
