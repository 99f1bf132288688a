/** A message waiting in the queue (model/QueuedMessage.kt). */
module Messages {

  /**
   * `QueuedMessage(id, content, timestamp)`. The id (a random UUID in the
   * app) and the timestamp (milliseconds since the epoch) are supplied by the
   * caller instead of being generated.
   */
  datatype Message = Message(id: string, content: string, timestamp: int)

  /** The ids of `s`, in order. */
  function Ids(s: seq<Message>): seq<string> {
    if s == [] then [] else Ids(s[..|s| - 1]) + [s[|s| - 1].id]
  }

  /** Extending a prefix by one message extends its ids by that message's id. */
  lemma IdsOfLongerPrefix(s: seq<Message>, i: nat)
    requires i < |s|
    ensures Ids(s[..i + 1]) == Ids(s[..i]) + [s[i].id]
  {
    assert s[..i + 1][..i] == s[..i];
  }

  /** No two messages of `s` share an id, as freshly generated UUIDs guarantee. */
  predicate DistinctIds(s: seq<Message>) {
    forall i, j :: 0 <= i < j < |s| ==> s[i].id != s[j].id
  }
}
