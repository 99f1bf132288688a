/**
 * The persistent store (repository/MessageRepository.kt): two preference
 * slots, `queued_messages` holding the JSON list of queued messages and
 * `webhook_url` holding the endpoint.
 */
module Repository {
  import opened Wrappers
  import opened Messages

  /**
   * The `queued_messages` slot as the decoder sees it: no key, text that does
   * not parse as a list of messages, or a well-formed list.
   */
  datatype QueueSlot = Absent | Corrupt | Stored(messages: seq<Message>)

  /**
   * Reading the slot: a missing key reads as "[]" and a parse failure is
   * caught, so both give the empty list.
   */
  function Decode(slot: QueueSlot): (list: seq<Message>)
    ensures !slot.Stored? ==> list == []
    ensures slot.Stored? ==> list == slot.messages
  {
    match slot
    case Stored(ms) => ms
    case _ => []
  }

  /**
   * `list.filter { it.id != id }`: every entry carrying `id` is gone and every
   * other entry keeps its multiplicity.
   */
  function Without(list: seq<Message>, id: string): (r: seq<Message>)
    ensures |r| <= |list|
  {
    if list == [] then []
    else
      var rest := Without(list[1..], id);
      if list[0].id == id then rest else [list[0]] + rest
  }

  /** Removing the ids of `ids` one after another, first to last. */
  function WithoutAll(list: seq<Message>, ids: seq<string>): (r: seq<Message>)
    ensures |r| <= |list|
    decreases |ids|
  {
    if ids == [] then list
    else Without(WithoutAll(list, ids[..|ids| - 1]), ids[|ids| - 1])
  }

  /** After the filter no entry carries `id`. */
  lemma {:induction false} WithoutDropsId(list: seq<Message>, id: string)
    ensures forall i :: 0 <= i < |Without(list, id)| ==> Without(list, id)[i].id != id
  {
    if list != [] {
      WithoutDropsId(list[1..], id);
    }
  }

  /** The filter keeps every other entry with its multiplicity and drops every entry carrying `id`. */
  lemma {:induction false} WithoutCount(list: seq<Message>, id: string, m: Message)
    ensures multiset(Without(list, id))[m] == if m.id == id then 0 else multiset(list)[m]
  {
    if list != [] {
      assert list == [list[0]] + list[1..];
      WithoutCount(list[1..], id, m);
    }
  }

  /** After a run of removals, an entry survives with its multiplicity exactly when its id was never removed. */
  lemma {:induction false} WithoutAllCount(list: seq<Message>, ids: seq<string>, m: Message)
    ensures multiset(WithoutAll(list, ids))[m] == if m.id in ids then 0 else multiset(list)[m]
    decreases |ids|
  {
    if ids != [] {
      var n := |ids| - 1;
      WithoutAllCount(list, ids[..n], m);
      WithoutCount(WithoutAll(list, ids[..n]), ids[n], m);
      assert ids == ids[..n] + [ids[n]];
    }
  }

  /** The filter works entry by entry, so it keeps the order of what it keeps. */
  lemma {:induction false} WithoutAppend(a: seq<Message>, b: seq<Message>, id: string)
    ensures Without(a + b, id) == Without(a, id) + Without(b, id)
  {
    if a != [] {
      assert (a + b)[1..] == a[1..] + b;
      WithoutAppend(a[1..], b, id);
    } else {
      assert a + b == b;
    }
  }

  /**
   * On a single entry the filter keeps it exactly when its id differs; with
   * `WithoutAppend` this determines the filter on every list.
   */
  lemma WithoutSingleton(m: Message, id: string)
    ensures Without([m], id) == if m.id == id then [] else [m]
  {
    assert [m][1..] == [];
  }

  /** Removing an id that no entry carries leaves the list as it was. */
  lemma {:induction false} WithoutAbsent(list: seq<Message>, id: string)
    requires forall i :: 0 <= i < |list| ==> list[i].id != id
    ensures Without(list, id) == list
  {
    if list != [] {
      WithoutAbsent(list[1..], id);
    }
  }

  /** Removing the same id twice is removing it once. */
  lemma WithoutIdempotent(list: seq<Message>, id: string)
    ensures Without(Without(list, id), id) == Without(list, id)
  {
    WithoutDropsId(list, id);
    WithoutAbsent(Without(list, id), id);
  }

  /**
   * When the ids are distinct, removing the id of entry `k - 1` from the
   * entries from `k - 1` on leaves the entries from `k` on.
   */
  lemma WithoutDistinctHead(list: seq<Message>, k: nat)
    requires 0 < k <= |list|
    requires DistinctIds(list)
    ensures Without(list[k - 1..], list[k - 1].id) == list[k..]
  {
    var id := list[k - 1].id;
    assert list[k - 1..] == [list[k - 1]] + list[k..];
    WithoutAppend([list[k - 1]], list[k..], id);
    assert Without([list[k - 1]], id) == [];
    forall i | 0 <= i < |list[k..]| ensures list[k..][i].id != id {
      assert list[k..][i] == list[k + i];
    }
    WithoutAbsent(list[k..], id);
  }

  /**
   * When the ids are distinct, removing the ids of the first `k` entries
   * leaves exactly the entries from `k` on, in order.
   */
  lemma {:induction false} WithoutAllPrefix(list: seq<Message>, k: nat)
    requires k <= |list|
    requires DistinctIds(list)
    ensures WithoutAll(list, Ids(list[..k])) == list[k..]
  {
    if k == 0 {
      assert Ids(list[..0]) == [];
    } else {
      IdsOfLongerPrefix(list, k - 1);
      assert list[..k - 1 + 1] == list[..k];
      WithoutAllSnoc(list, Ids(list[..k - 1]), list[k - 1].id);
      WithoutAllPrefix(list, k - 1);
      WithoutDistinctHead(list, k);
    }
  }

  /** A single `removeMessage` step applied after a run of them extends the run. */
  lemma WithoutAllSnoc(list: seq<Message>, ids: seq<string>, id: string)
    ensures WithoutAll(list, ids + [id]) == Without(WithoutAll(list, ids), id)
  {
    assert (ids + [id])[..|ids|] == ids;
  }

  /** Removing the ids of one more entry of `list` is one more `removeMessage` step. */
  lemma WithoutAllNext(list: seq<Message>, i: nat)
    requires i < |list|
    ensures WithoutAll(list, Ids(list[..i + 1])) == Without(WithoutAll(list, Ids(list[..i])), list[i].id)
  {
    IdsOfLongerPrefix(list, i);
    WithoutAllSnoc(list, Ids(list[..i]), list[i].id);
  }

  /** The store: the two slots that `edit { preferences -> ... }` rewrites in place. */
  class MessageRepository {
    var queueSlot: QueueSlot
    var webhookSlot: Option<string>

    /** Opens the store over what is already persisted. */
    constructor (queueSlot: QueueSlot, webhookSlot: Option<string>)
      ensures this.queueSlot == queueSlot && this.webhookSlot == webhookSlot
    {
      this.queueSlot := queueSlot;
      this.webhookSlot := webhookSlot;
    }

    /** `queuedMessages`: the decoded queue. */
    function QueuedMessages(): seq<Message>
      reads this
    {
      Decode(queueSlot)
    }

    /** `webhookUrl`: the raw slot, absent until one is saved. */
    function WebhookUrl(): Option<string>
      reads this
    {
      webhookSlot
    }

    /** Appends `message` to the decoded queue and writes the list back. */
    method AddMessage(message: Message)
      modifies this
      ensures queueSlot == Stored(old(QueuedMessages()) + [message])
      ensures QueuedMessages() == old(QueuedMessages()) + [message]
      ensures !old(queueSlot).Stored? ==> QueuedMessages() == [message]
      ensures webhookSlot == old(webhookSlot)
    {
      var currentList := Decode(queueSlot);
      queueSlot := Stored(currentList + [message]);
    }

    /** Drops every entry whose id is `messageId` and writes the list back. */
    method RemoveMessage(messageId: string)
      modifies this
      ensures queueSlot == Stored(Without(old(QueuedMessages()), messageId))
      ensures QueuedMessages() == Without(old(QueuedMessages()), messageId)
      ensures webhookSlot == old(webhookSlot)
    {
      var currentList := Decode(queueSlot);
      queueSlot := Stored(Without(currentList, messageId));
    }

    /** Writes the empty list "[]". */
    method ClearAllMessages()
      modifies this
      ensures queueSlot == Stored([])
      ensures QueuedMessages() == []
      ensures webhookSlot == old(webhookSlot)
    {
      queueSlot := Stored([]);
    }

    /** Stores `url` as given; the queue slot is left alone. */
    method SaveWebhookUrl(url: string)
      modifies this
      ensures webhookSlot == Some(url)
      ensures WebhookUrl() == Some(url)
      ensures queueSlot == old(queueSlot)
    {
      webhookSlot := Some(url);
    }
  }
}
