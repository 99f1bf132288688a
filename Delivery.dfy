/**
 * What one run of `sendQueuedMessages` (viewmodel/QueueViewModel.kt) does,
 * as a function of the state it starts from and of the sender's answers,
 * together with the classification of failures into network-class ones,
 * which stay silent, and the rest, which are shown to the user.
 */
module Delivery {
  import opened Wrappers
  import opened Text
  import opened Messages
  import opened Repository

  /**
   * The sender's answer for one message: `Result.success(Unit)`, or a failure
   * carrying the exception's message, which may be null.
   */
  datatype SendResult = Success | Failure(message: Option<string>)

  /**
   * The network sender (service/DiscordService.kt), as an oracle: given the
   * webhook URL, the position of the attempt within the run and the message
   * text, it answers. Any sequence of answers is some such function.
   */
  type Sender = (string, nat, string) -> SendResult

  /** The sender's answer to the attempt at position `i` of a run. */
  function Ask(send: Sender, url: string, i: nat, content: string): SendResult {
    send(url, i, content)
  }

  /** `result.exceptionOrNull()?.message ?: ""`. */
  function FailureText(r: SendResult): string {
    if r.Failure? then r.message.GetOr("") else ""
  }

  /** The four signatures of a failure caused by lack of connectivity, matched case-insensitively. */
  predicate IsNetworkError(text: string) {
    || ContainsIgnoreCase(text, "Unable to resolve host")
    || ContainsIgnoreCase(text, "No address associated with hostname")
    || ContainsIgnoreCase(text, "Network is unreachable")
    || ContainsIgnoreCase(text, "Connection refused")
  }

  const DefaultError: string := "Failed to send message"

  /** `text.ifBlank { default }`. */
  function IfBlank(text: string, default: string): (r: string)
    ensures IsBlank(text) ==> r == default
    ensures !IsBlank(text) ==> r == text
    ensures !IsBlank(default) ==> !IsBlank(r)
  {
    if IsBlank(text) then default else text
  }

  /**
   * The error a failure leaves in the error slot: none for a network-class
   * failure (or while offline), otherwise the failure's own text, or the
   * default text when that is blank, so a shown error is never blank.
   */
  function SurfacedError(text: string, wifi: bool): (e: Option<string>)
    ensures e.Some? <==> !IsNetworkError(text) && wifi
    ensures e.Some? ==> !IsBlank(e.value)
    ensures e.Some? && !IsBlank(text) ==> e.value == text
    ensures e.Some? && IsBlank(text) ==> e.value == DefaultError
  {
    assert !IsWhitespace(DefaultError[0]);
    if !IsNetworkError(text) && wifi then Some(IfBlank(text, DefaultError)) else None
  }

  /** A failure text that is neither network-class nor blank is shown verbatim while online. */
  lemma ShownAsItStands(text: string, wifi: bool)
    requires !IsNetworkError(text) && !IsBlank(text)
    ensures SurfacedError(text, wifi) == if wifi then Some(text) else None
  {
  }

  /**
   * The entry guards of the run: a usable webhook, something queued, and
   * wifi. When they fail the run returns before touching anything.
   */
  predicate CanSend(queue: seq<Message>, webhook: Option<string>, wifi: bool) {
    !IsNullOrBlank(webhook) && |queue| > 0 && wifi
  }

  /**
   * The position of the first message, from `from` on, that the sender
   * refuses, or `|queue|` when it accepts them all.
   */
  function FirstFailure(url: string, queue: seq<Message>, send: Sender, from: nat): (k: nat)
    requires from <= |queue|
    ensures from <= k <= |queue|
    ensures forall j :: from <= j < k ==> Ask(send, url, j, queue[j].content).Success?
    ensures k < |queue| ==> Ask(send, url, k, queue[k].content).Failure?
    decreases |queue| - from
  {
    if from == |queue| || Ask(send, url, from, queue[from].content).Failure? then from
    else FirstFailure(url, queue, send, from + 1)
  }

  /** Every message of `queue` before position `i` was accepted by the sender. */
  predicate AcceptedBefore(url: string, queue: seq<Message>, send: Sender, i: nat)
    requires i <= |queue|
  {
    forall j :: 0 <= j < i ==> Ask(send, url, j, queue[j].content).Success?
  }

  /** The first refusal is at `i` exactly when everything before `i` was accepted and `i` was refused or is the end. */
  lemma {:induction false} FirstFailureAt(url: string, queue: seq<Message>, send: Sender, from: nat, i: nat)
    requires from <= i <= |queue|
    requires forall j :: from <= j < i ==> Ask(send, url, j, queue[j].content).Success?
    requires i < |queue| ==> Ask(send, url, i, queue[i].content).Failure?
    ensures FirstFailure(url, queue, send, from) == i
    decreases i - from
  {
    if from < i {
      FirstFailureAt(url, queue, send, from + 1, i);
    }
  }

  /**
   * The result of a run: what the store's queue holds afterwards, what the
   * error slot holds, and which messages were handed to the sender, in order.
   */
  datatype Outcome = Outcome(remaining: seq<Message>, error: Option<string>, attempted: seq<Message>)

  /**
   * One run over the snapshot `queue`: nothing at all when a guard fails;
   * otherwise the error slot is cleared, the messages are sent in order, each
   * accepted one is removed from the store by id, and the run stops at the
   * first refusal, whose classification decides the error slot.
   */
  function Deliver(queue: seq<Message>, webhook: Option<string>, wifi: bool, error: Option<string>,
                   send: Sender): (o: Outcome)
    ensures !CanSend(queue, webhook, wifi) ==> o == Outcome(queue, error, [])
    ensures CanSend(queue, webhook, wifi) ==>
              && 0 < |o.attempted| <= |queue|
              && o.attempted == queue[..|o.attempted|]
              && (forall j :: 0 <= j < |o.attempted| - 1 ==> Ask(send, webhook.value, j, queue[j].content).Success?)
              && (|o.attempted| < |queue| ==>
                    Ask(send, webhook.value, |o.attempted| - 1, queue[|o.attempted| - 1].content).Failure?)
    ensures o.error.Some? ==> o.error == error || !IsBlank(o.error.value)
  {
    if !CanSend(queue, webhook, wifi) then Outcome(queue, error, [])
    else
      var url := webhook.value;
      var k := FirstFailure(url, queue, send, 0);
      if k < |queue| then
        Outcome(WithoutAll(queue, Ids(queue[..k])),
                SurfacedError(FailureText(Ask(send, url, k, queue[k].content)), wifi),
                queue[..k + 1])
      else
        Outcome(WithoutAll(queue, Ids(queue)), None, queue)
  }

  /**
   * A run that passes the guards, read as an outcome: the store loses the ids
   * of the accepted prefix, the error slot is decided by the first refusal,
   * and the attempts are the accepted prefix followed by the refusal.
   */
  lemma DeliverRun(queue: seq<Message>, url: string, wifi: bool, error: Option<string>, send: Sender)
    requires CanSend(queue, Some(url), wifi)
    ensures var k := FirstFailure(url, queue, send, 0);
            Deliver(queue, Some(url), wifi, error, send) ==
              if k < |queue| then
                Outcome(WithoutAll(queue, Ids(queue[..k])),
                        SurfacedError(FailureText(Ask(send, url, k, queue[k].content)), wifi),
                        queue[..k + 1])
              else Outcome(WithoutAll(queue, Ids(queue[..k])), None, queue)
  {
    var k := FirstFailure(url, queue, send, 0);
    if k == |queue| {
      assert queue[..k] == queue;
    }
  }

  /**
   * A run that passes the guards and whose sender accepts everything before
   * `i` and refuses `i` (or runs out of messages there) has the outcome the
   * loop reaches when it leaves at `i`.
   */
  lemma DeliverStoppedAt(queue: seq<Message>, url: string, wifi: bool, send: Sender, i: nat)
    requires CanSend(queue, Some(url), wifi)
    requires i <= |queue| && AcceptedBefore(url, queue, send, i)
    requires i < |queue| ==> Ask(send, url, i, queue[i].content).Failure?
    ensures var o := Deliver(queue, Some(url), wifi, None, send);
            && o.remaining == WithoutAll(queue, Ids(queue[..i]))
            && o.attempted == (if i < |queue| then queue[..i + 1] else queue[..i])
            && o.error == (if i < |queue| then SurfacedError(FailureText(Ask(send, url, i, queue[i].content)), wifi)
                           else None)
  {
    FirstFailureAt(url, queue, send, 0, i);
    DeliverRun(queue, url, wifi, None, send);
    if i == |queue| {
      assert queue[..i] == queue;
    }
  }

  /** Once the guards pass, the error slot the run started from plays no part: it is cleared first. */
  lemma DeliverIgnoresError(queue: seq<Message>, webhook: Option<string>, wifi: bool,
                            e1: Option<string>, e2: Option<string>, send: Sender)
    requires CanSend(queue, webhook, wifi)
    ensures Deliver(queue, webhook, wifi, e1, send) == Deliver(queue, webhook, wifi, e2, send)
  {
  }

  /** With wifi down the sender is never called and nothing changes. */
  lemma NoSendOffline(queue: seq<Message>, webhook: Option<string>, error: Option<string>, send: Sender)
    ensures Deliver(queue, webhook, false, error, send) == Outcome(queue, error, [])
  {
  }

  /**
   * A run that passes the guards removes from the store exactly the entries
   * whose ids belong to the messages the sender accepted before its first
   * refusal; everything else keeps its multiplicity.
   */
  lemma RemovesExactlyDelivered(queue: seq<Message>, webhook: Option<string>, wifi: bool,
                                error: Option<string>, send: Sender, m: Message)
    requires CanSend(queue, webhook, wifi)
    ensures var k := FirstFailure(webhook.value, queue, send, 0);
            multiset(Deliver(queue, webhook, wifi, error, send).remaining)[m] ==
              if m.id in Ids(queue[..k]) then 0 else multiset(queue)[m]
  {
    var k := FirstFailure(webhook.value, queue, send, 0);
    if k == |queue| {
      assert queue[..k] == queue;
    }
    WithoutAllCount(queue, Ids(queue[..k]), m);
  }

  /**
   * With distinct ids (fresh UUIDs), the queue left by a run that passes the
   * guards is the snapshot minus its delivered prefix: the refused message, if
   * any, is still at the head, followed by the never-attempted rest in order.
   */
  lemma {:induction false} RemainingIsUndeliveredSuffix(queue: seq<Message>, webhook: Option<string>, wifi: bool,
                                                       error: Option<string>, send: Sender)
    requires CanSend(queue, webhook, wifi)
    requires DistinctIds(queue)
    ensures var o := Deliver(queue, webhook, wifi, error, send);
            var k := FirstFailure(webhook.value, queue, send, 0);
            && o.remaining == queue[k..]
            && o.attempted == queue[..if k < |queue| then k + 1 else k]
            && (k < |queue| ==> o.remaining[0] == queue[k] && o.attempted[k] == queue[k])
  {
    var k := FirstFailure(webhook.value, queue, send, 0);
    WithoutAllPrefix(queue, k);
    if k == |queue| {
      assert queue[..k] == queue;
    }
  }

  /**
   * The error slot after a run that passes the guards: cleared when every
   * message was accepted or the refusal was network-class; otherwise the
   * refusal's text, or the default text when that is blank.
   */
  lemma ErrorAfterRun(queue: seq<Message>, webhook: Option<string>, wifi: bool,
                      error: Option<string>, send: Sender)
    requires CanSend(queue, webhook, wifi)
    ensures var o := Deliver(queue, webhook, wifi, error, send);
            var k := FirstFailure(webhook.value, queue, send, 0);
            var text := FailureText(Ask(send, webhook.value, k, if k < |queue| then queue[k].content else ""));
            && (o.error == None <==> k == |queue| || IsNetworkError(text))
            && (o.error.Some? ==> o.error.value == IfBlank(text, DefaultError))
  {
  }

  /** A failure whose text mentions "connection refused", in any case, is never shown. */
  lemma ConnectionRefusedIsSilent(text: string, wifi: bool)
    requires ContainsIgnoreCase(text, "Connection refused")
    ensures SurfacedError(text, wifi) == None
  {
  }
}
