/**
 * Concrete runs of the queue: a fresh install, a message queued offline and
 * surviving a restart, a delivery once wifi returns, a refusal by the server
 * part way through the queue, and a connection failure that stays silent.
 */
module Scenarios {
  import opened Wrappers
  import opened Text
  import opened Messages
  import opened Repository
  import opened ViewState
  import opened Delivery
  import opened ViewModel

  /** The text the sender reports for an HTTP 500 answer ("Failed to send message: <code>"). */
  const ServerError: string := "Failed to send message: 500"

  /** The text of a failed TCP connect on the JVM. */
  const Refused: string := "java.net.ConnectException: Connection refused"

  /** A sender that accepts everything. */
  function AcceptAll(): Sender {
    (u: string, i: nat, c: string) => Success
  }

  /** A sender that accepts the first attempt of a run and fails every later one with `text`. */
  function FirstThenFailing(text: string): Sender {
    (u: string, i: nat, c: string) => if i == 0 then Success else Failure(Some(text))
  }

  /** A sender that fails every attempt with `text`. */
  function AlwaysFailing(text: string): Sender {
    (u: string, i: nat, c: string) => Failure(Some(text))
  }

  /** `p` occurs verbatim in `text` at `i`, so it is found ignoring case. */
  lemma ContainsAt(text: string, i: nat, p: string)
    requires i + |p| <= |text| && text[i..i + |p|] == p
    ensures ContainsIgnoreCase(text, p)
  {
    ContainsIgnoreCaseIff(text, p);
    assert RegionMatchesIgnoreCase(text, i, p) by {
      forall k | 0 <= k < |p| ensures CharEqualsIgnoreCase(text[i + k], p[k]) {
        assert text[i..i + |p|][k] == text[i + k];
      }
    }
  }

  /** `p` is not found when no position it would fit at starts with its first character. */
  lemma NotContainsWithoutHead(text: string, p: string)
    requires |p| > 0
    requires forall i :: 0 <= i <= |text| - |p| ==> !CharEqualsIgnoreCase(text[i], p[0])
    ensures !ContainsIgnoreCase(text, p)
  {
    ContainsIgnoreCaseIff(text, p);
  }

  lemma ServerErrorLacksUnresolvedHost(t: string)
    requires t == ServerError
    ensures !ContainsIgnoreCase(t, "Unable to resolve host")
  {
    forall i | 0 <= i <= |t| - 22 ensures !CharEqualsIgnoreCase(t[i], 'U') {
      assert i == 0 || i == 1 || i == 2 || i == 3 || i == 4 || i == 5;
    }
    NotContainsWithoutHead(t, "Unable to resolve host");
  }

  lemma ServerErrorLacksNoAddress(t: string)
    requires t == ServerError
    ensures !ContainsIgnoreCase(t, "No address associated with hostname")
  {
    NotContainsWithoutHead(t, "No address associated with hostname");
  }

  lemma ServerErrorLacksUnreachable(t: string)
    requires t == ServerError
    ensures !ContainsIgnoreCase(t, "Network is unreachable")
  {
    forall i | 0 <= i <= |t| - 22 ensures !CharEqualsIgnoreCase(t[i], 'N') {
      assert i == 0 || i == 1 || i == 2 || i == 3 || i == 4 || i == 5;
    }
    NotContainsWithoutHead(t, "Network is unreachable");
  }

  lemma ServerErrorLacksRefused(t: string)
    requires t == ServerError
    ensures !ContainsIgnoreCase(t, "Connection refused")
  {
    forall i | 0 <= i <= |t| - 18 ensures !CharEqualsIgnoreCase(t[i], 'C') {
      assert i == 0 || i == 1 || i == 2 || i == 3 || i == 4 || i == 5 || i == 6 || i == 7 || i == 8 || i == 9;
    }
    NotContainsWithoutHead(t, "Connection refused");
  }

  /** An HTTP error answer matches none of the four signatures. */
  lemma ServerErrorIsNotNetworkClass(t: string)
    requires t == ServerError
    ensures !IsNetworkError(t)
  {
    ServerErrorLacksUnresolvedHost(t);
    ServerErrorLacksNoAddress(t);
    ServerErrorLacksUnreachable(t);
    ServerErrorLacksRefused(t);
  }

  /** A refused connection is network-class, so it is never shown. */
  lemma RefusedIsSilent(wifi: bool)
    ensures IsNetworkError(Refused)
    ensures SurfacedError(Refused, wifi) == None
  {
    assert Refused[27..45] == "Connection refused";
    ContainsAt(Refused, 27, "Connection refused");
  }

  /**
   * A fresh install that is online: the queue is empty, no webhook is set,
   * and wifi is up, so the status is ONLINE_READY (the first-match `when`
   * reaches its "empty and online" arm before the EMPTY one) and the
   * configuration prompt is shown.
   */
  method FreshInstallOnline() returns (status: AppStatus, prompt: bool)
    ensures status == OnlineReady && prompt
  {
    var vm := new QueueViewModel(Absent, None, true);
    var s := vm.State();
    status := StatusOf(s);
    prompt := s.showWebhookDialog;
  }

  /**
   * A message (already trimmed) is queued while offline with a webhook set: nothing is sent,
   * the status is OFFLINE_WITH_QUEUE, and a view model opened afterwards over
   * the same store sees the message.
   */
  method QueuedWhileOffline(webhook: string, m: Message)
    returns (status: AppStatus, attempted: seq<Message>, afterRestart: seq<Message>)
    requires !IsBlank(webhook)
    requires |m.content| > 0 && !IsWhitespace(m.content[0]) && !IsWhitespace(m.content[|m.content| - 1])
    ensures status == OfflineWithQueue && attempted == []
    ensures afterRestart == [m]
  {
    assert TrimStart(m.content) == m.content;
    assert Trim(m.content) == m.content;
    var vm := new QueueViewModel(Absent, Some(webhook), false);
    attempted := vm.AddMessage(m.content, m.id, m.timestamp, AcceptAll());
    status := StatusOf(vm.State());
    var restarted := new QueueViewModel(vm.repository.queueSlot, vm.repository.webhookSlot, false);
    afterRestart := restarted.repository.QueuedMessages();
  }

  /**
   * One message queued offline; wifi comes back and a run delivers it: the
   * store ends empty and, the run being over, the status is ONLINE_READY.
   */
  method DeliveredOnReconnect(webhook: string, m: Message)
    returns (attempted: seq<Message>, remaining: seq<Message>, status: AppStatus)
    requires !IsBlank(webhook)
    ensures attempted == [m]
    ensures remaining == [] && status == OnlineReady
  {
    var vm := new QueueViewModel(Stored([m]), Some(webhook), false);
    vm.SetWifi(true);
    FirstFailureAt(webhook, [m], AcceptAll(), 0, 1);
    RemainingIsUndeliveredSuffix([m], Some(webhook), true, None, AcceptAll());
    attempted := vm.SendQueuedMessages(AcceptAll());
    remaining := vm.repository.QueuedMessages();
    status := StatusOf(vm.State());
  }

  /**
   * Three messages queued; the server takes the first and refuses the second
   * with a text that is not network-class (such as `ServerError`): the first
   * is gone, the second and third stay in order, the third is never attempted,
   * and the error slot holds the refusal's text.
   */
  lemma SecondRefusedByServer(webhook: string, text: string, m1: Message, m2: Message, m3: Message)
    requires !IsBlank(webhook) && !IsBlank(text) && !IsNetworkError(text)
    requires DistinctIds([m1, m2, m3])
    ensures var o := Deliver([m1, m2, m3], Some(webhook), true, None, FirstThenFailing(text));
            && o.attempted == [m1, m2]
            && o.remaining == [m2, m3]
            && o.error == Some(text)
  {
    var q := [m1, m2, m3];
    FirstFailureAt(webhook, q, FirstThenFailing(text), 0, 1);
    RemainingIsUndeliveredSuffix(q, Some(webhook), true, None, FirstThenFailing(text));
    assert q[..2] == [m1, m2] && q[1..] == [m2, m3];
    ShownAsItStands(text, true);
  }

  /**
   * The same queue while every attempt fails with a network-class text (such
   * as `Refused`): nothing is delivered, only the first message is attempted,
   * and the error slot, cleared at the start of the run, stays empty.
   */
  lemma RefusedConnectionKeepsQueue(webhook: string, text: string, m1: Message, m2: Message, m3: Message)
    requires !IsBlank(webhook) && IsNetworkError(text)
    ensures var o := Deliver([m1, m2, m3], Some(webhook), true, Some(ServerError), AlwaysFailing(text));
            && o.attempted == [m1]
            && o.remaining == [m1, m2, m3]
            && o.error == None
  {
    var q := [m1, m2, m3];
    FirstFailureAt(webhook, q, AlwaysFailing(text), 0, 0);
    assert q[..1] == [m1] && Ids(q[..0]) == [];
  }
}
