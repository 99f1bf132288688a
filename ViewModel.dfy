/**
 * `QueueViewModel` (viewmodel/QueueViewModel.kt): the view model's own
 * state flows, the store it drives, and its commands, including the
 * delivery loop `sendQueuedMessages`.
 */
module ViewModel {
  import opened Wrappers
  import opened Text
  import opened Messages
  import opened Repository
  import opened ViewState
  import opened Delivery

  class QueueViewModel {
    /** The persistent store. */
    const repository: MessageRepository
    /** The last value the network monitor emitted. */
    var wifi: bool
    /** `_isSending`. */
    var isSending: bool
    /** `_errorMessage`. */
    var errorMessage: Option<string>
    /** `_showEditWebhookDialog`. */
    var showEditWebhookDialog: bool

    /** A view model over what the store already holds, with the given connectivity. */
    constructor (queueSlot: QueueSlot, webhookSlot: Option<string>, wifi: bool)
      ensures fresh(repository)
      ensures repository.queueSlot == queueSlot && repository.webhookSlot == webhookSlot
      ensures this.wifi == wifi && !isSending && errorMessage == None && !showEditWebhookDialog
    {
      repository := new MessageRepository(queueSlot, webhookSlot);
      this.wifi := wifi;
      isSending := false;
      errorMessage := None;
      showEditWebhookDialog := false;
    }

    /** `uiState.value`: the combined snapshot of the store, the monitor and the flags above. */
    function State(): UiState
      reads this, repository
    {
      Project(repository.QueuedMessages(), wifi, isSending, repository.WebhookUrl(),
              errorMessage, showEditWebhookDialog)
    }

    /** A new value from the network monitor. */
    method SetWifi(connected: bool)
      modifies this
      ensures wifi == connected
      ensures isSending == old(isSending) && errorMessage == old(errorMessage)
      ensures showEditWebhookDialog == old(showEditWebhookDialog)
    {
      wifi := connected;
    }

    /**
     * `sendQueuedMessages()`: one delivery run over a snapshot of the queue.
     * Its effect on the store, on the error slot and on the sender is the
     * function `Deliver` of the state it started from.
     */
    method SendQueuedMessages(send: Sender) returns (attempted: seq<Message>)
      modifies this, repository
      ensures var o := Deliver(old(repository.QueuedMessages()), old(repository.webhookSlot), old(wifi),
                               old(errorMessage), send);
              && attempted == o.attempted
              && repository.QueuedMessages() == o.remaining
              && errorMessage == o.error
      ensures !CanSend(old(repository.QueuedMessages()), old(repository.webhookSlot), old(wifi)) ==>
                unchanged(this) && unchanged(repository)
      ensures CanSend(old(repository.QueuedMessages()), old(repository.webhookSlot), old(wifi)) ==> !isSending
      ensures repository.webhookSlot == old(repository.webhookSlot)
      ensures wifi == old(wifi) && showEditWebhookDialog == old(showEditWebhookDialog)
    {
      var state := State();
      var webhookUrl := state.webhookUrl;
      attempted := [];
      if IsNullOrBlank(webhookUrl) || |state.queuedMessages| == 0 {
        return;
      }
      if !state.isWifiConnected {
        return;
      }

      DeliverIgnoresError(state.queuedMessages, webhookUrl, state.isWifiConnected, errorMessage, None, send);
      isSending := true;
      errorMessage := None;
      attempted := DeliverSnapshot(webhookUrl.value, state.queuedMessages, state.isWifiConnected, send);
      isSending := false;
    }

    /**
     * The `for` loop of `sendQueuedMessages` over the snapshot `messages`:
     * send each in order, remove it from the store once accepted, and stop at
     * the first refusal, recording it in the error slot unless it is
     * network-class.
     */
    method DeliverSnapshot(url: string, messages: seq<Message>, connected: bool, send: Sender)
      returns (attempted: seq<Message>)
      requires CanSend(messages, Some(url), connected)
      requires repository.QueuedMessages() == messages
      requires errorMessage == None
      modifies this, repository
      ensures var o := Deliver(messages, Some(url), connected, None, send);
              && attempted == o.attempted
              && repository.QueuedMessages() == o.remaining
              && errorMessage == o.error
      ensures repository.webhookSlot == old(repository.webhookSlot)
      ensures wifi == old(wifi) && showEditWebhookDialog == old(showEditWebhookDialog)
      ensures isSending == old(isSending)
    {
      attempted := [];
      var i := 0;
      ghost var left := messages;
      while i < |messages|
        invariant 0 <= i <= |messages|
        invariant AcceptedBefore(url, messages, send, i)
        invariant attempted == messages[..i]
        invariant left == WithoutAll(messages, Ids(messages[..i]))
        invariant repository.QueuedMessages() == left
        invariant repository.webhookSlot == old(repository.webhookSlot)
        invariant wifi == old(wifi) && showEditWebhookDialog == old(showEditWebhookDialog)
        invariant isSending == old(isSending) && errorMessage == None
      {
        var message := messages[i];
        var result := Ask(send, url, i, message.content);
        assert messages[..i + 1] == messages[..i] + [message];
        attempted := attempted + [message];
        if result.Success? {
          assert AcceptedBefore(url, messages, send, i + 1);
          WithoutAllNext(messages, i);
          repository.RemoveMessage(message.id);
          left := Without(left, message.id);
        } else {
          ReportFailure(result, connected);
          break;
        }
        i := i + 1;
      }
      DeliverStoppedAt(messages, url, connected, send, i);
    }

    /**
     * The `else` branch of the loop: a refusal is recorded in the error slot
     * only when it is not network-class and the snapshot said online.
     */
    method ReportFailure(result: SendResult, connected: bool)
      modifies this
      ensures errorMessage == (if !IsNetworkError(FailureText(result)) && connected
                               then Some(IfBlank(FailureText(result), DefaultError))
                               else old(errorMessage))
      ensures wifi == old(wifi) && isSending == old(isSending)
      ensures showEditWebhookDialog == old(showEditWebhookDialog)
    {
      // Network-class refusals, and refusals while the snapshot said offline, leave the slot alone.
      var text := FailureText(result);
      var isNetworkError := IsNetworkError(text);
      if !isNetworkError && connected {
        errorMessage := Some(IfBlank(text, DefaultError));
      }
    }

    /**
     * `addMessage(content)`: blank content is ignored; otherwise one message
     * with the trimmed content is appended and a delivery run follows.
     */
    method AddMessage(content: string, id: string, timestamp: int, send: Sender) returns (attempted: seq<Message>)
      modifies this, repository
      ensures IsBlank(content) ==> attempted == [] && unchanged(this) && unchanged(repository)
      ensures !IsBlank(content) ==>
                var queued := old(repository.QueuedMessages()) + [Message(id, Trim(content), timestamp)];
                var o := Deliver(queued, old(repository.webhookSlot), old(wifi), old(errorMessage), send);
                && attempted == o.attempted
                && repository.QueuedMessages() == o.remaining
                && errorMessage == o.error
                && isSending == (!CanSend(queued, old(repository.webhookSlot), old(wifi)) && old(isSending))
      ensures repository.webhookSlot == old(repository.webhookSlot)
      ensures wifi == old(wifi) && showEditWebhookDialog == old(showEditWebhookDialog)
    {
      attempted := [];
      if IsBlank(content) {
        return;
      }
      var message := Message(id, Trim(content), timestamp);
      repository.AddMessage(message);
      // The run's own guards decide whether anything is sent now.
      attempted := SendQueuedMessages(send);
    }

    /** `cancelMessage(id)`: removes the message from the store, whatever else is going on. */
    method CancelMessage(messageId: string)
      modifies repository
      ensures repository.QueuedMessages() == Without(old(repository.QueuedMessages()), messageId)
      ensures repository.webhookSlot == old(repository.webhookSlot)
    {
      repository.RemoveMessage(messageId);
    }

    /** `saveWebhookUrl(url)`: stores the trimmed URL and closes the editor. */
    method SaveWebhookUrl(url: string)
      modifies this, repository
      ensures repository.webhookSlot == Some(Trim(url))
      ensures repository.queueSlot == old(repository.queueSlot)
      ensures !showEditWebhookDialog
      ensures State().showWebhookDialog <==> IsBlank(url)
      ensures wifi == old(wifi) && isSending == old(isSending) && errorMessage == old(errorMessage)
    {
      repository.SaveWebhookUrl(Trim(url));
      showEditWebhookDialog := false;
      PromptAfterSave(url);
    }

    /** `showEditWebhookDialog()`: opening the editor hides the configuration prompt. */
    method ShowEditWebhookDialog()
      modifies this
      ensures showEditWebhookDialog && !State().showWebhookDialog
      ensures wifi == old(wifi) && isSending == old(isSending) && errorMessage == old(errorMessage)
    {
      showEditWebhookDialog := true;
    }

    /** `hideEditWebhookDialog()`. */
    method HideEditWebhookDialog()
      modifies this
      ensures !showEditWebhookDialog
      ensures State().showWebhookDialog == IsNullOrBlank(repository.webhookSlot)
      ensures wifi == old(wifi) && isSending == old(isSending) && errorMessage == old(errorMessage)
    {
      showEditWebhookDialog := false;
    }

    /** `clearError()`. */
    method ClearError()
      modifies this
      ensures errorMessage == None
      ensures wifi == old(wifi) && isSending == old(isSending)
      ensures showEditWebhookDialog == old(showEditWebhookDialog)
    {
      errorMessage := None;
    }
  }
}
