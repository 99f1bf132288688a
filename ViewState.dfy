/**
 * The presentation snapshot of viewmodel/QueueViewModel.kt: `AppStatus`,
 * `UiState`, its derived `status`, and the `showWebhookDialog` flag.
 */
module ViewState {
  import opened Wrappers
  import opened Text
  import opened Messages

  /** The four values of `AppStatus`; `StatusOf` says which inputs give each. */
  datatype AppStatus = OfflineWithQueue | Sending | Empty | OnlineReady

  datatype UiState = UiState(
    queuedMessages: seq<Message>,
    isWifiConnected: bool,
    isSending: bool,
    webhookUrl: Option<string>,
    showWebhookDialog: bool,
    errorMessage: Option<string>,
    showEditWebhookDialog: bool)

  /**
   * `UiState.status`, a first-match `when`. Read value by value: SENDING
   * whenever a run is in progress; otherwise ONLINE_READY whenever wifi is up,
   * whatever the queue holds; EMPTY offline with an empty queue; and
   * OFFLINE_WITH_QUEUE offline with a non-empty one.
   */
  function StatusOf(s: UiState): (st: AppStatus)
    ensures st == Sending <==> s.isSending
    ensures st == OnlineReady <==> !s.isSending && s.isWifiConnected
    ensures st == Empty <==> !s.isSending && !s.isWifiConnected && |s.queuedMessages| == 0
    ensures st == OfflineWithQueue <==> !s.isSending && !s.isWifiConnected && |s.queuedMessages| > 0
  {
    if s.isSending then Sending
    else if |s.queuedMessages| == 0 && s.isWifiConnected then OnlineReady
    else if |s.queuedMessages| == 0 then Empty
    else if !s.isWifiConnected then OfflineWithQueue
    else OnlineReady
  }

  /** `webhook.isNullOrBlank() && !showEdit`: prompt for a webhook only while none is usable and the editor is closed. */
  function ShowWebhookDialog(webhook: Option<string>, showEdit: bool): (show: bool)
    ensures show ==> !showEdit
    ensures show <==> (webhook == None || IsBlank(webhook.value)) && !showEdit
  {
    IsNullOrBlank(webhook) && !showEdit
  }

  /** The `combine` of the store, the network monitor and the view model's own flags into one snapshot. */
  function Project(messages: seq<Message>, wifi: bool, sending: bool, webhook: Option<string>,
                   error: Option<string>, showEdit: bool): UiState
  {
    UiState(messages, wifi, sending, webhook, ShowWebhookDialog(webhook, showEdit), error, showEdit)
  }

  /**
   * Saving a webhook trims it and closes the editor; the prompt then shows
   * exactly when what the user typed was blank.
   */
  lemma PromptAfterSave(url: string)
    ensures ShowWebhookDialog(Some(Trim(url)), false) <==> IsBlank(url)
  {
    TrimKeepsBlankness(url);
  }
}
