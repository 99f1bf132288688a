# QueueCord queue and delivery core, in Dafny

QueueCord is an Android app that queues text messages while the device is
offline and posts them to a Discord webhook once wifi is back. This project
models its core:

- the persistent store (`MessageRepository`), with its two preference slots;
- the view model's state (`QueueViewModel` with `UiState`) and its derived `status`
  and `showWebhookDialog`;
- the view model's commands, above all the delivery loop `sendQueuedMessages`,
  together with its classification of failures into network-class ones (kept
  silent) and the rest (shown to the user).

Modules, one per file:

| module | file | contents |
|---|---|---|
| `Wrappers` | Wrappers.dfy | `Option` |
| `Text` | Text.dfy | Kotlin's `isBlank`, `trim`, `contains(…, ignoreCase = true)` |
| `Messages` | Messages.dfy | `QueuedMessage` as `Message(id, content, timestamp)` |
| `Repository` | Repository.dfy | the queue slot `Absent / Corrupt / Stored(list)`, the filter that `removeMessage` applies, the class `MessageRepository` |
| `ViewState` | ViewState.dfy | `AppStatus`, `UiState`, `status`, `showWebhookDialog` |
| `Delivery` | Delivery.dfy | the sender as an oracle; failure classification; `Deliver`, a function giving the outcome of one run |
| `ViewModel` | ViewModel.dfy | the class `QueueViewModel`, whose loop is proved against `Deliver` |
| `Scenarios` | Scenarios.dfy | concrete runs |

The sender (`DiscordService.sendMessage`) is a function parameter of type
`(url, attempt position, content) -> Success | Failure(message?)`. One such
function exists for every sequence of answers. Connectivity (the network
monitor) is a boolean field that `SetWifi` updates. Message ids and
timestamps are parameters; the app generates them with a UUID and the clock.

A delivery run over a snapshot works as follows:

- the snapshot is walked in order;
- each accepted message is removed from the store by id;
- the run stops at the first refusal;
- the refusal sets the error slot unless its text is network-class.

`Deliver` states this outcome as a function.
`QueueViewModel.SendQueuedMessages` is proved to produce exactly `Deliver`
of the state it started from. Lemmas about `Deliver` then prove the following:

- the delivered prefix is removed;
- the refused message and everything after it stay, in order;
- nothing after the refusal is attempted;
- the error slot holds what the classification says.

The first-match `when` of `status` returns `ONLINE_READY` for an empty queue
with wifi up, because QueueViewModel.kt line 49 comes before line 50;
`ViewState.StatusOf` and `Scenarios.FreshInstallOnline` state it.

## Model

Paths are under `app/src/main/java/com/raytonc/queuecord/`, written out in full below.

| member | source | states |
|---|---|---|
| Text.TrimStart | app/src/main/java/com/raytonc/queuecord/viewmodel/QueueViewModel.kt:137 | the result is a suffix of the input; every dropped character is whitespace; the result does not start with whitespace |
| Text.TrimEnd | app/src/main/java/com/raytonc/queuecord/viewmodel/QueueViewModel.kt:137 | the result is a prefix of the input; every dropped character is whitespace; the result does not end with whitespace |
| Text.Trim | app/src/main/java/com/raytonc/queuecord/viewmodel/QueueViewModel.kt:137 | `trim()`: empty exactly when the input is blank; otherwise it starts and ends with non-whitespace; it is a contiguous slice of the input with only whitespace outside it |
| Text.TrimKeepsBlankness | app/src/main/java/com/raytonc/queuecord/viewmodel/QueueViewModel.kt:134-137 | a string is blank exactly when its trimmed form is blank |
| Text.TrimIdempotent | app/src/main/java/com/raytonc/queuecord/viewmodel/QueueViewModel.kt:153 | trimming twice equals trimming once |
| Text.StartsWithIgnoreCaseIff | app/src/main/java/com/raytonc/queuecord/viewmodel/QueueViewModel.kt:192-198 | the recursive prefix test holds exactly when every position of the prefix matches ignoring case |
| Text.ContainsIgnoreCaseIff | app/src/main/java/com/raytonc/queuecord/viewmodel/QueueViewModel.kt:192-198 | `contains(other, ignoreCase = true)` holds exactly when some start index matches `other` ignoring case |
| Text.ContainsIgnoreCaseOfUppercase | app/src/main/java/com/raytonc/queuecord/viewmodel/QueueViewModel.kt:192-198 | upper-casing the searched text never changes whether a signature is found |
| Repository.Decode | app/src/main/java/com/raytonc/queuecord/repository/MessageRepository.kt:32-40 | a missing or corrupt slot reads as the empty list; a well-formed one reads as its list |
| Repository.WithoutDropsId | app/src/main/java/com/raytonc/queuecord/repository/MessageRepository.kt:70 | after `filter { it.id != id }` no entry carries `id` |
| Repository.WithoutCount | app/src/main/java/com/raytonc/queuecord/repository/MessageRepository.kt:70 | the filter drops every entry carrying `id` and keeps every other entry with its multiplicity |
| Repository.WithoutAppend | app/src/main/java/com/raytonc/queuecord/repository/MessageRepository.kt:70 | the filter distributes over concatenation, so kept entries stay in their original order |
| Repository.WithoutSingleton | app/src/main/java/com/raytonc/queuecord/repository/MessageRepository.kt:70 | on one entry the filter keeps it exactly when its id differs |
| Repository.WithoutAbsent | app/src/main/java/com/raytonc/queuecord/repository/MessageRepository.kt:70-71 | removing an id that no entry carries leaves the list unchanged |
| Repository.WithoutIdempotent | app/src/main/java/com/raytonc/queuecord/repository/MessageRepository.kt:70-71 | removing the same id twice equals removing it once |
| Repository.WithoutAllCount | app/src/main/java/com/raytonc/queuecord/repository/MessageRepository.kt:70 | after several removals an entry survives, with its multiplicity, exactly when its id was never removed |
| Repository.WithoutAllPrefix | app/src/main/java/com/raytonc/queuecord/repository/MessageRepository.kt:70 | with distinct ids, removing the ids of the first `k` entries leaves exactly the entries from `k` on |
| Repository.WithoutDistinctHead | app/src/main/java/com/raytonc/queuecord/repository/MessageRepository.kt:70 | with distinct ids, removing the id of entry `k-1` from the list starting there leaves the list from `k` on |
| Repository.MessageRepository.constructor | app/src/main/java/com/raytonc/queuecord/repository/MessageRepository.kt:24 | the store opens over the given slots |
| Repository.MessageRepository.AddMessage | app/src/main/java/com/raytonc/queuecord/repository/MessageRepository.kt:47-59 | the slot holds the old decoded list followed by the message; a missing or corrupt slot gives `[message]`; the webhook slot is unchanged |
| Repository.MessageRepository.RemoveMessage | app/src/main/java/com/raytonc/queuecord/repository/MessageRepository.kt:61-73 | the slot holds the old decoded list filtered by id; the webhook slot is unchanged |
| Repository.MessageRepository.ClearAllMessages | app/src/main/java/com/raytonc/queuecord/repository/MessageRepository.kt:75-79 | the slot holds the empty list; the webhook slot is unchanged |
| Repository.MessageRepository.SaveWebhookUrl | app/src/main/java/com/raytonc/queuecord/repository/MessageRepository.kt:81-85 | the webhook read returns the saved URL; the queue slot is unchanged |
| ViewState.StatusOf | app/src/main/java/com/raytonc/queuecord/viewmodel/QueueViewModel.kt:46-53 | SENDING exactly when sending; ONLINE_READY exactly when not sending and online (empty queue or not); EMPTY exactly when not sending, offline and empty; OFFLINE_WITH_QUEUE exactly when not sending, offline and non-empty |
| ViewState.ShowWebhookDialog | app/src/main/java/com/raytonc/queuecord/viewmodel/QueueViewModel.kt:106 | the prompt shows exactly when the webhook is null or blank and the editor is closed |
| ViewState.PromptAfterSave | app/src/main/java/com/raytonc/queuecord/viewmodel/QueueViewModel.kt:151-156 | after saving a trimmed URL with the editor closed, the prompt shows exactly when the typed URL was blank |
| Delivery.IfBlank | app/src/main/java/com/raytonc/queuecord/viewmodel/QueueViewModel.kt:201 | `ifBlank` yields the default exactly when the text is blank and the text itself otherwise, so the result is never blank when the default is not |
| Delivery.SurfacedError | app/src/main/java/com/raytonc/queuecord/viewmodel/QueueViewModel.kt:190-202 | an error is set exactly when the failure is not network-class and the snapshot said online; a set error is never blank; it is the failure text, or "Failed to send message" when that text is blank |
| Delivery.ShownAsItStands | app/src/main/java/com/raytonc/queuecord/viewmodel/QueueViewModel.kt:200-201 | a failure text that is neither network-class nor blank is shown verbatim while online |
| Delivery.FirstFailure | app/src/main/java/com/raytonc/queuecord/viewmodel/QueueViewModel.kt:184-205 | the position where the loop stops: every message before it was accepted, and it was refused or is the end |
| Delivery.FirstFailureAt | app/src/main/java/com/raytonc/queuecord/viewmodel/QueueViewModel.kt:184-205 | that stopping position is unique |
| Delivery.Deliver | app/src/main/java/com/raytonc/queuecord/viewmodel/QueueViewModel.kt:170-208 | a run that fails a guard changes nothing and sends nothing; otherwise the attempts are a non-empty prefix of the snapshot in order, all accepted except possibly the last, which was refused when the run stopped early; a set error is the old one or not blank |
| Delivery.DeliverStoppedAt | app/src/main/java/com/raytonc/queuecord/viewmodel/QueueViewModel.kt:184-205 | the outcome when the loop leaves at position `i`, with everything before `i` accepted |
| Delivery.DeliverIgnoresError | app/src/main/java/com/raytonc/queuecord/viewmodel/QueueViewModel.kt:178-179 | past the guards, the error slot the run started from does not affect the outcome (it is cleared first) |
| Delivery.NoSendOffline | app/src/main/java/com/raytonc/queuecord/viewmodel/QueueViewModel.kt:175-176 | with wifi down nothing is sent and nothing changes |
| Delivery.RemovesExactlyDelivered | app/src/main/java/com/raytonc/queuecord/viewmodel/QueueViewModel.kt:184-188 | past the guards, the store loses exactly the entries whose ids belong to the accepted prefix; everything else keeps its multiplicity |
| Delivery.RemainingIsUndeliveredSuffix | app/src/main/java/com/raytonc/queuecord/viewmodel/QueueViewModel.kt:182-204 | with distinct ids, what stays queued is the snapshot from the first refusal on, in order, with the refused message at the head; the attempts end at the refusal |
| Delivery.ErrorAfterRun | app/src/main/java/com/raytonc/queuecord/viewmodel/QueueViewModel.kt:178-202 | past the guards the error is cleared exactly when everything was accepted or the refusal was network-class; otherwise it is the refusal's text or the default text |
| Delivery.ConnectionRefusedIsSilent | app/src/main/java/com/raytonc/queuecord/viewmodel/QueueViewModel.kt:198-202 | a failure containing "connection refused", in any case, never sets the error |
| ViewModel.QueueViewModel.constructor | app/src/main/java/com/raytonc/queuecord/viewmodel/QueueViewModel.kt:65-71 | a view model over the given store with nothing sending, no error and the editor closed |
| ViewModel.QueueViewModel.SetWifi | app/src/main/java/com/raytonc/queuecord/viewmodel/QueueViewModel.kt:88 | a new connectivity value; nothing else changes |
| ViewModel.QueueViewModel.SendQueuedMessages | app/src/main/java/com/raytonc/queuecord/viewmodel/QueueViewModel.kt:170-208 | the attempts, the new queue and the new error are `Deliver` of the starting state; a failed guard leaves everything unchanged; after a run `isSending` is false; the webhook, wifi and editor flag are unchanged |
| ViewModel.QueueViewModel.DeliverSnapshot | app/src/main/java/com/raytonc/queuecord/viewmodel/QueueViewModel.kt:184-205 | the `for` loop with `break` produces the attempts, the store and the error slot that `Deliver` gives for the snapshot |
| ViewModel.QueueViewModel.ReportFailure | app/src/main/java/com/raytonc/queuecord/viewmodel/QueueViewModel.kt:189-202 | the error slot is set to the text (or the default) exactly when the failure is not network-class and the snapshot said online; otherwise it is left alone |
| ViewModel.QueueViewModel.AddMessage | app/src/main/java/com/raytonc/queuecord/viewmodel/QueueViewModel.kt:133-143 | blank content changes nothing; otherwise exactly one message with the trimmed content is appended, and a run follows whose effect is `Deliver` of the extended queue |
| ViewModel.QueueViewModel.CancelMessage | app/src/main/java/com/raytonc/queuecord/viewmodel/QueueViewModel.kt:145-149 | the queue loses every entry with that id; the webhook is unchanged |
| ViewModel.QueueViewModel.SaveWebhookUrl | app/src/main/java/com/raytonc/queuecord/viewmodel/QueueViewModel.kt:151-156 | the trimmed URL is stored, the queue slot is unchanged, the editor closes, and the prompt then shows exactly when the URL was blank |
| ViewModel.QueueViewModel.ShowEditWebhookDialog | app/src/main/java/com/raytonc/queuecord/viewmodel/QueueViewModel.kt:158-160 | opening the editor sets its flag and hides the prompt |
| ViewModel.QueueViewModel.HideEditWebhookDialog | app/src/main/java/com/raytonc/queuecord/viewmodel/QueueViewModel.kt:162-164 | closing the editor clears its flag; the prompt shows exactly when the webhook is null or blank |
| ViewModel.QueueViewModel.ClearError | app/src/main/java/com/raytonc/queuecord/viewmodel/QueueViewModel.kt:166-168 | the error slot becomes null; nothing else changes |
| Scenarios.ServerErrorIsNotNetworkClass | app/src/main/java/com/raytonc/queuecord/service/DiscordService.kt:45 | the HTTP-error text "Failed to send message: 500" matches none of the four network signatures |
| Scenarios.RefusedIsSilent | app/src/main/java/com/raytonc/queuecord/viewmodel/QueueViewModel.kt:190-202 | "java.net.ConnectException: Connection refused" is network-class and never shown |
| Scenarios.FreshInstallOnline | app/src/main/java/com/raytonc/queuecord/viewmodel/QueueViewModel.kt:46-53 | an empty store with no webhook and wifi up shows ONLINE_READY and the prompt |
| Scenarios.QueuedWhileOffline | app/src/main/java/com/raytonc/queuecord/viewmodel/QueueViewModel.kt:133-143 | a message queued offline is not sent, the status is OFFLINE_WITH_QUEUE, and a new view model over the same store sees it |
| Scenarios.DeliveredOnReconnect | app/src/main/java/com/raytonc/queuecord/viewmodel/QueueViewModel.kt:170-208 | once wifi returns a run delivers the one queued message, empties the store, and the status is ONLINE_READY |
| Scenarios.SecondRefusedByServer | app/src/main/java/com/raytonc/queuecord/viewmodel/QueueViewModel.kt:184-204 | three messages, the second refused with a shown text: the first is removed, the second and third stay in order, the third is never attempted, and the error slot holds the text |
| Scenarios.RefusedConnectionKeepsQueue | app/src/main/java/com/raytonc/queuecord/viewmodel/QueueViewModel.kt:178-204 | the same queue under a network-class failure: only the first message is attempted, nothing is removed, and the error slot stays cleared |

## Left out

- The JSON text of the queue slot (kotlinx.serialization) and DataStore I/O and durability: the slot is `Absent`, `Corrupt` or `Stored(list)`.
- UUID and clock generation: ids and timestamps are parameters of `AddMessage`.
- Messages.Message: the timestamp is an unbounded integer, not a 64-bit `Long`; nothing computes with it.
- `DiscordService` (OkHttp): the sender is a function parameter. A non-2xx answer fails with "Failed to send message: <code>"; the scenarios use the 500 case.
- `NetworkMonitor` (the OS connectivity callback): connectivity is a boolean field set by `SetWifi`.
- Flow `combine` and `stateIn`: `uiState.value` is read as the current consistent state (`QueueViewModel.State`). The initial value and the staleness that `WhileSubscribed` allows are not modelled.
- Coroutine concurrency of `viewModelScope.launch`: each command runs to completion on its own. No "one run at a time" claim is made. The code does not enforce one: `addMessage` calls `sendQueuedMessages` directly, and that method never checks `_isSending`.
- The `init` collector that starts a run when the queue, wifi and webhook pass its guards: the run itself is `SendQueuedMessages`, and `Scenarios.DeliveredOnReconnect` calls it after `SetWifi(true)` as that collector would.
- Compose UI, snackbar and `MainActivity`: presentation only.
- Text.UppercaseChar: case folding is ASCII only, while Kotlin's `ignoreCase` uses Unicode upper- and lower-casing. Classification is exact for failure texts in ASCII. A text that spells a signature letter with a non-ASCII case variant (such as U+017F for 's', U+0131 for 'i' or U+212A for 'k') is network-class in the app but not in the model, so the model shows an error there that the app suppresses.
- ViewState.Project: builds the snapshot that Flow `combine` emits and carries no contract of its own. The prompt's behaviour is stated by `ShowWebhookDialog`, `PromptAfterSave` and the view model's dialog and save commands.
- Text.IsWhitespace: follows the JVM `Character.isWhitespace` or `isSpaceChar` ranges. Unicode data beyond those ranges is not modelled.
- ViewState.StatusOf: the model does not state "status is SENDING while the loop runs" as an invariant of the loop. It follows from `isSending` being true throughout the loop body and from `StatusOf`.
- The `state.isWifiConnected` test in the loop (QueueViewModel.kt line 200) reads the snapshot taken before the loop, as in the code, so it is always true there. Connectivity is not re-checked per message.
