# AI chat box: the chat-session state machine

This project models the state machine of the `FullScreenAIChatBox` React component of a
single-page chat UI. The component forwards the user's text to Google's Gemini model and
shows the exchange as a message thread.

The component's state covers:

- the message log, seeded with an AI greeting of id 1;
- the input field;
- the shared `isLoading` flag and the `isThinking` flag;
- the validated client (`genAI`) and the API-key field;
- whether the key dialog and the model popover are open;
- the selected model.

Its handlers send a message, validate a key (at startup with the stored key, or from the
key form), open or close the key dialog, and select the model.

The project has three modules:

- `JsString` (`js_string.dfy`): JavaScript's `String.prototype.trim` over the ECMAScript
  white-space and line-terminator code points. `IsBlank(s)` is the falsy test `!s.trim()`.
- `ChatModel` (`chat_model.dfy`): the state as a `Session` value, with one function per
  transition.
  - Each asynchronous call is a Begin/Settle pair. `Send`/`SettleReply` cover the reply
    request. `ValidateKey`/`SettleValidation` cover the key probe.
  - A settle takes an abstract `Outcome`, either `Success(text)` or `Failure`.
  - The calls in flight are part of the state, so the state between Begin and Settle can be
    stated.
  - User events (`Event`, `Step`, `Run`) apply the limits the rendered controls impose: the
    key button and the message field are disabled while loading, and the key form only
    exists inside the open dialog. The dialog renders no trigger, so the only dialog event
    is a request to close it, and it comes only while the dialog is open.
  - `Inv` is the invariant of every state reachable from mounting. It is proved over every
    event sequence, together with the properties below.
- `ChatBox` (`chat_box.dfy`): the component as the class `FullScreenAIChatBox`. It has one
  field per piece of state and one method per handler, and each method updates the fields
  step by step.
  - Each method is proved to move `State()` exactly as its `ChatModel` transition does.
  - Each method keeps `Inv` whenever the handler can be reached from a state that holds it.

`localStorage`'s `'geminiApiKey'` entry is the field `storedApiKey: Option<string>`. The
vendor client is `Client(key)`, the key it was built from.

### Behaviour worth knowing

- `onValidateGenAI` starts a probe whatever the state; it does not check for a probe already
  in flight. Only the key button's `disabled={isLoading}` prevents a second probe
  (`OverlappingProbes` shows what would follow).
- A failed key probe leaves the dialog as it was. After a failed startup probe of a stored
  key, the dialog stays closed and there is no client (`FailedStartupLeavesDialogClosed`),
  and no later user event changes that (`StartupFailureLockout`, under Findings).
- `handleSend` ignores a blank input without any notice. Message text and keys are stored
  untrimmed.
- A stored key that is the empty string is falsy, so startup shows the dialog instead of
  probing it.

## Model

| member | source | states |
|---|---|---|
| `JsString.TrimStart` | src/main/components/fullscreen-ai-chatbox.tsx:64 | the leading white space that `trim` removes: the result is a suffix of the input that is empty or starts with a visible character, and everything removed was white space |
| `JsString.TrimEnd` | src/main/components/fullscreen-ai-chatbox.tsx:64 | the trailing white space that `trim` removes: the result is a prefix that is empty or ends with a visible character, and everything removed was white space |
| `JsString.Trim` | src/main/components/fullscreen-ai-chatbox.tsx:153 | `s.trim()` has no white space at either end, and it is empty exactly when every character of `s` is white space (that it is the slice of `s` between white-space-only ends is `TrimIsSlice`) |
| `JsString.TrimIsSlice` | src/main/components/fullscreen-ai-chatbox.tsx:153 | `s.trim()` is a contiguous slice of `s`, and what lies before it and after it is white space only |
| `JsString.BlankIffAllWhiteSpace` | src/main/components/fullscreen-ai-chatbox.tsx:64 | a string fails the `trim()` truthiness test exactly when trimming leaves nothing, that is when all its characters are white space |
| `ChatModel.InitialState` | src/main/components/fullscreen-ai-chatbox.tsx:40-55 | the first state holds the invariant: the log is the single greeting with id 1, there is no client, nothing is loading and nothing is in flight |
| `ChatModel.SendGuard` | src/main/components/fullscreen-ai-chatbox.tsx:64 | a send changes nothing at all unless the input is non-blank after trimming, `isLoading` is false and a client exists, and it always changes the state when all three hold |
| `ChatModel.SendAccepted` | src/main/components/fullscreen-ai-chatbox.tsx:65-73 | an accepted send appends exactly one `user` message with the untrimmed input and id `messages.length + 1`, clears the input, sets `isLoading` and `isThinking`, starts one reply request for that input, and changes nothing else |
| `ChatModel.ReplySettles` | src/main/components/fullscreen-ai-chatbox.tsx:75-96 | a settled reply request appends exactly one `ai` message, with the response text on success or the fixed fallback on failure and the id `messages.length + 2` of the send; both flags end false whatever the outcome, and the client, input and dialog are untouched |
| `ChatModel.SendBlockedWhileValidating` | src/main/components/fullscreen-ai-chatbox.tsx:64-130 | while a key probe is in flight a send does nothing, because the probe holds the shared `isLoading` flag until its `finally` |
| `ChatModel.ValidationOutcome` | src/main/components/fullscreen-ai-chatbox.tsx:100-136 | a successful probe stores the client for the probed key, persists that key and closes the dialog; a failed one stores no client, persists nothing and leaves the dialog as it was; either way `isLoading` ends false, the log is untouched, and the notice reports the outcome |
| `ChatModel.OverlappingProbes` | src/main/components/fullscreen-ai-chatbox.tsx:123-130 | a second probe started while one is in flight is accepted, and when the first settles `isLoading` is false while the second still runs, which breaks the invariant; only the disabled button at line 201 prevents this |
| `ChatModel.DialogCloseNeedsClient` | src/main/components/fullscreen-ai-chatbox.tsx:112-121 | opening the key dialog is always honoured; closing it is honoured only once a client exists and is otherwise a no-op; nothing else changes |
| `ChatModel.SubmitApiKeyRule` | src/main/components/fullscreen-ai-chatbox.tsx:150-158 | submitting the key form starts a probe exactly when the key field is non-blank after trimming, and the probe is given the untrimmed field |
| `ChatModel.StartupRule` | src/main/components/fullscreen-ai-chatbox.tsx:141-148 | startup probes the stored key when there is a non-empty one and leaves the dialog alone; otherwise it shows the dialog and starts nothing |
| `ChatModel.FailedStartupLeavesDialogClosed` | src/main/components/fullscreen-ai-chatbox.tsx:141-148 | when the stored key fails its probe, the dialog stays closed and there is no client, so sending and closing the dialog both do nothing |
| `ChatModel.StepKeepsLockedOut` | src/main/components/fullscreen-ai-chatbox.tsx:162-207 | from the state a failed startup probe leaves (dialog hidden, no client, nothing in flight, log the greeting alone), no user event gets out: the key form is in the hidden dialog, which has no trigger, and sending needs a client |
| `ChatModel.RunKeepsLockedOut` | src/main/components/fullscreen-ai-chatbox.tsx:162-207 | the same for every sequence of user events |
| `ChatModel.StartupFailureLockout` | src/main/components/fullscreen-ai-chatbox.tsx:100-148 | after a stored key fails its startup probe, whatever the user does, there is never a client, the log stays the greeting and the dialog never shows |
| `ChatModel.SettleValidationShowingDialogKeepsInv` | src/main/components/fullscreen-ai-chatbox.tsx:100-110 | the corrected settling of a key probe, which shows the dialog after a failure that leaves no client, keeps the invariant of reachable states |
| `ChatModel.StepCorrectedKeepsKeyEnterable` | src/main/components/fullscreen-ai-chatbox.tsx:100-121 | with the corrected settling, every user event keeps "no client and no probe in flight means the key dialog shows" |
| `ChatModel.RunCorrectedKeepsKeyEnterable` | src/main/components/fullscreen-ai-chatbox.tsx:100-121 | the same for every sequence of user events |
| `ChatModel.CorrectedKeyAlwaysEnterable` | src/main/components/fullscreen-ai-chatbox.tsx:141-148 | with the corrected settling, every state reachable from mounting that has no client and no probe in flight shows the key dialog |
| `ChatModel.CorrectedStartupFailureRecovers` | src/main/components/fullscreen-ai-chatbox.tsx:100-158 | with the corrected settling, a failed startup probe shows the dialog, and a new non-blank key typed, submitted and accepted yields a client for that key, stores it and closes the dialog |
| `ChatModel.SelectModelRule` | src/main/components/fullscreen-ai-chatbox.tsx:33-37 | selecting the model sets it to `'gemini'`, the registry's only entry, and closes the popover; nothing else changes, and selecting again changes nothing |
| `ChatModel.SendKeepsInv` | src/main/components/fullscreen-ai-chatbox.tsx:63-73 | a send keeps the invariant: the new user message takes the next position, and the request in flight remembers it |
| `ChatModel.SettleReplyKeepsInv` | src/main/components/fullscreen-ai-chatbox.tsx:75-96 | a settled reply keeps the invariant: the reply's id `messages.length + 2` is its position, and the log again ends with an `ai` message |
| `ChatModel.ValidateKeyKeepsInv` | src/main/components/fullscreen-ai-chatbox.tsx:123-126 | starting a probe when nothing is loading keeps the invariant |
| `ChatModel.SettleValidationKeepsInv` | src/main/components/fullscreen-ai-chatbox.tsx:100-110 | a settled probe keeps the invariant, including that a client exists only for the key that is stored |
| `ChatModel.StartupKeepsInv` | src/main/components/fullscreen-ai-chatbox.tsx:141-148 | the startup effect, run when nothing is loading, keeps the invariant |
| `ChatModel.StepKeepsInv` | src/main/components/fullscreen-ai-chatbox.tsx:197-297 | every user event the rendered controls let through keeps the invariant and only appends to the log |
| `ChatModel.RunKeepsInv` | src/main/components/fullscreen-ai-chatbox.tsx:63-158 | any sequence of events keeps the invariant, and the log before it is a prefix of the log after it |
| `ChatModel.ReachableInv` | src/main/components/fullscreen-ai-chatbox.tsx:40-42 | every state reachable from mounting satisfies the invariant: ids are 1-based positions, senders alternate from the greeting, user messages are non-blank, at most one call is in flight and the flags say which, and the log starts with the greeting of id 1 |
| `ChatModel.AlternatingCount` | src/main/components/fullscreen-ai-chatbox.tsx:63-98 | a log whose senders alternate from an `ai` message holds ⌈n/2⌉ `ai` and ⌊n/2⌋ `user` messages |
| `ChatModel.OneReplyPerRequest` | src/main/components/fullscreen-ai-chatbox.tsx:63-98 | in every reachable state, the log has one more `ai` message than `user` messages when no reply is awaited, and as many when one is |
| `ChatModel.SendCycle` | src/main/components/fullscreen-ai-chatbox.tsx:63-98 | a full send and settle appends the user message and its single answer at the next two positions, clears the input and both flags, and keeps the invariant |
| `ChatModel.KeyAcceptedScenario` | src/main/components/fullscreen-ai-chatbox.tsx:100-158 | with no stored key, typing a key, submitting it and having it accepted leaves a client, the stored key and a closed dialog, with the log still only the greeting |
| `ChatModel.HelloChat` | src/main/components/fullscreen-ai-chatbox.tsx:63-98 | from a ready state, typing "Hello" and sending it yields the log [greeting, user "Hello" id 2, ai answer id 3] with both flags down |
| `ChatModel.HelloScenario` | src/main/components/fullscreen-ai-chatbox.tsx:40-158 | the whole scenario from mounting: a key is accepted, and "Hello" is sent and answered with the response text or with the fallback |
| `ChatModel.BadKeyScenario` | src/main/components/fullscreen-ai-chatbox.tsx:127-135 | a key that the service rejects leaves the dialog open, nothing loading, no client, nothing stored, and the failure notice shown |
| `ChatBox.FullScreenAIChatBox.constructor` | src/main/components/fullscreen-ai-chatbox.tsx:40-55 | the component's state on first render is the initial session, and it holds the invariant |
| `ChatBox.FullScreenAIChatBox.HandleSend` | src/main/components/fullscreen-ai-chatbox.tsx:63-73 | updates the fields as `Send` does and keeps the invariant |
| `ChatBox.FullScreenAIChatBox.SettleSend` | src/main/components/fullscreen-ai-chatbox.tsx:75-96 | updates the fields as `SettleReply` does and keeps the invariant |
| `ChatBox.FullScreenAIChatBox.OnValidateGenAI` | src/main/components/fullscreen-ai-chatbox.tsx:123-139 | updates the fields as `ValidateKey` does, with no check for a probe in flight, and keeps the invariant when nothing was loading |
| `ChatBox.FullScreenAIChatBox.SettleValidateGenAI` | src/main/components/fullscreen-ai-chatbox.tsx:100-110 | updates the fields as `SettleValidation` does and keeps the invariant |
| `ChatBox.FullScreenAIChatBox.OnOpenChange` | src/main/components/fullscreen-ai-chatbox.tsx:112-121 | updates the dialog's visibility as `OpenChange` does and keeps the invariant |
| `ChatBox.FullScreenAIChatBox.HandleApiKeySubmit` | src/main/components/fullscreen-ai-chatbox.tsx:150-158 | updates the fields as `SubmitApiKey` does and keeps the invariant when nothing was loading |
| `ChatBox.FullScreenAIChatBox.StartupEffect` | src/main/components/fullscreen-ai-chatbox.tsx:141-148 | updates the fields as `Startup` does and keeps the invariant when nothing was loading |
| `ChatBox.FullScreenAIChatBox.OnSelectModel` | src/main/components/fullscreen-ai-chatbox.tsx:222-227 | updates the model and popover as `SelectModel` does and keeps the invariant |
| `ChatBox.FullScreenAIChatBox.OnInputChange` | src/main/components/fullscreen-ai-chatbox.tsx:293 | sets the message field and keeps the invariant |
| `ChatBox.FullScreenAIChatBox.OnApiKeyChange` | src/main/components/fullscreen-ai-chatbox.tsx:197 | sets the key field and keeps the invariant |
| `ChatBox.FullScreenAIChatBox.OnModelSelectOpenChange` | src/main/components/fullscreen-ai-chatbox.tsx:210 | opens or closes the model popover and keeps the invariant |

## Left out

- Rendering: the JSX, styling, avatars, the thinking indicator and the auto-scroll effect
  (src/main/components/fullscreen-ai-chatbox.tsx:57-61, 160-305) are UI only. What the
  controls allow is kept: disabled controls, and the key form and model item existing only
  while their containers are open.
- The modal behaviour of the dialog, which makes the rest of the page inert while it is
  open, is not modelled. `Step` lets the message form and the popover act while the dialog
  is open.
- The `GoogleGenerativeAI` SDK is a vendor network client. This covers constructing the
  client, `getGenerativeModel({ model: 'gemini-pro' })`, `generateContent` and
  `response.text()`. Each call is an abstract `Outcome`, and every way it can throw is
  `Failure`.
- `localStorage` mechanics: it is a browser key-value store, reduced to the one optional
  field it holds for `'geminiApiKey'`.
- The `sonner` toasts are UI notification only. The model records which notice is shown
  (connecting, verified, invalid), not its text. `console.error` logging is diagnostics only.
- React hook and closure semantics are left out, including stale captures, `useCallback`
  dependencies, batching and StrictMode's double effects. Each handler sees the current
  state when it is called. `handleSend`'s captured `messages.length` is kept in the request
  it starts, because the reply's id depends on it.
- Real asynchronous scheduling is left out. The class's settle methods may settle any call
  in flight. `Step` settles the oldest one, since reachable states have at most one.
- The registry's `icon` and the header's display name are rendering only. The registry
  itself is modelled, with `'gemini'` as its only entry.
- src/main/app.tsx (router, Recoil root and Toaster wiring) and src/app.ts (DOM bootstrap)
  are not part of this model. They are UI plumbing with no logic.
- src/state.ts is not part of this model. It holds two trivial Recoil declarations with no
  behaviour.

## Findings

| source | as written | input that shows it | evidently intended | confidence | as-written member | corrected member |
|---|---|---|---|---|---|---|
| src/main/components/fullscreen-ai-chatbox.tsx:100-110 | a failed key probe leaves `visibleApiKeyDialog` as it was; at startup it is `false`, the dialog has no trigger and `onOpenChange` only ever closes it, so a stored key that fails its probe leaves no way to enter another key | `localStorage.geminiApiKey = "expired"`, the startup probe rejects; afterwards no user event sequence produces a client or any message beyond the greeting | a failed probe that leaves no client shows the key dialog, so another key can be entered | not executed | `ChatModel.StartupFailureLockout` | `ChatModel.CorrectedStartupFailureRecovers` |

`SettleValidationShowingDialog` is the corrected settling, and `StepCorrected`,
`RunCorrected` and `MountedCorrected` drive it. It keeps `Inv`
(`SettleValidationShowingDialogKeepsInv`). With it, every reachable state with no client
and nothing in flight shows the dialog (`CorrectedKeyAlwaysEnterable`). `Step`, `Run` and
the `ChatBox` class keep the settling as written, because they describe what the component
does.
