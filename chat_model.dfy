/** The chat-session state machine of the FullScreenAIChatBox component, as values: the
    component's state, one function per transition, the user events that drive them, and
    the properties the transitions keep.

    The two calls into the generative-language service (`generateContent` for a reply and
    for the key probe) are split in two: the transition that starts the call records it as
    in flight, and a second transition settles it with an abstract `Outcome`. The browser's
    `localStorage` slot `'geminiApiKey'` is the field `storedApiKey`. */
module ChatModel {
  import opened JsString

  datatype Option<T> = None | Some(value: T)

  /** Who wrote a message: `'user' | 'ai'`. */
  datatype Sender = User | Ai

  /** One entry of the message log. */
  datatype Message = Message(id: int, text: string, sender: Sender)

  /** The selectable models, and the registry giving each its display name and icon. */
  datatype AIModel = Gemini
  datatype ModelInfo = ModelInfo(name: string, icon: string)
  const AIModels: map<AIModel, ModelInfo> := map[Gemini := ModelInfo("Gemini", "gemini")]

  /** The seeded greeting (id 1) and the fixed reply shown when generation fails. */
  const Greeting: string := "Xin chào! Tôi có thể giúp gì cho bạn?"
  const Fallback: string := "Rất tiếc, tôi đã gặp lỗi khi xử lý yêu cầu của bạn."

  /** How a call to the generation service settles: resolved with the response text, or
      rejected (a network error, a rejected key, a blocked response: all alike). */
  datatype Outcome = Success(text: string) | Failure

  /** A constructed `GoogleGenerativeAI` client, known by the key it was built from. */
  datatype Client = Client(key: string)

  /** A reply request started by handleSend: `base` is `messages.length` as the handler saw
      it when it accepted the send, `prompt` the input text it sent. */
  datatype PendingReply = PendingReply(base: nat, prompt: string)

  /** The last key-validation notice shown by `toast.promise`. */
  datatype Toast = NoToast | Connecting | KeyVerified | KeyInvalid

  /** The component's state: its nine state hooks, the stored key, the calls in flight and
      the notice on screen. */
  datatype Session = Session(
    messages: seq<Message>,
    input: string,
    aiModel: AIModel,
    isThinking: bool,
    genAI: Option<Client>,
    apiKey: string,
    isLoading: bool,
    openModelSelect: bool,
    visibleApiKeyDialog: bool,
    storedApiKey: Option<string>,
    replies: seq<PendingReply>,
    validations: seq<string>,
    toast: Toast)

  // ---------------------------------------------------------------------------------
  // Transitions
  // ---------------------------------------------------------------------------------

  /** The state on first render, given what the browser has stored for the key. */
  function Initial(stored: Option<string>): Session {
    Session([Message(1, Greeting, Ai)], "", Gemini, false, None, "", false, false, false,
            stored, [], [], NoToast)
  }

  /** The guard of handleSend. */
  predicate CanSend(s: Session) {
    !IsBlank(s.input) && !s.isLoading && s.genAI.Some?
  }

  /** handleSend up to its `await`: append the user's message, clear the input, raise both
      flags and start the reply request. */
  function Send(s: Session): Session {
    if CanSend(s) then
      s.(messages := s.messages + [Message(|s.messages| + 1, s.input, User)],
         input := "",
         isLoading := true,
         isThinking := true,
         replies := s.replies + [PendingReply(|s.messages|, s.input)])
    else
      s
  }

  /** The text of the AI message that answers a settled request. */
  function ReplyText(o: Outcome): string {
    match o
    case Success(text) => text
    case Failure => Fallback
  }

  function RemoveAt<T>(xs: seq<T>, i: nat): seq<T>
    requires i < |xs|
  {
    xs[..i] + xs[i + 1..]
  }

  /** handleSend after its `await`: the `i`-th reply request settles, one AI message is
      appended to the current log, and `finally` clears both flags. */
  function SettleReply(s: Session, i: nat, o: Outcome): Session
    requires i < |s.replies|
  {
    s.(messages := s.messages + [Message(s.replies[i].base + 2, ReplyText(o), Ai)],
       replies := RemoveAt(s.replies, i),
       isLoading := false,
       isThinking := false)
  }

  /** onValidateGenAI: raise `isLoading`, show the loading notice and start the key probe.
      There is no check for a probe already in flight. */
  function ValidateKey(s: Session, key: string): Session {
    s.(isLoading := true, validations := s.validations + [key], toast := Connecting)
  }

  /** The `i`-th key probe settles. On success handleValidateGenAI stores the client,
      persists the key and hides the dialog; either way `finally` clears `isLoading`. */
  function SettleValidation(s: Session, i: nat, o: Outcome): Session
    requires i < |s.validations|
  {
    var key := s.validations[i];
    var rest := RemoveAt(s.validations, i);
    match o
    case Success(_) =>
      s.(genAI := Some(Client(key)), storedApiKey := Some(key), visibleApiKeyDialog := false,
         isLoading := false, validations := rest, toast := KeyVerified)
    case Failure =>
      s.(isLoading := false, validations := rest, toast := KeyInvalid)
  }

  /** onOpenChange: a request to close the key dialog is ignored while there is no client. */
  function OpenChange(s: Session, open: bool): Session {
    if !open && s.genAI.None? then s else s.(visibleApiKeyDialog := open)
  }

  /** handleApiKeySubmit: validate the key field, untrimmed, unless it is blank. */
  function SubmitApiKey(s: Session): Session {
    if !IsBlank(s.apiKey) then ValidateKey(s, s.apiKey) else s
  }

  /** The startup effect: validate a stored key if there is a non-empty one, otherwise show
      the key dialog. */
  function Startup(s: Session): Session {
    if s.storedApiKey.Some? && s.storedApiKey.value != "" then
      ValidateKey(s, s.storedApiKey.value)
    else
      s.(visibleApiKeyDialog := true)
  }

  /** The model item's onSelect. */
  function SelectModel(s: Session): Session {
    s.(aiModel := Gemini, openModelSelect := false)
  }

  /** The onChange handlers of the two text fields and the popover's onOpenChange. */
  function EditInput(s: Session, text: string): Session {
    s.(input := text)
  }

  function EditApiKey(s: Session, text: string): Session {
    s.(apiKey := text)
  }

  function SetModelSelectOpen(s: Session, open: bool): Session {
    s.(openModelSelect := open)
  }

  // ---------------------------------------------------------------------------------
  // User events: what the rendered controls let through
  // ---------------------------------------------------------------------------------

  datatype Event =
    | InputChanged(text: string)            // the message field, disabled while loading
    | MessageSubmitted                      // the message form
    | ReplySettled(outcome: Outcome)        // the reply request settles
    | ApiKeyChanged(text: string)           // the key field, inside the dialog
    | ApiKeySubmitted                       // the key form, its button disabled while loading
    | ValidationSettled(outcome: Outcome)   // the key probe settles
    | DialogOpenChanged(open: bool)         // the open key dialog asks to close
    | ModelSelectOpenChanged(open: bool)
    | ModelItemSelected                     // the item inside the open popover

  /** One event. A control that is hidden or disabled delivers nothing, and a settle event
      with no call in flight is not an event at all; both leave the state unchanged. The key
      dialog renders no trigger, so its onOpenChange is only ever called, with `false`, while
      it is open (on Escape or a click outside, for instance). */
  function Step(s: Session, e: Event): Session {
    match e
    case InputChanged(text) => if s.isLoading then s else EditInput(s, text)
    case MessageSubmitted => Send(s)
    case ReplySettled(o) => if |s.replies| > 0 then SettleReply(s, 0, o) else s
    case ApiKeyChanged(text) => if s.visibleApiKeyDialog then EditApiKey(s, text) else s
    case ApiKeySubmitted =>
      if s.visibleApiKeyDialog && !s.isLoading then SubmitApiKey(s) else s
    case ValidationSettled(o) => if |s.validations| > 0 then SettleValidation(s, 0, o) else s
    case DialogOpenChanged(open) =>
      if !open && s.visibleApiKeyDialog then OpenChange(s, open) else s
    case ModelSelectOpenChanged(open) => SetModelSelectOpen(s, open)
    case ModelItemSelected => if s.openModelSelect then SelectModel(s) else s
  }

  function Run(s: Session, events: seq<Event>): Session
    decreases |events|
  {
    if events == [] then s else Run(Step(s, events[0]), events[1..])
  }

  /** The state after mounting and then the given events. */
  function Mounted(stored: Option<string>, events: seq<Event>): Session {
    Run(Startup(Initial(stored)), events)
  }

  // ---------------------------------------------------------------------------------
  // The invariant of reachable states
  // ---------------------------------------------------------------------------------

  /** Senders alternate from an AI message at position 0. */
  predicate Alternates(m: seq<Message>) {
    forall i :: 0 <= i < |m| ==> m[i].sender == (if i % 2 == 0 then Ai else User)
  }

  /** The log as the component keeps it: the greeting first, every id equal to the
      message's 1-based position, senders alternating, no blank user message. */
  predicate WellFormedLog(m: seq<Message>) {
    |m| >= 1 && m[0].text == Greeting &&
    (forall i :: 0 <= i < |m| ==> m[i].id == i + 1) &&
    Alternates(m) &&
    (forall i :: 0 <= i < |m| && m[i].sender == User ==> !IsBlank(m[i].text))
  }

  /** At most one call is in flight, `isLoading` says whether one is, `isThinking` whether
      it is a reply request; the log ends with an AI message unless a reply is awaited, in
      which case it ends with that request's prompt; a client exists only for the key that
      is stored. */
  predicate Inv(s: Session) {
    WellFormedLog(s.messages) &&
    |s.replies| + |s.validations| <= 1 &&
    (s.isLoading <==> |s.replies| + |s.validations| == 1) &&
    (s.isThinking <==> |s.replies| == 1) &&
    (|s.replies| == 0 <==> |s.messages| % 2 == 1) &&
    (|s.replies| == 1 ==>
       s.replies[0].base + 1 == |s.messages| &&
       s.messages[s.replies[0].base].text == s.replies[0].prompt) &&
    (s.genAI.Some? ==> s.storedApiKey == Some(s.genAI.value.key))
  }

  /** How many messages of the log a sender wrote. */
  function Count(m: seq<Message>, who: Sender): nat {
    if m == [] then 0
    else Count(m[..|m| - 1], who) + (if m[|m| - 1].sender == who then 1 else 0)
  }

  // ---------------------------------------------------------------------------------
  // Properties of single transitions
  // ---------------------------------------------------------------------------------

  lemma InitialState(stored: Option<string>)
    ensures Inv(Initial(stored))
    ensures |Initial(stored).messages| == 1 && Initial(stored).messages[0].id == 1
    ensures Initial(stored).genAI.None? && !Initial(stored).isLoading
  {
  }

  /** Send changes nothing at all unless the input is non-blank, nothing is loading and a
      client exists. */
  lemma SendGuard(s: Session)
    ensures Send(s) == s <==> !(!IsBlank(s.input) && !s.isLoading && s.genAI.Some?)
  {
  }

  /** An accepted send appends one user message carrying the untrimmed input with id
      `messages.length + 1`, clears the input, raises both flags, starts one reply request,
      and changes nothing else. */
  lemma SendAccepted(s: Session)
    requires CanSend(s)
    ensures var t := Send(s);
      t.messages == s.messages + [Message(|s.messages| + 1, s.input, User)] &&
      t.input == "" && t.isLoading && t.isThinking &&
      t.replies == s.replies + [PendingReply(|s.messages|, s.input)] &&
      t.(messages := s.messages, input := s.input, isLoading := s.isLoading,
         isThinking := s.isThinking, replies := s.replies) == s
  {
  }

  /** A settled reply request appends exactly one AI message, with the response text or the
      fallback and the id its send reserved, and leaves both flags false whatever the outcome. */
  lemma ReplySettles(s: Session, i: nat, o: Outcome)
    requires i < |s.replies|
    ensures var t := SettleReply(s, i, o);
      t.messages == s.messages + [Message(s.replies[i].base + 2,
                                          if o.Success? then o.text else Fallback, Ai)] &&
      !t.isLoading && !t.isThinking && |t.replies| == |s.replies| - 1 &&
      t.validations == s.validations && t.genAI == s.genAI && t.input == s.input &&
      t.visibleApiKeyDialog == s.visibleApiKeyDialog
  {
  }

  /** A key probe in flight blocks sending, since both share `isLoading`. */
  lemma SendBlockedWhileValidating(s: Session)
    requires Inv(s) && |s.validations| > 0
    ensures Send(s) == s
  {
  }

  /** A successful probe stores the client for the probed key, persists that key and closes
      the dialog; a failed one stores nothing, persists nothing and leaves the dialog as it
      was. Either way `isLoading` ends false and the notice reports the outcome. */
  lemma ValidationOutcome(s: Session, i: nat, o: Outcome)
    requires i < |s.validations|
    ensures var t := SettleValidation(s, i, o);
      !t.isLoading && |t.validations| == |s.validations| - 1 &&
      t.messages == s.messages && t.replies == s.replies &&
      (o.Success? ==>
         t.genAI == Some(Client(s.validations[i])) &&
         t.storedApiKey == Some(s.validations[i]) &&
         !t.visibleApiKeyDialog && t.toast == KeyVerified) &&
      (o.Failure? ==>
         t.genAI == s.genAI && t.storedApiKey == s.storedApiKey &&
         t.visibleApiKeyDialog == s.visibleApiKeyDialog && t.toast == KeyInvalid)
  {
  }

  /** Nothing stops a second probe while one is in flight: it is accepted, and when the first
      settles `isLoading` falls although the second is still running. Only the disabled key
      button keeps this from happening. */
  lemma OverlappingProbes(s: Session, first: string, second: string, o: Outcome)
    requires Inv(s) && !s.isLoading
    ensures |ValidateKey(ValidateKey(s, first), second).validations| == 2
    ensures var t := SettleValidation(ValidateKey(ValidateKey(s, first), second), 0, o);
      t.validations == [second] && !t.isLoading && !Inv(t)
  {
  }

  /** Opening the dialog is always honoured; closing it only once a client exists; nothing
      but the dialog's visibility ever changes. */
  lemma DialogCloseNeedsClient(s: Session, open: bool)
    ensures var t := OpenChange(s, open);
      t.(visibleApiKeyDialog := s.visibleApiKeyDialog) == s &&
      (t.visibleApiKeyDialog == if open || s.genAI.Some? then open else s.visibleApiKeyDialog)
  {
  }

  /** Submitting the key form starts a probe of the key field exactly when it is not blank,
      and the probe gets the field untrimmed. */
  lemma SubmitApiKeyRule(s: Session)
    ensures IsBlank(s.apiKey) ==> SubmitApiKey(s) == s
    ensures !IsBlank(s.apiKey) ==>
      SubmitApiKey(s).validations == s.validations + [s.apiKey] && SubmitApiKey(s).isLoading
  {
  }

  /** Startup probes a stored non-empty key and leaves the dialog as it was; without one it
      shows the dialog and starts nothing. */
  lemma StartupRule(s: Session)
    ensures var t := Startup(s);
      if s.storedApiKey.Some? && s.storedApiKey.value != "" then
        t.validations == s.validations + [s.storedApiKey.value] && t.isLoading &&
        t.visibleApiKeyDialog == s.visibleApiKeyDialog
      else
        t.visibleApiKeyDialog && t.validations == s.validations
  {
  }

  /** When the stored key fails its probe the dialog stays closed and there is no client:
      sending does nothing and closing the dialog does nothing. */
  lemma FailedStartupLeavesDialogClosed(key: string)
    requires key != ""
    ensures var t := Mounted(Some(key), [ValidationSettled(Failure)]);
      !t.visibleApiKeyDialog && t.genAI.None? && !t.isLoading &&
      Send(t) == t && OpenChange(t, false) == t
  {
  }

  /** Selecting the model picks the registry's sole entry and closes the popover, touches
      nothing else, and doing it twice is doing it once. */
  lemma SelectModelRule(s: Session)
    ensures var t := SelectModel(s);
      t.aiModel == Gemini && t.aiModel in AIModels && AIModels.Keys == {Gemini} &&
      !t.openModelSelect &&
      t.(aiModel := s.aiModel, openModelSelect := s.openModelSelect) == s &&
      SelectModel(t) == t
  {
  }

  // ---------------------------------------------------------------------------------
  // The invariant is kept
  // ---------------------------------------------------------------------------------

  lemma SendKeepsInv(s: Session)
    requires Inv(s)
    ensures Inv(Send(s))
  {
  }

  lemma SettleReplyKeepsInv(s: Session, i: nat, o: Outcome)
    requires Inv(s) && i < |s.replies|
    ensures Inv(SettleReply(s, i, o))
  {
  }

  lemma ValidateKeyKeepsInv(s: Session, key: string)
    requires Inv(s) && !s.isLoading
    ensures Inv(ValidateKey(s, key))
  {
  }

  lemma SettleValidationKeepsInv(s: Session, i: nat, o: Outcome)
    requires Inv(s) && i < |s.validations|
    ensures Inv(SettleValidation(s, i, o))
  {
  }

  lemma StartupKeepsInv(s: Session)
    requires Inv(s) && !s.isLoading
    ensures Inv(Startup(s))
  {
  }

  /** Every user event keeps the invariant and only ever appends to the log. */
  lemma StepKeepsInv(s: Session, e: Event)
    requires Inv(s)
    ensures Inv(Step(s, e))
    ensures s.messages <= Step(s, e).messages
  {
    match e
    case MessageSubmitted => SendKeepsInv(s);
    case ReplySettled(o) => if |s.replies| > 0 { SettleReplyKeepsInv(s, 0, o); }
    case ApiKeySubmitted =>
      if s.visibleApiKeyDialog && !s.isLoading && !IsBlank(s.apiKey) {
        ValidateKeyKeepsInv(s, s.apiKey);
      }
    case ValidationSettled(o) => if |s.validations| > 0 { SettleValidationKeepsInv(s, 0, o); }
    case _ =>
  }

  lemma {:induction false} RunKeepsInv(s: Session, events: seq<Event>)
    requires Inv(s)
    ensures Inv(Run(s, events))
    ensures s.messages <= Run(s, events).messages
    decreases |events|
  {
    if events != [] {
      StepKeepsInv(s, events[0]);
      RunKeepsInv(Step(s, events[0]), events[1..]);
    }
  }

  /** Every state reachable from mounting keeps the invariant, and its log starts with the
      seeded greeting of id 1. */
  lemma ReachableInv(stored: Option<string>, events: seq<Event>)
    ensures Inv(Mounted(stored, events))
    ensures Mounted(stored, events).messages[0] == Message(1, Greeting, Ai)
  {
    InitialState(stored);
    StartupKeepsInv(Initial(stored));
    RunKeepsInv(Startup(Initial(stored)), events);
  }

  // ---------------------------------------------------------------------------------
  // One reply per request
  // ---------------------------------------------------------------------------------

  lemma {:induction false} AlternatingCount(m: seq<Message>)
    requires Alternates(m)
    ensures Count(m, Ai) == (|m| + 1) / 2 && Count(m, User) == |m| / 2
    decreases |m|
  {
    if m != [] {
      var p := m[..|m| - 1];
      assert Alternates(p) by {
        forall i | 0 <= i < |p| ensures p[i].sender == (if i % 2 == 0 then Ai else User) {
          assert p[i] == m[i];
        }
      }
      AlternatingCount(p);
    }
  }

  /** In every reachable state the log holds one more AI message than user messages when no
      reply is awaited, and as many when one is: each send gets exactly one answer. */
  lemma OneReplyPerRequest(stored: Option<string>, events: seq<Event>)
    ensures var s := Mounted(stored, events);
      (|s.replies| == 0 ==> Count(s.messages, Ai) == Count(s.messages, User) + 1) &&
      (|s.replies| == 1 ==> Count(s.messages, Ai) == Count(s.messages, User))
  {
    ReachableInv(stored, events);
    AlternatingCount(Mounted(stored, events).messages);
  }

  /** A full send/settle cycle from a valid state appends the user message and its answer at
      the next two positions and ends with both flags down. */
  lemma SendCycle(s: Session, o: Outcome)
    requires Inv(s) && CanSend(s)
    ensures |Send(s).replies| == 1
    ensures var t := SettleReply(Send(s), 0, o);
      t.messages == s.messages + [Message(|s.messages| + 1, s.input, User),
                                  Message(|s.messages| + 2, ReplyText(o), Ai)] &&
      !t.isLoading && !t.isThinking && t.input == "" && Inv(t)
  {
  }

  // ---------------------------------------------------------------------------------
  // Scenarios
  // ---------------------------------------------------------------------------------

  lemma {:induction false} RunConcat(s: Session, a: seq<Event>, b: seq<Event>)
    ensures Run(s, a + b) == Run(Run(s, a), b)
    decreases |a|
  {
    if a == [] {
      assert a + b == b;
    } else {
      assert (a + b)[0] == a[0] && (a + b)[1..] == a[1..] + b;
      RunConcat(Step(s, a[0]), a[1..], b);
    }
  }

  /** No stored key: the dialog opens, a key is typed, submitted and accepted; the client
      exists, the key is stored, the dialog is closed and the log is still the greeting. */
  lemma KeyAcceptedScenario()
    ensures var s := Mounted(None, [ApiKeyChanged("k"), ApiKeySubmitted,
                                    ValidationSettled(Success("ok"))]);
      s.genAI == Some(Client("k")) && s.storedApiKey == Some("k") && !s.isLoading &&
      !s.visibleApiKeyDialog && s.messages == [Message(1, Greeting, Ai)] &&
      s.replies == [] && s.validations == []
  {
  }

  /** With a client and nothing in flight, typing "Hello" and sending it appends the user's
      message and exactly one answer: the response text, or the fallback on failure. */
  lemma HelloChat(s: Session, o: Outcome)
    requires s.genAI.Some? && !s.isLoading && s.messages == [Message(1, Greeting, Ai)]
    requires s.replies == []
    ensures var t := Run(s, [InputChanged("Hello"), MessageSubmitted, ReplySettled(o)]);
      t.messages == [Message(1, Greeting, Ai), Message(2, "Hello", User),
                     Message(3, if o.Success? then o.text else Fallback, Ai)] &&
      !t.isLoading && !t.isThinking && t.input == "" && t.storedApiKey == s.storedApiKey
  {
    VisibleStartNotBlank("Hello");
    var s4 := Step(s, InputChanged("Hello"));
    var s5 := Step(s4, MessageSubmitted);
    var s6 := Step(s5, ReplySettled(o));
    var e6 := [ReplySettled(o)];
    var e5 := [MessageSubmitted] + e6;
    var e4 := [InputChanged("Hello")] + e5;
    assert e6[1..] == [] && e5[1..] == e6 && e4[1..] == e5;
    assert Run(s5, e6) == s6;
    assert Run(s4, e5) == s6;
  }

  /** The scenario end to end: no stored key, a key accepted, "Hello" sent and answered. */
  lemma HelloScenario(o: Outcome)
    ensures var s := Mounted(None, [ApiKeyChanged("k"), ApiKeySubmitted,
                                    ValidationSettled(Success("ok")), InputChanged("Hello"),
                                    MessageSubmitted, ReplySettled(o)]);
      s.messages == [Message(1, Greeting, Ai), Message(2, "Hello", User),
                     Message(3, if o.Success? then o.text else Fallback, Ai)] &&
      !s.isLoading && !s.isThinking && s.storedApiKey == Some("k")
  {
    var key := [ApiKeyChanged("k"), ApiKeySubmitted, ValidationSettled(Success("ok"))];
    var chat := [InputChanged("Hello"), MessageSubmitted, ReplySettled(o)];
    KeyAcceptedScenario();
    HelloChat(Mounted(None, key), o);
    RunConcat(Startup(Initial(None)), key, chat);
    assert key + chat == [ApiKeyChanged("k"), ApiKeySubmitted,
                          ValidationSettled(Success("ok")), InputChanged("Hello"),
                          MessageSubmitted, ReplySettled(o)];
    assert Mounted(None, key + chat) == Run(Mounted(None, key), chat);
  }

  /** A key the service rejects leaves the dialog open, nothing loading and nothing stored. */
  lemma BadKeyScenario()
    ensures var s := Mounted(None, [ApiKeyChanged("bad-key"), ApiKeySubmitted,
                                    ValidationSettled(Failure)]);
      s.visibleApiKeyDialog && !s.isLoading && s.storedApiKey == None && s.genAI == None &&
      s.toast == KeyInvalid
  {
  }

  // ---------------------------------------------------------------------------------
  // A stored key that fails its startup probe
  // ---------------------------------------------------------------------------------

  /** The dead end a failed startup probe leaves behind: the dialog is hidden, there is no
      client, nothing is in flight and the log is the greeting alone. */
  predicate LockedOut(s: Session) {
    !s.visibleApiKeyDialog && s.genAI.None? && s.replies == [] && s.validations == [] &&
    s.messages == [Message(1, Greeting, Ai)]
  }

  /** No user event leaves the dead end: the key field and the key form sit in the hidden
      dialog, which has no trigger, and sending needs a client. */
  lemma StepKeepsLockedOut(s: Session, e: Event)
    requires LockedOut(s)
    ensures LockedOut(Step(s, e))
  {
  }

  lemma {:induction false} RunKeepsLockedOut(s: Session, events: seq<Event>)
    requires LockedOut(s)
    ensures LockedOut(Run(s, events))
    decreases |events|
  {
    if events != [] {
      StepKeepsLockedOut(s, events[0]);
      RunKeepsLockedOut(Step(s, events[0]), events[1..]);
    }
  }

  /** As written: once the stored key fails its startup probe, no sequence of user events
      ever produces a client or a single message beyond the greeting, and the key dialog
      never shows. Only a reload with a different stored key gets out. */
  lemma StartupFailureLockout(key: string, events: seq<Event>)
    requires key != ""
    ensures var t := Mounted(Some(key), [ValidationSettled(Failure)] + events);
      t.genAI.None? && t.messages == [Message(1, Greeting, Ai)] && !t.visibleApiKeyDialog
  {
    var start := Startup(Initial(Some(key)));
    RunConcat(start, [ValidationSettled(Failure)], events);
    RunKeepsLockedOut(Mounted(Some(key), [ValidationSettled(Failure)]), events);
  }

  /** The settling of a key probe as the component evidently intends it: a failed probe that
      leaves no client shows the key dialog, so that another key can be entered. A success
      is settled as before. */
  function SettleValidationShowingDialog(s: Session, i: nat, o: Outcome): Session
    requires i < |s.validations|
  {
    var t := SettleValidation(s, i, o);
    if o.Failure? && t.genAI.None? then t.(visibleApiKeyDialog := true) else t
  }

  /** The corrected settling keeps the invariant of reachable states. */
  lemma SettleValidationShowingDialogKeepsInv(s: Session, i: nat, o: Outcome)
    requires Inv(s) && i < |s.validations|
    ensures Inv(SettleValidationShowingDialog(s, i, o))
  {
  }

  /** User events with the corrected settling of key probes. */
  function StepCorrected(s: Session, e: Event): Session {
    match e
    case ValidationSettled(o) =>
      if |s.validations| > 0 then SettleValidationShowingDialog(s, 0, o) else s
    case _ => Step(s, e)
  }

  function RunCorrected(s: Session, events: seq<Event>): Session
    decreases |events|
  {
    if events == [] then s else RunCorrected(StepCorrected(s, events[0]), events[1..])
  }

  function MountedCorrected(stored: Option<string>, events: seq<Event>): Session {
    RunCorrected(Startup(Initial(stored)), events)
  }

  /** Whenever there is no client and no probe is in flight, the key dialog is showing. */
  predicate KeyEnterable(s: Session) {
    s.genAI.None? && s.validations == [] ==> s.visibleApiKeyDialog
  }

  lemma StepCorrectedKeepsKeyEnterable(s: Session, e: Event)
    requires KeyEnterable(s)
    ensures KeyEnterable(StepCorrected(s, e))
  {
  }

  lemma {:induction false} RunCorrectedKeepsKeyEnterable(s: Session, events: seq<Event>)
    requires KeyEnterable(s)
    ensures KeyEnterable(RunCorrected(s, events))
    decreases |events|
  {
    if events != [] {
      StepCorrectedKeepsKeyEnterable(s, events[0]);
      RunCorrectedKeepsKeyEnterable(StepCorrected(s, events[0]), events[1..]);
    }
  }

  /** Corrected: in every state reachable from mounting, a missing client with nothing in
      flight means the key dialog is showing. */
  lemma CorrectedKeyAlwaysEnterable(stored: Option<string>, events: seq<Event>)
    ensures KeyEnterable(MountedCorrected(stored, events))
  {
    RunCorrectedKeepsKeyEnterable(Startup(Initial(stored)), events);
  }

  /** Corrected: after the stored key fails its startup probe the dialog shows, and a new
      non-blank key typed, submitted and accepted yields a client for it. */
  lemma CorrectedStartupFailureRecovers(key: string, newKey: string, response: string)
    requires key != "" && !IsBlank(newKey)
    ensures var t := MountedCorrected(Some(key), [ValidationSettled(Failure)]);
      t.visibleApiKeyDialog && t.genAI.None? && !t.isLoading
    ensures var t := MountedCorrected(Some(key), [ValidationSettled(Failure),
                                                  ApiKeyChanged(newKey), ApiKeySubmitted,
                                                  ValidationSettled(Success(response))]);
      t.genAI == Some(Client(newKey)) && t.storedApiKey == Some(newKey) &&
      !t.visibleApiKeyDialog && !t.isLoading
  {
    var s0 := Startup(Initial(Some(key)));
    var s1 := StepCorrected(s0, ValidationSettled(Failure));
    var s2 := StepCorrected(s1, ApiKeyChanged(newKey));
    var s3 := StepCorrected(s2, ApiKeySubmitted);
    var s4 := StepCorrected(s3, ValidationSettled(Success(response)));
    assert s3.validations == [newKey];
    var e4 := [ValidationSettled(Success(response))];
    var e3 := [ApiKeySubmitted] + e4;
    var e2 := [ApiKeyChanged(newKey)] + e3;
    var e1 := [ValidationSettled(Failure)] + e2;
    assert e4[1..] == [] && e3[1..] == e4 && e2[1..] == e3 && e1[1..] == e2;
    assert RunCorrected(s3, e4) == s4;
    assert RunCorrected(s2, e3) == s4;
    assert RunCorrected(s1, e2) == s4;
    assert e1 == [ValidationSettled(Failure), ApiKeyChanged(newKey), ApiKeySubmitted,
                  ValidationSettled(Success(response))];
  }
}
