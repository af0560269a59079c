/** The FullScreenAIChatBox component as an object: one field per piece of state, and one
    method per handler, each updating the fields step by step the way the handler calls its
    state setters. Each method is proved to move the state exactly as its transition in
    ChatModel does, and to keep ChatModel.Inv whenever it starts from a state that holds it
    (the two probe starters: when moreover nothing is loading, which is what the disabled
    key button and the one-off startup effect ensure). */
module ChatBox {
  import opened JsString
  import opened ChatModel

  class FullScreenAIChatBox {
    var messages: seq<Message>
    var input: string
    var aiModel: AIModel
    var isThinking: bool
    var genAI: Option<Client>
    var apiKey: string
    var isLoading: bool
    var openModelSelect: bool
    var visibleApiKeyDialog: bool
    /** The browser's `localStorage` entry `'geminiApiKey'`. */
    var storedApiKey: Option<string>
    /** The reply requests and key probes begun and not yet settled. */
    var replies: seq<PendingReply>
    var validations: seq<string>
    var toast: Toast

    /** The component's state as a value. */
    function State(): Session
      reads this
    {
      Session(messages, input, aiModel, isThinking, genAI, apiKey, isLoading, openModelSelect,
              visibleApiKeyDialog, storedApiKey, replies, validations, toast)
    }

    /** First render: the greeting, empty fields, no client, nothing loading. */
    constructor (stored: Option<string>)
      ensures State() == Initial(stored)
      ensures Inv(State())
    {
      messages := [Message(1, Greeting, Ai)];
      input := "";
      aiModel := Gemini;
      isThinking := false;
      genAI := None;
      apiKey := "";
      isLoading := false;
      openModelSelect := false;
      visibleApiKeyDialog := false;
      storedApiKey := stored;
      replies := [];
      validations := [];
      toast := NoToast;
      InitialState(stored);
    }

    /** handleSend, up to its `await`. */
    method HandleSend()
      modifies this
      ensures State() == Send(old(State()))
      ensures old(Inv(State())) ==> Inv(State())
    {
      ghost var before := State();
      if !IsBlank(input) && !isLoading && genAI.Some? {
        var newMessage := Message(|messages| + 1, input, User);
        replies := replies + [PendingReply(|messages|, input)];
        messages := messages + [newMessage];
        input := "";
        isLoading := true;
        isThinking := true;
      }
      assert State() == Send(before);
      if Inv(before) { SendKeepsInv(before); }
    }

    /** handleSend after its `await`: the `i`-th reply request settles with `outcome`. */
    method SettleSend(i: nat, outcome: Outcome)
      requires i < |replies|
      modifies this
      ensures State() == SettleReply(old(State()), i, outcome)
      ensures old(Inv(State())) ==> Inv(State())
    {
      ghost var before := State();
      var pending := replies[i];
      var text := match outcome
        case Success(t) => t
        case Failure => Fallback;
      messages := messages + [Message(pending.base + 2, text, Ai)];
      replies := replies[..i] + replies[i + 1..];
      isLoading := false;
      isThinking := false;
      assert State() == SettleReply(before, i, outcome);
      if Inv(before) { SettleReplyKeepsInv(before, i, outcome); }
    }

    /** onValidateGenAI: raise `isLoading` and start probing `key`. */
    method OnValidateGenAI(key: string)
      modifies this
      ensures State() == ValidateKey(old(State()), key)
      ensures old(Inv(State())) && !old(isLoading) ==> Inv(State())
    {
      ghost var before := State();
      isLoading := true;
      validations := validations + [key];
      toast := Connecting;
      if Inv(before) && !before.isLoading { ValidateKeyKeepsInv(before, key); }
    }

    /** The `i`-th key probe settles: handleValidateGenAI's body on success, then `finally`. */
    method SettleValidateGenAI(i: nat, outcome: Outcome)
      requires i < |validations|
      modifies this
      ensures State() == SettleValidation(old(State()), i, outcome)
      ensures old(Inv(State())) ==> Inv(State())
    {
      ghost var before := State();
      var key := validations[i];
      validations := validations[..i] + validations[i + 1..];
      if outcome.Success? {
        genAI := Some(Client(key));
        storedApiKey := Some(key);
        visibleApiKeyDialog := false;
        toast := KeyVerified;
      } else {
        toast := KeyInvalid;
      }
      isLoading := false;
      assert State() == SettleValidation(before, i, outcome);
      if Inv(before) { SettleValidationKeepsInv(before, i, outcome); }
    }

    /** onOpenChange of the key dialog. */
    method OnOpenChange(open: bool)
      modifies this
      ensures State() == OpenChange(old(State()), open)
      ensures old(Inv(State())) ==> Inv(State())
    {
      if !open && genAI.None? {
        return;
      }
      visibleApiKeyDialog := open;
    }

    /** handleApiKeySubmit. */
    method HandleApiKeySubmit()
      modifies this
      ensures State() == SubmitApiKey(old(State()))
      ensures old(Inv(State())) && !old(isLoading) ==> Inv(State())
    {
      if !IsBlank(apiKey) {
        OnValidateGenAI(apiKey);
      }
    }

    /** The startup effect, run once after the first render. */
    method StartupEffect()
      modifies this
      ensures State() == Startup(old(State()))
      ensures old(Inv(State())) && !old(isLoading) ==> Inv(State())
    {
      if storedApiKey.Some? && storedApiKey.value != "" {
        OnValidateGenAI(storedApiKey.value);
      } else {
        visibleApiKeyDialog := true;
      }
    }

    /** The model item's onSelect. */
    method OnSelectModel()
      modifies this
      ensures State() == SelectModel(old(State()))
      ensures old(Inv(State())) ==> Inv(State())
    {
      aiModel := Gemini;
      openModelSelect := false;
    }

    /** The message field's onChange. */
    method OnInputChange(text: string)
      modifies this
      ensures State() == EditInput(old(State()), text)
      ensures old(Inv(State())) ==> Inv(State())
    {
      input := text;
    }

    /** The key field's onChange. */
    method OnApiKeyChange(text: string)
      modifies this
      ensures State() == EditApiKey(old(State()), text)
      ensures old(Inv(State())) ==> Inv(State())
    {
      apiKey := text;
    }

    /** The model popover's onOpenChange. */
    method OnModelSelectOpenChange(open: bool)
      modifies this
      ensures State() == SetModelSelectOpen(old(State()), open)
      ensures old(Inv(State())) ==> Inv(State())
    {
      openModelSelect := open;
    }
  }
}
