// The assistant chat page (pages/ChatPage.tsx): an append-only message log
// seeded with a greeting, the input field, the loading and error flags, and
// the chat session that initialisation may or may not create.
module ChatPage {
  import opened Types
  import opened Text

  const Greeting := "Hello! I am a cybersecurity assistant powered by Gemini. How can I help you today?"
  const Apology := "Sorry, I encountered an error. Please try again."
  const Thinking := "Thinking..."
  const InitError := "Failed to initialize the AI chat session."
  const ReplyError := "Failed to get a response from the AI."
  const ModelName := "gemini-2.5-flash"
  const SystemInstruction := "You are a friendly and helpful cybersecurity expert assistant. Provide clear, concise, and accurate information. If you provide code, use markdown. Do not refuse to answer questions, but provide safety warnings if the topic is dangerous."

  /** The chat session object: the model and system instruction it was created with. */
  datatype Session = Session(model: string, systemInstruction: string)

  /** The session initialisation creates: the fixed model with the fixed system instruction. */
  const AssistantSession := Session(ModelName, SystemInstruction)

  /** How the remote call for one turn ended: with the reply text, or by throwing. */
  datatype Reply = Replied(text: string) | Failed

  /** The text of the model message a turn ends with. */
  function ReplyText(reply: Reply): (text: string)
    ensures reply.Replied? ==> text == reply.text
    ensures reply.Failed? ==> text == Apology
  {
    match reply
    case Replied(t) => t
    case Failed => Apology
  }

  /** The log alternates roles: the model at even positions (the greeting first), the user at odd ones. */
  ghost predicate Alternates(ms: seq<ChatMessage>)
  {
    forall i :: 0 <= i < |ms| ==> ms[i].role == (if i % 2 == 0 then Model else User)
  }

  /** The guard of sendMessage: a non-blank input, no turn in flight, and a session. */
  predicate CanSend(input: string, loading: bool, session: Option<Session>)
    ensures CanSend(input, loading, session) <==> !AllWhitespace(input) && !loading && session.Some?
  {
    TrimEmptyIff(input);
    Trim(input) != [] && !loading && session.Some?
  }

  class Chat {
    var messages: seq<ChatMessage>
    var input: string
    var loading: bool
    var error: Option<string>
    var session: Option<Session>

    /**
     * The log starts with the greeting and alternates model and user; a user
     * message is waiting for its answer exactly while a turn is loading, and
     * no error is shown while it is.
     */
    ghost predicate Valid()
      reads this
    {
      && |messages| >= 1 && messages[0] == ChatMessage(Model, Greeting)
      && Alternates(messages)
      && (loading <==> |messages| % 2 == 0)
      && (loading ==> error.None?)
    }

    /** The initial state, before initialisation runs. */
    constructor ()
      ensures Valid()
      ensures messages == [ChatMessage(Model, Greeting)]
      ensures input == [] && !loading && error.None? && session.None?
    {
      messages := [ChatMessage(Model, Greeting)];
      input := [];
      loading := false;
      error := None;
      session := None;
    }

    /**
     * initializeChat. Without a key, or when the client throws while creating
     * the session (`created` false), the init error is shown and the session
     * stays as it was; otherwise a session is created.
     */
    method InitializeChat(apiKey: Option<string>, created: bool)
      requires Valid() && !loading
      modifies this
      ensures Valid()
      ensures KeyPresent(apiKey) && created ==>
                session == Some(AssistantSession) && error == old(error)
      ensures !(KeyPresent(apiKey) && created) ==>
                session == old(session) && error == Some(InitError)
      ensures messages == old(messages) && input == old(input) && loading == old(loading)
    {
      if !KeyPresent(apiKey) || !created {
        error := Some(InitError);
      } else {
        session := Some(AssistantSession);
      }
    }

    /** The input's onChange. */
    method SetInput(value: string)
      requires Valid()
      modifies this
      ensures Valid()
      ensures input == value
      ensures messages == old(messages) && loading == old(loading)
      ensures error == old(error) && session == old(session)
    {
      input := value;
    }

    /** The send button is disabled while a turn is in flight or the input is blank. */
    function SendDisabled(): (disabled: bool)
      reads this
      ensures disabled <==> loading || AllWhitespace(input)
    {
      TrimEmptyIff(input);
      loading || Trim(input) == []
    }

    /** The log as shown: the messages, plus a "Thinking..." bubble from the model while loading. */
    function Displayed(): (shown: seq<ChatMessage>)
      requires Valid()
      reads this
      ensures loading ==> shown == messages + [ChatMessage(Model, Thinking)]
      ensures !loading ==> shown == messages
      ensures |shown| % 2 == 1
      ensures Alternates(shown)
    {
      if loading then messages + [ChatMessage(Model, Thinking)] else messages
    }

    /**
     * The synchronous part of sendMessage, up to the await. If the guard
     * fails nothing changes. Otherwise: loading on, error cleared, the
     * untrimmed input appended as a user message and the input cleared;
     * `sent` is the text handed to the session.
     */
    method BeginSend() returns (accepted: bool, sent: string)
      requires Valid()
      modifies this
      ensures Valid()
      ensures accepted == CanSend(old(input), old(loading), old(session))
      ensures !accepted ==>
                messages == old(messages) && input == old(input) && loading == old(loading)
                && error == old(error)
      ensures accepted ==>
                messages == old(messages) + [ChatMessage(User, old(input))]
                && input == [] && loading && error.None? && sent == old(input)
      ensures session == old(session)
    {
      accepted := CanSend(input, loading, session);
      sent := input;
      if !accepted {
        return;
      }
      loading := true;
      error := None;
      messages := messages + [ChatMessage(User, input)];
      input := [];
    }

    /**
     * The part of sendMessage after the await: the reply (or the apology)
     * is appended as a model message, the error is set only on failure, and
     * loading is switched off in every case.
     */
    method FinishSend(reply: Reply)
      requires Valid() && loading
      modifies this
      ensures Valid()
      ensures messages == old(messages) + [ChatMessage(Model, ReplyText(reply))]
      ensures !loading
      ensures error == (if reply.Failed? then Some(ReplyError) else None)
      ensures input == old(input) && session == old(session)
    {
      messages := messages + [ChatMessage(Model, ReplyText(reply))];
      if reply.Failed? {
        error := Some(ReplyError);
      }
      loading := false;
    }

    /** sendMessage run to completion, with `reply` as the outcome of the remote call. */
    method SendMessage(reply: Reply)
      requires Valid()
      modifies this
      ensures Valid()
      ensures !CanSend(old(input), old(loading), old(session)) ==>
                messages == old(messages) && input == old(input) && loading == old(loading)
                && error == old(error)
      ensures CanSend(old(input), old(loading), old(session)) ==>
                messages == old(messages) + [ChatMessage(User, old(input)), ChatMessage(Model, ReplyText(reply))]
                && input == [] && !loading
                && error == (if reply.Failed? then Some(ReplyError) else None)
      ensures session == old(session)
    {
      var accepted, sent := BeginSend();
      if accepted {
        FinishSend(reply);
      }
    }
  }

  /**
   * Without an API key the session is never created, so a later send,
   * whatever the user typed and however the call would have ended, leaves
   * the log at the greeting and the init error on screen.
   */
  method SendWithoutKey(typed: string, reply: Reply) returns (log: seq<ChatMessage>, shownError: Option<string>)
    ensures log == [ChatMessage(Model, Greeting)]
    ensures shownError == Some(InitError)
  {
    var chat := new Chat();
    chat.InitializeChat(None, true);
    chat.SetInput(typed);
    chat.SendMessage(reply);
    log := chat.messages;
    shownError := chat.error;
  }

  /** The user types a non-blank text and sends it while a session exists and no turn is in flight. */
  method TypeAndSend(chat: Chat, text: string, reply: Reply)
    requires chat.Valid() && chat.session.Some? && !chat.loading && Trim(text) != []
    modifies chat
    ensures chat.Valid()
    ensures chat.messages == old(chat.messages) + [ChatMessage(User, text), ChatMessage(Model, ReplyText(reply))]
    ensures chat.input == [] && !chat.loading && chat.session == old(chat.session)
    ensures chat.error == (if reply.Failed? then Some(ReplyError) else None)
  {
    chat.SetInput(text);
    chat.SendMessage(reply);
  }

  /**
   * With a key, the first turn: whatever non-blank text was typed is sent
   * untrimmed and answered, so the log becomes the greeting, the typed text
   * and the reply (or the apology), in that order.
   */
  method OneTurn(typed: string, reply: Reply) returns (log: seq<ChatMessage>, loadingAfter: bool, shownError: Option<string>)
    requires !AllWhitespace(typed)
    ensures log == [ChatMessage(Model, Greeting), ChatMessage(User, typed), ChatMessage(Model, ReplyText(reply))]
    ensures !loadingAfter
    ensures shownError.Some? <==> reply.Failed?
  {
    var chat := new Chat();
    chat.InitializeChat(Some("key"), true);
    TrimEmptyIff(typed);
    TypeAndSend(chat, typed, reply);
    log := chat.messages;
    loadingAfter := chat.loading;
    shownError := chat.error;
  }
}
