/** The chat hook (`useChat`): a message list, a loading flag and an error,
    changed by `sendMessage` and `clearChat`.

    The pure part states each step as a function from the old `ChatState` to
    the new one; the class `Hook` holds the three fields and its methods
    change them step by step, each proved against those functions. */
module ChatHook {
  import opened Wrappers
  import opened Text
  import opened Llm

  datatype Role = User | Assistant

  /** A chat message. `id` and `timestamp` are the clock readings
      (`Date.now()`) they are made from; they are opaque to the model. */
  datatype Message = Message(id: int, role: Role, content: string, timestamp: int)

  /** One `{role, content}` entry of the conversation sent to the model. */
  datatype Turn = Turn(role: Role, content: string)

  /** The hook's state: `messages`, `isLoading`, `error` (null is `None`). */
  datatype ChatState = ChatState(messages: seq<Message>, isLoading: bool, error: Option<string>)

  /** What one `sendMessage` call reads from outside the hook: the API key from
      the build environment, the model (an oracle from the conversation sent
      to the reply), and the clock before and after the call. */
  datatype Env = Env(apiKey: Option<string>, model: seq<Turn> -> Reply, sentAt: int, repliedAt: int)

  const Initial := ChatState([], false, None)

  /** JavaScript truthiness of an optional string: present and non-empty. */
  predicate Truthy(s: Option<string>) {
    s.Some? && s.value != ""
  }

  /** The no-op guard: blank input and no (or an empty) selected question. */
  predicate Ignored(content: string, selected: Option<string>) {
    Blank(content) && !Truthy(selected)
  }

  /** `selectedQuestion || content`: the text of the new user turn. */
  function UserText(content: string, selected: Option<string>): string {
    if Truthy(selected) then selected.value else content
  }

  /** The `{role, content}` projection of a message list, in order. */
  function Turns(messages: seq<Message>): (ts: seq<Turn>)
    ensures |ts| == |messages|
    ensures forall i :: 0 <= i < |ts| ==> ts[i].role == messages[i].role && ts[i].content == messages[i].content
  {
    seq(|messages|, i requires 0 <= i < |messages| => Turn(messages[i].role, messages[i].content))
  }

  /** The conversation sent to the model: the turns of the messages the
      caller's render saw, then the new user turn. */
  function Request(snapshot: seq<Message>, text: string): (r: seq<Turn>)
    ensures |r| == |snapshot| + 1 && r[|snapshot|] == Turn(User, text)
    ensures forall i :: 0 <= i < |snapshot| ==> r[i].role == snapshot[i].role && r[i].content == snapshot[i].content
  {
    Turns(snapshot) + [Turn(User, text)]
  }

  /** The `try` block: a missing key fails before any call; otherwise the
      model's reply yields its text, or the call fails with its message. */
  function CallModel(env: Env, request: seq<Turn>): (r: Result<string, string>)
    ensures KeyMissing(env.apiKey) ==> r == Failure(MissingKeyError)
    ensures r.Success? <==> !KeyMissing(env.apiKey) && env.model(request).Replied?
    ensures r.Success? ==> r.value == TextOf(env.model(request).content)
    ensures !KeyMissing(env.apiKey) && env.model(request).Threw? ==> r == Failure(ErrorText(env.model(request).thrown))
  {
    if KeyMissing(env.apiKey) then Failure(MissingKeyError)
    else match env.model(request)
      case Replied(blocks) => Success(TextOf(blocks))
      case Threw(t) => Failure(ErrorText(t))
  }

  /** Before the call: the user turn appended after the messages already
      there, loading on, error cleared. */
  function Begin(s: ChatState, content: string, selected: Option<string>, now: int): (r: ChatState)
    ensures r.isLoading && r.error.None?
    ensures |r.messages| == |s.messages| + 1 && r.messages[..|s.messages|] == s.messages
    ensures r.messages[|s.messages|].role == User && r.messages[|s.messages|].content == UserText(content, selected)
  {
    ChatState(s.messages + [Message(now, User, UserText(content, selected), now)], true, None)
  }

  /** After the call settles: on success one assistant turn appended and no
      error; on failure the error recorded; loading off either way. */
  function Settle(s: ChatState, outcome: Result<string, string>, now: int): (r: ChatState)
    ensures !r.isLoading
    ensures outcome.Success? ==>
      && |r.messages| == |s.messages| + 1 && r.messages[..|s.messages|] == s.messages
      && r.messages[|s.messages|].role == Assistant && r.messages[|s.messages|].content == outcome.value
      && r.error == s.error
    ensures outcome.Failure? ==> r.messages == s.messages && r.error == Some(outcome.error)
  {
    match outcome
    case Success(text) => ChatState(s.messages + [Message(now + 1, Assistant, text, now)], false, s.error)
    case Failure(e) => ChatState(s.messages, false, Some(e))
  }

  /** `sendMessage(content, selectedQuestion)` as one step from the state
      before the call to the state once it has settled. */
  function Send(s: ChatState, snapshot: seq<Message>, content: string, selected: Option<string>, env: Env): (r: ChatState)
    ensures Ignored(content, selected) ==> r == s
    ensures !Ignored(content, selected) ==>
      && !r.isLoading
      && |s.messages| < |r.messages| <= |s.messages| + 2
      && r.messages[..|s.messages|] == s.messages
      && r.messages[|s.messages|].role == User
      && r.messages[|s.messages|].content == UserText(content, selected)
      && (|r.messages| == |s.messages| + 2 <==> r.error.None?)
      && (|r.messages| == |s.messages| + 2 ==> r.messages[|s.messages| + 1].role == Assistant)
  {
    if Ignored(content, selected) then s
    else
      var text := UserText(content, selected);
      Settle(Begin(s, content, selected, env.sentAt), CallModel(env, Request(snapshot, text)), env.repliedAt)
  }

  /** `clearChat()`: no messages and no error; the loading flag is left alone. */
  function Clear(s: ChatState): (r: ChatState)
    ensures r.messages == [] && r.error.None? && r.isLoading == s.isLoading
  {
    ChatState([], s.isLoading, None)
  }

  /** The user turn's text is the selected question when it is non-empty, and
      otherwise the content exactly as typed, untrimmed. */
  lemma UserTextChoice(content: string, selected: Option<string>)
    ensures selected.Some? && selected.value != "" ==> UserText(content, selected) == selected.value
    ensures selected.None? || selected.value == "" ==> UserText(content, selected) == content
  {
  }

  /** When the caller's snapshot is the current message list, the conversation
      sent to the model is exactly the visible conversation once the user turn
      has been appended: one entry longer than before. */
  lemma RequestMirrorsVisible(s: ChatState, content: string, selected: Option<string>, now: int)
    ensures var r := Begin(s, content, selected, now);
      Request(s.messages, UserText(content, selected)) == Turns(r.messages)
      && |Request(s.messages, UserText(content, selected))| == |s.messages| + 1
  {
    var r := Begin(s, content, selected, now);
    assert Turns(r.messages) == Turns(s.messages) + [Turn(User, UserText(content, selected))];
  }

  /** On success exactly one assistant message follows the user message,
      holding the text blocks of the reply in order, and no error is shown. */
  lemma SendSuccess(s: ChatState, snapshot: seq<Message>, content: string, selected: Option<string>, env: Env)
    requires !Ignored(content, selected) && !KeyMissing(env.apiKey)
    requires env.model(Request(snapshot, UserText(content, selected))).Replied?
    ensures var r := Send(s, snapshot, content, selected, env);
      && |r.messages| == |s.messages| + 2 && r.error.None?
      && r.messages[|s.messages| + 1].content == TextOf(env.model(Request(snapshot, UserText(content, selected))).content)
  {
  }

  /** A missing or placeholder key fails with the configuration message; the
      user turn stays and no assistant turn is added. */
  lemma SendMissingKey(s: ChatState, snapshot: seq<Message>, content: string, selected: Option<string>, env: Env)
    requires !Ignored(content, selected) && KeyMissing(env.apiKey)
    ensures var r := Send(s, snapshot, content, selected, env);
      && |r.messages| == |s.messages| + 1 && r.error == Some(MissingKeyError) && !r.isLoading
  {
  }

  /** A thrown call grows the list by the user turn only and records the
      thrown message, or the generic one for a value that is not an Error. */
  lemma SendThrown(s: ChatState, snapshot: seq<Message>, content: string, selected: Option<string>, env: Env)
    requires !Ignored(content, selected) && !KeyMissing(env.apiKey)
    requires env.model(Request(snapshot, UserText(content, selected))).Threw?
    ensures var r := Send(s, snapshot, content, selected, env);
      var t := env.model(Request(snapshot, UserText(content, selected))).thrown;
      && |r.messages| == |s.messages| + 1 && !r.isLoading
      && r.error == Some(if t.ErrorObject? then t.message else GenericError)
  {
  }

  /** The hook's first scenario: from an empty chat, sending with a selected
      question `Q1` and a model replying with one text block yields the user
      turn `Q1` followed by the reply text. */
  lemma FirstQuestionScenario(env: Env)
    requires !KeyMissing(env.apiKey)
    requires env.model([Turn(User, "Q1")]) == Replied([TextBlock("Response from Claude")])
    ensures var r := Send(Initial, [], "Hello", Some("Q1"), env);
      && |r.messages| == 2 && r.messages[0].content == "Q1" && r.messages[1].content == "Response from Claude"
      && r.messages[0].role == User && r.messages[1].role == Assistant
  {
    assert !Ignored("Hello", Some("Q1"));
    assert Request([], "Q1") == [Turn(User, "Q1")];
    assert TextOf([TextBlock("Response from Claude")]) == "Response from Claude" by {
      assert TextParts([TextBlock("Response from Claude")]) == ["Response from Claude"];
      assert Concat(["Response from Claude"]) == "Response from Claude" + Concat([]);
    }
  }

  /** The hook's state as a mutable object. */
  class Hook {
    var messages: seq<Message>
    var isLoading: bool
    var error: Option<string>

    function State(): ChatState
      reads this
    {
      ChatState(messages, isLoading, error)
    }

    constructor ()
      ensures State() == Initial
    {
      messages, isLoading, error := [], false, None;
    }

    /** `setMessages(prev => [...prev, userMessage]); setIsLoading(true); setError(null)` */
    method BeginTurn(content: string, selected: Option<string>, now: int)
      modifies this
      ensures State() == Begin(old(State()), content, selected, now)
      ensures isLoading && error.None?
    {
      messages := messages + [Message(now, User, UserText(content, selected), now)];
      isLoading := true;
      error := None;
    }

    /** The end of the `try`, its `catch` and its `finally`. */
    method SettleTurn(outcome: Result<string, string>, now: int)
      modifies this
      ensures State() == Settle(old(State()), outcome, now)
      ensures !isLoading
    {
      match outcome {
        case Success(text) =>
          messages := messages + [Message(now + 1, Assistant, text, now)];
        case Failure(e) =>
          error := Some(e);
      }
      isLoading := false;
    }

    /** `sendMessage(content, selectedQuestion)`. `snapshot` is the message
        list of the render whose `sendMessage` is called: the request is built
        from it, while the appends go to the current list. */
    method SendMessage(snapshot: seq<Message>, content: string, selected: Option<string>, env: Env)
      modifies this
      ensures State() == Send(old(State()), snapshot, content, selected, env)
    {
      if Ignored(content, selected) {
        return;
      }
      BeginTurn(content, selected, env.sentAt);
      var outcome := CallModel(env, Request(snapshot, UserText(content, selected)));
      SettleTurn(outcome, env.repliedAt);
    }

    /** `clearChat()` */
    method ClearChat()
      modifies this
      ensures State() == Clear(old(State()))
    {
      messages := [];
      error := None;
    }
  }
}
