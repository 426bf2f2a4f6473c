/** The inquiry page (`App.tsx`): the topic, the generated inquiries, the
    loading flag and error of the generation, the saved history and the
    selected question, composed with the chat hook.

    As in `ChatHook`, each handler is a function on a `Page` value and a
    method of the class `InquiryPage` proved against it. */
module App {
  import opened Wrappers
  import opened Text
  import opened Llm
  import opened Inquiries
  import ChatHook

  /** The page's own state; `selectedQuestion` null is `None`. */
  datatype Page = Page(
    topic: string,
    inquiries: seq<string>,
    loading: bool,
    error: Option<string>,
    history: seq<Inquiry>,
    selectedQuestion: Option<string>)

  /** What `generateInquiries` reads from outside the page: the API key, the
      model (an oracle from the topic to the reply; the prompt wording around
      the topic is not modelled) and the clock. */
  datatype GenEnv = GenEnv(apiKey: Option<string>, model: string -> Reply, now: int)

  /** A fresh page over a stored history. */
  function Start(history: seq<Inquiry>): Page {
    Page("", [], false, None, history, None)
  }

  /** The `try` block of `generateInquiries`: a missing key fails before any
      call; otherwise the reply's text is parsed into inquiries, or the call
      fails with its message. */
  function FetchInquiries(env: GenEnv, topic: string): (r: Result<seq<string>, string>)
    ensures KeyMissing(env.apiKey) ==> r == Failure(MissingKeyError)
    ensures r.Success? <==> !KeyMissing(env.apiKey) && env.model(topic).Replied?
    ensures r.Success? ==> r.value == ParseInquiries(TextOf(env.model(topic).content))
    ensures !KeyMissing(env.apiKey) && env.model(topic).Threw? ==> r == Failure(ErrorText(env.model(topic).thrown))
  {
    if KeyMissing(env.apiKey) then Failure(MissingKeyError)
    else match env.model(topic)
      case Replied(blocks) => Success(ParseInquiries(TextOf(blocks)))
      case Threw(t) => Failure(ErrorText(t))
  }

  /** Before the call: loading on, error cleared, inquiries emptied; the
      topic, the history and the selected question are kept. */
  function BeginGenerate(p: Page): (r: Page)
    ensures r.loading && r.error.None? && r.inquiries == []
    ensures r.topic == p.topic && r.history == p.history && r.selectedQuestion == p.selectedQuestion
  {
    p.(loading := true, error := None, inquiries := [])
  }

  /** After the call settles: the parsed inquiries shown and, when there are
      any, a history entry added in front; or the error recorded. Loading off
      either way. */
  function SettleGenerate(p: Page, outcome: Result<seq<string>, string>, now: int): (r: Page)
    ensures !r.loading && r.topic == p.topic && r.selectedQuestion == p.selectedQuestion
    ensures outcome.Success? ==>
      && r.inquiries == outcome.value && r.error == p.error
      && r.history == (if |outcome.value| > 0 then PushHistory(Inquiry(now, p.topic, outcome.value, now), p.history) else p.history)
    ensures outcome.Failure? ==>
      r.error == Some(outcome.error) && r.inquiries == p.inquiries && r.history == p.history
  {
    match outcome
    case Success(list) =>
      var history := if |list| > 0 then PushHistory(Inquiry(now, p.topic, list, now), p.history) else p.history;
      p.(inquiries := list, history := history, loading := false)
    case Failure(e) => p.(error := Some(e), loading := false)
  }

  /** `generateInquiries()` from the state before the call to the state once
      it has settled. A blank topic changes nothing. Otherwise loading ends
      off, the topic and the selected question are kept, the history changes
      only when the new list is non-empty, and an error leaves no inquiries
      and the history as it was. */
  function Generate(p: Page, env: GenEnv): (r: Page)
    ensures Blank(p.topic) ==> r == p
    ensures !Blank(p.topic) ==>
      && !r.loading && r.topic == p.topic && r.selectedQuestion == p.selectedQuestion
      && (r.error.None? <==> FetchInquiries(env, p.topic).Success?)
      && (r.error.Some? ==> r.inquiries == [] && r.history == p.history)
      && (|r.inquiries| == 0 ==> r.history == p.history)
      && (|r.inquiries| > 0 ==>
            && r.history == PushHistory(Inquiry(env.now, p.topic, r.inquiries, env.now), p.history)
            && r.history[0].questions == r.inquiries && r.history[0].topic == p.topic)
  {
    if Blank(p.topic) then p
    else SettleGenerate(BeginGenerate(p), FetchInquiries(env, p.topic), env.now)
  }

  /** With a key and a reply, the inquiries shown are those parsed from the
      reply's text blocks. */
  lemma GenerateShowsParsedReply(p: Page, env: GenEnv)
    requires !Blank(p.topic) && !KeyMissing(env.apiKey) && env.model(p.topic).Replied?
    ensures Generate(p, env).inquiries == ParseInquiries(TextOf(env.model(p.topic).content))
    ensures Generate(p, env).error.None?
  {
  }

  /** A failed generation shows the thrown message (or the generic one, or
      the configuration message for a missing key), no inquiries, and leaves
      the history alone. */
  lemma GenerateFailure(p: Page, env: GenEnv)
    requires !Blank(p.topic)
    requires KeyMissing(env.apiKey) || env.model(p.topic).Threw?
    ensures var r := Generate(p, env);
      && r.inquiries == [] && r.history == p.history && !r.loading
      && r.error == Some(if KeyMissing(env.apiKey) then MissingKeyError else ErrorText(env.model(p.topic).thrown))
  {
  }

  /** Generating never lets the history grow past its limit. */
  lemma GenerateKeepsHistoryBounded(p: Page, env: GenEnv)
    requires |p.history| <= HistoryLimit
    ensures |Generate(p, env).history| <= HistoryLimit
  {
  }

  /** `handleSelectInquiry(inquiry)`: the saved topic and inquiries come back
      and the error is cleared. */
  function SelectInquiry(p: Page, inquiry: Inquiry): (r: Page)
    ensures r.topic == inquiry.topic && r.inquiries == inquiry.questions && r.error.None?
    ensures r.history == p.history && r.loading == p.loading && r.selectedQuestion == p.selectedQuestion
  {
    p.(topic := inquiry.topic, inquiries := inquiry.questions, error := None)
  }

  /** `handleClearHistory()`: empties the history when the user confirms. */
  function ClearHistory(p: Page, confirmed: bool): (r: Page)
    ensures r.history == if confirmed then [] else p.history
    ensures r == p.(history := r.history)
  {
    if confirmed then p.(history := []) else p
  }

  /** `isInChatMode`: a question is selected. */
  predicate InChatMode(p: Page) {
    p.selectedQuestion.Some?
  }

  /** The chat right after a click on the non-empty question `q`, once the
      model's `outcome` has settled: not loading, `q` as the only user turn,
      then the reply's text, or the error when the call failed. */
  predicate OpenedChat(c: ChatHook.ChatState, q: string, outcome: Result<string, string>) {
    && !c.isLoading && 1 <= |c.messages| <= 2
    && c.messages[0].role == ChatHook.User && c.messages[0].content == q
    && (outcome.Success? ==>
          |c.messages| == 2 && c.messages[1].role == ChatHook.Assistant
          && c.messages[1].content == outcome.value && c.error.None?)
    && (outcome.Failure? ==> |c.messages| == 1 && c.error == Some(outcome.error))
  }

  /** `handleQuestionClick(question)` as the source has it: the chat is
      cleared, but `sendMessage` is the one captured by the current render,
      so the conversation it sends to the model is built from the messages
      as they were before the clear. The page enters chat mode; an empty
      question (from a bare dash line) only clears the chat, and any other
      one opens a chat holding it, answered from the pre-clear conversation
      followed by the question. */
  function QuestionClickAsWritten(p: Page, chat: ChatHook.ChatState, q: string, env: ChatHook.Env): (r: (Page, ChatHook.ChatState))
    ensures r.0 == p.(selectedQuestion := Some(q)) && InChatMode(r.0)
    ensures q == "" ==> r.1 == ChatHook.Clear(chat)
    ensures q != "" ==> OpenedChat(r.1, q, ChatHook.CallModel(env, ChatHook.Request(chat.messages, q)))
  {
    (p.(selectedQuestion := Some(q)), ChatHook.Send(ChatHook.Clear(chat), chat.messages, "", Some(q), env))
  }

  /** `handleQuestionClick(question)` as intended: the new conversation starts
      from nothing, so a non-empty question is answered from the question
      alone. */
  function QuestionClick(p: Page, chat: ChatHook.ChatState, q: string, env: ChatHook.Env): (r: (Page, ChatHook.ChatState))
    ensures r.0 == p.(selectedQuestion := Some(q)) && InChatMode(r.0)
    ensures q == "" ==> r.1 == ChatHook.Clear(chat)
    ensures q != "" ==> OpenedChat(r.1, q, ChatHook.CallModel(env, [ChatHook.Turn(ChatHook.User, q)]))
  {
    assert ChatHook.Request([], q) == [ChatHook.Turn(ChatHook.User, q)];
    (p.(selectedQuestion := Some(q)), ChatHook.Send(ChatHook.Clear(chat), [], "", Some(q), env))
  }

  /** `handleCloseChatMode()`: chat mode is left, with an empty chat and no
      error; the rest of the page and the loading flag are kept. */
  function CloseChatMode(p: Page, chat: ChatHook.ChatState): (r: (Page, ChatHook.ChatState))
    ensures r.0 == p.(selectedQuestion := None) && !InChatMode(r.0)
    ensures r.1.messages == [] && r.1.error.None? && r.1.isLoading == chat.isLoading
  {
    (p.(selectedQuestion := None), ChatHook.Clear(chat))
  }

  /** As intended, what the model is sent after a click on a non-empty
      question is exactly the conversation the chat shows: its one user
      turn. */
  lemma QuestionClickOpensChat(p: Page, chat: ChatHook.ChatState, q: string, env: ChatHook.Env)
    requires q != ""
    ensures var c := QuestionClick(p, chat, q, env).1;
      [ChatHook.Turn(ChatHook.User, q)] == ChatHook.Request([], q) == ChatHook.Turns(c.messages[..1])
  {
    var c := QuestionClick(p, chat, q, env).1;
    assert c.messages[..1] == [c.messages[0]];
  }

  /** As written, what the model is sent after a click on a non-empty
      question is the previous chat's turns followed by the question, while
      the chat shows the question alone: the two agree only when the
      previous chat was empty. */
  lemma StaleConversationSent(p: Page, chat: ChatHook.ChatState, q: string, env: ChatHook.Env)
    requires q != ""
    ensures var c := QuestionClickAsWritten(p, chat, q, env).1;
      var sent := ChatHook.Request(chat.messages, q);
      && sent[..|chat.messages|] == ChatHook.Turns(chat.messages)
      && (sent == ChatHook.Turns(c.messages[..1]) <==> chat.messages == [])
  {
    var c := QuestionClickAsWritten(p, chat, q, env).1;
    var sent := ChatHook.Request(chat.messages, q);
    assert c.messages[..1] == [c.messages[0]];
    assert ChatHook.Turns(c.messages[..1]) == [ChatHook.Turn(ChatHook.User, q)];
    assert sent == ChatHook.Turns(chat.messages) + [ChatHook.Turn(ChatHook.User, q)];
  }

  /** A model that answers differently when it sees earlier turns: the
      answer shown after clicking a second question is the one meant for the
      longer, stale conversation. */
  lemma StaleConversationChangesAnswer(p: Page, first: ChatHook.Message)
    ensures var env := ChatHook.Env(Some("key"), (h: seq<ChatHook.Turn>) => Replied([TextBlock(if |h| == 1 then "fresh" else "stale")]), 0, 1);
      var chat := ChatHook.ChatState([first], false, None);
      && QuestionClickAsWritten(p, chat, "Why?", env).1.messages[1].content == "stale"
      && QuestionClick(p, chat, "Why?", env).1.messages[1].content == "fresh"
  {
    var env := ChatHook.Env(Some("key"), (h: seq<ChatHook.Turn>) => Replied([TextBlock(if |h| == 1 then "fresh" else "stale")]), 0, 1);
    assert !KeyMissing(Some("key"));
    assert !ChatHook.Ignored("", Some("Why?"));
    assert |ChatHook.Request([first], "Why?")| == 2;
    assert |ChatHook.Request([], "Why?")| == 1;
    assert TextOf([TextBlock("stale")]) == "stale" by {
      assert TextParts([TextBlock("stale")]) == ["stale"];
      assert Concat(["stale"]) == "stale" + Concat([]);
    }
    assert TextOf([TextBlock("fresh")]) == "fresh" by {
      assert TextParts([TextBlock("fresh")]) == ["fresh"];
      assert Concat(["fresh"]) == "fresh" + Concat([]);
    }
  }

  /** The page as a mutable object, holding the chat hook it composes with. */
  class InquiryPage {
    var topic: string
    var inquiries: seq<string>
    var loading: bool
    var error: Option<string>
    var history: seq<Inquiry>
    var selectedQuestion: Option<string>
    const chat: ChatHook.Hook

    function View(): Page
      reads this
    {
      Page(topic, inquiries, loading, error, history, selectedQuestion)
    }

    constructor (chat: ChatHook.Hook, stored: seq<Inquiry>)
      ensures View() == Start(stored) && this.chat == chat
    {
      topic, inquiries, loading, error, history, selectedQuestion := "", [], false, None, stored, None;
      this.chat := chat;
    }

    /** `onTopicChange` of the search form. */
    method SetTopic(t: string)
      modifies this
      ensures View() == old(View()).(topic := t)
    {
      topic := t;
    }

    /** `setLoading(true); setError(null); setInquiries([])` */
    method BeginGeneration()
      modifies this
      ensures View() == BeginGenerate(old(View()))
    {
      loading := true;
      error := None;
      inquiries := [];
    }

    /** The end of the `try`, its `catch` and its `finally`. */
    method SettleGeneration(outcome: Result<seq<string>, string>, now: int)
      modifies this
      ensures View() == SettleGenerate(old(View()), outcome, now)
    {
      match outcome {
        case Success(list) =>
          inquiries := list;
          if |list| > 0 {
            history := PushHistory(Inquiry(now, topic, list, now), history);
          }
        case Failure(e) =>
          error := Some(e);
      }
      loading := false;
    }

    /** `generateInquiries()` */
    method GenerateInquiries(env: GenEnv)
      modifies this
      ensures View() == Generate(old(View()), env)
    {
      if Blank(topic) {
        return;
      }
      BeginGeneration();
      var outcome := FetchInquiries(env, topic);
      SettleGeneration(outcome, env.now);
    }

    /** `handleSelectInquiry(inquiry)` */
    method HandleSelectInquiry(inquiry: Inquiry)
      modifies this
      ensures View() == SelectInquiry(old(View()), inquiry)
    {
      topic := inquiry.topic;
      inquiries := inquiry.questions;
      error := None;
    }

    /** `handleClearHistory()`, with the user's answer to the confirmation. */
    method HandleClearHistory(confirmed: bool)
      modifies this
      ensures View() == ClearHistory(old(View()), confirmed)
    {
      if confirmed {
        history := [];
      }
    }

    /** `handleQuestionClick(question)` as the source has it. */
    method HandleQuestionClickAsWritten(q: string, env: ChatHook.Env)
      modifies this, chat
      ensures (View(), chat.State()) == QuestionClickAsWritten(old(View()), old(chat.State()), q, env)
    {
      selectedQuestion := Some(q);
      var rendered := chat.messages;
      chat.ClearChat();
      chat.SendMessage(rendered, "", Some(q), env);
    }

    /** `handleQuestionClick(question)` with the request built from the
        cleared chat. */
    method HandleQuestionClick(q: string, env: ChatHook.Env)
      modifies this, chat
      ensures (View(), chat.State()) == QuestionClick(old(View()), old(chat.State()), q, env)
    {
      selectedQuestion := Some(q);
      chat.ClearChat();
      chat.SendMessage(chat.messages, "", Some(q), env);
    }

    /** `handleCloseChatMode()` */
    method HandleCloseChatMode()
      modifies this, chat
      ensures (View(), chat.State()) == CloseChatMode(old(View()), old(chat.State()))
    {
      selectedQuestion := None;
      chat.ClearChat();
    }
  }
}
