/** The chat panel (`Chat.tsx`): the text field's `input` state with its
    submit gate, and what the panel shows for a message list and a loading
    flag. */
module ChatView {
  import opened Wrappers
  import opened Text
  import ChatHook

  /** `handleSubmit`'s guard: something other than whitespace typed, and no
      reply pending. */
  predicate SubmitAccepted(input: string, isLoading: bool) {
    !Blank(input) && !isLoading
  }

  /** `disabled={!input.trim() || isLoading}` on the send button. */
  predicate SendDisabled(input: string, isLoading: bool) {
    Blank(input) || isLoading
  }

  /** `disabled={isLoading}` on the text field. */
  predicate InputDisabled(isLoading: bool) {
    isLoading
  }

  /** The send button is disabled exactly when a submit would be rejected,
      and whenever the text field is disabled so is the button. */
  lemma SendDisabledIffRejected(input: string, isLoading: bool)
    ensures SendDisabled(input, isLoading) <==> !SubmitAccepted(input, isLoading)
    ensures InputDisabled(isLoading) ==> SendDisabled(input, isLoading)
  {
  }

  /** A message as the panel draws it: user messages on the right as plain
      text, assistant messages on the left rendered as Markdown. */
  datatype Bubble = Bubble(onRight: bool, markdown: bool, content: string)

  /** What the message area shows: the welcome panel, or the bubbles in list
      order followed, while loading, by the typing indicator. */
  datatype Screen = EmptyState | Conversation(bubbles: seq<Bubble>, typing: bool)

  function BubbleOf(m: ChatHook.Message): Bubble {
    Bubble(m.role == ChatHook.User, m.role == ChatHook.Assistant, m.content)
  }

  /** The message area for a message list and a loading flag. The welcome
      panel shows exactly when there are no messages (then the typing
      indicator is not shown even while loading); otherwise there is one
      bubble per message, in order, and the indicator shows exactly while
      loading. */
  function Render(messages: seq<ChatHook.Message>, isLoading: bool): (v: Screen)
    ensures v.EmptyState? <==> |messages| == 0
    ensures v.Conversation? ==>
      && |v.bubbles| == |messages| && v.typing == isLoading
      && forall i :: 0 <= i < |messages| ==>
           v.bubbles[i].content == messages[i].content
           && (v.bubbles[i].onRight <==> messages[i].role == ChatHook.User)
           && (v.bubbles[i].markdown <==> messages[i].role == ChatHook.Assistant)
  {
    if |messages| == 0 then EmptyState
    else Conversation(seq(|messages|, i requires 0 <= i < |messages| => BubbleOf(messages[i])), isLoading)
  }

  /** An accepted submit reaches the hook as a message that passes its no-op
      guard, and the user turn it adds holds the input exactly as typed. */
  lemma SubmitReachesHook(input: string, isLoading: bool, s: ChatHook.ChatState, env: ChatHook.Env)
    requires SubmitAccepted(input, isLoading)
    ensures !ChatHook.Ignored(input, None)
    ensures ChatHook.Send(s, s.messages, input, None, env).messages[|s.messages|].content == input
  {
  }

  /** The text field's state. */
  class ChatInput {
    var input: string

    constructor ()
      ensures input == ""
    {
      input := "";
    }

    /** `onChange={(e) => setInput(e.target.value)}` */
    method OnChange(value: string)
      modifies this
      ensures input == value
    {
      input := value;
    }

    /** `handleSubmit`: returns what is passed to `onSendMessage`, if anything.
        An accepted submit passes the raw input and empties the field; a
        rejected one changes nothing. */
    method HandleSubmit(isLoading: bool) returns (sent: Option<string>)
      modifies this
      ensures sent.Some? <==> SubmitAccepted(old(input), isLoading)
      ensures sent.Some? ==> sent.value == old(input) && input == ""
      ensures sent.None? ==> input == old(input)
    {
      if !Blank(input) && !isLoading {
        sent := Some(input);
        input := "";
      } else {
        sent := None;
      }
    }

    /** A submit wired to the chat hook, as the page wires it
        (`onSendMessage={sendMessage}`): the hook is called with the input
        alone, and from the messages the panel was rendered with. */
    method SubmitTo(hook: ChatHook.Hook, env: ChatHook.Env)
      modifies this, hook
      ensures hook.State() ==
        if SubmitAccepted(old(input), old(hook.isLoading))
        then ChatHook.Send(old(hook.State()), old(hook.messages), old(input), None, env)
        else old(hook.State())
      ensures input == if SubmitAccepted(old(input), old(hook.isLoading)) then "" else old(input)
    {
      var sent := HandleSubmit(hook.isLoading);
      if sent.Some? {
        hook.SendMessage(hook.messages, sent.value, None, env);
      }
    }
  }
}
