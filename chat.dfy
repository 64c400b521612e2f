/**
 * The onboarding chat panel: the message list, the input box and the
 * loading flag, changed by the start of the conversation, edits of the
 * input, a send and the agent's reply.  The agent's messages come from the
 * onboarding service and are taken here as given messages.
 */
module Chat {
  import opened Types
  import opened Text

  datatype ChatState = ChatState(messages: seq<ChatMessage>, userInput: string, isLoading: bool)

  const InitialChat := ChatState([], "", false)

  /** The message a send adds for the input `text` at clock reading `now`. */
  function UserMessage(now: nat, text: string): (m: ChatMessage)
    ensures m.sender == User && m.text == text
    ensures StartsWith(m.id, "user-") && m.id[|"user-"|..] == NatToString(now)
  {
    ChatMessage("user-" + NatToString(now), User, text)
  }

  /** The input box is enabled only while nothing is loading. */
  predicate InputEnabled(s: ChatState) {
    !s.isLoading
  }

  /** The send button is enabled only when nothing is loading and the trimmed
      input is non-empty. */
  predicate SendEnabled(s: ChatState) {
    !s.isLoading && Trim(s.userInput) != []
  }

  /** The conversation start: the loading indicator appears. */
  function BeginStart(s: ChatState): (r: ChatState)
    ensures !InputEnabled(r) && !SendEnabled(r) && r.messages == s.messages
  {
    s.(isLoading := true)
  }

  /** The first agent message arrives and replaces the message list. */
  function FinishStart(s: ChatState, initial: ChatMessage): (r: ChatState)
    ensures InputEnabled(r) && |r.messages| == 1
  {
    s.(messages := [initial], isLoading := false)
  }

  /** An edit of the input box: it now holds the typed text. */
  function Edit(s: ChatState, text: string): (r: ChatState)
    requires InputEnabled(s)
    ensures r.userInput == text
    ensures r.messages == s.messages && r.isLoading == s.isLoading
  {
    s.(userInput := text)
  }

  /** `handleSendMessage` at clock reading `now`. */
  function Send(s: ChatState, now: nat): (r: ChatState)
    ensures |s.messages| <= |r.messages| <= |s.messages| + 1 && r.messages[..|s.messages|] == s.messages
    ensures r != s ==> && |r.messages| == |s.messages| + 1 && r.messages[|s.messages|].sender == User
                       && r.isLoading && r.userInput == ""
  {
    if Trim(s.userInput) == [] || s.isLoading then s
    else ChatState(s.messages + [UserMessage(now, s.userInput)], "", true)
  }

  /** The delayed reply: the agent's message is appended and loading ends. */
  function Reply(s: ChatState, reply: ChatMessage): (r: ChatState)
    ensures |r.messages| == |s.messages| + 1 && r.messages[..|s.messages|] == s.messages
    ensures InputEnabled(r)
  {
    s.(messages := s.messages + [reply], isLoading := false)
  }

  // ---------------------------------------------------------------------------
  // Properties of the steps

  /** The start leaves exactly one agent-built message and nothing loading. */
  lemma StartShowsOneMessage(s: ChatState, initial: ChatMessage)
    ensures var t := FinishStart(BeginStart(s), initial);
            t.messages == [initial] && !t.isLoading && t.userInput == s.userInput
  {
  }

  /** A send changes nothing exactly when the input is blank or a reply is
      pending, that is, exactly when the send button is disabled. */
  lemma SendGuard(s: ChatState, now: nat)
    ensures Send(s, now) == s <==> IsBlank(s.userInput) || s.isLoading
    ensures Send(s, now) == s <==> !SendEnabled(s)
  {
    TrimEmptyIffBlank(s.userInput);
    if !IsBlank(s.userInput) && !s.isLoading {
      assert |Send(s, now).messages| == |s.messages| + 1;
    }
  }

  /** A send that goes through appends one user message carrying the
      untrimmed input, keeps every earlier message, empties the input box and
      starts loading. */
  lemma SendAppendsUserMessage(s: ChatState, now: nat)
    requires !IsBlank(s.userInput) && !s.isLoading
    ensures var t := Send(s, now);
            && |t.messages| == |s.messages| + 1
            && t.messages[..|s.messages|] == s.messages
            && t.messages[|s.messages|].sender == User
            && t.messages[|s.messages|].text == s.userInput
            && t.userInput == "" && t.isLoading
  {
    TrimEmptyIffBlank(s.userInput);
    assert Send(s, now).messages[..|s.messages|] == s.messages;
  }

  /** A second send before the reply arrives does nothing. */
  lemma NoSendWhileWaiting(s: ChatState, now1: nat, now2: nat)
    ensures Send(Send(s, now1), now2) == Send(s, now1)
  {
  }

  /** The reply appends exactly the agent's message and ends loading. */
  lemma ReplyAppendsOne(s: ChatState, reply: ChatMessage)
    ensures var t := Reply(s, reply);
            t.messages[..|s.messages|] == s.messages && t.messages[|s.messages|..] == [reply]
            && !t.isLoading && t.userInput == s.userInput
  {
  }

  /** While a reply is pending, the input box and the send button are
      disabled. */
  lemma LoadingDisablesInput(s: ChatState, now: nat)
    requires s.isLoading
    ensures !InputEnabled(s) && !SendEnabled(s) && Send(s, now) == s
  {
  }

  /** The events after the start: edits, sends and replies. */
  datatype ChatEvent = EditInput(text: string) | SendMessage(now: nat) | ReceiveReply(reply: ChatMessage)

  /** The state after a run of events; an edit is ignored while the input is
      disabled. */
  function Run(s: ChatState, events: seq<ChatEvent>): ChatState
    decreases |events|
  {
    if events == [] then s
    else
      var t := match events[0]
        case EditInput(text) => if InputEnabled(s) then Edit(s, text) else s
        case SendMessage(now) => Send(s, now)
        case ReceiveReply(reply) => Reply(s, reply);
      Run(t, events[1..])
  }

  /** Edits, sends and replies never alter or reorder earlier messages: the
      list before any run is a prefix of the list after it. */
  lemma {:induction false} RunOnlyAppends(s: ChatState, events: seq<ChatEvent>)
    ensures |s.messages| <= |Run(s, events).messages|
    ensures Run(s, events).messages[..|s.messages|] == s.messages
    decreases |events|
  {
    if events != [] {
      var t := match events[0]
        case EditInput(text) => if InputEnabled(s) then Edit(s, text) else s
        case SendMessage(now) => Send(s, now)
        case ReceiveReply(reply) => Reply(s, reply);
      assert t.messages[..|s.messages|] == s.messages;
      RunOnlyAppends(t, events[1..]);
      var u := Run(t, events[1..]);
      assert u.messages[..|s.messages|] == u.messages[..|t.messages|][..|s.messages|];
    }
  }

  // ---------------------------------------------------------------------------
  // The component

  class OnboardingChat {
    var messages: seq<ChatMessage>
    var userInput: string
    var isLoading: bool

    function State(): ChatState
      reads this
    {
      ChatState(messages, userInput, isLoading)
    }

    /** No messages, an empty input box, nothing loading. */
    constructor()
      ensures State() == InitialChat
    {
      messages := [];
      userInput := "";
      isLoading := false;
    }

    /** The mount effect begins the conversation. */
    method StartConversation()
      modifies this
      ensures State() == BeginStart(old(State()))
    {
      isLoading := true;
    }

    /** The first agent message (the service's reply for the empty key) arrives. */
    method ConversationStarted(initial: ChatMessage)
      modifies this
      ensures State() == FinishStart(old(State()), initial)
      ensures messages == [initial] && !isLoading
    {
      messages := [initial];
      isLoading := false;
    }

    method EditInput(text: string)
      requires InputEnabled(State())
      modifies this
      ensures State() == Edit(old(State()), text)
    {
      userInput := text;
    }

    /** `handleSendMessage` at clock reading `now`; `sent` tells whether the
        guard let it through. */
    method HandleSendMessage(now: nat) returns (sent: bool)
      modifies this
      ensures State() == Send(old(State()), now)
      ensures sent == SendEnabled(old(State()))
    {
      var before := State();
      if Trim(userInput) == [] || isLoading {
        return false;
      }
      var message := UserMessage(now, userInput);
      messages := messages + [message];
      userInput := "";
      isLoading := true;
      sent := true;
      assert State() == ChatState(before.messages + [message], "", true);
    }

    /** The delayed reply arrives. */
    method ReceiveReply(reply: ChatMessage)
      modifies this
      ensures State() == Reply(old(State()), reply)
    {
      messages := messages + [reply];
      isLoading := false;
    }
  }
}
