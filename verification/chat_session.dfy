/** The assistant chat: the message log, the text box and the pending flag.
    Sending is split into a submit step, which appends the user's message and
    issues the request, and a reply step, applied when the request settles. */
module ChatSession {
  import opened Types
  import Js

  /** The assistant's opening turn. */
  const Greeting: string := "Hi there! I'm Cal, your AI nutrition assistant. How can I help you today?"

  /** The assistant's turn when the request fails with something other than an
      `Error` object. */
  const ConnectFallback: string := "Sorry, I couldn't connect to the assistant."

  datatype ChatState = ChatState(messages: seq<ChatMessage>, inputValue: string, isLoading: bool)

  /** What is sent to the assistant: the whole history, ending with the new
      user message, and the new text on its own. */
  datatype Request = Request(history: seq<ChatMessage>, userText: string)

  /** The chat opens with exactly one message, the assistant's greeting. */
  function Initial(): (s: ChatState)
    ensures s.messages == [ChatMessage(Model, Greeting)]
    ensures s.inputValue == "" && !s.isLoading
  {
    ChatState([ChatMessage(Model, Greeting)], "", false)
  }

  /** The text box's `onChange`. */
  function EditInput(s: ChatState, value: string): (t: ChatState)
    ensures t.inputValue == value
    ensures t.messages == s.messages && t.isLoading == s.isLoading
  {
    s.(inputValue := value)
  }

  /** Whether a submit is ignored: blank input or a reply still pending. */
  predicate Ignored(s: ChatState)
    ensures Ignored(s) <==> Js.AllSpace(s.inputValue) || s.isLoading
  {
    Js.Trim(s.inputValue) == [] || s.isLoading
  }

  datatype Submitted = Submitted(state: ChatState, request: Option<Request>)

  /** The synchronous part of `handleSendMessage`. An ignored submit changes
      nothing and sends nothing. Otherwise the trimmed text is appended as a
      user message, the box is emptied, the pending flag is raised, and the
      request carries the earlier messages followed by the new one. */
  function Submit(s: ChatState): (o: Submitted)
    ensures Ignored(s) ==> o == Submitted(s, None)
    ensures !Ignored(s) ==>
      var text := Js.Trim(s.inputValue);
      && o.state.messages == s.messages + [ChatMessage(User, text)]
      && o.state.inputValue == "" && o.state.isLoading
      && o.request == Some(Request(s.messages + [ChatMessage(User, text)], text))
  {
    var text := Js.Trim(s.inputValue);
    if text == [] || s.isLoading then
      Submitted(s, None)
    else
      var userMessage := ChatMessage(User, text);
      Submitted(ChatState(s.messages + [userMessage], "", true), Some(Request(s.messages + [userMessage], text)))
  }

  /** A submit leaves the chat unchanged exactly when it is ignored. */
  lemma SubmitNoOpIff(s: ChatState)
    ensures Submit(s).state == s <==> Ignored(s)
  {
    if !Ignored(s) {
      assert |Submit(s).state.messages| == |s.messages| + 1;
    }
  }

  /** The text of the assistant's turn: the reply, or the error's message, or
      the fallback text. */
  function ReplyText(reply: Settled<string>): (text: string)
    ensures reply.Resolved? ==> text == reply.value
    ensures reply.Rejected? && reply.reason.ErrorObject? ==> text == reply.reason.message
    ensures reply.Rejected? && reply.reason.NonError? ==> text == ConnectFallback
  {
    match reply
    case Resolved(text) => text
    case Rejected(reason) => CaughtMessage(reason, ConnectFallback)
  }

  /** The rest of `handleSendMessage`, applied to the state current when the
      request settles: exactly one assistant message is appended and the
      pending flag drops. */
  function ReceiveReply(s: ChatState, reply: Settled<string>): (t: ChatState)
    ensures t.messages == s.messages + [ChatMessage(Model, ReplyText(reply))]
    ensures !t.isLoading && t.inputValue == s.inputValue
  {
    ChatState(s.messages + [ChatMessage(Model, ReplyText(reply))], s.inputValue, false)
  }

  /** User actions and settlements, as they reach the chat. */
  datatype Event =
    | Typed(value: string)
    | PressSend
    | ReplySettles(reply: Settled<string>)

  /** The chat plus the requests not yet settled, oldest first. */
  datatype Session = Session(chat: ChatState, inFlight: seq<Request>)

  /** One event. A settlement needs an outstanding request and settles the
      oldest one. */
  function Step(ss: Session, ev: Event): Session
  {
    match ev
    case Typed(value) => ss.(chat := EditInput(ss.chat, value))
    case PressSend =>
      var o := Submit(ss.chat);
      Session(o.state, if o.request.Some? then ss.inFlight + [o.request.value] else ss.inFlight)
    case ReplySettles(reply) =>
      if ss.inFlight == [] then ss
      else Session(ReceiveReply(ss.chat, reply), ss.inFlight[1..])
  }

  function Run(ss: Session, evs: seq<Event>): Session
    decreases |evs|
  {
    if evs == [] then ss else Run(Step(ss, evs[0]), evs[1..])
  }

  function Start(): Session
  {
    Session(Initial(), [])
  }

  /** The role at position `i` of a well-formed log: the assistant speaks
      first and the two sides alternate. */
  function RoleAt(i: nat): Role
  {
    if i % 2 == 0 then Model else User
  }

  /** The assistant speaks first and the two sides alternate. */
  predicate Alternates(m: seq<ChatMessage>)
  {
    forall i :: 0 <= i < |m| ==> m[i].role == RoleAt(i)
  }

  /** Every user message is non-empty trimmed text. */
  predicate UserTextsTrimmed(m: seq<ChatMessage>)
  {
    forall i :: 0 <= i < |m| && m[i].role == User ==> m[i].text != [] && Js.Trim(m[i].text) == m[i].text
  }

  /** What holds of every chat reachable from the start:
      - the log opens with the greeting and the roles alternate;
      - every user message is non-empty trimmed text;
      - a reply is pending exactly when the log ends with a user message;
      - at most one request is outstanding, exactly while the flag is raised,
        and its history is the current log. */
  predicate Valid(ss: Session)
  {
    var m := ss.chat.messages;
    && |m| >= 1
    && m[0] == ChatMessage(Model, Greeting)
    && Alternates(m)
    && UserTextsTrimmed(m)
    && (ss.chat.isLoading <==> |m| % 2 == 0)
    && |ss.inFlight| <= 1
    && (ss.inFlight != [] <==> ss.chat.isLoading)
    && (ss.inFlight != [] ==> ss.inFlight[0].history == m)
  }

  lemma AppendKeepsShape(m: seq<ChatMessage>, msg: ChatMessage)
    requires Alternates(m) && UserTextsTrimmed(m)
    requires msg.role == RoleAt(|m|)
    requires msg.role == User ==> msg.text != [] && Js.Trim(msg.text) == msg.text
    ensures Alternates(m + [msg]) && UserTextsTrimmed(m + [msg])
  {
    var m' := m + [msg];
    forall i | 0 <= i < |m'|
      ensures m'[i].role == RoleAt(i)
      ensures m'[i].role == User ==> m'[i].text != [] && Js.Trim(m'[i].text) == m'[i].text
    {
      if i < |m| { assert m'[i] == m[i]; }
    }
  }

  lemma StartValid()
    ensures Valid(Start())
  {
  }

  lemma SendValid(ss: Session)
    requires Valid(ss)
    ensures Valid(Step(ss, PressSend))
  {
    if !Ignored(ss.chat) {
      var text := Js.Trim(ss.chat.inputValue);
      Js.TrimIdempotent(ss.chat.inputValue);
      AppendKeepsShape(ss.chat.messages, ChatMessage(User, text));
    }
  }

  lemma ReplyValid(ss: Session, reply: Settled<string>)
    requires Valid(ss)
    ensures Valid(Step(ss, ReplySettles(reply)))
  {
    if ss.inFlight != [] {
      AppendKeepsShape(ss.chat.messages, ChatMessage(Model, ReplyText(reply)));
    }
  }

  lemma StepValid(ss: Session, ev: Event)
    requires Valid(ss)
    ensures Valid(Step(ss, ev))
  {
    match ev
    case Typed(_) =>
    case PressSend => SendValid(ss);
    case ReplySettles(reply) => ReplyValid(ss, reply);
  }

  /** Every reachable chat is valid: in particular the log alternates between
      the assistant and the user, and at most one request is ever outstanding. */
  lemma {:induction false} RunValid(ss: Session, evs: seq<Event>)
    requires Valid(ss)
    ensures Valid(Run(ss, evs))
    decreases |evs|
  {
    if evs != [] {
      StepValid(ss, evs[0]);
      RunValid(Step(ss, evs[0]), evs[1..]);
    }
  }

  /** Every chat reachable from the opening state is valid. */
  lemma ReachableValid(evs: seq<Event>)
    ensures Valid(Run(Start(), evs))
  {
    StartValid();
    RunValid(Start(), evs);
  }

  /** No event edits or removes a message; each adds at most one. */
  lemma StepAppendOnly(ss: Session, ev: Event)
    ensures var m := ss.chat.messages; var m' := Step(ss, ev).chat.messages;
      && m <= m'
      && |m'| <= |m| + 1
  {
  }

  /** Over any sequence of events the log only grows at the end. */
  lemma {:induction false} RunAppendOnly(ss: Session, evs: seq<Event>)
    ensures ss.chat.messages <= Run(ss, evs).chat.messages
    decreases |evs|
  {
    if evs != [] {
      StepAppendOnly(ss, evs[0]);
      RunAppendOnly(Step(ss, evs[0]), evs[1..]);
    }
  }

  /** A blank or whitespace-only message is never sent. */
  lemma BlankInputIgnored(s: ChatState)
    requires Js.AllSpace(s.inputValue)
    ensures Submit(s) == Submitted(s, None)
  {
  }
}
