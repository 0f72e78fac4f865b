/**
 * The chat panel's state and its transitions. Every callback replaces the one
 * state record; `sendMessage` and `loadConversation` do so twice, once before
 * the request (the optimistic step) and once when it settles.
 */
module Chat {
  import opened Wrappers
  import opened Text

  datatype Role = UserRole | AssistantRole

  datatype ChatMessage = ChatMessage(id: string, conversationId: string, role: Role, content: string, timestamp: int)

  datatype ChatState = ChatState(
    isOpen: bool,
    messages: seq<ChatMessage>,
    isLoading: bool,
    conversationId: Option<string>,
    error: Option<string>)

  /** The body of `POST /api/chat`. */
  datatype ChatRequest = ChatRequest(message: string, conversationId: Option<string>)

  /** The fields of the chat reply the panel uses. */
  datatype ChatResponse = ChatResponse(conversationId: string, response: string)

  const SendFallback := "Failed to send message"
  const LoadFallback := "Failed to load conversation"

  /** Closed, no messages, not loading, no conversation, no error. */
  const Initial := ChatState(false, [], false, None, None)

  /** `!message.trim()`. */
  predicate IsBlank(text: string) { Trim(text) == "" }

  /** `error instanceof Error ? error.message : fallback`. */
  function ErrorText(c: Caught, fallback: string): string {
    match c
    case ErrorObject(m) => m
    case OtherValue => fallback
  }

  /** `state.conversationId || ''`. */
  function IdOrEmpty(id: Option<string>): string {
    if id.Some? then id.value else ""
  }

  /** `state.conversationId || undefined`. */
  function IdOrUndefined(id: Option<string>): (r: Option<string>)
    ensures r.Some? <==> id.Some? && id.value != ""
    ensures r.Some? ==> r == id
  {
    if id.Some? && id.value != "" then id else None
  }

  // ---------------------------------------------------------------- single updates

  function Opened(s: ChatState): (r: ChatState)
    ensures r.isOpen && r.(isOpen := s.isOpen) == s
  {
    s.(isOpen := true)
  }

  function Closed(s: ChatState): (r: ChatState)
    ensures !r.isOpen && r.(isOpen := s.isOpen) == s
  {
    s.(isOpen := false)
  }

  function Toggled(s: ChatState): (r: ChatState)
    ensures r.isOpen == !s.isOpen && r.(isOpen := s.isOpen) == s
  {
    s.(isOpen := !s.isOpen)
  }

  /** `clearConversation`: no messages, no conversation, no error; open and loading flags kept. */
  function Cleared(s: ChatState): (r: ChatState)
    ensures r.messages == [] && r.conversationId == None && r.error == None
    ensures r.isOpen == s.isOpen && r.isLoading == s.isLoading
  {
    s.(messages := [], conversationId := None, error := None)
  }

  /** The optimistic step of `sendMessage`: one trimmed user message appended, loading, no error. */
  function SendStarted(s: ChatState, text: string, id: string, now: int): (r: ChatState)
    ensures |r.messages| == |s.messages| + 1 && r.messages[..|s.messages|] == s.messages
    ensures r.messages[|s.messages|] == ChatMessage(id, IdOrEmpty(s.conversationId), UserRole, Trim(text), now)
    ensures r.isLoading && r.error == None
    ensures r.isOpen == s.isOpen && r.conversationId == s.conversationId
  {
    var userMessage := ChatMessage(id, IdOrEmpty(s.conversationId), UserRole, Trim(text), now);
    s.(messages := s.messages + [userMessage], isLoading := true, error := None)
  }

  /** `sendMessage` succeeded: one assistant message appended, the reply's conversation adopted. */
  function SendSucceeded(s: ChatState, reply: ChatResponse, id: string, now: int): (r: ChatState)
    ensures r.messages == s.messages + [ChatMessage(id, reply.conversationId, AssistantRole, reply.response, now)]
    ensures r.conversationId == Some(reply.conversationId) && !r.isLoading
    ensures r.isOpen == s.isOpen && r.error == s.error
  {
    var assistantMessage := ChatMessage(id, reply.conversationId, AssistantRole, reply.response, now);
    s.(messages := s.messages + [assistantMessage], conversationId := Some(reply.conversationId), isLoading := false)
  }

  /** `sendMessage` failed: nothing is rolled back; loading ends and the error is shown. */
  function SendFailed(s: ChatState, c: Caught): (r: ChatState)
    ensures r.messages == s.messages && r.conversationId == s.conversationId && r.isOpen == s.isOpen
    ensures !r.isLoading && r.error == Some(ErrorText(c, SendFallback))
  {
    s.(isLoading := false, error := Some(ErrorText(c, SendFallback)))
  }

  function LoadStarted(s: ChatState): (r: ChatState)
    ensures r.isLoading && r.error == None && r.(isLoading := s.isLoading, error := s.error) == s
  {
    s.(isLoading := true, error := None)
  }

  /** `loadConversation` succeeded: the messages are replaced wholesale and the conversation adopted. */
  function LoadSucceeded(s: ChatState, conversationId: string, loaded: seq<ChatMessage>): (r: ChatState)
    ensures r.messages == loaded && r.conversationId == Some(conversationId) && !r.isLoading
    ensures r.isOpen == s.isOpen && r.error == s.error
  {
    s.(messages := loaded, conversationId := Some(conversationId), isLoading := false)
  }

  /** `loadConversation` failed: the previous messages and conversation stay. */
  function LoadFailed(s: ChatState, c: Caught): (r: ChatState)
    ensures r.messages == s.messages && r.conversationId == s.conversationId && r.isOpen == s.isOpen
    ensures !r.isLoading && r.error == Some(ErrorText(c, LoadFallback))
  {
    s.(isLoading := false, error := Some(ErrorText(c, LoadFallback)))
  }

  // ---------------------------------------------------------------- whole calls

  /**
   * The state after a whole `sendMessage(text)` call, given how the request
   * settled; the user's message is stamped `sentAt`, the reply `repliedAt`
   * (two separate clock readings).
   */
  function AfterSend(s: ChatState, text: string, reply: Result<ChatResponse, Caught>,
                     userId: string, assistantId: string, sentAt: int, repliedAt: int): (r: ChatState)
    ensures IsBlank(text) ==> r == s
    ensures !IsBlank(text) ==>
              && |r.messages| == |s.messages| + (if reply.Ok? then 2 else 1)
              && r.messages[..|s.messages|] == s.messages
              && r.messages[|s.messages|].role == UserRole && r.messages[|s.messages|].timestamp == sentAt
              && !r.isLoading && r.isOpen == s.isOpen
              && r.error == (if reply.Ok? then None else Some(ErrorText(reply.error, SendFallback)))
  {
    if IsBlank(text) then s
    else
      var pending := SendStarted(s, text, userId, sentAt);
      match reply
      case Ok(r) => SendSucceeded(pending, r, assistantId, repliedAt)
      case Err(c) => SendFailed(pending, c)
  }

  /** Blank text (`!message.trim()`) changes nothing. */
  lemma BlankSendIsIgnored(s: ChatState, text: string, reply: Result<ChatResponse, Caught>,
                           userId: string, assistantId: string, sentAt: int, repliedAt: int)
    requires IsBlank(text)
    ensures AfterSend(s, text, reply, userId, assistantId, sentAt, repliedAt) == s
  {
  }

  /** A successful send leaves the user's trimmed message followed by the reply, in the reply's conversation. */
  lemma SentThenAnswered(s: ChatState, text: string, reply: ChatResponse,
                         userId: string, assistantId: string, sentAt: int, repliedAt: int)
    requires !IsBlank(text)
    ensures var r := AfterSend(s, text, Ok(reply), userId, assistantId, sentAt, repliedAt);
      && r.messages == s.messages + [ChatMessage(userId, IdOrEmpty(s.conversationId), UserRole, Trim(text), sentAt),
                                     ChatMessage(assistantId, reply.conversationId, AssistantRole, reply.response, repliedAt)]
      && r.conversationId == Some(reply.conversationId) && !r.isLoading && r.error == None
      && r.isOpen == s.isOpen
  {
    var pending := SendStarted(s, text, userId, sentAt);
    var mine := ChatMessage(userId, IdOrEmpty(s.conversationId), UserRole, Trim(text), sentAt);
    assert pending.messages == s.messages + [mine];
  }

  /** A failed send keeps the user's message (no rollback) and shows the error. */
  lemma SentThenFailed(s: ChatState, text: string, c: Caught,
                       userId: string, assistantId: string, sentAt: int, repliedAt: int)
    requires !IsBlank(text)
    ensures var r := AfterSend(s, text, Err(c), userId, assistantId, sentAt, repliedAt);
      && r.messages == s.messages + [ChatMessage(userId, IdOrEmpty(s.conversationId), UserRole, Trim(text), sentAt)]
      && r.conversationId == s.conversationId && !r.isLoading && r.error == Some(ErrorText(c, SendFallback))
      && r.isOpen == s.isOpen
  {
    var pending := SendStarted(s, text, userId, sentAt);
    var mine := ChatMessage(userId, IdOrEmpty(s.conversationId), UserRole, Trim(text), sentAt);
    assert pending.messages == s.messages + [mine];
  }

  // ---------------------------------------------------------------- event sequences

  /**
   * The updates the hook can apply, one per `setState`. The two phases of a
   * send or a load are separate events, so runs may interleave them.
   */
  datatype Event =
    | OpenChat
    | CloseChat
    | ToggleChat
    | ClearConversation
    | BeginSend(text: string, userId: string, now: int)
    | ReplyReceived(reply: ChatResponse, assistantId: string, now: int)
    | SendRejected(c: Caught)
    | BeginLoad
    | HistoryReceived(conversationId: string, loaded: seq<ChatMessage>)
    | LoadRejected(c: Caught)

  function Step(s: ChatState, e: Event): ChatState {
    match e
    case OpenChat => Opened(s)
    case CloseChat => Closed(s)
    case ToggleChat => Toggled(s)
    case ClearConversation => Cleared(s)
    case BeginSend(text, userId, now) => if IsBlank(text) then s else SendStarted(s, text, userId, now)
    case ReplyReceived(reply, assistantId, now) => SendSucceeded(s, reply, assistantId, now)
    case SendRejected(c) => SendFailed(s, c)
    case BeginLoad => LoadStarted(s)
    case HistoryReceived(id, loaded) => LoadSucceeded(s, id, loaded)
    case LoadRejected(c) => LoadFailed(s, c)
  }

  function Run(s: ChatState, events: seq<Event>): ChatState
    decreases |events|
  {
    if events == [] then s else Run(Step(s, events[0]), events[1..])
  }

  /** While a request is in flight no error is shown. */
  predicate LoadingHidesError(s: ChatState) {
    s.isLoading ==> s.error == None
  }

  /** Every run from the initial state keeps "loading implies no error", however the phases interleave. */
  lemma {:induction false} RunKeepsLoadingHidesError(s: ChatState, events: seq<Event>)
    requires LoadingHidesError(s)
    ensures LoadingHidesError(Run(s, events))
    decreases |events|
  {
    if events != [] {
      RunKeepsLoadingHidesError(Step(s, events[0]), events[1..]);
    }
  }

  /** The events that never remove or replace a message. */
  predicate KeepsHistory(e: Event) {
    !e.ClearConversation? && !e.HistoryReceived?
  }

  /** Without a clear or a load, messages are only ever appended: the old list is a prefix of the new one. */
  lemma {:induction false} RunOnlyAppends(s: ChatState, events: seq<Event>)
    requires forall i :: 0 <= i < |events| ==> KeepsHistory(events[i])
    ensures var r := Run(s, events);
      |s.messages| <= |r.messages| && r.messages[..|s.messages|] == s.messages
    decreases |events|
  {
    if events != [] {
      var next := Step(s, events[0]);
      assert |s.messages| <= |next.messages| && next.messages[..|s.messages|] == s.messages;
      RunOnlyAppends(next, events[1..]);
      var r := Run(s, events);
      assert r.messages[..|s.messages|] == r.messages[..|next.messages|][..|s.messages|];
    }
  }

  /** Toggling twice restores the open flag. */
  lemma ToggleTwice(s: ChatState)
    ensures Toggled(Toggled(s)) == s
  {
  }

  // ---------------------------------------------------------------- the hook

  class ChatSession {
    var state: ChatState

    constructor ()
      ensures state == Initial
    {
      state := Initial;
    }

    method OpenChat()
      modifies this
      ensures state == Opened(old(state))
    {
      state := Opened(state);
    }

    method CloseChat()
      modifies this
      ensures state == Closed(old(state))
    {
      state := Closed(state);
    }

    method ToggleChat()
      modifies this
      ensures state == Toggled(old(state))
    {
      state := Toggled(state);
    }

    method ClearConversation()
      modifies this
      ensures state == Cleared(old(state))
    {
      state := Cleared(state);
    }

    /**
     * `sendMessage(text)`, with the fresh message ids, the two clock readings and the way
     * the chat request settles given as parameters. Returns the request sent,
     * if any.
     */
    method SendMessage(text: string, userId: string, assistantId: string, sentAt: int, repliedAt: int,
                       reply: Result<ChatResponse, Caught>)
      returns (request: Option<ChatRequest>)
      modifies this
      ensures state == AfterSend(old(state), text, reply, userId, assistantId, sentAt, repliedAt)
      ensures request.None? <==> IsBlank(text)
      ensures request.Some? ==> request.value == ChatRequest(Trim(text), IdOrUndefined(old(state).conversationId))
    {
      if IsBlank(text) {
        return None;
      }
      var conversationId := state.conversationId;
      state := SendStarted(state, text, userId, sentAt);
      request := Some(ChatRequest(Trim(text), IdOrUndefined(conversationId)));
      match reply {
        case Ok(r) => state := SendSucceeded(state, r, assistantId, repliedAt);
        case Err(c) => state := SendFailed(state, c);
      }
    }

    /** `loadConversation(id)`, with the way the history request settles given as a parameter. */
    method LoadConversation(conversationId: string, history: Result<seq<ChatMessage>, Caught>)
      modifies this
      ensures history.Ok? ==> state == LoadSucceeded(LoadStarted(old(state)), conversationId, history.value)
      ensures history.Err? ==> state == LoadFailed(LoadStarted(old(state)), history.error)
    {
      state := LoadStarted(state);
      match history {
        case Ok(loaded) => state := LoadSucceeded(state, conversationId, loaded);
        case Err(c) => state := LoadFailed(state, c);
      }
    }
  }
}
