/**
 * The conversation and message lists of hooks/use-messaging.ts
 * (`useConversations` and its own `useMessages`): fetch into a list,
 * conversation creation followed by a refresh, sending with a default
 * message type, and the best-effort read receipt.
 */
module Messaging {
  import opened Outcomes
  import opened Seqs

  datatype MessageType = TextType | ImageType | FileType | SystemType

  datatype Message = Message(
    id: string,
    conversationId: string,
    senderId: string,
    content: string,
    messageType: MessageType,
    readAt: Option<string>,
    createdAt: string)

  datatype Conversation = Conversation(
    id: string,
    title: Option<string>,
    isGroup: bool,
    lastMessageAt: string,
    userId: string,
    createdAt: string,
    updatedAt: string)

  /** A fetched list with its loading flag and error, as both hooks keep it. */
  datatype Listing<T> = Listing(items: seq<T>, isLoading: bool, error: Option<string>)

  /** The error a failed fetch records: the server's message or "Failed to fetch", or the thrown error's. */
  function FetchErrorText<T>(reply: Reply<T>): string
    requires !reply.Ok?
  {
    match reply
    case NotOk(m) => ServerMessageOr(m, "Failed to fetch")
    case Rejected(reason) => RejectionText(reason, "Unknown error")
  }

  /**
   * One fetch into a list (`json.data || []`): success replaces the items and
   * clears the error, failure records the error and keeps the items; the
   * loading flag is cleared either way.
   */
  function FetchInto<T>(s: Listing<T>, reply: Reply<Option<seq<T>>>): (r: Listing<T>)
    ensures !r.isLoading
    ensures reply.Ok? ==> r.items == reply.body.GetOr([]) && r.error.None?
    ensures !reply.Ok? ==> r.items == s.items && r.error == Some(FetchErrorText(reply))
  {
    match reply
    case Ok(data) => Listing(data.GetOr([]), false, None)
    case _ => Listing(s.items, false, Some(FetchErrorText(reply)))
  }

  /** `fetchConversations`: the conversation list takes the answer's data, or keeps its items and shows the error. */
  function FetchConversations(s: Listing<Conversation>, reply: Reply<Option<seq<Conversation>>>): (r: Listing<Conversation>)
    ensures !r.isLoading
    ensures reply.Ok? ==> r.items == reply.body.GetOr([]) && r.error.None?
    ensures !reply.Ok? ==> r.items == s.items && r.error.Some?
  {
    FetchInto(s, reply)
  }

  /** A successful fetch forgets whatever the list held before: its result depends on the answer alone. */
  lemma FetchSuccessForgetsPrior<T>(s: Listing<T>, t: Listing<T>, data: Option<seq<T>>)
    ensures FetchInto(s, Ok(data)) == FetchInto(t, Ok(data))
  {
  }

  /** A refresh that fails keeps the list the previous successful fetch loaded. */
  lemma FailedRefreshKeepsList<T>(s: Listing<T>, items: seq<T>, failure: Reply<Option<seq<T>>>)
    requires !failure.Ok?
    ensures FetchInto(FetchInto(s, Ok(Some(items))), failure).items == items
    ensures FetchInto(FetchInto(s, Ok(Some(items))), failure).error.Some?
  {
  }

  datatype CreateRun = CreateRun(conversations: Listing<Conversation>, created: Option<Conversation>)

  /**
   * `createConversation`: on success the list is refreshed (with the
   * refresh's own outcome) and the created conversation returned; on failure
   * null is returned and nothing is refreshed.
   */
  function CreateConversation(s: Listing<Conversation>, reply: Reply<Conversation>,
                              refresh: Reply<Option<seq<Conversation>>>): (r: CreateRun)
    ensures reply.Ok? ==> r.created == Some(reply.body) && r.conversations == FetchConversations(s, refresh)
    ensures !reply.Ok? ==> r.created.None? && r.conversations == s
  {
    match reply
    case Ok(c) => CreateRun(FetchConversations(s, refresh), Some(c))
    case _ => CreateRun(s, None)
  }

  /** A failed refresh after a successful creation still returns the created conversation. */
  lemma CreateSurvivesFailedRefresh(s: Listing<Conversation>, c: Conversation, refresh: Reply<Option<seq<Conversation>>>)
    requires !refresh.Ok?
    ensures CreateConversation(s, Ok(c), refresh) == CreateRun(s.(isLoading := false, error := Some(FetchErrorText(refresh))), Some(c))
  {
  }

  /** `fetchMessages`: nothing for an empty conversation id, otherwise a fetch into the list. */
  function FetchMessages(s: Listing<Message>, conversationId: string, reply: Reply<Option<seq<Message>>>): (r: Listing<Message>)
    ensures conversationId == "" ==> r == s
    ensures conversationId != "" && reply.Ok? ==> r.items == reply.body.GetOr([]) && r.error.None?
    ensures conversationId != "" && !reply.Ok? ==> r.items == s.items && r.error.Some?
  {
    if conversationId == "" then s else FetchInto(s, reply)
  }

  /**
   * The `message_type` a caller of `sendMessage` passes: left out, present
   * but `undefined`, or a value.
   */
  datatype MessageTypeArg = Omitted | ExplicitUndefined | Given(t: MessageType)

  /**
   * The POST body of `sendMessage`: `{ message_type: "text", ...params }`
   * serialised, so an explicit `undefined` overrides the default and the key
   * is then dropped by `JSON.stringify` (`messageType` is `None`).
   */
  datatype OutgoingMessage = OutgoingMessage(content: string, messageType: Option<MessageType>)

  function RequestType(arg: MessageTypeArg): (t: Option<MessageType>)
    ensures arg.Omitted? ==> t == Some(TextType)
    ensures arg.ExplicitUndefined? ==> t.None?
    ensures arg.Given? ==> t == Some(arg.t)
  {
    match arg
    case Omitted => Some(TextType)
    case ExplicitUndefined => None
    case Given(t) => Some(t)
  }

  datatype SendRun = SendRun(request: OutgoingMessage, messages: Listing<Message>, sent: Option<Message>)

  /**
   * `sendMessage`: the request carries message type "text" unless the
   * caller's parameters override it; the server's record is appended at the
   * tail and returned on success; on failure null is returned and the list
   * is unchanged.
   */
  function SendMessage(s: Listing<Message>, content: string, messageType: MessageTypeArg, reply: Reply<Message>): (r: SendRun)
    ensures r.request.content == content
    ensures r.request.messageType == RequestType(messageType)
    ensures reply.Ok? ==> r.sent == Some(reply.body) && r.messages.items == s.items + [reply.body]
    ensures !reply.Ok? ==> r.sent.None? && r.messages == s
  {
    var request := OutgoingMessage(content, RequestType(messageType));
    match reply
    case Ok(m) => SendRun(request, s.(items := s.items + [m]), Some(m))
    case _ => SendRun(request, s, None)
  }

  /**
   * A successful send grows the list by exactly one, the returned record,
   * with the old list as prefix; loading flag and error are untouched.
   */
  lemma SendAppendsOnce(s: Listing<Message>, content: string, messageType: MessageTypeArg, m: Message)
    ensures var r := SendMessage(s, content, messageType, Ok(m));
            |r.messages.items| == |s.items| + 1 && r.messages.items[..|s.items|] == s.items
            && r.messages.items[|s.items|] == m && r.sent == Some(m)
            && r.messages.isLoading == s.isLoading && r.messages.error == s.error
  {
  }

  /** Only an explicit `undefined` leaves the type out of the request; otherwise one is always sent. */
  lemma RequestTypeAbsentIffUndefined(arg: MessageTypeArg)
    ensures RequestType(arg).None? <==> arg == ExplicitUndefined
  {
  }

  function HasId(id: string): Message -> bool {
    (m: Message) => m.id == id
  }

  function StampRead(now: string): Message -> Message {
    (m: Message) => m.(readAt := Some(now))
  }

  /**
   * `markRead`: once the PATCH request resolves (whatever its HTTP status)
   * the messages with that id get `read_at` stamped; when it rejects nothing
   * changes. Length, order and every other field are kept.
   */
  function MarkRead(s: Listing<Message>, messageId: string, now: string, resolved: bool): (r: Listing<Message>)
    ensures r.isLoading == s.isLoading && r.error == s.error
    ensures |r.items| == |s.items|
    ensures forall i :: 0 <= i < |s.items| && resolved && s.items[i].id == messageId ==>
              r.items[i] == s.items[i].(readAt := Some(now))
    ensures forall i :: 0 <= i < |s.items| && (!resolved || s.items[i].id != messageId) ==>
              r.items[i] == s.items[i]
  {
    if resolved then s.(items := UpdateWhere(s.items, HasId(messageId), StampRead(now))) else s
  }

  /** Marking an id that is not in the list leaves the list as it was. */
  lemma MarkReadAbsentIsNoop(s: Listing<Message>, messageId: string, now: string, resolved: bool)
    requires forall i :: 0 <= i < |s.items| ==> s.items[i].id != messageId
    ensures MarkRead(s, messageId, now, resolved) == s
  {
    var r := MarkRead(s, messageId, now, resolved);
    assert r.items == s.items;
  }

  /** Marking the same message twice with the same time is marking it once. */
  lemma MarkReadIdempotent(s: Listing<Message>, messageId: string, now: string)
    ensures MarkRead(MarkRead(s, messageId, now, true), messageId, now, true) == MarkRead(s, messageId, now, true)
  {
    var once := MarkRead(s, messageId, now, true);
    var twice := MarkRead(once, messageId, now, true);
    assert twice.items == once.items;
  }
}
