/**
 * The paged message list of one conversation (`useMessages` in
 * hooks/use-messages.ts). A page fetch is split into its two halves: the
 * synchronous start (loading flag set, error cleared) and the completion,
 * which applies the server's answer to whatever the list is by then. The
 * code performs no de-duplication, no re-sorting and no stale-response check,
 * and neither does this model.
 */
module MessageStream {
  import opened Outcomes
  import opened Text

  datatype BodyType = PlainText | Image | Attachment

  datatype Message = Message(
    id: string,
    conversationId: string,
    senderId: string,
    body: string,
    bodyType: BodyType,
    createdAt: string)

  datatype StreamState = StreamState(
    messages: seq<Message>,
    isLoading: bool,
    error: Option<string>,
    hasMore: bool)

  /** The `limit` of every page request; a shorter page means there is no older one. */
  const PageSize: nat := 50

  /** The hook's first render: empty list, not loading, no error, `hasMore` true. */
  const InitialState := StreamState([], false, None, true)

  /** The answer to `GET /api/messages`: `data.items`, possibly absent. */
  type PageReply = Reply<Option<seq<Message>>>

  /** The start of `fetchMessages`: nothing without a conversation, otherwise loading with the error cleared. */
  function FetchStart(s: StreamState, conversationId: Option<string>): (r: StreamState)
    ensures !Present(conversationId) ==> r == s
    ensures Present(conversationId) ==> r == s.(isLoading := true, error := None)
  {
    if Present(conversationId) then s.(isLoading := true, error := None) else s
  }

  /**
   * The completion of `fetchMessages(before)`, applied to the list as it is
   * when the answer arrives. A page fetched with a (truthy) cursor is put in
   * front of the current list, one fetched without replaces it; `hasMore`
   * records whether the page was full. A failed fetch records the error and
   * keeps list and `hasMore`. Loading always ends.
   */
  function FetchComplete(s: StreamState, before: Option<string>, reply: PageReply): (r: StreamState)
    ensures !r.isLoading
    ensures reply.Ok? && Present(before) ==> r.messages == reply.body.GetOr([]) + s.messages
    ensures reply.Ok? && !Present(before) ==> r.messages == reply.body.GetOr([])
    ensures reply.Ok? ==> (r.hasMore <==> |reply.body.GetOr([])| >= PageSize) && r.error == s.error
    ensures reply.NotOk? ==> r.error == Some("Failed to fetch messages")
    ensures reply.Rejected? ==> r.error == Some(RejectionText(reply.reason, "Unknown error"))
    ensures !reply.Ok? ==> r.messages == s.messages && r.hasMore == s.hasMore
  {
    match reply
    case Ok(body) =>
      var items := body.GetOr([]);
      s.(messages := if Present(before) then items + s.messages else items,
         hasMore := |items| >= PageSize,
         isLoading := false)
    case NotOk(_) =>
      s.(error := Some("Failed to fetch messages"), isLoading := false)
    case Rejected(reason) =>
      s.(error := Some(RejectionText(reason, "Unknown error")), isLoading := false)
  }

  /**
   * `fetchMessages(before)` with nothing happening in between its start and
   * its completion: the error cleared at the start stays cleared on success,
   * and a failure leaves the list as it was.
   */
  function FetchMessages(s: StreamState, conversationId: Option<string>, before: Option<string>, reply: PageReply): (r: StreamState)
    ensures !Present(conversationId) ==> r == s
    ensures Present(conversationId) ==> !r.isLoading
    ensures Present(conversationId) && reply.Ok? ==> r.error.None?
    ensures Present(conversationId) && !reply.Ok? ==> r.error.Some? && r.messages == s.messages && r.hasMore == s.hasMore
  {
    if Present(conversationId) then FetchComplete(FetchStart(s, conversationId), before, reply) else s
  }

  /** A page fetched with a cursor keeps the old list intact as the suffix of the new one. */
  lemma PrependKeepsOldSuffix(s: StreamState, conversationId: Option<string>, before: Option<string>, page: Option<seq<Message>>)
    requires Present(conversationId) && Present(before)
    ensures var r := FetchMessages(s, conversationId, before, Ok(page));
            |r.messages| == |page.GetOr([])| + |s.messages|
            && r.messages[|page.GetOr([])|..] == s.messages
            && r.messages[..|page.GetOr([])|] == page.GetOr([])
  {
  }

  /** A failed page load sets the error and leaves the list untouched. */
  lemma FailedLoadKeepsList(s: StreamState, conversationId: Option<string>, before: Option<string>, reply: PageReply)
    requires Present(conversationId) && !reply.Ok?
    ensures var r := FetchMessages(s, conversationId, before, reply);
            r.messages == s.messages && r.error.Some? && !r.isLoading
  {
  }

  /**
   * Messages appended while a cursor fetch is in flight survive it (the
   * update is applied to the list as it then is), whereas an uncursored
   * fetch discards them: its result does not depend on the list at all.
   */
  lemma CompletionSeesInterleavedAppend(s: StreamState, m: Message, before: Option<string>, page: seq<Message>)
    ensures var r := FetchComplete(s.(messages := s.messages + [m]), before, Ok(Some(page)));
            (Present(before) ==> r.messages == page + s.messages + [m])
            && (!Present(before) ==> r.messages == page)
  {
  }

  /**
   * The effect run when the conversation changes: for a conversation, the
   * list is cleared and the initial (uncursored) page is fetched; with no
   * conversation nothing happens.
   */
  function ConversationChanged(s: StreamState, conversationId: Option<string>, reply: PageReply): (r: StreamState)
    ensures !Present(conversationId) ==> r == s
    ensures Present(conversationId) ==> !r.isLoading
    ensures Present(conversationId) && reply.Ok? ==> r.messages == reply.body.GetOr([])
    ensures Present(conversationId) && !reply.Ok? ==> r.messages == [] && r.error.Some?
  {
    if Present(conversationId) then FetchMessages(s.(messages := []), conversationId, None, reply) else s
  }

  /**
   * Switching conversations forgets the old list: two states that differ only
   * in their messages end the switch identical.
   */
  lemma SwitchForgetsOldList(s: StreamState, t: StreamState, conversationId: Option<string>, reply: PageReply)
    requires Present(conversationId)
    requires s.(messages := []) == t.(messages := [])
    ensures ConversationChanged(s, conversationId, reply) == ConversationChanged(t, conversationId, reply)
  {
  }

  /** The cursor `loadMore` requests with: the oldest held message's timestamp, only while `hasMore`. */
  function LoadMoreCursor(s: StreamState): (c: Option<string>)
    ensures c.Some? <==> |s.messages| > 0 && s.hasMore
    ensures c.Some? ==> c.value == s.messages[0].createdAt
  {
    if |s.messages| > 0 && s.hasMore then Some(s.messages[0].createdAt) else None
  }

  /** `loadMore`: a cursor fetch when there is a cursor, nothing otherwise. */
  function LoadMore(s: StreamState, conversationId: Option<string>, reply: PageReply): (r: StreamState)
    ensures LoadMoreCursor(s).None? ==> r == s
  {
    match LoadMoreCursor(s)
    case None => s
    case Some(cursor) => FetchMessages(s, conversationId, Some(cursor), reply)
  }

  /**
   * After a successful `loadMore` the older page is in front of the held
   * messages, and `hasMore` says whether that page was full.
   */
  lemma LoadMorePrepends(s: StreamState, conversationId: Option<string>, page: Option<seq<Message>>)
    requires Present(conversationId) && |s.messages| > 0 && s.hasMore && s.messages[0].createdAt != ""
    ensures var r := LoadMore(s, conversationId, Ok(page));
            r.messages == page.GetOr([]) + s.messages
            && (r.hasMore <==> |page.GetOr([])| >= PageSize)
  {
  }

  /** Once a short page has been seen, `loadMore` does nothing. */
  lemma LoadMoreStopsAfterShortPage(s: StreamState, conversationId: Option<string>, before: Option<string>,
                                    page: seq<Message>, next: PageReply)
    requires Present(conversationId) && |page| < PageSize
    ensures var r := FetchMessages(s, conversationId, before, Ok(Some(page)));
            LoadMore(r, conversationId, next) == r
  {
  }

  /** The POST body `send` issues. */
  datatype OutgoingMessage = OutgoingMessage(conversationId: string, body: string, bodyType: BodyType)

  /**
   * The request `send` makes: none without a conversation or for a blank
   * body, else the trimmed body; an omitted (or `undefined`) type is "text".
   */
  function SendRequest(conversationId: Option<string>, body: string, bodyType: Option<BodyType>): (q: Option<OutgoingMessage>)
    ensures q.Some? <==> Present(conversationId) && !IsBlank(body)
    ensures q.Some? ==> q.value.conversationId == conversationId.value && q.value.body == Trim(body)
    ensures q.Some? && bodyType.Some? ==> q.value.bodyType == bodyType.value
    ensures q.Some? && bodyType.None? ==> q.value.bodyType == PlainText
  {
    TrimEmptyIffBlank(body);
    if !Present(conversationId) || Trim(body) == "" then None
    else Some(OutgoingMessage(conversationId.value, Trim(body), bodyType.GetOr(PlainText)))
  }

  /** Leaving the type out sends the same request as asking for "text". */
  lemma OmittedTypeIsText(conversationId: Option<string>, body: string)
    ensures SendRequest(conversationId, body, None) == SendRequest(conversationId, body, Some(PlainText))
  {
  }

  /** What `send` issued, the list it leaves, and whether its promise rejected (it has no `catch`). */
  datatype SendRun = SendRun(request: Option<OutgoingMessage>, state: StreamState, rejected: bool)

  /**
   * `send`: when a request is made and answered OK, the returned message is
   * appended once at the tail; any other answer, or no request at all,
   * leaves the state as it was. A failed `fetch` rejects the caller's promise.
   */
  function Send(s: StreamState, conversationId: Option<string>, body: string, bodyType: Option<BodyType>,
                reply: Reply<Message>): (r: SendRun)
    ensures r.request.Some? <==> Present(conversationId) && !IsBlank(body)
    ensures r.request.Some? ==> r.request.value == OutgoingMessage(conversationId.value, Trim(body), bodyType.GetOr(PlainText))
    ensures r.request.Some? && reply.Ok? ==> r.state == s.(messages := s.messages + [reply.body])
    ensures r.request.None? || !reply.Ok? ==> r.state == s
    ensures r.rejected <==> r.request.Some? && reply.Rejected?
  {
    var request := SendRequest(conversationId, body, bodyType);
    if request.Some? && reply.Ok? then SendRun(request, s.(messages := s.messages + [reply.body]), false)
    else SendRun(request, s, request.Some? && reply.Rejected?)
  }

  /** A blank body is rejected locally: no request, no change and no rejection, whatever the conversation. */
  lemma BlankSendIsNoop(s: StreamState, conversationId: Option<string>, body: string, bodyType: Option<BodyType>,
                        reply: Reply<Message>)
    requires IsBlank(body)
    ensures Send(s, conversationId, body, bodyType, reply) == SendRun(None, s, false)
  {
  }

  /** A successful send grows the list by exactly one, the server's record, with the old list as prefix. */
  lemma SendAppendsOnce(s: StreamState, conversationId: Option<string>, body: string, bodyType: Option<BodyType>, m: Message)
    requires Present(conversationId) && !IsBlank(body)
    ensures var r := Send(s, conversationId, body, bodyType, Ok(m)).state;
            |r.messages| == |s.messages| + 1 && r.messages[..|s.messages|] == s.messages
            && r.messages[|s.messages|] == m
  {
  }
}
