/**
 * Emoji reactions on one target (hooks/use-reactions.ts): the fetched
 * groups, the membership query, and the toggle that defers all counting to
 * a refetch.
 */
module Reactions {
  import opened Outcomes

  datatype ReactionGroup = ReactionGroup(emoji: string, count: int, userIds: seq<string>)

  datatype ReactionsState = ReactionsState(reactions: seq<ReactionGroup>, isLoading: bool, error: Option<string>)

  const InitialState := ReactionsState([], true, None)

  /**
   * `fetchReactions`: success replaces the groups with `data.reactions` (or
   * none); a non-OK answer records "Failed to fetch reactions", a rejection
   * its own message or "Unknown error"; loading ends either way.
   */
  function FetchReactions(s: ReactionsState, reply: Reply<Option<seq<ReactionGroup>>>): (r: ReactionsState)
    ensures !r.isLoading
    ensures reply.Ok? ==> r.reactions == reply.body.GetOr([]) && r.error.None?
    ensures reply.NotOk? ==> r.reactions == s.reactions && r.error == Some("Failed to fetch reactions")
    ensures reply.Rejected? ==> r.reactions == s.reactions && r.error == Some(RejectionText(reply.reason, "Unknown error"))
  {
    match reply
    case Ok(groups) => ReactionsState(groups.GetOr([]), false, None)
    case NotOk(_) => s.(isLoading := false, error := Some("Failed to fetch reactions"))
    case Rejected(reason) => s.(isLoading := false, error := Some(RejectionText(reason, "Unknown error")))
  }

  /** `reactions.find(r => r.emoji === emoji)`: the first group with that emoji. */
  function FindGroup(groups: seq<ReactionGroup>, emoji: string): (g: Option<nat>)
    ensures g.Some? ==> g.value < |groups| && groups[g.value].emoji == emoji
                        && forall k :: 0 <= k < g.value ==> groups[k].emoji != emoji
    ensures g.None? <==> forall k :: 0 <= k < |groups| ==> groups[k].emoji != emoji
    decreases |groups|
  {
    if |groups| == 0 then None
    else if groups[0].emoji == emoji then Some(0)
    else match FindGroup(groups[1..], emoji)
      case None => None
      case Some(i) => Some(i + 1)
  }

  /** `hasReacted`: whether the first group with that emoji lists the user; false when there is none. */
  function HasReacted(s: ReactionsState, emoji: string, userId: string): (b: bool)
    ensures (forall k :: 0 <= k < |s.reactions| ==> s.reactions[k].emoji != emoji) ==> !b
    ensures b <==> exists k :: 0 <= k < |s.reactions| && s.reactions[k].emoji == emoji
                              && (forall j :: 0 <= j < k ==> s.reactions[j].emoji != emoji)
                              && userId in s.reactions[k].userIds
  {
    match FindGroup(s.reactions, emoji)
    case None => false
    case Some(k) => userId in s.reactions[k].userIds
  }

  /** A user listed only under a later duplicate group does not count as having reacted. */
  lemma OnlyFirstGroupCounts(emoji: string, userId: string, later: seq<string>)
    requires userId in later
    ensures !HasReacted(ReactionsState([ReactionGroup(emoji, 0, []), ReactionGroup(emoji, |later|, later)], false, None),
                        emoji, userId)
  {
  }

  /** The POST body `toggle` sends. */
  datatype ToggleRequest = ToggleRequest(targetType: string, targetId: string, emoji: string)

  /**
   * What `toggle` did: its request, whether it asked for a refetch, the
   * groups it left, and whether its promise rejected (it has no `catch`).
   */
  datatype ToggleRun = ToggleRun(request: ToggleRequest, refetch: bool, state: ReactionsState, rejected: bool)

  /**
   * `toggle`: the groups are never edited locally; an OK answer triggers a
   * refetch (whose own outcome is a separate step), a non-OK answer nothing,
   * and a failed `fetch` rejects the caller's promise.
   */
  function Toggle(s: ReactionsState, targetType: string, targetId: string, emoji: string, reply: Reply<()>): (r: ToggleRun)
    ensures r.request == ToggleRequest(targetType, targetId, emoji)
    ensures r.refetch <==> reply.Ok?
    ensures r.state == s
    ensures r.rejected <==> reply.Rejected?
  {
    ToggleRun(ToggleRequest(targetType, targetId, emoji), reply.Ok?, s, reply.Rejected?)
  }

  /** After a toggle the groups shown are exactly what the refetch returned, or the old ones if it was not made. */
  lemma ToggleThenRefetch(s: ReactionsState, targetType: string, targetId: string, emoji: string,
                          reply: Reply<()>, groups: seq<ReactionGroup>)
    ensures var t := Toggle(s, targetType, targetId, emoji, reply);
            (if t.refetch then FetchReactions(t.state, Ok(Some(groups))) else t.state).reactions
            == (if reply.Ok? then groups else s.reactions)
  {
  }

  /** A refresh that fails keeps the groups the previous successful fetch loaded. */
  lemma FailedRefreshKeepsGroups(s: ReactionsState, groups: seq<ReactionGroup>,
                                 failure: Reply<Option<seq<ReactionGroup>>>)
    requires !failure.Ok?
    ensures FetchReactions(FetchReactions(s, Ok(Some(groups))), failure).reactions == groups
    ensures FetchReactions(FetchReactions(s, Ok(Some(groups))), failure).error.Some?
  {
  }
}
