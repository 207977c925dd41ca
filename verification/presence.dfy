/**
 * Online and typing presence for a conversation (hooks/use-presence.ts).
 * The realtime service is not modelled: a presence sync delivers its
 * snapshot as an input, and opening or removing a channel is recorded in a
 * log so that the hook's single-channel bookkeeping can be stated.
 */
module Presence {
  import opened Outcomes
  import opened Seqs

  datatype PresenceUser = PresenceUser(userId: string, onlineAt: string, isTyping: bool)

  /** `Object.entries(presenceState)`: each presence key with the entries announced under it. */
  type PresenceSnapshot = seq<(string, seq<PresenceUser>)>

  /** The sync callback's nested loop: every entry under every key, keys in order. */
  function Flatten(snapshot: PresenceSnapshot): (r: seq<PresenceUser>)
    ensures forall u :: u in r <==> exists i :: 0 <= i < |snapshot| && u in snapshot[i].1
    decreases |snapshot|
  {
    if |snapshot| == 0 then []
    else
      var rest := Flatten(snapshot[1..]);
      assert forall u :: (exists i :: 0 <= i < |snapshot| && u in snapshot[i].1) <==>
                         u in snapshot[0].1 || (exists j :: 0 <= j < |snapshot[1..]| && u in snapshot[1..][j].1) by {
        forall u | exists i :: 0 <= i < |snapshot| && u in snapshot[i].1
          ensures u in snapshot[0].1 || (exists j :: 0 <= j < |snapshot[1..]| && u in snapshot[1..][j].1)
        {
          var i :| 0 <= i < |snapshot| && u in snapshot[i].1;
          if i > 0 {
            assert u in snapshot[1..][i - 1].1;
          }
        }
      }
      snapshot[0].1 + rest
  }

  /** Flattening a snapshot of one key yields that key's entries. */
  lemma FlattenSingle(key: string, entries: seq<PresenceUser>)
    ensures Flatten([(key, entries)]) == entries
  {
    assert [(key, entries)][1..] == [];
  }

  /** Flattening respects concatenation: keys earlier in the snapshot contribute their entries earlier. */
  lemma {:induction false} FlattenConcat(a: PresenceSnapshot, b: PresenceSnapshot)
    ensures Flatten(a + b) == Flatten(a) + Flatten(b)
    decreases |a|
  {
    if |a| == 0 {
      assert a + b == b;
    } else {
      assert (a + b)[0] == a[0];
      assert (a + b)[1..] == a[1..] + b;
      FlattenConcat(a[1..], b);
    }
  }

  /** Number of entries in a snapshot. */
  function EntryCount(snapshot: PresenceSnapshot): nat
    decreases |snapshot|
  {
    if |snapshot| == 0 then 0 else |snapshot[0].1| + EntryCount(snapshot[1..])
  }

  /** Flattening neither loses nor invents entries: its length is the entry count. */
  lemma {:induction false} FlattenLength(snapshot: PresenceSnapshot)
    ensures |Flatten(snapshot)| == EntryCount(snapshot)
    decreases |snapshot|
  {
    if |snapshot| > 0 {
      FlattenLength(snapshot[1..]);
    }
  }

  /** The entries `typingUsers` keeps: typing, and not the current user. */
  function TypingOther(self: Option<string>): PresenceUser -> bool {
    (u: PresenceUser) => u.isTyping && (self.None? || u.userId != self.value)
  }

  /** `onlineUsers.filter(u => u.is_typing && u.user_id !== userId)`. */
  function TypingUsers(online: seq<PresenceUser>, self: Option<string>): (r: seq<PresenceUser>)
    ensures forall u :: u in r <==> u in online && u.isTyping && (self.None? || u.userId != self.value)
    ensures self.Some? ==> forall i :: 0 <= i < |r| ==> r[i].userId != self.value
    ensures IsSubsequence(r, online)
    ensures |r| == |online| - Count(Not(TypingOther(self)), online)
  {
    FilterIsSubsequence(TypingOther(self), online);
    FilterPartition(TypingOther(self), online);
    Filter(TypingOther(self), online)
  }

  /**
   * For every snapshot, the typing list is exactly the typing entries of
   * other users found under some key; the current user never appears in it.
   */
  lemma TypingUsersOfSnapshot(snapshot: PresenceSnapshot, self: string)
    ensures forall u :: u in TypingUsers(Flatten(snapshot), Some(self)) <==>
              u.isTyping && u.userId != self && exists i :: 0 <= i < |snapshot| && u in snapshot[i].1
  {
  }

  /** Filtering the typing list again changes nothing. */
  lemma TypingUsersIdempotent(online: seq<PresenceUser>, self: Option<string>)
    ensures TypingUsers(TypingUsers(online, self), self) == TypingUsers(online, self)
  {
    FilterIdempotent(TypingOther(self), online);
  }

  /** A snapshot with A typing and B idle: A is excluded for self A, and is the only one for self C. */
  lemma TypingScenario(a: PresenceUser, b: PresenceUser, c: string)
    requires a.isTyping && !b.isTyping && c != a.userId
    ensures TypingUsers(Flatten([("a", [a]), ("b", [b])]), Some(a.userId)) == []
    ensures TypingUsers(Flatten([("a", [a]), ("b", [b])]), Some(c)) == [a]
  {
    var online := Flatten([("a", [a]), ("b", [b])]);
    assert online == [a, b] by {
      assert Flatten([("a", [a]), ("b", [b])][1..]) == Flatten([("b", [b])]);
      assert Flatten([("b", [b])][1..]) == [];
    }
    assert Filter(TypingOther(Some(a.userId)), [b]) == [];
    assert Filter(TypingOther(Some(c)), [b]) == [];
  }

  /** A channel the hook opened; `serial` tells apart channels opened for the same pair. */
  datatype Channel = Channel(serial: nat, conversationId: string, userId: string)

  /**
   * The hook's state: the channel reference, the log of channels opened and
   * removed so far, and the online users of the latest sync.
   */
  datatype PresenceHook = PresenceHook(
    held: Option<Channel>,
    openLog: seq<Channel>,
    removeLog: seq<Channel>,
    onlineUsers: seq<PresenceUser>)

  const InitialHook := PresenceHook(None, [], [], [])

  /** Channels opened and not yet removed. */
  ghost function LiveChannels(h: PresenceHook): set<Channel> {
    set c | c in h.openLog && c !in h.removeLog
  }

  /**
   * The bookkeeping invariant: serials number the opened channels, only
   * opened channels are removed, and the live channels are exactly the held one.
   */
  ghost predicate Valid(h: PresenceHook) {
    && (forall i :: 0 <= i < |h.openLog| ==> h.openLog[i].serial == i)
    && (forall c :: c in h.removeLog ==> c in h.openLog)
    && (h.held.Some? ==> h.held.value in h.openLog && h.held.value !in h.removeLog)
    && (forall c :: c in h.openLog && c !in h.removeLog ==> h.held == Some(c))
  }

  /** A valid hook has at most one live channel: the one it holds. */
  lemma AtMostOneLive(h: PresenceHook)
    requires Valid(h)
    ensures LiveChannels(h) == (if h.held.Some? then {h.held.value} else {})
  {
  }

  /** The held channel, if any, removed. */
  function ReleaseHeld(h: PresenceHook): (r: PresenceHook)
    ensures r.held.None? && r.openLog == h.openLog
    ensures h.held.Some? ==> r.removeLog == h.removeLog + [h.held.value]
    ensures h.held.None? ==> r.removeLog == h.removeLog
  {
    match h.held
    case Some(c) => h.(held := None, removeLog := h.removeLog + [c])
    case None => h
  }

  /**
   * The effect body: nothing without both ids; otherwise any held channel
   * is removed first, then a new channel is opened and held.
   */
  function Subscribe(h: PresenceHook, conversationId: Option<string>, userId: Option<string>): (r: PresenceHook)
    ensures !(Present(conversationId) && Present(userId)) ==> r == h
    ensures Present(conversationId) && Present(userId) ==>
              r.held == Some(Channel(|h.openLog|, conversationId.value, userId.value))
              && r.openLog == h.openLog + [r.held.value]
  {
    if Present(conversationId) && Present(userId) then
      var released := ReleaseHeld(h);
      var channel := Channel(|h.openLog|, conversationId.value, userId.value);
      released.(held := Some(channel), openLog := released.openLog + [channel])
    else h
  }

  /** The effect's cleanup: remove the held channel and forget it. */
  function Cleanup(h: PresenceHook): (r: PresenceHook)
    ensures r.held.None?
  {
    ReleaseHeld(h)
  }

  /** A sync replaces the online users with the flattened snapshot, whatever they were. */
  function Sync(h: PresenceHook, snapshot: PresenceSnapshot): (r: PresenceHook)
    ensures r.onlineUsers == Flatten(snapshot)
    ensures r.held == h.held && r.openLog == h.openLog && r.removeLog == h.removeLog
  {
    h.(onlineUsers := Flatten(snapshot))
  }

  lemma InitialValid()
    ensures Valid(InitialHook)
  {
  }

  /** Subscribing never leaves two live channels: the old one is removed before the new one is held. */
  lemma SubscribePreservesValid(h: PresenceHook, conversationId: Option<string>, userId: Option<string>)
    requires Valid(h)
    ensures Valid(Subscribe(h, conversationId, userId))
  {
    if Present(conversationId) && Present(userId) {
      var r := Subscribe(h, conversationId, userId);
      var newChannel := r.held.value;
      forall c | c in h.openLog
        ensures c != newChannel
      {
        var i :| 0 <= i < |h.openLog| && h.openLog[i] == c;
      }
      assert newChannel !in h.removeLog;
    }
  }

  /** Cleanup keeps the invariant and leaves no live channel at all. */
  lemma CleanupPreservesValid(h: PresenceHook)
    requires Valid(h)
    ensures Valid(Cleanup(h)) && LiveChannels(Cleanup(h)) == {}
  {
    AtMostOneLive(Cleanup(h));
  }

  /** The announcement `setTyping` publishes on the held channel. */
  datatype TrackCall = TrackCall(channel: Channel, userId: string, isTyping: bool)

  /** `setTyping`: a publish on the held channel, or nothing without a channel or a user id. */
  function SetTyping(h: PresenceHook, userId: Option<string>, isTyping: bool): (r: Option<TrackCall>)
    ensures r.Some? <==> h.held.Some? && Present(userId)
    ensures r.Some? ==> r.value == TrackCall(h.held.value, userId.value, isTyping)
  {
    if h.held.Some? && Present(userId) then Some(TrackCall(h.held.value, userId.value, isTyping)) else None
  }

  /** A valid hook publishes typing only on its one live channel, and never after cleanup. */
  lemma SetTypingUsesLiveChannel(h: PresenceHook, userId: Option<string>, isTyping: bool)
    requires Valid(h)
    ensures var r := SetTyping(h, userId, isTyping);
            r.Some? ==> r.value.channel in LiveChannels(h)
    ensures SetTyping(Cleanup(h), userId, isTyping).None?
  {
  }
}
