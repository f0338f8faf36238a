/**
 * The client's message list (MessageContext): a sequence keyed by `_id` that
 * a fetch replaces with one conversation's history and that push messages of
 * any conversation extend, the active conversation id, the per-user typing
 * flags and the typing-expiry timers still pending.
 */
module Messages {
  import opened Wrappers
  import opened Seqs
  import opened ChatTypes
  import opened Sockets

  /** What `getChatMessages` resolves to: an array, or a single object. */
  datatype FetchBody = List(messages: seq<Message>) | Single(message: Message)

  /** The body as a list: an array is taken as it is, a single object becomes a one-element list. */
  function AsList(b: FetchBody): (r: seq<Message>)
    ensures b.List? ==> r == b.messages
    ensures b.Single? ==> |r| == 1 && r[0] == b.message
  {
    match b
    case List(ms) => ms
    case Single(m) => [m]
  }

  // ---------------------------------------------------------------------
  // Updaters passed to setMessages and setTypingUsers
  // ---------------------------------------------------------------------

  /** `handleReceiveMessage`: append at the tail unless the `_id` is already listed. */
  function AppendIfAbsent(s: seq<Message>, m: Message): (r: seq<Message>)
    ensures s <= r
    ensures HasKey(MessageKey, s, m.id) ==> r == s
    ensures !HasKey(MessageKey, s, m.id) ==> |r| == |s| + 1 && r[|s|] == m
    ensures HasKey(MessageKey, r, m.id)
    ensures UniqueKeys(MessageKey, s) ==> UniqueKeys(MessageKey, r)
  {
    if HasKey(MessageKey, s, m.id) then s
    else
      assert (s + [m])[|s|] == m;
      s + [m]
  }

  /** The swap of a server copy: every entry with `id` becomes `m` where it stands; the others stay. */
  function ReplaceById(s: seq<Message>, id: string, m: Message): (r: seq<Message>)
    ensures |r| == |s|
    ensures forall i :: 0 <= i < |s| && s[i].id == id ==> r[i] == m
    ensures forall i :: 0 <= i < |s| && s[i].id != id ==> r[i] == s[i]
  {
    seq(|s|, i requires 0 <= i < |s| => if s[i].id == id then m else s[i])
  }

  /**
   * The spread merge of an edit: each field the patch carries replaces the
   * message's own, the others stay, and the edit time is stamped.
   */
  function Merged(m: Message, p: Patch, now: string): (r: Message)
    ensures r.id == m.id && r.senderId == m.senderId
    ensures r.conversationId == m.conversationId && r.createdAt == m.createdAt
    ensures r.updatedAt == now
    ensures r.content == (if p.content.Some? then p.content.value else m.content)
    ensures r.messageType == (if p.messageType.Some? then p.messageType.value else m.messageType)
    ensures r.attachments == (if p.attachments.Some? then p.attachments.value else m.attachments)
    ensures p == Patch(None, None, None) ==> r == m.(updatedAt := now)
  {
    m.(content := if p.content.Some? then p.content.value else m.content,
       messageType := if p.messageType.Some? then p.messageType.value else m.messageType,
       attachments := if p.attachments.Some? then p.attachments.value else m.attachments,
       updatedAt := now)
  }

  /** The optimistic edit: merge the patch into exactly the entries with `id`. */
  function MergeById(s: seq<Message>, id: string, p: Patch, now: string): (r: seq<Message>)
    ensures |r| == |s|
    ensures forall i :: 0 <= i < |s| ==>
      && r[i].id == s[i].id && r[i].senderId == s[i].senderId
      && r[i].conversationId == s[i].conversationId && r[i].createdAt == s[i].createdAt
    ensures forall i :: 0 <= i < |s| && s[i].id == id ==>
      && r[i].updatedAt == now
      && r[i].content == (if p.content.Some? then p.content.value else s[i].content)
      && r[i].messageType == (if p.messageType.Some? then p.messageType.value else s[i].messageType)
      && r[i].attachments == (if p.attachments.Some? then p.attachments.value else s[i].attachments)
    ensures forall i :: 0 <= i < |s| && s[i].id != id ==> r[i] == s[i]
  {
    seq(|s|, i requires 0 <= i < |s| => if s[i].id == id then Merged(s[i], p, now) else s[i])
  }

  /** The optimistic delete: drop every entry with `id`; the rest keep their order. */
  function RemoveById(s: seq<Message>, id: string): (r: seq<Message>)
    ensures !HasKey(MessageKey, r, id)
    ensures forall i :: 0 <= i < |s| && s[i].id != id ==> s[i] in r
    ensures forall i :: 0 <= i < |r| ==> r[i] in s
    ensures IsSubsequence(r, s)
    ensures r == s <==> !HasKey(MessageKey, s, id)
    ensures UniqueKeys(MessageKey, s) ==> UniqueKeys(MessageKey, r)
    ensures forall m :: multiset(r)[m] == if m.id == id then 0 else multiset(s)[m]
  {
    WithoutKeyIsSubsequence(MessageKey, s, id);
    WithoutKeyUnchanged(MessageKey, s, id);
    WithoutKeyKeepsUnique(MessageKey, s, id);
    assert forall m :: multiset(WithoutKey(MessageKey, s, id))[m] == if m.id == id then 0 else multiset(s)[m] by {
      forall m { WithoutKeyCounts(MessageKey, s, id, m); }
    }
    WithoutKey(MessageKey, s, id)
  }

  /** The typing-flag update: one user's flag set, every other flag as it was. */
  function SetTyping(m: map<string, bool>, userId: string, isTyping: bool): (r: map<string, bool>)
    ensures userId in r && r[userId] == isTyping
    ensures r.Keys == m.Keys + {userId}
    ensures forall k :: k in m && k != userId ==> r[k] == m[k]
  {
    m[userId := isTyping]
  }

  // ---------------------------------------------------------------------
  // The provider
  // ---------------------------------------------------------------------

  /** The provider's state and its async operations, each run to completion. */
  class MessageProvider {
    var messages: seq<Message>
    var loading: bool
    var activeChatId: string
    var typingUsers: map<string, bool>
    /** The expiry timers scheduled and not yet fired, one entry per timer, by user id. */
    var pendingExpiries: multiset<string>

    constructor ()
      ensures messages == [] && !loading && activeChatId == "" && typingUsers == map[]
      ensures pendingExpiries == multiset{}
    {
      messages := [];
      loading := false;
      activeChatId := "";
      typingUsers := map[];
      pendingExpiries := multiset{};
    }

    /**
     * `fetchMessages`: nothing for an empty id; on success the list is
     * replaced, the chat becomes active and the room is joined through
     * `socket?.emit`, which checks for a socket but not for a connection.
     */
    method FetchMessages(conversationId: string, link: Link, response: Rest<FetchBody>) returns (emitted: Option<Emission>)
      modifies this`messages, this`loading, this`activeChatId
      ensures conversationId == "" ==>
        messages == old(messages) && loading == old(loading) && activeChatId == old(activeChatId) && emitted == None
      ensures conversationId != "" ==> !loading
      ensures conversationId != "" && response.Resolved? ==>
        && messages == AsList(response.value)
        && activeChatId == conversationId
        && emitted == (if link.hasSocket then Some(Emission.JoinChat(conversationId)) else None)
      ensures conversationId != "" && response.Rejected? ==>
        messages == old(messages) && activeChatId == old(activeChatId) && emitted == None
    {
      emitted := None;
      if conversationId == "" {
        return;
      }
      loading := true;
      match response {
        case Resolved(data) =>
          messages := AsList(data);
          activeChatId := conversationId;
          if link.hasSocket {
            emitted := Some(Emission.JoinChat(conversationId));
          }
        case Rejected(_) =>
      }
      loading := false;
    }

    /** `refreshMessages`: fetch the active chat again, if there is one. */
    method RefreshMessages(link: Link, response: Rest<FetchBody>) returns (emitted: Option<Emission>)
      modifies this`messages, this`loading, this`activeChatId
      ensures activeChatId == old(activeChatId)
      ensures old(activeChatId) == "" ==> messages == old(messages) && loading == old(loading) && emitted == None
      ensures old(activeChatId) != "" ==> !loading
      ensures old(activeChatId) != "" && response.Resolved? ==>
        && messages == AsList(response.value)
        && emitted == (if link.hasSocket then Some(Emission.JoinChat(old(activeChatId))) else None)
      ensures response.Rejected? ==> messages == old(messages) && emitted == None
    {
      emitted := None;
      if activeChatId != "" {
        emitted := FetchMessages(activeChatId, link, response);
      }
    }

    /** `setActiveChat`. */
    method SetActiveChat(conversationId: string)
      modifies this`activeChatId
      ensures activeChatId == conversationId
    {
      activeChatId := conversationId;
    }

    /**
     * `sendNewMessage`: append the temp message, await the REST send, then
     * swap the server message in for the temp id (or append it when there
     * was no temp). A failed send leaves the temp entry and rethrows.
     */
    method SendNewMessage(tempMsg: Option<Message>, response: Rest<Message>) returns (outcome: Outcome)
      modifies this`messages
      ensures response.Rejected? ==>
        outcome == Fail(response.reason)
        && messages == old(messages) + (if tempMsg.Some? then [tempMsg.value] else [])
      ensures response.Resolved? && tempMsg.Some? ==>
        outcome == Pass
        && messages == ReplaceById(old(messages) + [tempMsg.value], tempMsg.value.id, response.value)
      ensures response.Resolved? && tempMsg.None? ==>
        outcome == Pass && messages == old(messages) + [response.value]
    {
      if tempMsg.Some? {
        messages := messages + [tempMsg.value];
      }
      match response {
        case Rejected(reason) =>
          return Fail(reason);
        case Resolved(newMsg) =>
          messages := if tempMsg.Some? then ReplaceById(messages, tempMsg.value.id, newMsg)
                      else messages + [newMsg];
          outcome := Pass;
      }
    }

    /**
     * `updateMessage`: merge the patch optimistically, emit `updateMessage`
     * when connected, await the REST update and put the server copy in place
     * of every entry with its `_id`. A failure keeps the merge and rethrows.
     */
    method UpdateMessage(messageId: string, patch: Patch, now: string, link: Link, response: Rest<Message>)
      returns (outcome: Outcome, emitted: Option<Emission>)
      modifies this`messages
      ensures emitted == (if CanEmit(link) then Some(Emission.UpdateMessage(messageId, patch)) else None)
      ensures response.Rejected? ==>
        outcome == Fail(response.reason) && messages == MergeById(old(messages), messageId, patch, now)
      ensures response.Resolved? ==>
        outcome == Pass
        && messages == ReplaceById(MergeById(old(messages), messageId, patch, now), response.value.id, response.value)
    {
      messages := MergeById(messages, messageId, patch, now);
      emitted := if CanEmit(link) then Some(Emission.UpdateMessage(messageId, patch)) else None;
      match response {
        case Rejected(reason) =>
          outcome := Fail(reason);
        case Resolved(updated) =>
          messages := ReplaceById(messages, updated.id, updated);
          outcome := Pass;
      }
    }

    /** `deleteMessage`: filter first, emit when connected, then await REST; no rollback. */
    method DeleteMessage(messageId: string, link: Link, reply: Outcome) returns (outcome: Outcome, emitted: Option<Emission>)
      modifies this`messages
      ensures messages == RemoveById(old(messages), messageId)
      ensures emitted == (if CanEmit(link) then Some(Emission.DeleteMessage(messageId)) else None)
      ensures outcome == reply
    {
      messages := RemoveById(messages, messageId);
      emitted := if CanEmit(link) then Some(Emission.DeleteMessage(messageId)) else None;
      outcome := reply;
    }

    /** Listener for `receiveMessage`. */
    method HandleReceiveMessage(msg: Message)
      modifies this`messages
      ensures messages == AppendIfAbsent(old(messages), msg)
    {
      messages := AppendIfAbsent(messages, msg);
    }

    /**
     * Listener for `userTyping`: sets the user's flag and, for a typing
     * event, schedules one more expiry timer. No timer is ever cancelled,
     * neither by a later typing event nor by a stop event.
     */
    method HandleTyping(userId: string, isTyping: bool) returns (expiryScheduled: bool)
      modifies this`typingUsers, this`pendingExpiries
      ensures typingUsers == SetTyping(old(typingUsers), userId, isTyping)
      ensures expiryScheduled == isTyping
      ensures pendingExpiries == old(pendingExpiries) + (if isTyping then multiset{userId} else multiset{})
    {
      typingUsers := SetTyping(typingUsers, userId, isTyping);
      if isTyping {
        pendingExpiries := pendingExpiries + multiset{userId};
      }
      expiryScheduled := isTyping;
    }

    /** One scheduled expiry timer for `userId` fires: the flag goes down and that timer is used up. */
    method ExpireTyping(userId: string)
      requires userId in pendingExpiries
      modifies this`typingUsers, this`pendingExpiries
      ensures typingUsers == SetTyping(old(typingUsers), userId, false)
      ensures pendingExpiries == old(pendingExpiries) - multiset{userId}
    {
      typingUsers := SetTyping(typingUsers, userId, false);
      pendingExpiries := pendingExpiries - multiset{userId};
    }
  }

  /**
   * Two typing events for one user schedule two timers; the first to fire
   * clears the flag although the refresh is more recent and its own timer
   * is still pending.
   */
  method EarlierTimerClearsRefresh(p: MessageProvider, userId: string)
    modifies p
    ensures userId in p.typingUsers && !p.typingUsers[userId]
    ensures p.pendingExpiries == old(p.pendingExpiries) + multiset{userId}
    ensures userId in p.pendingExpiries
  {
    var first := p.HandleTyping(userId, true);
    var second := p.HandleTyping(userId, true);
    p.ExpireTyping(userId);
    assert p.pendingExpiries == old(p.pendingExpiries) + multiset{userId, userId} - multiset{userId};
  }

  // ---------------------------------------------------------------------
  // Properties of the updaters
  // ---------------------------------------------------------------------

  /**
   * The listener does not look at the active conversation: a message of any
   * other conversation with a new `_id` is appended to the list shown.
   */
  method ForeignMessageIsListed(p: MessageProvider, m: Message)
    requires m.conversationId != Some(p.activeChatId) && !HasKey(MessageKey, p.messages, m.id)
    modifies p
    ensures p.messages == old(p.messages) + [m] && p.activeChatId == old(p.activeChatId)
  {
    p.HandleReceiveMessage(m);
  }

  /** Receiving the same message twice is receiving it once. */
  lemma AppendIfAbsentIdempotent(s: seq<Message>, m: Message)
    ensures AppendIfAbsent(AppendIfAbsent(s, m), m) == AppendIfAbsent(s, m)
  {
  }

  /** Confirming a send replaces the temp entry where it stands: at the tail, and wherever else the temp id occurs. */
  lemma ConfirmReplacesInPlace(s: seq<Message>, temp: Message, server: Message)
    ensures ReplaceById(s + [temp], temp.id, server) == ReplaceById(s, temp.id, server) + [server]
  {
  }

  /** With a fresh temp id the optimistic send followed by its confirmation is a plain append. */
  lemma FreshTempConfirmIsAppend(s: seq<Message>, temp: Message, server: Message)
    requires !HasKey(MessageKey, s, temp.id)
    ensures ReplaceById(s + [temp], temp.id, server) == s + [server]
  {
  }

  /** The push echo of a confirmed message adds nothing. */
  lemma EchoAfterConfirmAddsNothing(s: seq<Message>, temp: Message, server: Message)
    ensures var r := ReplaceById(s + [temp], temp.id, server);
      AppendIfAbsent(r, server) == r
  {
    var r := ReplaceById(s + [temp], temp.id, server);
    assert (s + [temp])[|s|] == temp;
    assert MessageKey(r[|s|]) == server.id;
  }

  /**
   * Push copy first, REST reply second: the swap for the temp id does not
   * check membership, so the server message is listed twice.
   */
  lemma EchoBeforeConfirmDuplicates(s: seq<Message>, temp: Message, server: Message)
    requires !HasKey(MessageKey, s, temp.id) && !HasKey(MessageKey, s, server.id) && temp.id != server.id
    ensures !UniqueKeys(MessageKey, ReplaceById(AppendIfAbsent(s + [temp], server), temp.id, server))
  {
    var a := AppendIfAbsent(s + [temp], server);
    assert !HasKey(MessageKey, s + [temp], server.id) by {
      forall i | 0 <= i < |s + [temp]| ensures MessageKey((s + [temp])[i]) != server.id {
        if i < |s| { assert (s + [temp])[i] == s[i]; }
      }
    }
    assert a == s + [temp, server];
    var r := ReplaceById(a, temp.id, server);
    assert a[|s|] == temp && a[|s| + 1] == server;
    assert r[|s|] == server && r[|s| + 1] == server;
  }

  /** The server's copy of an edit overrides every field of the optimistic merge. */
  lemma ServerCopyOverridesMerge(s: seq<Message>, id: string, p: Patch, now: string, updated: Message)
    requires updated.id == id
    ensures ReplaceById(MergeById(s, id, p, now), id, updated) == ReplaceById(s, id, updated)
  {
  }

  /** A delete is final for the local list: deleting again changes nothing. */
  lemma RemoveByIdIdempotent(s: seq<Message>, id: string)
    ensures RemoveById(RemoveById(s, id), id) == RemoveById(s, id)
  {
    WithoutKeyIdempotent(MessageKey, s, id);
  }

  /** An expiry with no later event leaves the user not typing and every other flag as it was. */
  lemma TypingExpires(m: map<string, bool>, userId: string)
    ensures SetTyping(SetTyping(m, userId, true), userId, false) == SetTyping(m, userId, false)
  {
  }
}
