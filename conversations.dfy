/**
 * The client's conversation list (ConversationContext): a sequence of
 * conversations keyed by `_id`, replaced by REST hydration and updated by
 * local commands and push events.
 */
module Conversations {
  import opened Wrappers
  import opened Seqs
  import opened ChatTypes

  /**
   * A `receiveMessage` or `messageSent` push payload, reduced to what the list
   * reads: `conversationRef` is `message.conversationId?._id`, `chatRef` is
   * `message.chat?._id`.
   */
  datatype IncomingMessage = IncomingMessage(
    conversationRef: Option<string>,
    chatRef: Option<string>,
    content: string)

  /**
   * The conversation a push message targets: its conversation reference when
   * that is a non-empty id, else its chat reference when that is; None when
   * neither is, and the handler then returns without a change.
   */
  function TargetId(m: IncomingMessage): (r: Option<string>)
    ensures r.None? <==> !Truthy(m.conversationRef) && !Truthy(m.chatRef)
    ensures r.Some? ==> r.value != "" && (r == m.conversationRef || r == m.chatRef)
    ensures Truthy(m.conversationRef) ==> r == m.conversationRef
  {
    if Truthy(m.conversationRef) then m.conversationRef
    else if Truthy(m.chatRef) then m.chatRef
    else None
  }

  // ---------------------------------------------------------------------
  // Updaters passed to setConversations
  // ---------------------------------------------------------------------

  /** Mark-read: every entry with `id` gets unreadCount 0; nothing else moves or changes. */
  function MarkRead(s: seq<Conversation>, id: string): (r: seq<Conversation>)
    ensures |r| == |s|
    ensures forall i :: 0 <= i < |s| ==> r[i].id == s[i].id
    ensures forall i :: 0 <= i < |s| && s[i].id == id ==>
      Unread(r[i]) == 0 && r[i].unreadCount.Some? && r[i].(unreadCount := s[i].unreadCount) == s[i]
    ensures forall i :: 0 <= i < |s| && s[i].id != id ==> r[i] == s[i]
  {
    seq(|s|, i requires 0 <= i < |s| => if s[i].id == id then s[i].(unreadCount := Some(0)) else s[i])
  }

  /** `conversation:created`: insert at the head unless an entry with that `_id` is present. */
  function InsertIfAbsent(s: seq<Conversation>, c: Conversation): (r: seq<Conversation>)
    ensures HasKey(ConversationKey, s, c.id) ==> r == s
    ensures !HasKey(ConversationKey, s, c.id) ==> |r| == |s| + 1 && r[0] == c && r[1..] == s
    ensures HasKey(ConversationKey, r, c.id)
    ensures UniqueKeys(ConversationKey, s) ==> UniqueKeys(ConversationKey, r)
  {
    if HasKey(ConversationKey, s, c.id) then s
    else
      assert ([c] + s)[0] == c;
      [c] + s
  }

  /** `conversation:deleted` and a confirmed `removeConversation`: drop every entry with `id`. */
  function RemoveById(s: seq<Conversation>, id: string): (r: seq<Conversation>)
    ensures !HasKey(ConversationKey, r, id)
    ensures forall i :: 0 <= i < |s| && s[i].id != id ==> s[i] in r
    ensures forall i :: 0 <= i < |r| ==> r[i] in s
    ensures IsSubsequence(r, s)
    ensures r == s <==> !HasKey(ConversationKey, s, id)
    ensures forall c :: multiset(r)[c] == if c.id == id then 0 else multiset(s)[c]
  {
    WithoutKeyIsSubsequence(ConversationKey, s, id);
    WithoutKeyUnchanged(ConversationKey, s, id);
    assert forall c :: multiset(WithoutKey(ConversationKey, s, id))[c] == if c.id == id then 0 else multiset(s)[c] by {
      forall c { WithoutKeyCounts(ConversationKey, s, id, c); }
    }
    WithoutKey(ConversationKey, s, id)
  }

  /** The index of the first entry with `id`, or -1 when there is none. */
  function FirstIndex(s: seq<Conversation>, id: string): (r: int)
    ensures -1 <= r < |s|
    ensures r == -1 <==> !HasKey(ConversationKey, s, id)
    ensures r >= 0 ==> s[r].id == id && forall j :: 0 <= j < r ==> s[j].id != id
  {
    if s == [] then -1
    else if s[0].id == id then 0
    else
      var t := FirstIndex(s[1..], id);
      if t == -1 then
        assert forall j :: 1 <= j < |s| ==> s[j] == s[1..][j - 1];
        -1
      else t + 1
  }

  /** The conversation as a push message leaves it: new summary and time, unread bumped when counted. */
  function Touched(c: Conversation, content: string, now: string, countUnread: bool): (r: Conversation)
    ensures r.id == c.id && r.participants == c.participants && r.createdAt == c.createdAt
    ensures r.latestMessage == content && r.updatedAt == now
    ensures countUnread ==> r.unreadCount.Some? && Unread(r) == Unread(c) + 1
    ensures !countUnread ==> r.unreadCount == c.unreadCount
  {
    c.(latestMessage := content,
       updatedAt := now,
       unreadCount := if countUnread then Some(Unread(c) + 1) else c.unreadCount)
  }

  /**
   * The move-to-front of `receiveMessage` (countUnread) and `messageSent`
   * (not countUnread): the first entry with `id` leaves its place and comes
   * back, updated, at index 0; without such an entry nothing changes.
   */
  function MoveToFront(s: seq<Conversation>, id: string, content: string, now: string, countUnread: bool): (r: seq<Conversation>)
    ensures |r| == |s|
    ensures !HasKey(ConversationKey, s, id) ==> r == s
    ensures HasKey(ConversationKey, s, id) ==>
      var i := FirstIndex(s, id);
      && r[0].id == id
      && r[0].latestMessage == content
      && r[0].updatedAt == now
      && r[0].participants == s[i].participants
      && r[0].createdAt == s[i].createdAt
      && (countUnread ==> Unread(r[0]) == Unread(s[i]) + 1)
      && (!countUnread ==> r[0].unreadCount == s[i].unreadCount)
      && r[1..] == s[..i] + s[i + 1..]
  {
    var i := FirstIndex(s, id);
    if i == -1 then s
    else [Touched(s[i], content, now, countUnread)] + (s[..i] + s[i + 1..])
  }

  // ---------------------------------------------------------------------
  // The imperative handler bodies
  // ---------------------------------------------------------------------

  /** The `findIndex` loop. */
  method FindIndex(s: seq<Conversation>, id: string) returns (index: int)
    ensures index == FirstIndex(s, id)
  {
    index := 0;
    while index < |s| && s[index].id != id
      invariant 0 <= index <= |s|
      invariant forall j :: 0 <= j < index ==> s[j].id != id
    {
      index := index + 1;
    }
    if index == |s| {
      index := -1;
    }
  }

  /**
   * The updater of `receiveMessage` (countUnread) and `messageSent`: copy,
   * `findIndex`, `splice(index, 1)`, `unshift` of the updated copy.
   */
  method Promote(prev: seq<Conversation>, convId: string, content: string, now: string, countUnread: bool)
    returns (next: seq<Conversation>)
    ensures next == MoveToFront(prev, convId, content, now, countUnread)
  {
    var existing := prev;
    var index := FindIndex(existing, convId);
    if index != -1 {
      var target := existing[index];
      existing := existing[..index] + existing[index + 1..];
      var unread := target.unreadCount;
      if countUnread {
        // a missing or zero count becomes 1, any other count goes up by one
        unread := if target.unreadCount.Some? && target.unreadCount.value != 0
                  then Some(target.unreadCount.value + 1) else Some(1);
      }
      existing := [target.(latestMessage := content, updatedAt := now, unreadCount := unread)] + existing;
    }
    next := existing;
  }

  // ---------------------------------------------------------------------
  // The provider
  // ---------------------------------------------------------------------

  /** The provider's state and the operations it exposes or registers as socket listeners. */
  class ConversationProvider {
    var conversations: seq<Conversation>
    var loading: bool
    var hasFetched: bool

    constructor ()
      ensures conversations == [] && !loading && !hasFetched
    {
      conversations := [];
      loading := false;
      hasFetched := false;
    }

    /**
     * `refreshConversations`: `signedIn` is whether a user is set, `response`
     * the awaited `getConversations()` reduced to its `chats` field.
     */
    method RefreshConversations(signedIn: bool, response: Rest<Option<seq<Conversation>>>)
      modifies this
      ensures !signedIn ==>
        conversations == old(conversations) && loading == old(loading) && hasFetched == old(hasFetched)
      ensures signedIn ==> !loading
      ensures signedIn && response.Resolved? ==>
        hasFetched && conversations == (if response.value.Some? then response.value.value else [])
      ensures signedIn && response.Rejected? ==>
        conversations == old(conversations) && hasFetched == old(hasFetched)
    {
      if !signedIn {
        return;
      }
      loading := true;
      match response {
        case Resolved(chats) =>
          conversations := if chats.Some? then chats.value else [];
          hasFetched := true;
        case Rejected(_) =>
      }
      loading := false;
    }

    /** `createNewConversation`: prepend the REST result (no membership check), then emit. */
    method CreateNewConversation(response: Rest<Conversation>) returns (outcome: Outcome, emitted: Option<Emission>)
      modifies this`conversations
      ensures response.Resolved? ==>
        conversations == [response.value] + old(conversations)
        && outcome == Pass && emitted == Some(ConversationCreate(response.value))
      ensures response.Rejected? ==>
        conversations == old(conversations) && outcome == Fail(response.reason) && emitted == None
    {
      match response {
        case Resolved(newConv) =>
          conversations := [newConv] + conversations;
          emitted := Some(ConversationCreate(newConv));
          outcome := Pass;
        case Rejected(reason) =>
          emitted := None;
          outcome := Fail(reason);
      }
    }

    /** `removeConversation`: the list changes only once the REST delete has resolved. */
    method RemoveConversation(id: string, reply: Outcome) returns (outcome: Outcome, emitted: Option<Emission>)
      modifies this`conversations
      ensures reply == Pass ==>
        conversations == RemoveById(old(conversations), id)
        && outcome == Pass && emitted == Some(ConversationDelete(id))
      ensures reply.Fail? ==> conversations == old(conversations) && outcome == reply && emitted == None
    {
      if reply.Fail? {
        return reply, None;
      }
      conversations := RemoveById(conversations, id);
      outcome, emitted := Pass, Some(ConversationDelete(id));
    }

    /** `markConversationAsRead`. */
    method MarkConversationAsRead(id: string)
      modifies this`conversations
      ensures conversations == MarkRead(old(conversations), id)
    {
      conversations := MarkRead(conversations, id);
    }

    /** Listener for `conversation:created`. */
    method OnConversationCreated(c: Conversation)
      modifies this`conversations
      ensures conversations == InsertIfAbsent(old(conversations), c)
    {
      conversations := InsertIfAbsent(conversations, c);
    }

    /** Listener for `conversation:deleted`. */
    method OnConversationDeleted(convId: string)
      modifies this`conversations
      ensures conversations == RemoveById(old(conversations), convId)
    {
      conversations := RemoveById(conversations, convId);
    }

    /** Listener for `receiveMessage`; `now` is `new Date().toISOString()`. */
    method OnReceiveMessage(message: IncomingMessage, now: string)
      modifies this`conversations
      ensures TargetId(message).None? ==> conversations == old(conversations)
      ensures TargetId(message).Some? ==>
        conversations == MoveToFront(old(conversations), TargetId(message).value, message.content, now, true)
    {
      var convId := TargetId(message);
      if convId.None? {
        return;
      }
      conversations := Promote(conversations, convId.value, message.content, now, true);
    }

    /** Listener for `messageSent` (the sender's own echo): the same move, no unread bump. */
    method OnMessageSent(message: IncomingMessage, now: string)
      modifies this`conversations
      ensures TargetId(message).None? ==> conversations == old(conversations)
      ensures TargetId(message).Some? ==>
        conversations == MoveToFront(old(conversations), TargetId(message).value, message.content, now, false)
    {
      var convId := TargetId(message);
      if convId.None? {
        return;
      }
      conversations := Promote(conversations, convId.value, message.content, now, false);
    }
  }

  // ---------------------------------------------------------------------
  // Properties of the updaters
  // ---------------------------------------------------------------------

  /** Marking read twice is marking read once. */
  lemma MarkReadIdempotent(s: seq<Conversation>, id: string)
    ensures MarkRead(MarkRead(s, id), id) == MarkRead(s, id)
  {
  }

  /** Inserting the same conversation twice is inserting it once. */
  lemma InsertIfAbsentIdempotent(s: seq<Conversation>, c: Conversation)
    ensures InsertIfAbsent(InsertIfAbsent(s, c), c) == InsertIfAbsent(s, c)
  {
  }

  /** REST create first, push `conversation:created` second: one entry. */
  lemma CreateThenPushKeepsOneEntry(s: seq<Conversation>, c: Conversation)
    requires UniqueKeys(ConversationKey, s) && !HasKey(ConversationKey, s, c.id)
    ensures InsertIfAbsent([c] + s, c) == [c] + s
    ensures UniqueKeys(ConversationKey, [c] + s)
  {
    assert ([c] + s)[0] == c;
    forall i, j | 0 <= i < j < |[c] + s| ensures ([c] + s)[i].id != ([c] + s)[j].id {
      assert ([c] + s)[j] == s[j - 1];
      if i > 0 {
        assert ([c] + s)[i] == s[i - 1];
      }
    }
  }

  /** Push first, REST create second: the unguarded prepend leaves two entries with one `_id`. */
  lemma PushThenCreateDuplicates(s: seq<Conversation>, c: Conversation)
    requires !HasKey(ConversationKey, s, c.id)
    ensures !UniqueKeys(ConversationKey, [c] + InsertIfAbsent(s, c))
  {
    var r := [c] + InsertIfAbsent(s, c);
    assert r[0] == c && r[1] == c;
  }

  /** Every conversation other than the target keeps its relative place. */
  lemma MoveToFrontKeepsOthers(s: seq<Conversation>, id: string, content: string, now: string, countUnread: bool)
    ensures WithoutKey(ConversationKey, MoveToFront(s, id, content, now, countUnread), id)
         == WithoutKey(ConversationKey, s, id)
  {
    var i := FirstIndex(s, id);
    if i != -1 {
      var t := Touched(s[i], content, now, countUnread);
      assert s == s[..i] + ([s[i]] + s[i + 1..]);
      WithoutKeyConcat(ConversationKey, s[..i], [s[i]] + s[i + 1..], id);
      WithoutKeyConcat(ConversationKey, [s[i]], s[i + 1..], id);
      WithoutKeyConcat(ConversationKey, [t], s[..i] + s[i + 1..], id);
      WithoutKeyConcat(ConversationKey, s[..i], s[i + 1..], id);
      assert [s[i]][1..] == [] && [t][1..] == [];
    }
  }

  /** Move-to-front is a permutation up to the update of the moved entry. */
  lemma MoveToFrontPermutes(s: seq<Conversation>, id: string, content: string, now: string, countUnread: bool)
    requires HasKey(ConversationKey, s, id)
    ensures var i := FirstIndex(s, id);
      multiset(MoveToFront(s, id, content, now, countUnread)) + multiset{s[i]}
        == multiset(s) + multiset{Touched(s[i], content, now, countUnread)}
  {
    var i := FirstIndex(s, id);
    SpliceToFrontMultiset(s, i, Touched(s[i], content, now, countUnread));
  }

  /** Taking out index `i` and putting `t` in front exchanges `s[i]` for `t` in the multiset. */
  lemma SpliceToFrontMultiset<T>(s: seq<T>, i: nat, t: T)
    requires i < |s|
    ensures multiset([t] + (s[..i] + s[i + 1..])) + multiset{s[i]} == multiset(s) + multiset{t}
  {
    assert s == s[..i] + ([s[i]] + s[i + 1..]);
  }

  /** Move-to-front keeps `_id`s distinct. */
  lemma MoveToFrontKeepsUnique(s: seq<Conversation>, id: string, content: string, now: string, countUnread: bool)
    requires UniqueKeys(ConversationKey, s)
    ensures UniqueKeys(ConversationKey, MoveToFront(s, id, content, now, countUnread))
  {
  }

  /** `receiveMessage` events for one conversation, one (content, time) pair each, in arrival order. */
  function ReceiveAll(s: seq<Conversation>, id: string, events: seq<(string, string)>): (r: seq<Conversation>)
    ensures |r| == |s|
    decreases |events|
  {
    if events == [] then s
    else ReceiveAll(MoveToFront(s, id, events[0].0, events[0].1, true), id, events[1..])
  }

  /**
   * Unread accounting: N inbound messages for a listed conversation leave it
   * at the head with its unread count raised by exactly N and the last
   * message as summary.
   */
  lemma {:induction false} ReceiveAllCounts(s: seq<Conversation>, id: string, events: seq<(string, string)>)
    requires HasKey(ConversationKey, s, id) && events != []
    ensures var r := ReceiveAll(s, id, events);
      && |r| == |s|
      && r[0].id == id
      && Unread(r[0]) == Unread(s[FirstIndex(s, id)]) + |events|
      && r[0].latestMessage == events[|events| - 1].0
    decreases |events|
  {
    var s' := MoveToFront(s, id, events[0].0, events[0].1, true);
    assert HasKey(ConversationKey, s', id) by { assert s'[0].id == id; }
    assert FirstIndex(s', id) == 0;
    if events[1..] != [] {
      ReceiveAllCounts(s', id, events[1..]);
    }
  }

  /** Mark-read after any number of receives resets the head's count to 0. */
  lemma ReadAfterReceives(s: seq<Conversation>, id: string, events: seq<(string, string)>)
    requires HasKey(ConversationKey, s, id) && events != []
    ensures MarkRead(ReceiveAll(s, id, events), id)[0].id == id
    ensures Unread(MarkRead(ReceiveAll(s, id, events), id)[0]) == 0
  {
    ReceiveAllCounts(s, id, events);
  }
}
