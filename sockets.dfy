/**
 * The socket provider (SocketContext): whether a socket exists, whether it is
 * connected, the presence list `onlineUsers`, and the events handed to the
 * socket. The transport itself is not modelled; `outbox` records every
 * `emit` in order.
 */
module Sockets {
  import opened Seqs
  import opened ChatTypes

  /** What `useSocket()` gives a consumer: is there a socket, is it connected. */
  datatype Link = Link(hasSocket: bool, isConnected: bool)

  /** The guard in front of every provider emit: a socket exists and it is connected. */
  predicate CanEmit(link: Link)
    ensures CanEmit(link) ==> link.hasSocket
    ensures CanEmit(link) ==> link.isConnected
    ensures !link.isConnected ==> !CanEmit(link)
  {
    link.hasSocket && link.isConnected
  }

  /** Users are keyed by the id itself. */
  function UserKey(u: string): string
  {
    u
  }

  /** A user coming online: appended at the tail unless already listed. */
  function AddUser(s: seq<string>, u: string): (r: seq<string>)
    ensures u in r
    ensures u in s ==> r == s
    ensures u !in s ==> r == s + [u]
    ensures UniqueKeys(UserKey, s) ==> UniqueKeys(UserKey, r)
  {
    if u in s then s else s + [u]
  }

  /** A user going offline: every occurrence of the id is dropped, the rest keep their order. */
  function RemoveUser(s: seq<string>, u: string): (r: seq<string>)
    ensures u !in r
    ensures forall i :: 0 <= i < |s| && s[i] != u ==> s[i] in r
    ensures forall i :: 0 <= i < |r| ==> r[i] in s
    ensures IsSubsequence(r, s)
    ensures UniqueKeys(UserKey, s) ==> UniqueKeys(UserKey, r)
    ensures forall v :: multiset(r)[v] == if v == u then 0 else multiset(s)[v]
  {
    WithoutKeyIsSubsequence(UserKey, s, u);
    WithoutKeyKeepsUnique(UserKey, s, u);
    assert forall v :: multiset(WithoutKey(UserKey, s, u))[v] == if v == u then 0 else multiset(s)[v] by {
      forall v { WithoutKeyCounts(UserKey, s, u, v); }
    }
    WithoutKey(UserKey, s, u)
  }

  /** A repeated `userOnline` changes nothing. */
  lemma AddUserIdempotent(s: seq<string>, u: string)
    ensures AddUser(AddUser(s, u), u) == AddUser(s, u)
  {
  }

  /** `userOffline` after `userOnline` is `userOffline` alone. */
  lemma RemoveAfterAdd(s: seq<string>, u: string)
    ensures RemoveUser(AddUser(s, u), u) == RemoveUser(s, u)
  {
    if u !in s {
      WithoutKeyConcat(UserKey, s, [u], u);
      assert [u][1..] == [];
    }
  }

  /** A repeated `userOffline` changes nothing. */
  lemma RemoveUserIdempotent(s: seq<string>, u: string)
    ensures RemoveUser(RemoveUser(s, u), u) == RemoveUser(s, u)
  {
    WithoutKeyIdempotent(UserKey, s, u);
  }

  /** The socket handlers' names registered by `setupMessageHandlers`. */
  const MessageHandlerEvents: seq<string> :=
    ["receiveMessage", "messageSent", "userTyping", "errorMessage", "messageUpdated", "messageDeleted"]

  /** The provider's state; `socket` stands for `socket !== null`. */
  class SocketProvider {
    var socket: bool
    var isConnected: bool
    var onlineUsers: seq<string>
    var outbox: seq<Emission>

    constructor ()
      ensures !socket && !isConnected && onlineUsers == [] && outbox == []
    {
      socket := false;
      isConnected := false;
      onlineUsers := [];
      outbox := [];
    }

    /** What consumers read through `useSocket()`. */
    function View(): (link: Link)
      reads this
      ensures CanEmit(link) <==> socket && isConnected
    {
      Link(socket, isConnected)
    }

    /**
     * The connection effect's bookkeeping of the `socket` state: without a
     * session an existing socket is dropped; with one, a socket is created
     * only if none exists. `isConnected` is left to the socket's events.
     */
    method SyncSession(signedIn: bool)
      modifies this`socket
      ensures socket == signedIn
    {
      if !signedIn {
        if socket {
          socket := false;
        }
        return;
      }
      if !socket {
        socket := true;
      }
    }

    /** `connect`: connected, then ask the server for the presence list. */
    method OnConnect()
      modifies this`isConnected, this`outbox
      ensures isConnected && outbox == old(outbox) + [GetOnlineUsers]
    {
      isConnected := true;
      outbox := outbox + [GetOnlineUsers];
    }

    /** `disconnect`. */
    method OnDisconnect()
      modifies this`isConnected
      ensures !isConnected
    {
      isConnected := false;
    }

    /** `connect_error`. */
    method OnConnectError()
      modifies this`isConnected
      ensures !isConnected
    {
      isConnected := false;
    }

    /** `onlineUsers`: the payload replaces the list as it is. */
    method OnOnlineUsers(users: seq<string>)
      modifies this`onlineUsers
      ensures onlineUsers == users
    {
      onlineUsers := users;
    }

    /** `userOnline`. */
    method OnUserOnline(userId: string)
      modifies this`onlineUsers
      ensures onlineUsers == AddUser(old(onlineUsers), userId)
    {
      onlineUsers := AddUser(onlineUsers, userId);
    }

    /** `userOffline`. */
    method OnUserOffline(userId: string)
      modifies this`onlineUsers
      ensures onlineUsers == RemoveUser(old(onlineUsers), userId)
    {
      onlineUsers := RemoveUser(onlineUsers, userId);
    }

    /** The shared body of the four guarded actions. */
    method GuardedEmit(e: Emission)
      modifies this`outbox
      ensures outbox == old(outbox) + (if socket && isConnected then [e] else [])
    {
      if socket && isConnected {
        outbox := outbox + [e];
      }
    }

    /** `joinChat`. */
    method JoinChat(chatId: string)
      modifies this`outbox
      ensures outbox == old(outbox) + (if socket && isConnected then [Emission.JoinChat(chatId)] else [])
    {
      GuardedEmit(Emission.JoinChat(chatId));
    }

    /** `leaveChat`. */
    method LeaveChat(chatId: string)
      modifies this`outbox
      ensures outbox == old(outbox) + (if socket && isConnected then [Emission.LeaveChat(chatId)] else [])
    {
      GuardedEmit(Emission.LeaveChat(chatId));
    }

    /** `sendSocketMessage`. */
    method SendSocketMessage(data: Outgoing)
      modifies this`outbox
      ensures outbox == old(outbox) + (if socket && isConnected then [SendMessage(data)] else [])
    {
      GuardedEmit(SendMessage(data));
    }

    /** `emitTyping`. */
    method EmitTyping(conversationId: string, isTyping: bool)
      modifies this`outbox
      ensures outbox == old(outbox) + (if socket && isConnected then [Typing(conversationId, isTyping)] else [])
    {
      GuardedEmit(Typing(conversationId, isTyping));
    }

    /** `setupMessageHandlers`: the events it subscribes; none, and a no-op cleanup, without a socket. */
    method SetupMessageHandlers() returns (registered: seq<string>)
      ensures !socket ==> registered == []
      ensures socket ==> registered == MessageHandlerEvents
    {
      if !socket {
        return [];
      }
      registered := MessageHandlerEvents;
    }
  }

  /** Presence stays duplicate-free under any mix of `userOnline` and `userOffline`. */
  lemma {:induction false} PresenceStaysUnique(s: seq<string>, events: seq<(bool, string)>)
    requires UniqueKeys(UserKey, s)
    ensures UniqueKeys(UserKey, ApplyPresence(s, events))
    decreases |events|
  {
    if events != [] {
      var e := events[0];
      var s' := if e.0 then AddUser(s, e.1) else RemoveUser(s, e.1);
      PresenceStaysUnique(s', events[1..]);
    }
  }

  /** Folds presence events (true = a user coming online, false = going offline) in arrival order. */
  function ApplyPresence(s: seq<string>, events: seq<(bool, string)>): (r: seq<string>)
    ensures events == [] ==> r == s
    decreases |events|
  {
    if events == [] then s
    else
      var e := events[0];
      ApplyPresence(if e.0 then AddUser(s, e.1) else RemoveUser(s, e.1), events[1..])
  }

  /** The last presence event decides whether its user is listed. */
  lemma {:induction false} LastPresenceEventWins(s: seq<string>, events: seq<(bool, string)>)
    requires events != []
    ensures events[|events| - 1].1 in ApplyPresence(s, events) <==> events[|events| - 1].0
    decreases |events|
  {
    var e := events[0];
    var next := if e.0 then AddUser(s, e.1) else RemoveUser(s, e.1);
    if |events| > 1 {
      LastPresenceEventWins(next, events[1..]);
      assert events[1..][|events[1..]| - 1] == events[|events| - 1];
    }
  }

  /** Every listed user was listed at the start or came online in one of the events. */
  lemma {:induction false} ListedUsersCameOnline(s: seq<string>, events: seq<(bool, string)>, u: string)
    requires u in ApplyPresence(s, events)
    ensures u in s || exists j :: 0 <= j < |events| && events[j] == (true, u)
    decreases |events|
  {
    if events != [] {
      var e := events[0];
      var next := if e.0 then AddUser(s, e.1) else RemoveUser(s, e.1);
      ListedUsersCameOnline(next, events[1..], u);
      if u !in next {
        var j :| 0 <= j < |events[1..]| && events[1..][j] == (true, u);
        assert events[j + 1] == (true, u);
      } else if u !in s {
        assert e == (true, u);
      }
    }
  }
}
