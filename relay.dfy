/**
 * The WebSocket relay (apps/ws-backend/src/index.ts): a table of admitted
 * connections, each with the user id its token resolved to and the rooms it
 * has joined, and the rule that picks who receives a broadcast message.
 */
module Relay {
  import opened Wrappers
  import opened Protocol
  import opened Seqs

  /** One row of the `users` table. */
  datatype Entry = Entry(ws: ConnId, userId: UserId, rooms: seq<RoomId>)

  /** One `ws.send` to connection `to`. */
  datatype Delivery<P> = Delivery(to: ConnId, msg: Message<P>)

  /** The `token` query parameter, absent or empty both read as "". */
  function TokenParam(param: Option<string>): (t: string)
    ensures t == "" <==> param.None? || param.value == ""
    ensures t != "" ==> param == Some(t)
  {
    if param.Some? then param.value else ""
  }

  /** `users.find(x => x.ws == ws)` / `users.findIndex(...)`: the first row of the connection. */
  function FindConn(users: seq<Entry>, ws: ConnId): (r: Option<nat>)
    ensures r.Some? ==> r.value < |users| && users[r.value].ws == ws
    ensures r.Some? ==> forall j :: 0 <= j < r.value ==> users[j].ws != ws
    ensures r.None? ==> forall j :: 0 <= j < |users| ==> users[j].ws != ws
  {
    if |users| == 0 then None
    else if users[0].ws == ws then Some(0)
    else match FindConn(users[1..], ws)
      case None => None
      case Some(i) => Some(i + 1)
  }

  /** `rooms.filter(roomId => roomId !== r)`. */
  function OtherThan(r: RoomId): RoomId -> bool
  {
    x => x != r
  }

  function Without(rooms: seq<RoomId>, r: RoomId): (w: seq<RoomId>)
    ensures forall x :: x in w <==> x in rooms && x != r
  {
    FilterMembership(rooms, OtherThan(r));
    Filter(rooms, OtherThan(r))
  }

  /** The fan-out test: the row has joined the room and belongs to another user. */
  predicate Receives(e: Entry, roomId: RoomId, sender: UserId)
  {
    roomId in e.rooms && e.userId != sender
  }

  function ReceivesFrom(roomId: RoomId, sender: UserId): Entry -> bool
  {
    e => Receives(e, roomId, sender)
  }

  /**
   * The rows a broadcast for `roomId` from `sender` is sent to, in table
   * order: exactly the rows that joined the room under another user id.
   * Every connection of the sender's own user is skipped, and the sender's
   * own membership of the room plays no part.
   */
  function Recipients(users: seq<Entry>, roomId: RoomId, sender: UserId): (r: seq<Entry>)
    ensures forall e :: e in r <==> e in users && roomId in e.rooms && e.userId != sender
  {
    FilterMembership(users, ReceivesFrom(roomId, sender));
    Filter(users, ReceivesFrom(roomId, sender))
  }

  /** Extending the table by one row extends the recipients by that row exactly when it receives. */
  lemma RecipientsSnoc(prefix: seq<Entry>, e: Entry, roomId: RoomId, sender: UserId)
    ensures Recipients(prefix + [e], roomId, sender) ==
            Recipients(prefix, roomId, sender) + (if Receives(e, roomId, sender) then [e] else [])
  {
    assert (prefix + [e])[..|prefix|] == prefix;
  }

  /** Recipients are taken in table order: selection distributes over concatenation. */
  lemma {:induction false} RecipientsInOrder(a: seq<Entry>, b: seq<Entry>, roomId: RoomId, sender: UserId)
    ensures Recipients(a + b, roomId, sender) == Recipients(a, roomId, sender) + Recipients(b, roomId, sender)
  {
    FilterConcat(a, b, ReceivesFrom(roomId, sender));
  }

  /** After leaving, no occurrence of the room is left and every other room keeps its count. */
  lemma {:induction false} LeaveRemovesEveryOccurrence(rooms: seq<RoomId>, r: RoomId)
    ensures r !in Without(rooms, r)
    ensures forall x :: x != r ==> multiset(Without(rooms, r))[x] == multiset(rooms)[x]
  {
    FilterMembership(rooms, OtherThan(r));
    forall x | x != r
      ensures multiset(Without(rooms, r))[x] == multiset(rooms)[x]
    {
      FilterCount(rooms, OtherThan(r), x);
    }
  }

  /** The rooms left behind keep their relative order. */
  lemma {:induction false} LeaveKeepsOrder(a: seq<RoomId>, b: seq<RoomId>, r: RoomId)
    ensures Without(a + b, r) == Without(a, r) + Without(b, r)
  {
    FilterConcat(a, b, OtherThan(r));
  }

  /** Leaving twice is the same as leaving once. */
  lemma {:induction false} LeaveTwice(rooms: seq<RoomId>, r: RoomId)
    ensures Without(Without(rooms, r), r) == Without(rooms, r)
  {
    FilterIdempotent(rooms, OtherThan(r));
  }

  /** Leaving undoes a join, together with every earlier join of the same room. */
  lemma LeaveUndoesJoin(rooms: seq<RoomId>, r: RoomId)
    ensures Without(rooms + [r], r) == Without(rooms, r)
  {
  }

  /** The process-wide `users` table and the handlers that update it. */
  class RelayServer {
    var users: seq<Entry>

    constructor ()
      ensures users == []
    {
      users := [];
    }

    /**
     * The `connection` handler: the token resolved by `checkUser` decides
     * admission; an admitted connection is appended with no rooms and its
     * user id is returned for its later messages, a refused one is closed.
     */
    method Connect(ws: ConnId, token: Option<string>, checkUser: string -> Option<UserId>)
      returns (userId: Option<UserId>)
      modifies this
      ensures var id := checkUser(TokenParam(token));
        if id.Some? && id.value != "" then userId == id && users == old(users) + [Entry(ws, id.value, [])]
        else userId == None && users == old(users)
      ensures DistinctConns(old(users)) && FindConn(old(users), ws).None? ==> DistinctConns(users)
    {
      var id := checkUser(TokenParam(token));
      if id.None? || id.value == "" {
        userId := None;
        return;
      }
      users := users + [Entry(ws, id.value, [])];
      userId := id;
    }

    /** `join_room`: the connection's first row gets `roomId` appended; duplicates are kept. */
    method JoinRoom(ws: ConnId, roomId: RoomId)
      modifies this
      ensures |users| == |old(users)|
      ensures match FindConn(old(users), ws)
        case None => users == old(users)
        case Some(i) =>
          && users[i] == old(users)[i].(rooms := old(users)[i].rooms + [roomId])
          && forall j :: 0 <= j < |users| && j != i ==> users[j] == old(users)[j]
      ensures DistinctConns(old(users)) ==> DistinctConns(users)
    {
      var found := FindConn(users, ws);
      if found.Some? {
        var i := found.value;
        users := users[i := users[i].(rooms := users[i].rooms + [roomId])];
      }
    }

    /** `leave_room`: the connection's first row drops every occurrence of `roomId`. */
    method LeaveRoom(ws: ConnId, roomId: RoomId)
      modifies this
      ensures |users| == |old(users)|
      ensures match FindConn(old(users), ws)
        case None => users == old(users)
        case Some(i) =>
          && users[i] == old(users)[i].(rooms := Without(old(users)[i].rooms, roomId))
          && forall j :: 0 <= j < |users| && j != i ==> users[j] == old(users)[j]
      ensures DistinctConns(old(users)) ==> DistinctConns(users)
    {
      var found := FindConn(users, ws);
      if found.Some? {
        var i := found.value;
        users := users[i := users[i].(rooms := Without(users[i].rooms, roomId))];
      }
    }

    /**
     * The `users.forEach` loop of a broadcast branch: one delivery of `m`,
     * unchanged, to each recipient row, in table order.
     */
    method Fanout<P>(m: Message<P>, sender: UserId) returns (sent: seq<Delivery<P>>)
      ensures |sent| == |Recipients(users, m.roomId, sender)|
      ensures forall k :: 0 <= k < |sent| ==>
                sent[k] == Delivery(Recipients(users, m.roomId, sender)[k].ws, m)
    {
      sent := [];
      var i := 0;
      while i < |users|
        invariant 0 <= i <= |users|
        invariant |sent| == |Recipients(users[..i], m.roomId, sender)|
        invariant forall k :: 0 <= k < |sent| ==>
                    sent[k] == Delivery(Recipients(users[..i], m.roomId, sender)[k].ws, m)
      {
        assert users[..i + 1] == users[..i] + [users[i]];
        RecipientsSnoc(users[..i], users[i], m.roomId, sender);
        if Receives(users[i], m.roomId, sender) {
          sent := sent + [Delivery(users[i].ws, m)];
        }
        i := i + 1;
      }
      assert users[..i] == users;
    }

    /**
     * The `message` handler of a connection admitted as `userId`. `frame` is
     * None when the data does not parse or its `type` is not recognised.
     * Room changes send nothing; broadcasts leave the table as it was.
     */
    method OnMessage<P>(ws: ConnId, userId: UserId, frame: Option<Message<P>>)
      returns (sent: seq<Delivery<P>>)
      modifies this
      ensures frame.None? ==> users == old(users) && sent == []
      ensures frame.Some? && frame.value.JoinRoom? ==>
        sent == [] && |users| == |old(users)| &&
        match FindConn(old(users), ws)
        case None => users == old(users)
        case Some(i) =>
          && users[i] == old(users)[i].(rooms := old(users)[i].rooms + [frame.value.roomId])
          && forall j :: 0 <= j < |users| && j != i ==> users[j] == old(users)[j]
      ensures frame.Some? && frame.value.LeaveRoom? ==>
        sent == [] && |users| == |old(users)| &&
        match FindConn(old(users), ws)
        case None => users == old(users)
        case Some(i) =>
          && users[i] == old(users)[i].(rooms := Without(old(users)[i].rooms, frame.value.roomId))
          && forall j :: 0 <= j < |users| && j != i ==> users[j] == old(users)[j]
      ensures frame.Some? && IsBroadcast(frame.value) ==>
        && users == old(users)
        && |sent| == |Recipients(users, frame.value.roomId, userId)|
        && forall k :: 0 <= k < |sent| ==>
             sent[k] == Delivery(Recipients(users, frame.value.roomId, userId)[k].ws, frame.value)
      ensures DistinctConns(old(users)) ==> DistinctConns(users)
    {
      sent := [];
      if frame.None? {
        return;
      }
      var m := frame.value;
      match m
      case JoinRoom(roomId) =>
        JoinRoom(ws, roomId);
      case LeaveRoom(roomId) =>
        LeaveRoom(ws, roomId);
      case _ =>
        sent := Fanout(m, userId);
    }

    /** The `close` handler: the connection's first row is spliced out. */
    method Close(ws: ConnId)
      modifies this
      ensures match FindConn(old(users), ws)
        case None => users == old(users)
        case Some(i) => users == old(users)[..i] + old(users)[i + 1..]
      ensures DistinctConns(old(users)) ==> DistinctConns(users)
    {
      var found := FindConn(users, ws);
      if found.Some? {
        var i := found.value;
        users := users[..i] + users[i + 1..];
      }
    }
  }

  /** No connection has two rows: what admitting only fresh connections keeps true. */
  ghost predicate DistinctConns(users: seq<Entry>)
  {
    forall i, j :: 0 <= i < j < |users| ==> users[i].ws != users[j].ws
  }

  /** Admitting a connection that has no row yet keeps connections distinct. */
  lemma ConnectKeepsDistinct(users: seq<Entry>, ws: ConnId, userId: UserId)
    requires DistinctConns(users)
    requires FindConn(users, ws).None?
    ensures DistinctConns(users + [Entry(ws, userId, [])])
  {
  }

  /** With distinct connections, a closed connection has no row left, and the rest stay distinct. */
  lemma CloseForgetsConnection(users: seq<Entry>, ws: ConnId, i: nat)
    requires DistinctConns(users)
    requires FindConn(users, ws) == Some(i)
    ensures forall e :: e in users[..i] + users[i + 1..] ==> e.ws != ws
    ensures DistinctConns(users[..i] + users[i + 1..])
  {
  }

  /** No echo: with distinct connections, no connection of the sender's user is sent its own broadcast. */
  lemma NoEcho(users: seq<Entry>, roomId: RoomId, sender: UserId, e: Entry)
    requires DistinctConns(users)
    requires e in users && e.userId == sender
    ensures forall r :: r in Recipients(users, roomId, sender) ==> r.ws != e.ws
  {
  }
}
