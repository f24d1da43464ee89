/**
 * The real-time session relay of server/websocket.ts: a registry from live
 * connections to participants, the per-type dispatcher for inbound
 * messages, the room fan-out and the departure announcement on close.
 *
 * Every callback runs to completion on one event loop, so each is modelled
 * as one atomic method of `SessionRelay`. What a callback hands to `ws.send` is
 * appended to `outbox` as a (recipient, message) pair.
 */
module Relay {
  import opened Js

  /** A WebSocket connection, compared by identity. */
  type Conn = nat

  /** An entry of `wss.clients`: the connection and whether its readyState is OPEN. */
  datatype Client = Client(conn: Conn, open: bool)

  /** A registered participant (the `User` record of the registry). */
  datatype User = User(id: Json, name: Json, canvasId: Json, cursor: Json, color: string, tool: Json)

  /** The eight-colour palette participants' colours are drawn from. */
  const UserColors: seq<string> :=
    ["#FF6B6B", "#4ECDC4", "#45B7D1", "#96CEB4", "#FFEAA7", "#DFE6E9", "#74B9FF", "#A29BFE"]

  /** An inbound message after decoding, one variant per `type` the dispatcher handles. */
  datatype Inbound =
    | JoinCanvas(userId: Json, username: Json, canvasId: Json, tool: Json)
    | ToolChange(tool: Json, timestamp: Json)
    | CursorMove(cursor: Json, timestamp: Json)
    | CanvasUpdate(action: Json, data: Json, timestamp: Json)
    | ObjectModified(obj: Json, timestamp: Json)
    | ObjectRemoved(objectId: Json, timestamp: Json)
    | Unrecognized(messageType: Json)
  {
    /** The five types that are relayed to the sender's room once the sender has joined. */
    predicate IsEvent() {
      ToolChange? || CursorMove? || CanvasUpdate? || ObjectModified? || ObjectRemoved?
    }
  }

  /** An outbound message, one variant per `type` the relay sends. */
  datatype Outbound =
    | CanvasState(users: seq<User>, userId: Json, name: Json, color: string)
    | UserJoined(id: Json, name: Json, color: string, tool: Json)
    | UserLeft(userId: Json)
    | ToolChangeEvent(userId: Json, tool: Json, timestamp: Json)
    | CursorMoveEvent(userId: Json, cursor: Json, timestamp: Json)
    | CanvasUpdateEvent(userId: Json, action: Json, data: Json, timestamp: Json)
    | ObjectModifiedEvent(userId: Json, obj: Json, timestamp: Json)
    | ObjectRemovedEvent(userId: Json, objectId: Json, timestamp: Json)

  /** One call of `ws.send`: the message `msg` handed to connection `to`. */
  datatype Delivery = Delivery(to: Conn, msg: Outbound)

  // ---------------------------------------------------------------------
  // Specification functions
  // ---------------------------------------------------------------------

  /**
   * The record `join-canvas` registers, given the registry's size before the
   * insert and the random part of the id `generateUserId` would produce.
   */
  function NewUser(m: Inbound, registrySize: nat, randomSuffix: string): (u: User)
    requires m.JoinCanvas?
    ensures u.color in UserColors
    ensures Truthy(u.id) && Truthy(u.name) && Truthy(u.tool)
  {
    User(
      id := Or(m.userId, Str("user_" + randomSuffix)),
      name := Or(m.username, Str("Anonymous")),
      canvasId := m.canvasId,
      cursor := Undefined,
      color := UserColors[registrySize % |UserColors|],
      tool := Or(m.tool, Str("select")))
  }

  /** The sender's record after an event: only `tool` or `cursor` can change. */
  function Updated(u: User, m: Inbound): User {
    match m
    case ToolChange(tool, _) => u.(tool := tool)
    case CursorMove(cursor, _) => u.(cursor := cursor)
    case _ => u
  }

  /** The message an event from `u` is relayed as; `now` is `Date.now()`. */
  function Forwarded(u: User, m: Inbound, now: int): Outbound
    requires m.IsEvent()
  {
    match m
    case ToolChange(tool, ts) => ToolChangeEvent(u.id, tool, Or(ts, Num(now)))
    case CursorMove(cursor, ts) => CursorMoveEvent(u.id, cursor, Or(ts, Num(now)))
    case CanvasUpdate(action, data, ts) => CanvasUpdateEvent(u.id, action, data, Or(ts, Num(now)))
    case ObjectModified(obj, ts) => ObjectModifiedEvent(u.id, obj, Or(ts, Num(now)))
    case ObjectRemoved(objectId, ts) => ObjectRemovedEvent(u.id, objectId, Or(ts, Num(now)))
  }

  /** The (recipient, message) pairs of `send(to, msg)`: nothing unless `to` is open. */
  function Sent(to: Client, msg: Outbound): seq<Delivery> {
    if to.open then [Delivery(to.conn, msg)] else []
  }

  /** Whether `broadcast(canvasId, _, exclude)` sends to `c`. */
  predicate Receives(c: Client, users: map<Conn, User>, canvasId: Json, exclude: Conn) {
    c.conn != exclude && c.open && c.conn in users && users[c.conn].canvasId == canvasId
  }

  /** What `broadcast` sends, in the iteration order of `clients`. */
  function Fanout(clients: seq<Client>, users: map<Conn, User>, canvasId: Json, msg: Outbound, exclude: Conn): seq<Delivery> {
    if clients == [] then []
    else
      var last := clients[|clients| - 1];
      Fanout(clients[..|clients| - 1], users, canvasId, msg, exclude)
        + (if Receives(last, users, canvasId, exclude) then Sent(last, msg) else [])
  }

  /** The users registered on `canvasId`, in registry order, as `getCanvasUsers` lists them. */
  function RoomMembers(order: seq<Conn>, users: map<Conn, User>, canvasId: Json): seq<User>
    requires forall c :: c in order ==> c in users
  {
    if order == [] then []
    else
      var last := order[|order| - 1];
      RoomMembers(order[..|order| - 1], users, canvasId)
        + (if users[last].canvasId == canvasId then [users[last]] else [])
  }

  /** `us.filter(u => u.id !== id)`. */
  function OthersThan(us: seq<User>, id: Json): seq<User> {
    if us == [] then []
    else (if us[0].id != id then [us[0]] else []) + OthersThan(us[1..], id)
  }

  /** The `canvas-state` reply the joiner `u` receives, given its room's members. */
  function CanvasStateFor(u: User, members: seq<User>): Outbound {
    CanvasState(OthersThan(members, u.id), u.id, u.name, u.color)
  }

  /** The `user-joined` announcement for `u`. */
  function UserJoinedFor(u: User): Outbound {
    UserJoined(u.id, u.name, u.color, u.tool)
  }

  // ---------------------------------------------------------------------
  // The relay state and its callbacks
  // ---------------------------------------------------------------------

  class SessionRelay {
    /** The registry `users`: the participant bound to each joined connection. */
    var users: map<Conn, User>
    /** The registry's keys in insertion order (the iteration order of the `Map`). */
    var order: seq<Conn>
    /** Every message handed to `ws.send` so far, in order. */
    var outbox: seq<Delivery>

    ghost predicate Valid()
      reads this
    {
      && Distinct(order)
      && (forall c :: c in users <==> c in order)
      && (forall c :: c in users ==> WellFormed(users[c]))
    }

    constructor ()
      ensures Valid()
      ensures users == map[] && order == [] && outbox == []
    {
      users, order, outbox := map[], [], [];
    }

    /** `send`: hand `msg` to `to` when its readyState is OPEN. */
    method Send(to: Client, msg: Outbound)
      modifies this`outbox
      ensures outbox == old(outbox) + Sent(to, msg)
    {
      if to.open {
        outbox := outbox + [Delivery(to.conn, msg)];
      }
    }

    /** `broadcast`: send `msg` to every open client on `canvasId` except `exclude`. */
    method Broadcast(clients: seq<Client>, canvasId: Json, msg: Outbound, exclude: Conn)
      modifies this`outbox
      ensures outbox == old(outbox) + Fanout(clients, users, canvasId, msg, exclude)
    {
      var i := 0;
      while i < |clients|
        invariant 0 <= i <= |clients|
        invariant outbox == old(outbox) + Fanout(clients[..i], users, canvasId, msg, exclude)
      {
        var client := clients[i];
        if client.conn != exclude && client.open {
          if client.conn in users && users[client.conn].canvasId == canvasId {
            Send(client, msg);
          }
        }
        assert clients[..i + 1][..i] == clients[..i];
        i := i + 1;
      }
      assert clients[..|clients|] == clients;
    }

    /** `getCanvasUsers`: snapshots of the users on `canvasId`, in registry order. */
    method GetCanvasUsers(canvasId: Json) returns (canvasUsers: seq<User>)
      requires Valid()
      ensures canvasUsers == RoomMembers(order, users, canvasId)
    {
      canvasUsers := [];
      var i := 0;
      while i < |order|
        invariant 0 <= i <= |order|
        invariant canvasUsers == RoomMembers(order[..i], users, canvasId)
      {
        var user := users[order[i]];
        if user.canvasId == canvasId {
          canvasUsers := canvasUsers + [user];
        }
        assert order[..i + 1][..i] == order[..i];
        i := i + 1;
      }
      assert order[..|order|] == order;
    }

    /** `users.set(ws, u)`: a new key goes to the end of the order, a present key keeps its place. */
    method Register(ws: Conn, u: User)
      requires Valid() && WellFormed(u)
      modifies this`users, this`order
      ensures Valid()
      ensures users == old(users)[ws := u]
      ensures order == if ws in old(users) then old(order) else old(order) + [ws]
    {
      if ws !in users {
        order := order + [ws];
      }
      users := users[ws := u];
    }

    /**
     * `handleMessage`: dispatch one decoded inbound message from `ws`.
     * `randomSuffix` is what `generateUserId` draws at random, `now` is `Date.now()`.
     */
    method HandleMessage(ws: Client, message: Inbound, clients: seq<Client>, randomSuffix: string, now: int)
      requires Valid()
      modifies this
      ensures Valid()
      ensures message.JoinCanvas? ==>
        var u := NewUser(message, |old(users)|, randomSuffix);
        && users == old(users)[ws.conn := u]
        && order == (if ws.conn in old(users) then old(order) else old(order) + [ws.conn])
        && outbox == old(outbox)
                     + Sent(ws, CanvasStateFor(u, RoomMembers(order, users, u.canvasId)))
                     + Fanout(clients, users, u.canvasId, UserJoinedFor(u), ws.conn)
      ensures message.IsEvent() && ws.conn in old(users) ==>
        var u := old(users)[ws.conn];
        && users == old(users)[ws.conn := Updated(u, message)]
        && order == old(order)
        && outbox == old(outbox) + Fanout(clients, users, u.canvasId, Forwarded(u, message, now), ws.conn)
      ensures message.Unrecognized? || (message.IsEvent() && ws.conn !in old(users)) ==>
        users == old(users) && order == old(order) && outbox == old(outbox)
    {
      match message
      case JoinCanvas(_, _, _, _) =>
        var user := NewUser(message, |users|, randomSuffix);
        Register(ws.conn, user);
        var canvasUsers := GetCanvasUsers(user.canvasId);
        Send(ws, CanvasStateFor(user, canvasUsers));
        Broadcast(clients, user.canvasId, UserJoinedFor(user), ws.conn);
      case Unrecognized(_) =>
      case _ =>
        if ws.conn in users {
          var user := users[ws.conn];
          users := users[ws.conn := Updated(user, message)];
          Broadcast(clients, user.canvasId, Forwarded(user, message, now), ws.conn);
        }
    }

    /** The `close` handler: announce the departure to the room, then deregister. */
    method Close(ws: Conn, clients: seq<Client>)
      requires Valid()
      modifies this
      ensures Valid()
      ensures ws in old(users) ==>
        var u := old(users)[ws];
        && users == old(users) - {ws}
        && order == Without(old(order), ws)
        && outbox == old(outbox) + Fanout(clients, old(users), u.canvasId, UserLeft(u.id), ws)
      ensures ws !in old(users) ==>
        users == old(users) && order == old(order) && outbox == old(outbox)
    {
      if ws in users {
        var user := users[ws];
        Broadcast(clients, user.canvasId, UserLeft(user.id), ws);
        users := users - {ws};
        order := Without(order, ws);
      }
    }
  }

  /** What every registered record satisfies: an id and a name that are set, a palette colour. */
  predicate WellFormed(u: User) {
    Truthy(u.id) && Truthy(u.name) && u.color in UserColors
  }

  // ---------------------------------------------------------------------
  // Properties
  // ---------------------------------------------------------------------

  /** Each field of a joiner's record is the supplied value when truthy, else its default. */
  lemma JoinDefaults(m: Inbound, registrySize: nat, randomSuffix: string)
    requires m.JoinCanvas?
    ensures var u := NewUser(m, registrySize, randomSuffix);
      && u.id == (if Truthy(m.userId) then m.userId else Str("user_" + randomSuffix))
      && u.name == (if Truthy(m.username) then m.username else Str("Anonymous"))
      && u.tool == (if Truthy(m.tool) then m.tool else Str("select"))
      && u.canvasId == m.canvasId
      && u.cursor == Undefined
      && u.color == UserColors[registrySize % 8]
  {
  }

  /** An event changes only the sender's `tool` (tool-change) or `cursor` (cursor-move). */
  lemma UpdatedTouchesOneField(u: User, m: Inbound)
    ensures var v := Updated(u, m);
      && v.id == u.id && v.name == u.name && v.canvasId == u.canvasId && v.color == u.color
      && v.tool == (if m.ToolChange? then m.tool else u.tool)
      && v.cursor == (if m.CursorMove? then m.cursor else u.cursor)
  {
  }

  /**
   * A relayed event names its sender and carries the inbound timestamp when
   * that is truthy, otherwise the current time (so a timestamp of 0 is replaced).
   */
  lemma ForwardedStamp(u: User, m: Inbound, now: int)
    requires m.IsEvent()
    ensures Forwarded(u, m, now).userId == u.id
    ensures Forwarded(u, m, now).timestamp == if Truthy(m.timestamp) then m.timestamp else Num(now)
    ensures m.timestamp == Num(0) ==> Forwarded(u, m, now).timestamp == Num(now)
  {
  }

  /**
   * Room isolation and sender exclusion: `broadcast` sends `msg`, and only
   * `msg`, to exactly the clients that are not excluded, open, registered
   * and registered on the target canvas.
   */
  lemma {:induction false} FanoutRecipients(clients: seq<Client>, users: map<Conn, User>, canvasId: Json, msg: Outbound, exclude: Conn, d: Delivery)
    ensures d in Fanout(clients, users, canvasId, msg, exclude) <==>
      d.msg == msg && exists i :: 0 <= i < |clients| && clients[i].conn == d.to && Receives(clients[i], users, canvasId, exclude)
  {
    if clients != [] {
      var init := clients[..|clients| - 1];
      FanoutRecipients(init, users, canvasId, msg, exclude, d);
      if d.msg == msg && exists i :: 0 <= i < |clients| && clients[i].conn == d.to && Receives(clients[i], users, canvasId, exclude) {
        var i :| 0 <= i < |clients| && clients[i].conn == d.to && Receives(clients[i], users, canvasId, exclude);
        if i < |clients| - 1 {
          assert init[i] == clients[i];
        }
      }
    }
  }

  /** Every delivered connection is a registered member of the target room other than the excluded one. */
  lemma RoomIsolation(clients: seq<Client>, users: map<Conn, User>, canvasId: Json, msg: Outbound, exclude: Conn, d: Delivery)
    requires d in Fanout(clients, users, canvasId, msg, exclude)
    ensures d.to != exclude && d.to in users && users[d.to].canvasId == canvasId && d.msg == msg
  {
    FanoutRecipients(clients, users, canvasId, msg, exclude, d);
  }

  /** The connections of `wss.clients` are distinct (it is a `Set`). */
  predicate DistinctConns(clients: seq<Client>) {
    forall i, j :: 0 <= i < j < |clients| ==> clients[i].conn != clients[j].conn
  }

  /** Over distinct clients, no recipient gets the same broadcast twice. */
  lemma {:induction false} FanoutOnce(clients: seq<Client>, users: map<Conn, User>, canvasId: Json, msg: Outbound, exclude: Conn)
    requires DistinctConns(clients)
    ensures Distinct(Fanout(clients, users, canvasId, msg, exclude))
  {
    if clients != [] {
      var init := clients[..|clients| - 1];
      var last := clients[|clients| - 1];
      FanoutOnce(init, users, canvasId, msg, exclude);
      var prefix := Fanout(init, users, canvasId, msg, exclude);
      var tail := if Receives(last, users, canvasId, exclude) then Sent(last, msg) else [];
      forall d | d in prefix
        ensures d.to != last.conn
      {
        FanoutRecipients(init, users, canvasId, msg, exclude, d);
      }
      assert forall d :: d in tail ==> d.to == last.conn;
      var all := prefix + tail;
      forall i, j | 0 <= i < j < |all| ensures all[i] != all[j] {
        if j >= |prefix| {
          assert all[j] in tail;
          if i < |prefix| { assert all[i] in prefix; }
        }
      }
    }
  }

  /** `getCanvasUsers` lists exactly the records registered on `canvasId`. */
  lemma {:induction false} RoomMembersExact(order: seq<Conn>, users: map<Conn, User>, canvasId: Json, u: User)
    requires forall c :: c in order ==> c in users
    ensures u in RoomMembers(order, users, canvasId) <==>
      u.canvasId == canvasId && exists c :: c in order && users[c] == u
  {
    if order != [] {
      var init := order[..|order| - 1];
      RoomMembersExact(init, users, canvasId, u);
      if u.canvasId == canvasId && exists c :: c in order && users[c] == u {
        var c :| c in order && users[c] == u;
        if c != order[|order| - 1] {
          assert c in init;
        }
      }
    }
  }

  /** The filter `u.id !== id` keeps exactly the records with another id. */
  lemma {:induction false} OthersThanExact(us: seq<User>, id: Json, u: User)
    ensures u in OthersThan(us, id) <==> u in us && u.id != id
  {
    if us != [] {
      OthersThanExact(us[1..], id, u);
      assert us == [us[0]] + us[1..];
    }
  }

  /** The filter keeps the kept records in their order: filtering a concatenation filters each part. */
  lemma {:induction false} OthersThanKeepsOrder(a: seq<User>, b: seq<User>, id: Json)
    ensures OthersThan(a + b, id) == OthersThan(a, id) + OthersThan(b, id)
  {
    if a != [] {
      var ab := a + b;
      assert ab[0] == a[0] && ab[1..] == a[1..] + b;
      OthersThanKeepsOrder(a[1..], b, id);
      assert OthersThan(ab, id) == (if a[0].id != id then [a[0]] else []) + OthersThan(a[1..] + b, id);
    } else {
      assert a + b == b;
    }
  }

  /**
   * The joiner's `canvas-state` lists every registered record on its canvas
   * whose id differs from the joiner's, and nothing else: never the joiner's
   * own record, nor any record that shares its id.
   */
  lemma CanvasStateExact(joiner: User, order: seq<Conn>, users: map<Conn, User>, u: User)
    requires forall c :: c in order ==> c in users
    ensures var reply := CanvasStateFor(joiner, RoomMembers(order, users, joiner.canvasId));
      && reply.userId == joiner.id && reply.name == joiner.name && reply.color == joiner.color
      && (u in reply.users <==>
           u.canvasId == joiner.canvasId && u.id != joiner.id && exists c :: c in order && users[c] == u)
  {
    RoomMembersExact(order, users, joiner.canvasId, u);
    OthersThanExact(RoomMembers(order, users, joiner.canvasId), joiner.id, u);
  }
}
