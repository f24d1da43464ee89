/**
 * Concrete exchanges between two participants, checked against the relay's
 * contracts: a cursor move reaches the other member of the room and not
 * the sender, two tool changes arrive in order, and an edit on one canvas
 * reaches nobody on another.
 */
module Scenarios {
  import opened Js
  import opened Relay

  /** Over clients `[a, b]` with `a` excluded, only `b` can receive, and it does when it is in the room. */
  lemma OnlySecondReceives(a: Client, b: Client, users: map<Conn, User>, canvasId: Json, msg: Outbound)
    requires b.conn != a.conn
    ensures Fanout([a, b], users, canvasId, msg, a.conn) ==
      if Receives(b, users, canvasId, a.conn) then [Delivery(b.conn, msg)] else []
  {
    assert [a, b][..1] == [a] && [a][..0] == [];
    assert Fanout([a], users, canvasId, msg, a.conn) == [];
  }

  /** The join request of participant `id` for `canvasId`, with no name and no tool. */
  function JoinAs(id: string, canvasId: string): Inbound {
    JoinCanvas(Str(id), Undefined, Str(canvasId), Undefined)
  }

  /** A (connection 1, id "u1") joins `canvasA`, then B (connection 2, id "u2") joins `canvasB`. */
  method JoinPair(canvasA: string, canvasB: string, now: int) returns (relay: SessionRelay)
    ensures fresh(relay) && relay.Valid()
    ensures relay.users == map[1 := NewUser(JoinAs("u1", canvasA), 0, "k1"), 2 := NewUser(JoinAs("u2", canvasB), 1, "k2")]
  {
    relay := new SessionRelay();
    var clients := [Client(1, true), Client(2, true)];
    relay.HandleMessage(Client(1, true), JoinAs("u1", canvasA), clients, "k1", now);
    assert relay.users == map[1 := NewUser(JoinAs("u1", canvasA), 0, "k1")];
    relay.HandleMessage(Client(2, true), JoinAs("u2", canvasB), clients, "k2", now);
  }

  /** A and B join "ABC123" as "u1" and "u2"; A's cursor-move reaches B only. */
  method CursorMoveReachesOtherMember(now: int)
  {
    var relay := JoinPair("ABC123", "ABC123", now);
    var a, b := Client(1, true), Client(2, true);
    var ua := relay.users[1];
    var before := relay.outbox;
    var move := CursorMove(Composite(7), Undefined);
    relay.HandleMessage(a, move, [a, b], "k3", now);
    OnlySecondReceives(a, b, relay.users, Str("ABC123"), Forwarded(ua, move, now));
    assert relay.outbox == before + [Delivery(2, CursorMoveEvent(Str("u1"), Composite(7), Num(now)))];
    assert relay.users[1].cursor == Composite(7);
  }

  /** A sends tool-change "pen" then "eraser": B sees both, in that order, and A's tool ends as "eraser". */
  method ToolChangesArriveInOrder(t0: int, t1: int, t2: int)
  {
    var relay := JoinPair("ABC123", "ABC123", t0);
    var a, b := Client(1, true), Client(2, true);
    var ua, ub := relay.users[1], relay.users[2];
    var before := relay.outbox;
    var pen := ToolChange(Str("pen"), Undefined);
    relay.HandleMessage(a, pen, [a, b], "k3", t1);
    OnlySecondReceives(a, b, relay.users, Str("ABC123"), Forwarded(ua, pen, t1));
    assert relay.users == map[1 := ua.(tool := Str("pen")), 2 := ub];
    var penEvent := Delivery(2, ToolChangeEvent(Str("u1"), Str("pen"), Num(t1)));
    assert relay.outbox == before + [penEvent];
    var eraser := ToolChange(Str("eraser"), Undefined);
    relay.HandleMessage(a, eraser, [a, b], "k4", t2);
    OnlySecondReceives(a, b, relay.users, Str("ABC123"), Forwarded(ua.(tool := Str("pen")), eraser, t2));
    assert relay.outbox == before + [penEvent, Delivery(2, ToolChangeEvent(Str("u1"), Str("eraser"), Num(t2)))];
    assert relay.users[1].tool == Str("eraser");
  }

  /** A joins "ABC123", B joins "XYZ789"; A's canvas-update reaches nobody. */
  method EditStaysInItsRoom(now: int)
  {
    var relay := JoinPair("ABC123", "XYZ789", now);
    var a, b := Client(1, true), Client(2, true);
    var before := relay.outbox;
    var edit := CanvasUpdate(Str("add"), Composite(3), Num(5));
    relay.HandleMessage(a, edit, [a, b], "k3", now);
    OnlySecondReceives(a, b, relay.users, Str("ABC123"), Forwarded(relay.users[1], edit, now));
    assert relay.outbox == before;
  }
}
