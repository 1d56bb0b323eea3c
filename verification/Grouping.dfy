/** handleEvents' grouping: rooms are handled concurrently, events of one room in order. */
module Grouping {
  import opened Mentions
  import opened Units

  /** A room's events, in the order the batch had them. */
  function InRoom(events: seq<PDU>, room: string): (sub: seq<PDU>)
    ensures forall k :: 0 <= k < |sub| ==> sub[k] in events && sub[k].room == room
  {
    if events == [] then []
    else
      var n := |events| - 1;
      InRoom(events[..n], room) + if events[n].room == room then [events[n]] else []
  }

  ghost predicate Ascending(events: seq<PDU>) {
    forall i, j :: 0 <= i < j < |events| ==> events[i].ordering < events[j].ordering
  }

  lemma {:induction false} InRoomAscending(events: seq<PDU>, room: string)
    requires Ascending(events)
    ensures Ascending(InRoom(events, room))
  {
    if events != [] {
      var n := |events| - 1;
      InRoomAscending(events[..n], room);
      var front := InRoom(events[..n], room);
      forall k | 0 <= k < |front| ensures front[k].ordering < events[n].ordering {
        var j :| 0 <= j < n && events[j] == front[k];
      }
    }
  }

  lemma {:induction false} InRoomComplete(events: seq<PDU>, i: nat)
    requires i < |events|
    ensures events[i] in InRoom(events, events[i].room)
  {
    var n := |events| - 1;
    if i < n {
      InRoomComplete(events[..n], i);
      assert events[..n][i] == events[i];
      var front := InRoom(events[..n], events[i].room);
      assert forall p :: p in front ==> p in InRoom(events, events[i].room);
    }
  }

  function RoomsOf(events: seq<PDU>): (rooms: seq<string>)
    ensures |rooms| == |events| && forall i :: 0 <= i < |events| ==> rooms[i] == events[i].room
  {
    seq(|events|, i requires 0 <= i < |events| => events[i].room)
  }

  lemma NextRoom(events: seq<PDU>, n: nat)
    requires n < |events|
    ensures var first := FirstNamed(RoomsOf(events[..n]));
            FirstNamed(RoomsOf(events[..n + 1])) == if events[n].room in first then first else first + [events[n].room]
  {
    assert RoomsOf(events[..n + 1]) == RoomsOf(events[..n]) + [events[n].room];
    NextName(RoomsOf(events[..n]), events[n].room);
  }

  /** One event under its room, which is appended to the order if it is new. */
  method AddTo(byRoom: map<string, seq<PDU>>, order: seq<string>, e: PDU)
    returns (after: map<string, seq<PDU>>, named: seq<string>)
    requires forall r :: r in order <==> r in byRoom
    ensures forall r :: r in named <==> r in after
    ensures named == if e.room in order then order else order + [e.room]
    ensures after == byRoom[e.room := (if e.room in byRoom then byRoom[e.room] else []) + [e]]
  {
    after, named := byRoom, order;
    if e.room !in after {
      named := named + [e.room];
      after := after[e.room := []];
    }
    after := after[e.room := after[e.room] + [e]];
  }

  /** Each room once, in the order the batch first names it, with all of its events
      and nothing else, in batch order. */
  method ByRoom(events: seq<PDU>) returns (byRoom: map<string, seq<PDU>>, order: seq<string>)
    ensures forall e :: e in events ==> e.room in byRoom
    ensures forall r :: r in byRoom ==> byRoom[r] == InRoom(events, r) && byRoom[r] != []
    ensures forall r :: r in order <==> r in byRoom
    ensures order == FirstNamed(RoomsOf(events))
  {
    byRoom, order := map[], [];
    for n := 0 to |events|
      invariant Grouped(byRoom, events[..n])
      invariant forall r :: r in order <==> r in byRoom
      invariant order == FirstNamed(RoomsOf(events[..n]))
    {
      GroupedNext(byRoom, events, n);
      NextRoom(events, n);
      byRoom, order := AddTo(byRoom, order, events[n]);
    }
    assert events[..|events|] == events;
    GroupedAll(byRoom, events);
  }

  ghost predicate Grouped(byRoom: map<string, seq<PDU>>, events: seq<PDU>) {
    forall r :: HasOwn(byRoom, events, r)
  }

  ghost predicate HasOwn(byRoom: map<string, seq<PDU>>, events: seq<PDU>, r: string) {
    && InRoom(events, r) == (if r in byRoom then byRoom[r] else [])
    && (r in byRoom ==> byRoom[r] != [])
  }

  lemma GroupedNext(byRoom: map<string, seq<PDU>>, events: seq<PDU>, n: nat)
    requires n < |events| && Grouped(byRoom, events[..n])
    ensures var e := events[n];
            Grouped(byRoom[e.room := (if e.room in byRoom then byRoom[e.room] else []) + [e]], events[..n + 1])
  {
    var e := events[n];
    var after := byRoom[e.room := (if e.room in byRoom then byRoom[e.room] else []) + [e]];
    var front, upTo := events[..n], events[..n + 1];
    assert upTo == front + [e];
    forall r ensures HasOwn(after, upTo, r) {
      InRoomNext(front, e, r);
      assert HasOwn(byRoom, front, r);
    }
  }

  lemma InRoomNext(front: seq<PDU>, e: PDU, room: string)
    ensures InRoom(front + [e], room) == InRoom(front, room) + if e.room == room then [e] else []
    ensures e.room != room ==> InRoom(front + [e], room) == InRoom(front, room)
  {
    assert (front + [e])[..|front|] == front;
  }

  lemma GroupedAll(byRoom: map<string, seq<PDU>>, events: seq<PDU>)
    requires Grouped(byRoom, events)
    ensures forall e :: e in events ==> e.room in byRoom
    ensures forall r :: r in byRoom ==> byRoom[r] == InRoom(events, r) && byRoom[r] != []
  {
    forall e | e in events ensures e.room in byRoom {
      var i :| 0 <= i < |events| && events[i] == e;
      InRoomComplete(events, i);
      assert HasOwn(byRoom, events, events[i].room);
    }
    forall r | r in byRoom ensures byRoom[r] == InRoom(events, r) && byRoom[r] != [] {
      assert HasOwn(byRoom, events, r);
    }
  }
}
