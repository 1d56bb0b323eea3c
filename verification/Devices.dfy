/** One read of a destination's outbox or device pokes: the rows above its cursor become
    units in stream order, the last carries the mark, and the cursor follows the read. */
module Devices {
  import opened Units
  import opened DestinationQueue
  import opened DeviceList
  import Spec = QueueSpec
  import ToDevice
  import Marks

  function PokesIn(table: seq<Poke>, last: int, current: int): seq<Poke> {
    if table == [] then []
    else
      var n := |table| - 1;
      PokesIn(table[..n], last, current) + if last < table[n].stream <= current then [table[n]] else []
  }

  /** GetDeviceUpdatesByRemote: the oldest pokes in (last, current], up to the limit. */
  function PokePage(table: seq<Poke>, last: int, current: int, limit: nat): seq<Poke> {
    var pokes := PokesIn(table, last, current);
    if |pokes| > limit then pokes[..limit] else pokes
  }

  lemma {:induction false} PokesInMembers(table: seq<Poke>, last: int, current: int)
    ensures forall p :: p in PokesIn(table, last, current) <==> p in table && last < p.stream <= current
  {
    if table != [] {
      var n := |table| - 1;
      PokesInMembers(table[..n], last, current);
      assert table == table[..n] + [table[n]];
    }
  }

  /** In stream order: no poke before one with a smaller id; equal ids may follow each other. */
  ghost predicate Ordered(pokes: seq<Poke>) {
    forall i, j :: 0 <= i < j < |pokes| ==> pokes[i].stream <= pokes[j].stream
  }

  lemma {:induction false} AllIn(table: seq<Poke>, last: int, upTo: int, current: int)
    requires forall i :: 0 <= i < |table| ==> table[i].stream <= upTo && table[i].stream <= current
    ensures PokesIn(table, last, upTo) == PokesIn(table, last, current)
  {
    if table != [] {
      AllIn(table[..|table| - 1], last, upTo, current);
    }
  }

  /** part is all's beginning, and ends where the ids pass upTo. */
  ghost predicate EndsAt(part: seq<Poke>, all: seq<Poke>, upTo: int) {
    part <= all && (|part| < |all| ==> all[|part|].stream > upTo)
  }

  lemma {:induction false} BeginningOf(table: seq<Poke>, last: int, upTo: int, current: int)
    requires Ordered(table) && upTo <= current
    ensures EndsAt(PokesIn(table, last, upTo), PokesIn(table, last, current), upTo)
  {
    if table != [] {
      var n := |table| - 1;
      BeginningOf(table[..n], last, upTo, current);
      if table[n].stream <= upTo {
        AllIn(table[..n], last, upTo, current);
      }
    }
  }

  lemma {:induction false} PokesInOrdered(table: seq<Poke>, last: int, current: int)
    requires Ordered(table)
    ensures Ordered(PokesIn(table, last, current))
  {
    if table != [] {
      var n := |table| - 1;
      PokesInOrdered(table[..n], last, current);
      PokesInMembers(table[..n], last, current);
      var front := PokesIn(table[..n], last, current);
      forall k | 0 <= k < |front| ensures front[k].stream <= table[n].stream {
        assert front[k] in front;
      }
    }
  }

  /** The limit falls between two pokes of one stream id. */
  predicate CutsATie(table: seq<Poke>, last: int, current: int, limit: nat)
    requires limit > 0
  {
    var all := PokesIn(table, last, current);
    |all| > limit && all[limit].stream == all[limit - 1].stream
  }

  /** Moving the cursor to a page's highest id skips no poke if and only if the limit does
      not cut between pokes of one id. */
  lemma PageIsCompleteIff(table: seq<Poke>, last: int, current: int, limit: nat)
    requires Ordered(table) && limit > 0 && PokePage(table, last, current, limit) != []
    ensures var page := PokePage(table, last, current, limit);
            PokesIn(table, last, page[|page| - 1].stream) == page <==> !CutsATie(table, last, current, limit)
  {
    var all, page := PokesIn(table, last, current), PokePage(table, last, current, limit);
    var highest := page[|page| - 1].stream;
    PokesInMembers(table, last, current);
    assert all[|page| - 1] in all;
    BeginningOf(table, last, highest, current);
    PokesInMembers(table, last, highest);
    PokesInOrdered(table, last, current);
    PartIsPage(PokesIn(table, last, highest), all, |page|);
  }

  lemma PartIsPage(part: seq<Poke>, all: seq<Poke>, n: nat)
    requires 0 < n <= |all| && Ordered(all) && EndsAt(part, all, all[n - 1].stream)
    requires forall p :: p in part ==> p.stream <= all[n - 1].stream
    ensures part == all[..n] <==> !(n < |all| && all[n].stream == all[n - 1].stream)
  {
    if |part| < n {
      assert false;
    }
    if |part| > n {
      assert part[n] == all[n] && part[n] in part;
    }
    assert part == all[..|part|];
  }

  function KindOf(b: Body): Kind {
    match b
    case Update(_, _, _, _, _, _, _) => DeviceListUpdate
    case SigningKey(_, _) => SigningKeyUpdate
    case UnstableSigningKey(_, _) => UnstableSigningKeyUpdate
  }

  function UnitFor(encode: Body -> Json, bodies: seq<Body>, highest: int, i: nat): EDU
    requires i < |bodies|
  {
    EDU(Unit(KindOf(bodies[i]), Raw(encode(bodies[i]))), 0, if i == |bodies| - 1 then highest else 0, "", None, None)
  }

  function UnitsFor(encode: Body -> Json, bodies: seq<Body>, highest: int): seq<EDU> {
    seq(|bodies|, i requires 0 <= i < |bodies| => UnitFor(encode, bodies, highest, i))
  }

  datatype Fault = NoFault | CursorRead | TableRead | DetailRead | CursorWrite

  function Append(q: Spec.Queue, units: seq<EDU>): Spec.Queue {
    if units == [] then q else q.(edus := q.edus + units, newData := true)
  }

  /** The queue has these messages, in order, behind all that was there. */
  ghost predicate Carries(before: seq<EDU>, after: seq<EDU>, rows: seq<ToDevice.Row>) {
    && |after| == |before| + |rows| && before <= after
    && forall k :: 0 <= k < |rows| ==> after[|before| + k].unit == Unit(DirectToDevice, Raw(rows[k].msg))
  }

  lemma CarriesMore(before: seq<EDU>, after: seq<EDU>, rows: seq<ToDevice.Row>, more: seq<ToDevice.Row>, next: int)
    requires Carries(before, after, rows)
    ensures Carries(before, after + ToDevice.UnitsFor(more, next), rows + more)
  {
  }

  /** One more read, from where the last one left the cursor. */
  lemma PokeCarries(was: seq<EDU>, edus: seq<EDU>, outbox: seq<ToDevice.Row>, start: int, last: int, current: int, limit: nat)
    requires ToDevice.Ascending(outbox) && limit > 0 && start <= last
    requires Carries(was, edus, ToDevice.InRange(outbox, start, last))
    ensures var (rows, next) := ToDevice.Read(outbox, last, current, limit);
            && Carries(was, edus + ToDevice.UnitsFor(rows, next), ToDevice.InRange(outbox, start, Max(last, next)))
            && (rows == [] ==> edus + ToDevice.UnitsFor(rows, next) == edus)
  {
    var (rows, next) := ToDevice.Read(outbox, last, current, limit);
    ToDevice.NextRead(false, outbox, last, current, limit);
    ToDevice.RangesJoin(outbox, start, last, Max(last, next));
    CarriesMore(was, edus, ToDevice.InRange(outbox, start, last), rows, next);
  }

  class Devices {
    const limit: nat
    const allowName: bool
    const encode: Body -> Json
    var toDevice: map<string, int>       // the to-device cursors, by destination
    var deviceLists: map<string, int>

    ghost predicate Valid()
      reads this
    {
      limit > 0
    }

    constructor (edusPerRead: nat, allowName: bool, encode: Body -> Json)
      requires edusPerRead > 0
      ensures Valid() && toDevice == map[] && deviceLists == map[]
    {
      limit, this.allowName, this.encode := edusPerRead, allowName, encode;
      toDevice, deviceLists := map[], map[];
    }

    function Cursor(cursors: map<string, int>, server: string): int {
      if server in cursors then cursors[server] else 0
    }

    /** Cursors.Set: never backwards. */
    function Advanced(cursors: map<string, int>, server: string, pos: int): map<string, int> {
      if server in cursors && pos <= cursors[server] then cursors else cursors[server := pos]
    }

    /** This server's cursor is at pos, or was past it; the others are where they were. */
    ghost predicate MovedTo(before: map<string, int>, after: map<string, int>, server: string, pos: int) {
      && after.Keys == before.Keys + {server}
      && after[server] == (if server in before then Max(before[server], pos) else pos)
      && forall s :: s in before && s != server ==> after[s] == before[s]
    }

    method Enqueue(d: Destination, units: seq<EDU>)
      modifies d
      ensures d.Fields() == Append(old(d.Fields()), units)
    {
      for i := 0 to |units|
        invariant d.Fields() == Append(old(d.Fields()), units[..i])
      {
        assert units[..i + 1] == units[..i] + [units[i]];
        d.EnqueueMarkedEDU(units[i]);
      }
      assert units[..|units|] == units;
    }

    /** One unit a row, in order; the last is given the mark. */
    method EnqueueRows(d: Destination, rows: seq<ToDevice.Row>, next: int)
      modifies d
      ensures d.Fields() == Append(old(d.Fields()), ToDevice.UnitsFor(rows, next))
    {
      ghost var units := ToDevice.UnitsFor(rows, next);
      for i := 0 to |rows|
        invariant d.Fields() == Append(old(d.Fields()), units[..i])
      {
        var e := EDU(Unit(DirectToDevice, Raw(rows[i].msg)), 0, 0, "", None, None);
        if i == |rows| - 1 {
          e := e.(toDeviceUpTo := next);
        }
        assert e == units[i] && units[..i + 1] == units[..i] + [units[i]];
        d.EnqueueMarkedEDU(e);
      }
      assert units[..|rows|] == units;
    }

    /** toDeviceFor: a read that fails queues nothing; one whose cursor write fails has
        queued its rows and will read them again. */
    method ToDeviceFor(d: Destination, server: string, outbox: seq<ToDevice.Row>, current: int, fault: Fault)
      returns (ok: bool, wake: bool)
      requires Valid() && fault != DetailRead
      modifies this`toDevice, d
      ensures ok == (fault == NoFault)
      ensures var (rows, next) := ToDevice.Read(outbox, old(Cursor(toDevice, server)), current, limit);
              if fault == NoFault || fault == CursorWrite then
                d.Fields() == Append(old(d.Fields()), ToDevice.UnitsFor(rows, next)) && wake == (rows != [])
              else
                d.Fields() == old(d.Fields()) && !wake
      ensures wake ==> d.newData
      ensures d.pendingPDUs == old(d.pendingPDUs) && old(d.pendingEDUs) <= d.pendingEDUs
      ensures var (_, next) := ToDevice.Read(outbox, old(Cursor(toDevice, server)), current, limit);
              if ok then MovedTo(old(toDevice), toDevice, server, next) else toDevice == old(toDevice)
    {
      if fault == CursorRead || fault == TableRead {
        return false, false;
      }
      var (rows, next) := ToDevice.Read(outbox, Cursor(toDevice, server), current, limit);
      wake := |rows| > 0;
      EnqueueRows(d, rows, next);
      if fault == CursorWrite {
        return false, wake;
      }
      toDevice := Advanced(toDevice, server, next);
      return true, wake;
    }

    /** One poke after another, some of whose reads fail: however they fall, what is queued
        is every row the cursor passes, in order and once. */
    method ToDevicePokes(d: Destination, server: string, outbox: seq<ToDevice.Row>, currents: seq<nat>, faults: nat -> Fault)
      requires Valid() && ToDevice.Ascending(outbox) && Cursor(toDevice, server) >= 0
      requires forall i: nat :: faults(i) == NoFault || faults(i) == CursorRead || faults(i) == TableRead
      modifies this`toDevice, d
      ensures old(Cursor(toDevice, server)) <= Cursor(toDevice, server)
      ensures forall s :: s in old(toDevice) && s != server ==> s in toDevice && toDevice[s] == old(toDevice)[s]
      ensures var rows := ToDevice.InRange(outbox, old(Cursor(toDevice, server)), Cursor(toDevice, server));
              Carries(old(d.pendingEDUs), d.pendingEDUs, rows)
    {
      ghost var start, was := Cursor(toDevice, server), d.pendingEDUs;
      ToDevice.NoRange(outbox, start);
      for i := 0 to |currents|
        invariant start <= Cursor(toDevice, server)
        invariant forall s :: s in old(toDevice) && s != server ==> s in toDevice && toDevice[s] == old(toDevice)[s]
        invariant Carries(was, d.pendingEDUs, ToDevice.InRange(outbox, start, Cursor(toDevice, server)))
      {
        OnePoke(d, server, outbox, currents[i], faults(i), start, was);
      }
    }

    method OnePoke(d: Destination, server: string, outbox: seq<ToDevice.Row>, current: nat, fault: Fault,
                   ghost start: int, ghost was: seq<EDU>)
      requires Valid() && ToDevice.Ascending(outbox) && 0 <= start <= Cursor(toDevice, server)
      requires fault == NoFault || fault == CursorRead || fault == TableRead
      requires Carries(was, d.pendingEDUs, ToDevice.InRange(outbox, start, Cursor(toDevice, server)))
      modifies this`toDevice, d
      ensures start <= Cursor(toDevice, server)
      ensures forall s :: s in old(toDevice) && s != server ==> s in toDevice && toDevice[s] == old(toDevice)[s]
      ensures Carries(was, d.pendingEDUs, ToDevice.InRange(outbox, start, Cursor(toDevice, server)))
    {
      PokeCarries(was, d.pendingEDUs, outbox, start, Cursor(toDevice, server), current, limit);
      var _, _ := ToDeviceFor(d, server, outbox, current, fault);
    }

    /** deviceListsFor: what was queued is what the page's pokes build, the mark on the
        last unit is the page's highest stream id, and the cursor moves just there. */
    method DeviceListsFor(d: Destination, server: string, table: seq<Poke>, t: Tables, current: int, fault: Fault)
      returns (ok: bool, bodies: seq<Body>, highest: int)
      requires Valid()
      modifies this`deviceLists, d
      ensures ok ==> fault == NoFault
      ensures var pokes := PokePage(table, old(Cursor(deviceLists, server)), current, limit);
              fault == NoFault && !ok ==> exists p :: p in pokes && Unencodable(t, allowName, p)
      ensures var pokes := PokePage(table, old(Cursor(deviceLists, server)), current, limit);
              fault == CursorWrite && bodies == [] && pokes != [] ==> exists p :: p in pokes && Unencodable(t, allowName, p)
      ensures !ok && fault != CursorWrite ==> bodies == []
      ensures d.Fields() == Append(old(d.Fields()), UnitsFor(encode, bodies, highest))
      ensures d.pendingEDUs == old(d.pendingEDUs) + UnitsFor(encode, bodies, highest) && (bodies != [] ==> d.newData)
      ensures if ok then MovedTo(old(deviceLists), deviceLists, server, highest) else deviceLists == old(deviceLists)
      ensures var last := old(Cursor(deviceLists, server));
              var pokes := PokePage(table, last, current, limit);
              (bodies != [] ==> pokes != [] && Built(t, allowName, last, pokes, bodies, highest)) &&
              (ok && pokes != [] ==> bodies != []) &&
              (pokes == [] ==> bodies == [] && (ok ==> highest == current))
    {
      bodies, highest := [], current;
      if fault == CursorRead || fault == TableRead {
        return false, bodies, highest;
      }
      var last := Cursor(deviceLists, server);
      var pokes := PokePage(table, last, current, limit);
      if |pokes| == 0 {
        if fault == NoFault {
          deviceLists := Advanced(deviceLists, server, current);
        }
        return fault == NoFault, bodies, highest;
      }
      ok, bodies, highest := BuildDeviceListEDUs(t, allowName, last, pokes, fault == DetailRead);
      if !ok {
        return;
      }
      Enqueue(d, UnitsFor(encode, bodies, highest));
      if fault == CursorWrite {
        return false, bodies, highest;
      }
      deviceLists := Advanced(deviceLists, server, highest);
    }
  }

  /** Only the last unit of a read carries a mark, and there is one. */
  lemma MarkIsOnTheLast(encode: Body -> Json, bodies: seq<Body>, highest: int)
    requires bodies != []
    ensures var units := UnitsFor(encode, bodies, highest);
            units[|units| - 1].deviceListUpTo == highest &&
            (forall i :: 0 <= i < |units| - 1 ==> Unmarked(units[i])) &&
            (forall i :: 0 <= i < |units| ==>
               units[i].unit.content == Raw(encode(bodies[i])) &&
               units[i].unit.kind == match bodies[i]
                                     case Update(_, _, _, _, _, _, _) => DeviceListUpdate
                                     case SigningKey(_, _) => SigningKeyUpdate
                                     case UnstableSigningKey(_, _) => UnstableSigningKeyUpdate) &&
            Spec.MaxMark(units, Spec.Lists) == Max(0, highest)
  {
    var units := UnitsFor(encode, bodies, highest);
    var n := |units| - 1;
    NoMarks(units[..n]);
  }

  lemma {:induction false} NoMarks(units: seq<EDU>)
    requires forall i :: 0 <= i < |units| ==> Unmarked(units[i])
    ensures Spec.MaxMark(units, Spec.Lists) == 0
  {
    if units != [] {
      NoMarks(units[..|units| - 1]);
    }
  }

  // ---------- reads as the deletion argument has them ----------

  function MessagePlan(rows: seq<ToDevice.Row>, next: int): seq<Marks.Planned> {
    seq(|rows|, k requires 0 <= k < |rows| => Marks.Planned(ToDevice.UnitFor(rows, next, k), {rows[k]}))
  }

  /** What a read of messages queues is what the deletion argument asks of a read. */
  lemma MessagesArePlanned(rows: seq<ToDevice.Row>, next: int)
    requires next > 0
    ensures Marks.PlanFor(Spec.Messages, rows, next, MessagePlan(rows, next))
    ensures forall k :: 0 <= k < |rows| ==> MessagePlan(rows, next)[k].unit == ToDevice.UnitsFor(rows, next)[k]
  {
    var plan := MessagePlan(rows, next);
    forall r | r in rows ensures exists k :: 0 <= k < |plan| && r in plan[k].stands {
      var k :| 0 <= k < |rows| && rows[k] == r;
      assert r in plan[k].stands;
    }
  }

  function RowOf(p: Poke): ToDevice.Row {
    ToDevice.Row(p.stream, Json(p.user + "/" + p.device, true))
  }

  function RowsOf(pokes: seq<Poke>): seq<ToDevice.Row> {
    seq(|pokes|, k requires 0 <= k < |pokes| => RowOf(pokes[k]))
  }

  /** The pokes a body is about: the one it updates, or a user's key changes. */
  predicate About(t: Tables, b: Body, p: Poke) {
    match b
    case Update(user, device, stream, _, _, _, _) => p.user == user && p.device == device && p.stream == stream
    case SigningKey(user, _) => p.user == user && IsKey(t, p)
    case UnstableSigningKey(user, _) => p.user == user && IsKey(t, p)
  }

  function ListPlan(t: Tables, encode: Body -> Json, pokes: seq<Poke>, bodies: seq<Body>, highest: int): seq<Marks.Planned> {
    seq(|bodies|, k requires 0 <= k < |bodies| =>
      Marks.Planned(UnitFor(encode, bodies, highest, k), set p | p in pokes && About(t, bodies[k], p) :: RowOf(p)))
  }

  lemma {:induction false} UpdatesAreThere(bodies: seq<Body>, user: string)
    ensures forall b :: b in UpdatesOf(bodies, user) ==> b in bodies && b.Update? && b.user == user
  {
    if bodies != [] {
      UpdatesAreThere(bodies[..|bodies| - 1], user);
    }
  }

  /** Every poke has a body about it. */
  lemma PokeIsCovered(t: Tables, allowName: bool, from: int, pokes: seq<Poke>, bodies: seq<Body>, highest: int, p: Poke)
    requires Built(t, allowName, from, pokes, bodies, highest) && p in pokes
    ensures exists k :: 0 <= k < |bodies| && About(t, bodies[k], p)
  {
    if IsKey(t, p) {
      OfUserCounts(pokes, p.user, p);
      var users, signing, n: nat :| n <= |bodies| && KeysAnnounced(t, pokes, bodies, users, signing, n);
      assert Folded(t, pokes, p.user, SigningOf(signing, p.user));
      var i :| 0 <= i < |users| && users[i] == p.user;
      assert bodies[n..][2 * i] == SigningKey(p.user, signing[p.user]);
      assert About(t, bodies[n + 2 * i], p);
    } else {
      var chain := UpdatesOf(bodies, p.user);
      PlainPokeIsSent(t, allowName, pokes, chain, p);
      UpdatesAreThere(bodies, p.user);
      var k :| 0 <= k < |chain| && chain[k].Update? && chain[k].device == p.device && chain[k].stream == p.stream;
      assert chain[k] in chain;
      var j :| 0 <= j < |bodies| && bodies[j] == chain[k];
      assert About(t, bodies[j], p);
    }
  }

  /** What a read of device list pokes queues is what the deletion argument asks of a read:
      its units stand for all of the page's pokes, and the mark is on the last. */
  lemma ListsArePlanned(t: Tables, allowName: bool, encode: Body -> Json, from: int, pokes: seq<Poke>,
                        bodies: seq<Body>, highest: int)
    requires Built(t, allowName, from, pokes, bodies, highest) && pokes != [] && bodies != [] && highest > 0
    ensures Marks.PlanFor(Spec.Lists, RowsOf(pokes), highest, ListPlan(t, encode, pokes, bodies, highest))
    ensures forall k :: 0 <= k < |bodies| ==>
                          ListPlan(t, encode, pokes, bodies, highest)[k].unit == UnitsFor(encode, bodies, highest)[k]
  {
    var plan, rows := ListPlan(t, encode, pokes, bodies, highest), RowsOf(pokes);
    forall r | r in rows ensures exists k :: 0 <= k < |plan| && r in plan[k].stands {
      var i :| 0 <= i < |rows| && rows[i] == r;
      PokeIsCovered(t, allowName, from, pokes, bodies, highest, pokes[i]);
      var k :| 0 <= k < |bodies| && About(t, bodies[k], pokes[i]);
      assert RowOf(pokes[i]) in plan[k].stands;
    }
    forall k | 0 <= k < |plan| ensures Marks.PlannedOK(Spec.Lists, rows, plan[k], if k == |plan| - 1 then highest else 0) {
      PartOfPlan(t, encode, pokes, bodies, highest, k);
    }
  }

  lemma RowsOfNext(pokes: seq<Poke>, p: Poke, taken: bool)
    ensures RowsOf(pokes + if taken then [p] else []) == RowsOf(pokes) + if taken then [RowOf(p)] else []
  {
  }

  lemma {:induction false} PokesAreRows(table: seq<Poke>, last: int, current: int)
    ensures ToDevice.InRange(RowsOf(table), last, current) == RowsOf(PokesIn(table, last, current))
  {
    if table != [] {
      var front, p := table[..|table| - 1], table[|table| - 1];
      assert table == front + [p];
      PokesAreRows(front, last, current);
      NextPokeIsNextRow(front, p, last, current);
    }
  }

  lemma NextPokeIsNextRow(front: seq<Poke>, p: Poke, last: int, current: int)
    requires ToDevice.InRange(RowsOf(front), last, current) == RowsOf(PokesIn(front, last, current))
    ensures ToDevice.InRange(RowsOf(front + [p]), last, current) == RowsOf(PokesIn(front + [p], last, current))
  {
    RowsOfNext(front, p, true);
    ToDevice.InRangeNext(RowsOf(front), RowOf(p), last, current);
    RowsOfNext(PokesIn(front, last, current), p, last < p.stream <= current);
    assert (front + [p])[..|front|] == front;
  }

  /** The page such a read is made of is the read of the deletion argument, row for row. */
  lemma PageIsTheRead(table: seq<Poke>, last: int, current: int, limit: nat)
    requires limit > 0
    ensures var page := PokePage(table, last, current, limit);
            ToDevice.ReadLists(RowsOf(table), last, current, limit) ==
            (RowsOf(page), if page == [] then current else page[|page| - 1].stream)
  {
    var all := PokesIn(table, last, current);
    PokesAreRows(table, last, current);
    FrontRows(all, if |all| > limit then limit else |all|);
    assert all[..|all|] == all && RowsOf(all)[..|all|] == RowsOf(all);
  }

  lemma FrontRows(pokes: seq<Poke>, n: nat)
    requires n <= |pokes|
    ensures RowsOf(pokes)[..n] == RowsOf(pokes[..n])
  {
  }

  /** The mark is where such a read leaves the cursor: at the page's last row. */
  lemma HighestIsNext(t: Tables, allowName: bool, from: int, pokes: seq<Poke>, bodies: seq<Body>, highest: int)
    requires Built(t, allowName, from, pokes, bodies, highest) && pokes != [] && Ordered(pokes)
    requires forall p :: p in pokes ==> from < p.stream
    ensures highest == RowsOf(pokes)[|pokes| - 1].id
  {
    var last := pokes[|pokes| - 1];
    assert last in pokes;
    var p :| p in pokes && p.stream == highest;
    var i :| 0 <= i < |pokes| && pokes[i] == p;
  }

  lemma PartOfPlan(t: Tables, encode: Body -> Json, pokes: seq<Poke>, bodies: seq<Body>, highest: int, k: nat)
    requires k < |bodies| && highest > 0
    ensures Marks.PlannedOK(Spec.Lists, RowsOf(pokes), ListPlan(t, encode, pokes, bodies, highest)[k],
                            if k == |bodies| - 1 then highest else 0)
  {
    var p, rows := ListPlan(t, encode, pokes, bodies, highest)[k], RowsOf(pokes);
    forall r | r in p.stands ensures r in rows {
      var q :| q in pokes && About(t, bodies[k], q) && RowOf(q) == r;
      var i :| 0 <= i < |pokes| && pokes[i] == q;
      assert rows[i] == r;
    }
  }
}
