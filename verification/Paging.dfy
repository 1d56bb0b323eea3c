/** CatchUp.Destination: pages through the rows owed to a destination from its
    persisted cursor, sending one event a transaction. The table does not change
    here (Handover has the interleavings); due answers, read errors, the live
    loop's claim, the remote's answers and cancellation are inputs. */
module Paging {
  import opened Units
  import opened DestinationQueue
  import Spec = QueueSpec

  /** An owed row, joined with its row of events: one whose event has no row there is never
      on a page. Loadable says that event_json has the body, without which GetEvents leaves
      the event out; sendable, that the body serialises. */
  datatype Row = Row(pdu: PDU, loadable: bool, sendable: bool)

  datatype Env = Env(
    ticks: nat,                 // pages the context lives for
    due: nat -> bool,           // the backoff gate, at each check
    cursorOk: bool,             // the cursor can be read
    pageOk: nat -> bool,        // GetCatchUpRoomEventIDs succeeds
    eventsOk: nat -> bool,      // GetEvents succeeds
    busy: nat -> bool,          // the live loop holds the claim at a send
    answer: nat -> Outcome)     // what a send comes to

  datatype Status = CaughtUp | NotDue | ReadFailed | BusyNow | Undelivered | Cancelled

  const PAGE: nat := 50

  ghost predicate AscendingTo(rows: seq<Row>, n: nat)
    requires n <= |rows|
  {
    n <= 1 || (AscendingTo(rows, n - 1) && rows[n - 2].pdu.ordering < rows[n - 1].pdu.ordering)
  }

  ghost predicate Ascending(rows: seq<Row>) {
    AscendingTo(rows, |rows|)
  }

  lemma {:induction false} InOrder(rows: seq<Row>, n: nat)
    requires n <= |rows| && AscendingTo(rows, n)
    ensures forall i, j :: 0 <= i < j < n ==> rows[i].pdu.ordering < rows[j].pdu.ordering
  {
    if n > 1 {
      InOrder(rows, n - 1);
    }
  }

  /** How many rows a cursor has passed, of the first k at least. */
  function PosFrom(rows: seq<Row>, cursor: int, k: nat): (p: nat)
    requires k <= |rows| && (k > 0 ==> rows[k - 1].pdu.ordering <= cursor)
    ensures k <= p <= |rows|
    ensures p > 0 ==> rows[p - 1].pdu.ordering <= cursor
    ensures p < |rows| ==> cursor < rows[p].pdu.ordering
    decreases |rows| - k
  {
    if k < |rows| && rows[k].pdu.ordering <= cursor then PosFrom(rows, cursor, k + 1) else k
  }

  function Pos(rows: seq<Row>, cursor: int): (p: nat)
    ensures p <= |rows|
    ensures p > 0 ==> rows[p - 1].pdu.ordering <= cursor
    ensures p < |rows| ==> cursor < rows[p].pdu.ordering
  {
    PosFrom(rows, cursor, 0)
  }

  lemma PosOfRow(rows: seq<Row>, i: nat)
    requires Ascending(rows) && i < |rows|
    ensures Pos(rows, rows[i].pdu.ordering) == i + 1
  {
    InOrder(rows, |rows|);
    var k := Pos(rows, rows[i].pdu.ordering);
  }

  /** What catch-up can deliver of rows i to j, in their order. */
  function Deliverable(rows: seq<Row>, i: nat, j: nat): seq<PDU>
    requires j <= |rows|
  {
    if j <= i then []
    else Deliverable(rows, i, j - 1) + if rows[j - 1].loadable && rows[j - 1].sendable then [rows[j - 1].pdu] else []
  }

  lemma {:induction false} DeliverableJoins(rows: seq<Row>, i: nat, j: nat, k: nat)
    requires i <= j <= k <= |rows|
    ensures Deliverable(rows, i, k) == Deliverable(rows, i, j) + Deliverable(rows, j, k)
    decreases k
  {
    if j < k {
      DeliverableJoins(rows, i, j, k - 1);
    }
  }

  /** Deliveries come once each, in stream order, and are every deliverable row. */
  lemma {:induction false} DeliverableAscending(rows: seq<Row>, i: nat, j: nat)
    requires Ascending(rows) && j <= |rows|
    ensures forall a, b :: 0 <= a < b < |Deliverable(rows, i, j)| ==>
              Deliverable(rows, i, j)[a].ordering < Deliverable(rows, i, j)[b].ordering
    ensures forall p :: p in Deliverable(rows, i, j) <==>
              exists k :: i <= k < j && rows[k].loadable && rows[k].sendable && rows[k].pdu == p
    decreases j
  {
    InOrder(rows, |rows|);
    if i < j {
      var front, last := Deliverable(rows, i, j - 1), rows[j - 1];
      DeliverableAscending(rows, i, j - 1);
      forall a | 0 <= a < |front|
        ensures front[a].ordering < last.pdu.ordering
      {
        assert front[a] in front;
      }
    }
  }

  /** Where the last loadable row of the first n ends; zero when none loads. */
  function LastLoadable(page: seq<Row>, n: nat): (m: nat)
    requires n <= |page|
    ensures m <= n
  {
    if n == 0 || page[n - 1].loadable then n else LastLoadable(page, n - 1)
  }

  lemma {:induction false} LastLoadableIsLast(page: seq<Row>, n: nat)
    requires n <= |page|
    ensures LastLoadable(page, n) > 0 <==> exists j :: 0 <= j < n && page[j].loadable
    ensures LastLoadable(page, n) > 0 ==> page[LastLoadable(page, n) - 1].loadable
    ensures forall j :: LastLoadable(page, n) <= j < n ==> !page[j].loadable
  {
    if n > 0 && !page[n - 1].loadable {
      LastLoadableIsLast(page, n - 1);
    }
  }

  /** How far the running cursor gets on a page. */
  function Advance(page: seq<Row>): (m: nat)
    ensures m <= |page|
  {
    LastLoadable(page, |page|)
  }

  /** GetCatchUpRoomEventIDs, from position k. */
  function PageAt(rows: seq<Row>, k: nat): (page: seq<Row>)
    requires k <= |rows|
    ensures k + |page| <= |rows| && (|page| == 0 <==> k == |rows|)
    ensures |page| <= 50 && (|page| == 50 || k + |page| == |rows|)
  {
    if |rows| - k <= PAGE then rows[k..] else rows[k..k + PAGE]
  }

  /** A page read at position i has a row in it that loads. */
  predicate Loads(rows: seq<Row>, i: nat) {
    exists j :: i <= j < |rows| && j < i + PAGE && rows[j].loadable
  }

  /** From position k on, no page's worth of rows in a row fails to load, and the last
      row loads. */
  predicate Passable(rows: seq<Row>, k: nat)
    requires k <= |rows|
  {
    forall i :: k <= i < |rows| ==> Loads(rows, i)
  }

  lemma AdvanceLoads(rows: seq<Row>, k: nat)
    requires k < |rows|
    ensures Advance(PageAt(rows, k)) > 0 <==> Loads(rows, k)
    ensures forall i: nat :: k <= i < k + Advance(PageAt(rows, k)) ==> Loads(rows, i)
  {
    var page := PageAt(rows, k);
    var m := Advance(page);
    LastLoadableIsLast(page, |page|);
    assert forall j :: 0 <= j < |page| ==> page[j] == rows[k + j];
    if m > 0 { assert rows[k + m - 1].loadable; }
    if j :| k <= j < |rows| && j < k + PAGE && rows[j].loadable { assert page[j - k].loadable; }
  }

  /** A pass meets only pages that move it on, exactly when its table is passable from
      where it starts: the pages it does not meet cannot matter. */
  lemma PassableNext(rows: seq<Row>, k: nat)
    requires k < |rows|
    ensures var m := Advance(PageAt(rows, k));
            Passable(rows, k) <==> (m > 0 && Passable(rows, k + m))
  {
    AdvanceLoads(rows, k);
    if Passable(rows, k) { assert Loads(rows, k); }
  }

  /** An event with no body in event_json, if it is the newest owed, keeps every pass that
      starts below it from finishing. */
  lemma BodilessTailBlocks(rows: seq<Row>, k: nat)
    requires k < |rows| && !rows[|rows| - 1].loadable
    ensures !Passable(rows, k)
  {
    var last := |rows| - 1;
    assert !Loads(rows, last);
  }

  /** A whole page of such events does, wherever it lies and whatever comes after. */
  lemma BodilessPageBlocks(rows: seq<Row>, k: nat, i: nat)
    requires k <= i && i + 50 <= |rows| && forall j :: i <= j < i + 50 ==> !rows[j].loadable
    ensures !Passable(rows, k)
  {
    assert !Loads(rows, i);
  }

  /** The smallest table no pass gets through: one event, in events but not in event_json. */
  lemma OneBodilessEvent() returns (rows: seq<Row>)
    ensures Ascending(rows) && |rows| == 1 && !Passable(rows, 0)
  {
    rows := [Row(PDU("$e", 5, "!r", ""), false, false)];
    BodilessTailBlocks(rows, 0);
  }

  lemma LoadableIsPassable(rows: seq<Row>, k: nat)
    requires k <= |rows| && forall i :: 0 <= i < |rows| ==> rows[i].loadable
    ensures Passable(rows, k)
  {
    forall i | k <= i < |rows| ensures Loads(rows, i) {
      assert rows[i].loadable;
    }
  }

  ghost predicate Unhindered(env: Env) {
    env.cursorOk && forall k: nat :: env.due(k) && env.pageOk(k) && env.eventsOk(k) && !env.busy(k) && env.answer(k).Ok?
  }

  ghost predicate NothingToSend(rows: seq<Row>, i: nat, j: nat)
    requires j <= |rows|
  {
    forall k :: i <= k < j ==> !(rows[k].loadable && rows[k].sendable)
  }

  lemma {:induction false} NothingIsDeliverable(rows: seq<Row>, i: nat, j: nat)
    requires j <= |rows| && NothingToSend(rows, i, j)
    ensures Deliverable(rows, i, j) == []
  {
    if i < j {
      NothingIsDeliverable(rows, i, j - 1);
    }
  }

  /** The pass, now at position k, meets only pages with something that loads exactly
      when it did from the start; and if so, it has a page read left for each row. */
  ghost predicate InTime(rows: seq<Row>, free: bool, passable: bool, k: nat, left: int)
    requires k <= |rows|
  {
    Passable(rows, k) == passable && (free && passable ==> left >= |rows| - k + 1)
  }

  lemma PageDone(rows: seq<Row>, free: bool, passable: bool, k: nat, left: int)
    requires k <= |rows| && InTime(rows, free, passable, k, left + 1)
    ensures k < |rows| ==> InTime(rows, free, passable, k + Advance(PageAt(rows, k)), left)
  {
    if k < |rows| {
      PassableNext(rows, k);
    }
  }

  /** Between positions i and j of a pass, what the wire carried grew by exactly the
      deliverable rows, in order. */
  ghost predicate Carried(rows: seq<Row>, i: nat, j: nat, before: seq<PDU>, after: seq<PDU>) {
    i <= j <= |rows| && after == before + Deliverable(rows, i, j)
  }

  lemma CarriedJoins(rows: seq<Row>, i: nat, j: nat, k: nat, w0: seq<PDU>, w1: seq<PDU>, w2: seq<PDU>)
    requires Carried(rows, i, j, w0, w1) && Carried(rows, j, k, w1, w2)
    ensures Carried(rows, i, k, w0, w2)
  {
    DeliverableJoins(rows, i, j, k);
  }

  /** A pass that began at position start with wire carried: it has sent what lies up
      to the persisted cursor, and from there to position k there is nothing to send. */
  ghost predicate At(rows: seq<Row>, start: nat, carried: seq<PDU>, cursor: int, wire: seq<PDU>, ls: int, k: nat) {
    cursor <= ls && Pos(rows, cursor) <= Pos(rows, ls) <= k <= |rows| &&
    Carried(rows, start, Pos(rows, cursor), carried, wire) &&
    NothingToSend(rows, Pos(rows, cursor), k)
  }

  lemma AtNext(rows: seq<Row>, start: nat, carried: seq<PDU>, cursor: int, wire: seq<PDU>, ls: int, k: nat)
    requires Ascending(rows) && k < |rows| && At(rows, start, carried, cursor, wire, ls, k)
    ensures At(rows, start, carried, cursor, wire, ls, Pos(rows, ls))
    ensures cursor <= ls < rows[k].pdu.ordering && Pos(rows, rows[k].pdu.ordering) == k + 1
    ensures rows[k].loadable && rows[k].sendable ==>
              At(rows, start, carried, rows[k].pdu.ordering, wire + [rows[k].pdu], rows[k].pdu.ordering, k + 1)
    ensures !rows[k].loadable ==> At(rows, start, carried, cursor, wire, ls, k + 1)
    ensures rows[k].loadable && !rows[k].sendable ==>
              At(rows, start, carried, cursor, wire, rows[k].pdu.ordering, k + 1)
  {
    InOrder(rows, |rows|);
    PosOfRow(rows, k);
    if rows[k].loadable && rows[k].sendable { SentNext(rows, start, carried, Pos(rows, cursor), wire, k); }
  }

  /** One more row on the wire, after rows with nothing to send. */
  lemma SentNext(rows: seq<Row>, start: nat, carried: seq<PDU>, p: nat, wire: seq<PDU>, k: nat)
    requires p <= k < |rows| && rows[k].loadable && rows[k].sendable
    requires Carried(rows, start, p, carried, wire) && NothingToSend(rows, p, k)
    ensures Carried(rows, start, k + 1, carried, wire + [rows[k].pdu])
  {
    NothingIsDeliverable(rows, p, k);
    DeliverableJoins(rows, start, p, k);
  }

  lemma AtCursor(rows: seq<Row>, start: nat, carried: seq<PDU>, cursor: int, wire: seq<PDU>, ls: int, k: nat)
    requires At(rows, start, carried, cursor, wire, ls, k)
    ensures At(rows, start, carried, cursor, wire, ls, Pos(rows, ls))
  {
  }

  /** The first n pages of a pass: the server was due before each, and each was read. */
  ghost predicate Gated(env: Env, n: nat) {
    n <= env.ticks && forall k :: 1 <= k <= n ==> env.due(k) && env.pageOk(k)
  }

  /** A pass that finishes from position start has read pages enough for all the rows, and
      one more that was empty; and another after that if its skipped mark says that an event
      came meanwhile. */
  ghost predicate ReadEnough(rows: seq<Row>, env: Env, start: nat, again: bool) {
    exists n: nat :: Gated(env, n) && 50 * (n - if again then 2 else 1) >= |rows| - start
  }

  /** A running cursor is where it was, or at a row. */
  ghost predicate AtRow(rows: seq<Row>, from: int, ls: int) {
    ls == from || exists k :: 0 <= k < |rows| && rows[k].pdu.ordering == ls
  }

  ghost predicate Above(rows: seq<Row>, from: int, mark: int) {
    mark > from && forall k :: 0 <= k < |rows| ==> rows[k].pdu.ordering < mark
  }

  /** A pass from position start, after tick pages: at most one of them was an empty page
      that its skipped mark sent it back from. */
  ghost predicate Going(rows: seq<Row>, env: Env, start: nat, from: int, mark: int,
                        ls: int, tick: nat, spare: int, skipped: int) {
    && Gated(env, tick) && AtRow(rows, from, ls) && 0 <= from <= ls
    && (spare == 0 || spare == 1) && skipped == (if spare == 1 then mark else 0)
    && Pos(rows, ls) - start <= 50 * (tick - (1 - spare))
  }

  lemma GoesOn(rows: seq<Row>, env: Env, start: nat, from: int, mark: int,
               ls: int, tick: nat, spare: int, skipped: int, next: int)
    requires Going(rows, env, start, from, mark, ls, tick, spare, skipped) && tick < env.ticks
    requires env.due(tick + 1) && env.pageOk(tick + 1)
    requires AtRow(rows, ls, next) && ls <= next && Pos(rows, next) <= Pos(rows, ls) + 50
    ensures Going(rows, env, start, from, mark, next, tick + 1, spare, skipped)
  {
  }

  /** The page read last was empty: the pass is over, or goes round once more. */
  lemma EmptyPage(rows: seq<Row>, env: Env, start: nat, from: int, mark: int, ls: int, tick: nat, spare: int, skipped: int)
    requires Going(rows, env, start, from, mark, ls, tick, spare, skipped) && tick < env.ticks
    requires env.due(tick + 1) && env.pageOk(tick + 1) && Pos(rows, ls) == |rows|
    ensures skipped <= ls ==> ReadEnough(rows, env, start, Above(rows, from, mark))
    ensures skipped > ls ==> spare == 1 && Going(rows, env, start, from, mark, ls, tick + 1, 0, 0)
  {
    assert Gated(env, tick + 1);
  }

  /** The running cursor on a page read past from, after n of its rows. */
  ghost predicate Along(rows: seq<Row>, page: seq<Row>, from: int, ls: int, n: nat)
    requires n <= |page|
  {
    from <= ls && AtRow(rows, from, ls) && Pos(rows, ls) == Pos(rows, from) + LastLoadable(page, n)
  }

  lemma AlongNext(rows: seq<Row>, page: seq<Row>, from: int, ls: int, i: nat, next: int, went: bool)
    requires page == PageAt(rows, Pos(rows, from)) && i < |page| && Along(rows, page, from, ls, i)
    requires var row := rows[Pos(rows, from) + i];
             next == (if went && row.loadable then row.pdu.ordering else ls) && ls <= next &&
             (went && row.loadable ==> Pos(rows, next) == Pos(rows, from) + i + 1)
    ensures went ==> Along(rows, page, from, next, i + 1)
    ensures !went ==> Along(rows, page, from, next, i)
  {
    assert page[i] == rows[Pos(rows, from) + i];
  }

  /** Why a pass did not finish. */
  ghost predicate Hindered(env: Env, status: Status) {
    match status
    case CaughtUp => true
    case NotDue => exists k: nat :: !env.due(k)
    case ReadFailed => !env.cursorOk || exists k: nat :: !env.pageOk(k) || !env.eventsOk(k)
    case BusyNow => exists k: nat :: env.busy(k)
    case Undelivered => exists k: nat :: !env.answer(k).Ok?
    case Cancelled => Gated(env, env.ticks)
  }

  /** Why the last of some sends ended a page: CaughtUp says that it did not. */
  ghost predicate Refused(env: Env, status: Status, sends: nat) {
    match status
    case CaughtUp => true
    case BusyNow => sends > 0 && env.busy(sends - 1)
    case Undelivered => sends > 0 && !env.answer(sends - 1).Ok?
    case _ => false
  }

  ghost predicate Unread(env: Env, status: Status, tick: nat) {
    status.ReadFailed? && !(env.pageOk(tick) && env.eventsOk(tick))
  }

  lemma RefusedHinders(env: Env, status: Status, tick: nat, sends: nat)
    requires Unread(env, status, tick) || Refused(env, status, sends)
    ensures Hindered(env, status) && (Unhindered(env) ==> status.CaughtUp?)
  {
  }

  /** The tables one destination's catch-up works on, and what the wire has carried. */
  class CatchUp {
    const rows: seq<Row>          // owed, oldest first
    var cursor: Option<int>       // last_successful_stream_ordering
    var wire: seq<PDU>            // catch-up transactions delivered

    ghost predicate Valid()
      reads this
    {
      Ascending(rows) && (cursor.Some? ==> cursor.value >= 0)
    }

    /** Where a pass that starts now starts from. */
    ghost function Start(): nat
      reads this
    {
      if cursor.Some? then Pos(rows, cursor.value) else |rows|
    }

    /** Nothing stands in the way but the rows themselves, and there is time for each. */
    ghost predicate Free(env: Env) {
      Unhindered(env) && env.ticks >= |rows| + 2
    }

    constructor (rows: seq<Row>, cursor: Option<int>)
      requires Ascending(rows) && (cursor.Some? ==> cursor.value >= 0)
      ensures Valid() && this.rows == rows && this.cursor == cursor && wire == []
    {
      this.rows, this.cursor, wire := rows, cursor, [];
    }

    /** SetDestinationLastSuccessfulStreamOrdering: never backwards. */
    method Persist(ordering: int)
      modifies this`cursor
      ensures cursor == Some(if old(cursor).Some? then Max(old(cursor).value, ordering) else ordering)
    {
      if cursor.None? || cursor.value < ordering {
        cursor := Some(ordering);
      }
    }

    /** The queue knows its cursor from here on, and has moved it no further than the
        persisted one, which never went back. */
    twostate predicate TellsCursor(d: Destination)
      reads this, d
    {
      && cursor.Some? && old(cursor).Some? && old(cursor).value <= cursor.value && d.lastSuccessfulKnown
      && d.lastSuccessfulStreamOrdering == Max(old(d.lastSuccessfulStreamOrdering), cursor.value)
    }

    /** The same within a pass: was is the queue as the pass met it, first the cursor it
        read, and what waits is as it was. */
    ghost predicate Kept(d: Destination, was: Spec.Queue, first: int)
      reads this, d
    {
      && cursor.Some? && first <= cursor.value && d.lastSuccessfulKnown
      && d.lastSuccessfulStreamOrdering == Max(was.lastSuccessful, cursor.value)
      && d.pendingPDUs == was.pdus && d.pendingEDUs == was.edus && d.newData == was.newData
    }

    /** What waits in the queue is none of catch-up's business. */
    twostate predicate Untouched(d: Destination)
      reads d
    {
      && d.pendingPDUs == old(d.pendingPDUs) && d.pendingEDUs == old(d.pendingEDUs) && d.newData == old(d.newData)
    }

    /** One pass. Whatever cuts it short, what it delivered is exactly the deliverable
        rows from its cursor on, in order, up to the persisted cursor it leaves; a pass
        that finishes has delivered all of them. Left unhindered and given time, it
        finishes exactly when every page it meets has a row that loads. */
    method Destination(d: Destination, env: Env) returns (status: Status)
      requires Valid()
      modifies this, d
      ensures Valid()
      ensures Carried(rows, old(Start()), Start(), old(wire), wire)
      ensures cursor.None? ==> old(cursor).None?
      ensures status.CaughtUp? ==> !d.catchingUp && NothingToSend(rows, Start(), |rows|)
      ensures !status.CaughtUp? ==> d.catchingUp == old(d.catchingUp)
      ensures status.CaughtUp? ==> Passable(rows, old(Start()))
      ensures Free(env) && Passable(rows, old(Start())) ==> status.CaughtUp?
      ensures var begins := env.due(0) && env.cursorOk && old(cursor).Some?;
              if begins then TellsCursor(d)
              else cursor == old(cursor) && wire == old(wire) && d.lastSuccessfulKnown == old(d.lastSuccessfulKnown) &&
                   d.lastSuccessfulStreamOrdering == old(d.lastSuccessfulStreamOrdering) &&
                   status == if !env.due(0) then NotDue else if !env.cursorOk then ReadFailed else CaughtUp
      ensures Untouched(d) && Hindered(env, status)
      ensures status.CaughtUp? && old(cursor).Some? ==>
                ReadEnough(rows, env, old(Start()), Above(rows, old(cursor).value, old(d.catchupLastSkipped)))
    {
      if !env.due(0) {
        return NotDue;
      }
      if !env.cursorOk {
        return ReadFailed;
      }
      if cursor.None? {
        d.FinishCatchUp();
        return CaughtUp;
      }
      status := Pages(d, env);
    }

    /** The paging loop, from a known cursor. */
    method Pages(d: Destination, env: Env) returns (status: Status)
      requires Valid() && cursor.Some?
      modifies this, d
      ensures Valid() && cursor.Some?
      ensures Carried(rows, old(Start()), Start(), old(wire), wire)
      ensures status.CaughtUp? ==> !d.catchingUp && NothingToSend(rows, Start(), |rows|)
      ensures !status.CaughtUp? ==> d.catchingUp == old(d.catchingUp)
      ensures status.CaughtUp? ==> Passable(rows, old(Start()))
      ensures Free(env) && Passable(rows, old(Start())) ==> status.CaughtUp?
      ensures TellsCursor(d) && Untouched(d) && Hindered(env, status)
      ensures status.CaughtUp? ==>
                ReadEnough(rows, env, old(Start()), Above(rows, old(cursor).value, old(d.catchupLastSkipped)))
    {
      var ls := cursor.value;
      d.SetLastSuccessfulStreamOrdering(ls);
      ghost var d0 := old(d.Fields());
      ghost var from, mark, start, carried := ls, d.catchupLastSkipped, Pos(rows, ls), wire;
      ghost var spare, passable := 1, Passable(rows, start);
      var tick, sends, done := 0, 0, false;
      while tick < env.ticks
        invariant cursor.Some? && 0 <= cursor.value <= ls
        invariant At(rows, start, carried, cursor.value, wire, ls, Pos(rows, ls))
        invariant tick <= env.ticks && d.catchingUp == old(d.catchingUp)
        invariant InTime(rows, Free(env), passable, Pos(rows, ls), env.ticks - tick - spare)
        invariant Kept(d, d0, from)
        invariant Going(rows, env, start, from, mark, ls, tick, spare, d.catchupLastSkipped)
      {
        tick := tick + 1;
        if !env.due(tick) {
          return NotDue;
        }
        status, ls, sends, done, spare :=
          Round(d, env, tick, ls, sends, start, carried, d0, from, passable, mark, spare);
        if done || !status.CaughtUp? {
          return;
        }
      }
      return Cancelled;
    }

    /** One page, and what follows an empty one: the pass is done, or if an event came
        meanwhile it goes round once more. */
    method Round(d: Destination, env: Env, tick: nat, from: int, count: nat,
                 ghost start: nat, ghost carried: seq<PDU>, ghost was: Spec.Queue, ghost first: int,
                 ghost passable: bool, ghost mark: int, ghost spare: int)
      returns (status: Status, ls: int, sends: nat, done: bool, ghost left: int)
      requires Valid() && cursor.Some? && 0 < tick <= env.ticks && env.due(tick)
      requires At(rows, start, carried, cursor.value, wire, from, Pos(rows, from))
      requires InTime(rows, Free(env), passable, Pos(rows, from), env.ticks - tick + 1 - spare)
      requires Kept(d, was, first)
      requires Going(rows, env, start, first, mark, from, tick - 1, spare, d.catchupLastSkipped)
      modifies this, d
      ensures Kept(d, was, first)
      ensures Valid() && cursor.Some? && from <= ls
      ensures At(rows, start, carried, cursor.value, wire, ls, Pos(rows, ls))
      ensures Hindered(env, status) && (Unhindered(env) ==> status.CaughtUp?)
      ensures status.CaughtUp? && !done ==>
                InTime(rows, Free(env), passable, Pos(rows, ls), env.ticks - tick - left) &&
                Going(rows, env, start, first, mark, ls, tick, left, d.catchupLastSkipped)
      ensures done ==> status.CaughtUp? && Pos(rows, ls) == |rows| && passable &&
                       ReadEnough(rows, env, start, Above(rows, first, mark))
      ensures d.catchingUp == if done then false else old(d.catchingUp)
    {
      var empty;
      status, ls, sends, empty := TimedPage(d, env, tick, from, count, start, carried, was, first,
                                            passable, env.ticks - tick - spare);
      done, left := false, spare;
      RefusedHinders(env, status, tick, sends);
      if !status.CaughtUp? {
        return;
      }
      if empty {
        EmptyPage(rows, env, start, first, mark, ls, tick - 1, spare, d.catchupLastSkipped);
        var skipped := d.TakeCatchUpSkipped();
        if skipped <= ls {
          d.FinishCatchUp();
          done := true;
          return;
        }
        left := 0;
      } else {
        GoesOn(rows, env, start, first, mark, from, tick - 1, spare, d.catchupLastSkipped, ls);
      }
    }

    /** Page, with what it leaves of the time. */
    method TimedPage(d: Destination, env: Env, tick: nat, from: int, count: nat,
                     ghost start: nat, ghost carried: seq<PDU>, ghost was: Spec.Queue, ghost first: int,
                     ghost passable: bool, ghost left: int)
      returns (status: Status, ls: int, sends: nat, empty: bool)
      requires Valid() && from >= 0 && cursor.Some?
      requires At(rows, start, carried, cursor.value, wire, from, Pos(rows, from))
      requires InTime(rows, Free(env), passable, Pos(rows, from), left + 1)
      requires Kept(d, was, first)
      modifies this, d`running, d`lastSuccessfulStreamOrdering, d`lastSuccessfulKnown
      ensures Kept(d, was, first)
      ensures Valid() && cursor.Some? && from <= ls
      ensures At(rows, start, carried, cursor.value, wire, ls, Pos(rows, ls))
      ensures empty ==> ls == from && Pos(rows, ls) == |rows|
      ensures status.CaughtUp? && !empty ==> InTime(rows, Free(env), passable, Pos(rows, ls), left)
      ensures AtRow(rows, from, ls) && (Unread(env, status, tick) || Refused(env, status, sends)) && (status.CaughtUp? ==> env.pageOk(tick))
      ensures Pos(rows, ls) <= Pos(rows, from) + 50
    {
      ghost var base := Pos(rows, from);
      status, ls, sends, empty := Page(d, env, tick, from, count, start, carried, was, first);
      if status.CaughtUp? && !empty {
        PageDone(rows, Free(env), passable, base, left);
        assert Pos(rows, ls) == base + Advance(PageAt(rows, base));
      }
    }

    /** Reads the page after the running cursor and sends it. CaughtUp here says that it
        went well, and empty that nothing was owed. */
    method Page(d: Destination, env: Env, tick: nat, from: int, count: nat,
                ghost start: nat, ghost carried: seq<PDU>, ghost was: Spec.Queue, ghost first: int)
      returns (status: Status, ls: int, sends: nat, empty: bool)
      requires Valid() && from >= 0 && cursor.Some?
      requires At(rows, start, carried, cursor.value, wire, from, Pos(rows, from))
      requires Kept(d, was, first)
      modifies this, d`running, d`lastSuccessfulStreamOrdering, d`lastSuccessfulKnown
      ensures Kept(d, was, first)
      ensures Valid() && cursor.Some? && from <= ls
      ensures At(rows, start, carried, cursor.value, wire, ls, Pos(rows, ls))
      ensures empty ==> ls == from && Pos(rows, ls) == |rows|
      ensures status.CaughtUp? && !empty ==>
                Pos(rows, from) < |rows| &&
                Pos(rows, ls) == Pos(rows, from) + Advance(PageAt(rows, Pos(rows, from)))
      ensures AtRow(rows, from, ls) && (Unread(env, status, tick) || Refused(env, status, sends)) && (status.CaughtUp? ==> env.pageOk(tick))
      ensures Pos(rows, ls) <= Pos(rows, from) + 50
    {
      ls, sends, empty := from, count, false;
      if !env.pageOk(tick) {
        return ReadFailed, ls, sends, empty;
      }
      var base := Pos(rows, from);
      var page := PageAt(rows, base);
      if |page| == 0 {
        return CaughtUp, ls, sends, true;
      }
      if !env.eventsOk(tick) {
        return ReadFailed, ls, sends, empty;
      }
      status, ls, sends := SendPage(d, env, from, page, sends, start, carried, was, first);
    }

    /** Sends one page, event by event, from a running cursor at or past the persisted
        one. CaughtUp here says the page is done. */
    method SendPage(d: Destination, env: Env, from: int, page: seq<Row>, count: nat,
                    ghost start: nat, ghost carried: seq<PDU>, ghost was: Spec.Queue, ghost first: int)
      returns (status: Status, ls: int, sends: nat)
      requires Valid() && from >= 0 && cursor.Some?
      requires page == PageAt(rows, Pos(rows, from))
      requires At(rows, start, carried, cursor.value, wire, from, Pos(rows, from))
      requires Kept(d, was, first)
      modifies this, d`running, d`lastSuccessfulStreamOrdering, d`lastSuccessfulKnown
      ensures Kept(d, was, first)
      ensures cursor.Some? && cursor.value >= 0 && from <= ls
      ensures At(rows, start, carried, cursor.value, wire, ls, Pos(rows, ls))
      ensures status.CaughtUp? ==> Pos(rows, ls) == Pos(rows, from) + Advance(page)
      ensures AtRow(rows, from, ls) && Refused(env, status, sends) && Pos(rows, ls) <= Pos(rows, from) + |page|
    {
      ls, sends, status := from, count, CaughtUp;
      for i := 0 to |page|
        invariant status.CaughtUp? && cursor.Some? && cursor.value >= 0
        invariant Along(rows, page, from, ls, i)
        invariant At(rows, start, carried, cursor.value, wire, ls, Pos(rows, from) + i)
        invariant Kept(d, was, first)
      {
        ghost var before := ls;
        status, ls, sends := SendNext(d, env, Pos(rows, from) + i, ls, sends, start, carried, was, first);
        AlongNext(rows, page, from, before, i, ls, status.CaughtUp?);
        if !status.CaughtUp? {
          break;
        }
      }
      if status.CaughtUp? {
        AtCursor(rows, start, carried, cursor.value, wire, ls, Pos(rows, from) + |page|);
      }
    }

    /** The row at position k: sent, stepped over, or absent from what was loaded. */
    method SendNext(d: Destination, env: Env, k: nat, from: int, count: nat,
                    ghost start: nat, ghost carried: seq<PDU>, ghost was: Spec.Queue, ghost first: int)
      returns (status: Status, ls: int, sends: nat)
      requires Valid() && from >= 0 && cursor.Some? && k < |rows|
      requires At(rows, start, carried, cursor.value, wire, from, k)
      requires Kept(d, was, first)
      modifies this, d`running, d`lastSuccessfulStreamOrdering, d`lastSuccessfulKnown
      ensures Kept(d, was, first)
      ensures cursor.Some? && cursor.value >= 0 && from <= ls
      ensures At(rows, start, carried, cursor.value, wire, ls, if status.CaughtUp? then k + 1 else Pos(rows, ls))
      ensures status.CaughtUp? ==> Pos(rows, ls) == if rows[k].loadable then k + 1 else Pos(rows, from)
      ensures Refused(env, status, sends)
      ensures ls == if status.CaughtUp? && rows[k].loadable then rows[k].pdu.ordering else from
    {
      AtNext(rows, start, carried, cursor.value, wire, from, k);
      ls, sends := from, count;
      if !rows[k].loadable {
        return CaughtUp, ls, sends;
      }
      if rows[k].sendable {
        status := SendRow(d, rows[k].pdu, env.busy(sends), env.answer(sends), was, first);
        sends := sends + 1;
        if !status.CaughtUp? {
          return;
        }
      }
      return CaughtUp, rows[k].pdu.ordering, sends;
    }

    /** One transaction; a delivered one moves the persisted cursor. CaughtUp says it went. */
    method SendRow(d: Destination, p: PDU, busy: bool, answer: Outcome, ghost was: Spec.Queue, ghost first: int) returns (status: Status)
      requires cursor.Some? && cursor.value < p.ordering
      requires Kept(d, was, first)
      modifies this, d`running, d`lastSuccessfulStreamOrdering, d`lastSuccessfulKnown
      ensures Kept(d, was, first)
      ensures status == if busy then BusyNow else if answer.Ok? then CaughtUp else Undelivered
      ensures cursor == (if status.CaughtUp? then Some(p.ordering) else old(cursor))
      ensures wire == if status.CaughtUp? then old(wire) + [p] else old(wire)
    {
      d.running := busy;
      var res := d.SendCatchUp(p, answer);
      if !res.Sent? {
        return if res.Busy? then BusyNow else Undelivered;
      }
      wire := wire + [p];
      Persist(p.ordering);
      return CaughtUp;
    }

    /** Any sequence of passes, each cut short or not, over queues forgotten and rebuilt
        in between: no gap in what the wire carried, and nothing twice. */
    method Passes(envs: seq<Env>, rebuilt: nat -> bool) returns (d: Destination)
      requires Valid()
      modifies this
      ensures Valid() && fresh(d)
      ensures Carried(rows, old(Start()), Start(), old(wire), wire)
    {
      d := new Destination(50, 100);
      for i := 0 to |envs|
        invariant Valid() && fresh(d)
        invariant Carried(rows, old(Start()), Start(), old(wire), wire)
      {
        if rebuilt(i) {
          d := new Destination(50, 100);
        }
        ghost var mid, carried := Start(), wire;
        var _ := Destination(d, envs[i]);
        CarriedJoins(rows, old(Start()), mid, Start(), old(wire), carried, wire);
      }
    }
  }
}
