/** Tables read by cursor and deleted by mark: a server's to-device messages, and its
    device list pokes. Each read becomes units, the last of which carries the mark; once
    a mark is reported, every row up to it may be deleted. Any number of reads for one
    server interleave with each other, with new rows, with deletions and with every step
    of the protocol, long outages and their drops among them. */
module Marks {
  import opened Units
  import opened QueueSpec
  import opened DurableUnits
  import opened ToDevice
  import Protocol
  import ProtocolSafety

  // ---------- the state machine ----------

  /** One unit of a read, and the rows it stands for. */
  datatype Planned = Planned(unit: EDU, stands: set<Row>)

  datatype Call =
    | Started(current: int)
    | GotCursor(current: int, last: int)
    | GotUnits(last: int, next: int, plan: seq<Planned>, done: nat)

  datatype State = State(
    sys: Protocol.State,
    lane: Lane,                // which of the two tables this is about
    server: nat,               // the server's queue
    limit: nat,
    start: int,                // the cursor at startup
    cursor: int,
    top: int,                  // newest stream id in the table, for any server
    outbox: seq<Row>,          // rows for the server still in the table
    appended: seq<Row>,        // rows for the server ever in the table
    calls: map<nat, Call>,
    tags: seq<set<Row>>)       // the rows each durable unit of the queue stands for

  datatype Action =
    | Sys(a: Protocol.Action)
    | AppendRow(row: Row)
    | AppendOther(id: int)
    | Begin(call: nat, current: int)
    | ReadCursor(call: nat)
    | ReadRows(call: nat, plan: seq<Planned>)
    | EnqueueNext(call: nat)
    | SetCursor(call: nat)
    | Fail(call: nat)
    | Delete(upTo: int)

  function D(s: State): Protocol.Dest
    requires s.server in s.sys.dests
  {
    s.sys.dests[s.server]
  }

  function ReadOf(lane: Lane, outbox: seq<Row>, last: int, current: int, limit: nat): (seq<Row>, int)
    requires limit > 0
  {
    if lane.Messages? then Read(outbox, last, current, limit) else ReadLists(outbox, last, current, limit)
  }

  /** What a read may become: units that stand for all of its rows and no others, with the
      mark on the last and on no other. A message is its own unit. */
  ghost predicate PlanFor(lane: Lane, rows: seq<Row>, next: int, plan: seq<Planned>) {
    && (rows == [] <==> plan == [])
    && (forall k :: 0 <= k < |plan| ==> PlannedOK(lane, rows, plan[k], if k == |plan| - 1 then next else 0))
    && (forall r :: r in rows ==> exists k :: 0 <= k < |plan| && r in plan[k].stands)
  }

  ghost predicate PlannedOK(lane: Lane, rows: seq<Row>, p: Planned, mark: int) {
    && IsDurable(p.unit) && EduOK(p.unit) && Mark(p.unit, lane) == mark
    && (forall r :: r in p.stands ==> r in rows)
    && (lane.Messages? ==> forall r :: r in p.stands ==> p.unit.unit == Unit(DirectToDevice, Raw(r.msg)))
  }

  /** Anything the protocol does, short of somebody else queueing a mark of this lane. */
  predicate SysAllowed(s: State, a: Protocol.Action) {
    && Protocol.Enabled(s.sys, a)
    && (a.AddEDU? && a.dest == s.server && a.op.Append? ==> Mark(a.op.edu, s.lane) == 0)
  }

  ghost predicate Enabled(s: State, a: Action)
    requires s.server in s.sys.dests && s.limit > 0
  {
    match a
    case Sys(a) => SysAllowed(s, a)
    case AppendRow(row) => row.id > s.top
    case AppendOther(id) => id > s.top
    case Begin(c, current) => c !in s.calls && current <= s.top
    case ReadCursor(c) => c in s.calls && s.calls[c].Started?
    case ReadRows(c, plan) =>
      c in s.calls && s.calls[c].GotCursor? &&
      var (rows, next) := ReadOf(s.lane, s.outbox, s.calls[c].last, s.calls[c].current, s.limit);
      PlanFor(s.lane, rows, next, plan)
    case EnqueueNext(c) =>
      c in s.calls && s.calls[c].GotUnits? && s.calls[c].done < |s.calls[c].plan| &&
      OpOK(Append(s.calls[c].plan[s.calls[c].done].unit))
    case SetCursor(c) => c in s.calls && s.calls[c].GotUnits? && s.calls[c].done == |s.calls[c].plan|
    case Fail(c) => c in s.calls
    case Delete(upTo) => Protocol.Reported(D(s), s.lane, upTo)
  }

  function TagsFor(s: State, a: Protocol.Action): seq<set<Row>> {
    if a.AddEDU? && a.dest == s.server then seq(|Fresh(a.op)|, _ => {}) else []
  }

  ghost function Apply(s: State, a: Action): State
    requires s.server in s.sys.dests && s.limit > 0 && Enabled(s, a)
  {
    match a
    case Sys(a) => s.(sys := Protocol.Apply(s.sys, a), tags := s.tags + TagsFor(s, a))
    case AppendRow(row) => s.(outbox := s.outbox + [row], appended := s.appended + [row], top := row.id)
    case AppendOther(id) => s.(top := id)
    case Begin(c, current) => s.(calls := s.calls[c := Started(current)])
    case ReadCursor(c) => s.(calls := s.calls[c := GotCursor(s.calls[c].current, s.cursor)])
    case ReadRows(c, plan) =>
      var (_, next) := ReadOf(s.lane, s.outbox, s.calls[c].last, s.calls[c].current, s.limit);
      s.(calls := s.calls[c := GotUnits(s.calls[c].last, next, plan, 0)])
    case EnqueueNext(c) =>
      var call := s.calls[c];
      var p := call.plan[call.done];
      s.(sys := Protocol.Apply(s.sys, Protocol.AddEDU(s.server, Append(p.unit))), tags := s.tags + [p.stands],
         calls := s.calls[c := call.(done := call.done + 1)])
    case SetCursor(c) => s.(cursor := Max(s.cursor, s.calls[c].next), calls := s.calls - {c})
    case Fail(c) => s.(calls := s.calls - {c})
    case Delete(upTo) => s.(outbox := InRange(s.outbox, upTo, s.top))
  }

  // ---------- the invariant ----------

  /** How far delivery has got among the durable units ever queued. */
  function Through(d: Protocol.Dest): nat {
    if 0 < d.durableOut <= |d.kept| then d.kept[d.durableOut - 1] + 1 else 0
  }

  /** What the argument is about: the durable units queued, how far delivery has got
      among them, which rows each stands for, and the table. */
  datatype Ledger = Ledger(
    lane: Lane,
    units: seq<EDU>,
    through: nat,
    tags: seq<set<Row>>,
    appended: seq<Row>,
    outbox: seq<Row>,
    start: int,
    top: int)

  function L(s: State): Ledger
    requires s.server in s.sys.dests
  {
    Ledger(s.lane, D(s).queued, Through(D(s)), s.tags, s.appended, s.outbox, s.start, s.top)
  }

  /** A unit of the row's is among the first n durable units queued. */
  ghost predicate QueuedBy(tags: seq<set<Row>>, row: Row, n: nat) {
    exists i :: 0 <= i < n && i < |tags| && row in tags[i]
  }

  ghost predicate Queued(tags: seq<set<Row>>, row: Row) {
    QueuedBy(tags, row, |tags|)
  }

  /** Every row for the server above the startup cursor and up to x has been queued. */
  ghost predicate AllQueued(l: Ledger, x: int) {
    forall r :: r in l.appended && l.start < r.id <= x ==> Queued(l.tags, r)
  }

  ghost predicate TableOK(l: Ledger) {
    && 0 <= l.top
    && (forall r :: r in l.appended ==> 0 < r.id <= l.top)
    && (forall r :: r in l.outbox ==> r in l.appended)
    && Ascending(l.outbox)
  }

  /** A unit stands for the rows its tag names, and is only queued behind every row a
      mark on it covers. */
  ghost predicate UnitOK(l: Ledger, i: nat, unit: EDU, tag: set<Row>) {
    && Mark(unit, l.lane) <= l.top
    && (l.lane.Messages? ==> forall r :: r in tag ==> unit.unit == Unit(DirectToDevice, Raw(r.msg)))
    && (forall r :: r in l.appended && l.start < r.id <= Mark(unit, l.lane) ==> QueuedBy(l.tags, r, i + 1))
  }

  ghost predicate UnitsOK(l: Ledger) {
    |l.tags| == |l.units| && forall i :: 0 <= i < |l.tags| ==> UnitOK(l, i, l.units[i], l.tags[i])
  }

  /** Delivery has got past a row that is no longer in the table. */
  ghost predicate DeletedOK(l: Ledger) {
    forall r :: r in l.appended && l.start < r.id && r !in l.outbox ==> QueuedBy(l.tags, r, l.through)
  }

  ghost predicate LedgerOK(l: Ledger) {
    TableOK(l) && UnitsOK(l) && DeletedOK(l)
  }

  ghost predicate InPlan(plan: seq<Planned>, r: Row) {
    exists k :: 0 <= k < |plan| && r in plan[k].stands
  }

  /** A read's units, and what is known of the rows they stand for. */
  ghost predicate PlanOK(l: Ledger, plan: seq<Planned>, next: int) {
    forall k :: 0 <= k < |plan| ==> PartOK(l, plan[k], next, if k == |plan| - 1 then next else 0)
  }

  ghost predicate PartOK(l: Ledger, p: Planned, next: int, mark: int) {
    && IsDurable(p.unit) && EduOK(p.unit) && Mark(p.unit, l.lane) == mark
    && (forall r :: r in p.stands ==> r in l.appended && r.id <= next)
    && (l.lane.Messages? ==> forall r :: r in p.stands ==> p.unit.unit == Unit(DirectToDevice, Raw(r.msg)))
  }

  ghost predicate DoneOK(l: Ledger, plan: seq<Planned>, done: nat) {
    forall k, r :: 0 <= k < done && k < |plan| && r in plan[k].stands ==> Queued(l.tags, r)
  }

  ghost predicate Reads(l: Ledger, last: int, next: int, plan: seq<Planned>) {
    forall r :: r in l.appended && l.start < r.id && last < r.id <= next ==> Queued(l.tags, r) || InPlan(plan, r)
  }

  ghost predicate CallOK(l: Ledger, c: Call) {
    match c
    case Started(current) => current <= l.top
    case GotCursor(current, last) => current <= l.top && last <= l.top && AllQueued(l, last)
    case GotUnits(last, next, plan, done) =>
      && last <= l.top && next <= l.top && done <= |plan| && AllQueued(l, last)
      && Reads(l, last, next, plan) && PlanOK(l, plan, next) && DoneOK(l, plan, done)
  }

  ghost predicate CallsOK(l: Ledger, cursor: int, calls: map<nat, Call>) {
    && cursor <= l.top && AllQueued(l, cursor)
    && (forall c :: c in calls ==> CallOK(l, calls[c]))
  }

  ghost predicate Core(s: State) {
    && s.server in s.sys.dests && s.limit > 0
    && LedgerOK(L(s))
    && CallsOK(L(s), s.cursor, s.calls)
  }

  // ---------- more units queued or delivered ----------

  /** The same table; more durable units queued, or delivery further on. */
  ghost predicate Later(l: Ledger, m: Ledger, more: seq<EDU>, tags: seq<set<Row>>) {
    m == l.(units := l.units + more, tags := l.tags + tags, through := m.through) &&
    l.through <= m.through && |tags| == |more|
  }

  lemma StillQueued(a: seq<set<Row>>, b: seq<set<Row>>, r: Row, m: nat, n: nat)
    requires QueuedBy(a, r, m) && a <= b && m <= n
    ensures QueuedBy(b, r, n)
  {
    var i :| 0 <= i < m && i < |a| && r in a[i];
    assert r in b[i];
  }

  lemma LaterKeepsQueued(l: Ledger, m: Ledger, more: seq<EDU>, tags: seq<set<Row>>)
    requires Later(l, m, more, tags)
    ensures forall r :: Queued(l.tags, r) ==> Queued(m.tags, r)
  {
    forall r | Queued(l.tags, r) ensures Queued(m.tags, r) {
      StillQueued(l.tags, m.tags, r, |l.tags|, |m.tags|);
    }
  }

  lemma LaterKeepsCall(l: Ledger, m: Ledger, more: seq<EDU>, tags: seq<set<Row>>, c: Call)
    requires Later(l, m, more, tags) && CallOK(l, c)
    ensures CallOK(m, c)
  {
    LaterKeepsQueued(l, m, more, tags);
    if c.GotUnits? {
      forall k | 0 <= k < |c.plan| ensures PartOK(m, c.plan[k], c.next, if k == |c.plan| - 1 then c.next else 0) {
        assert PartOK(l, c.plan[k], c.next, if k == |c.plan| - 1 then c.next else 0);
      }
    }
  }

  lemma LaterKeepsUnit(l: Ledger, m: Ledger, more: seq<EDU>, tags: seq<set<Row>>, i: nat)
    requires LedgerOK(l) && Later(l, m, more, tags) && i < |l.units|
    ensures UnitOK(m, i, m.units[i], m.tags[i])
  {
    assert m.units[i] == l.units[i] && m.tags[i] == l.tags[i];
    assert UnitOK(l, i, l.units[i], l.tags[i]);
    forall r | r in l.appended && l.start < r.id <= Mark(l.units[i], l.lane) ensures QueuedBy(m.tags, r, i + 1) {
      StillQueued(l.tags, m.tags, r, i + 1, i + 1);
    }
  }

  lemma LaterKeepsLedger(l: Ledger, m: Ledger, more: seq<EDU>, tags: seq<set<Row>>)
    requires LedgerOK(l) && Later(l, m, more, tags)
    requires forall i :: 0 <= i < |more| ==> UnitOK(m, |l.units| + i, more[i], tags[i])
    ensures LedgerOK(m)
  {
    forall i | 0 <= i < |m.units| ensures UnitOK(m, i, m.units[i], m.tags[i]) {
      if i < |l.units| {
        LaterKeepsUnit(l, m, more, tags, i);
      } else {
        assert UnitOK(m, |l.units| + (i - |l.units|), more[i - |l.units|], tags[i - |l.units|]);
      }
    }
    forall r | r in m.appended && m.start < r.id && r !in m.outbox ensures QueuedBy(m.tags, r, m.through) {
      StillQueued(l.tags, m.tags, r, l.through, m.through);
    }
  }

  /** What a protocol step does to the record of one server's durable units. */
  function MoreFor(r: nat, a: Protocol.Action): seq<EDU> {
    if a.AddEDU? && a.dest == r then Fresh(a.op) else []
  }

  ghost predicate Grows(d: Protocol.Dest, e: Protocol.Dest, more: seq<EDU>) {
    e.queued == d.queued + more && Through(d) <= Through(e)
  }

  /** What has been delivered keeps its place. */
  ghost predicate Ahead(d: Protocol.Dest, e: Protocol.Dest) {
    d.durableOut <= |d.kept| && d.durableOut <= e.durableOut && d.durableOut <= |e.kept| &&
    e.kept[..d.durableOut] == d.kept[..d.durableOut]
  }

  lemma ThroughRises(d: Protocol.Dest, e: Protocol.Dest)
    requires Rising(e.kept) && e.durableOut <= |e.kept| && Ahead(d, e)
    ensures Through(d) <= Through(e)
  {
    var n := d.durableOut;
    if n > 0 {
      assert d.kept[n - 1] == d.kept[..n][n - 1] == e.kept[..n][n - 1] == e.kept[n - 1];
      assert n < e.durableOut ==> e.kept[n - 1] < e.kept[e.durableOut - 1];
    }
  }

  /** Whatever does not queue, send or drop leaves the record alone. */
  lemma RecordStays(s: Protocol.State, a: Protocol.Action)
    requires Protocol.Enabled(s, a) && Protocol.Target(s, a).Some?
    requires !a.AddEDU? && !a.SendSucceeds? && !a.DropForOutage?
    ensures var d, e := s.dests[Protocol.Target(s, a).value], Protocol.DestAfter(s, a);
            e.queued == d.queued && e.kept == d.kept && e.durableOut == d.durableOut
  {
    if ProtocolSafety.OnlyFlags(a) { ProtocolSafety.OnlyFlagsSameData(s, a); }
  }

  lemma DestGrows(s: Protocol.State, a: Protocol.Action, r: nat)
    requires Protocol.Enabled(s, a) && Protocol.Target(s, a) == Some(r) && r in s.dests
    requires ProtocolSafety.DurableOK(s.dests[r]) && ProtocolSafety.KeptOK(s.dests[r])
    ensures Protocol.DestAfter(s, a).queued == s.dests[r].queued + MoreFor(r, a)
    ensures Ahead(s.dests[r], Protocol.DestAfter(s, a))
  {
    var d := s.dests[r];
    match a
    case AddEDU(_, op) => assert Protocol.DestAfter(s, a) == Protocol.AfterAddEDU(d, op);
    case SendSucceeds(pid) => assert Protocol.DestAfter(s, a) == Protocol.AfterSend(d, s.procs[pid].phase.batch);
    case DropForOutage(_) => assert Protocol.DestAfter(s, a) == Protocol.AfterDrop(d);
    case _ => RestGrows(s, a, r);
  }

  lemma RestGrows(s: Protocol.State, a: Protocol.Action, r: nat)
    requires Protocol.Enabled(s, a) && Protocol.Target(s, a) == Some(r) && r in s.dests
    requires ProtocolSafety.DurableOK(s.dests[r]) && ProtocolSafety.KeptOK(s.dests[r])
    requires !a.AddEDU? && !a.SendSucceeds? && !a.DropForOutage?
    ensures Protocol.DestAfter(s, a).queued == s.dests[r].queued + MoreFor(r, a)
    ensures Ahead(s.dests[r], Protocol.DestAfter(s, a))
  {
    RecordStays(s, a);
  }

  lemma TargetGrows(s: Protocol.State, a: Protocol.Action, r: nat)
    requires Protocol.Enabled(s, a) && Protocol.Target(s, a) == Some(r) && r in s.dests
    requires ProtocolSafety.DestOK(s.dests[r]) && ProtocolSafety.DestOK(Protocol.DestAfter(s, a))
    ensures Grows(s.dests[r], Protocol.DestAfter(s, a), MoreFor(r, a))
  {
    DestGrows(s, a, r);
    ThroughRises(s.dests[r], Protocol.DestAfter(s, a));
  }

  lemma OthersStay(s: Protocol.State, a: Protocol.Action, r: nat)
    requires Protocol.Enabled(s, a) && r in s.dests
    ensures r in Protocol.Apply(s, a).dests
    ensures Protocol.Apply(s, a).dests[r] ==
            if Protocol.Target(s, a) == Some(r) then Protocol.DestAfter(s, a) else s.dests[r]
    ensures Protocol.Target(s, a) != Some(r) ==> MoreFor(r, a) == []
  {
  }

  lemma BothDestsOK(s: Protocol.State, a: Protocol.Action, r: nat)
    requires ProtocolSafety.Inv(s) && Protocol.Enabled(s, a) && r in s.dests && r in Protocol.Apply(s, a).dests
    ensures ProtocolSafety.DestOK(s.dests[r]) && ProtocolSafety.DestOK(Protocol.Apply(s, a).dests[r])
  {
    ProtocolSafety.StepKeepsInv(s, a);
    InvGivesDest(s, r);
    InvGivesDest(Protocol.Apply(s, a), r);
  }

  lemma NothingGrows(d: Protocol.Dest)
    ensures Grows(d, d, [])
  {
    assert d.queued + [] == d.queued;
  }

  lemma SysGrows(s: Protocol.State, a: Protocol.Action, r: nat)
    requires ProtocolSafety.Inv(s) && Protocol.Enabled(s, a) && r in s.dests
    ensures r in Protocol.Apply(s, a).dests
    ensures Grows(s.dests[r], Protocol.Apply(s, a).dests[r], MoreFor(r, a))
  {
    OthersStay(s, a, r);
    BothDestsOK(s, a, r);
    GrowsWith(s, a, r, Protocol.Apply(s, a).dests[r]);
  }

  lemma GrowsWith(s: Protocol.State, a: Protocol.Action, r: nat, e: Protocol.Dest)
    requires Protocol.Enabled(s, a) && r in s.dests
    requires ProtocolSafety.DestOK(s.dests[r]) && ProtocolSafety.DestOK(e)
    requires e == if Protocol.Target(s, a) == Some(r) then Protocol.DestAfter(s, a) else s.dests[r]
    requires Protocol.Target(s, a) != Some(r) ==> MoreFor(r, a) == []
    ensures Grows(s.dests[r], e, MoreFor(r, a))
  {
    if Protocol.Target(s, a) == Some(r) { TargetGrows(s, a, r); } else { NothingGrows(s.dests[r]); }
  }

  lemma InvGivesDest(s: Protocol.State, r: nat)
    requires ProtocolSafety.DataOK(s) && r in s.dests
    ensures ProtocolSafety.DestOK(s.dests[r])
  {
  }

  /** A protocol step on a state seen only through its ledger. */
  lemma LedgerGrows(s: State, t: State, more: seq<EDU>, tags: seq<set<Row>>)
    requires Core(s)
    requires t.server == s.server && t.server in t.sys.dests && t.limit == s.limit && t.lane == s.lane
    requires Grows(D(s), D(t), more) && t.tags == s.tags + tags && |tags| == |more|
    requires t.appended == s.appended && t.outbox == s.outbox && t.start == s.start && t.top == s.top && t.cursor == s.cursor
    requires forall i :: 0 <= i < |more| ==> UnitOK(L(t), |s.tags| + i, more[i], tags[i])
    ensures LedgerOK(L(t))
    ensures CallsOK(L(t), s.cursor, s.calls)
  {
    assert Later(L(s), L(t), more, tags);
    LaterKeepsLedger(L(s), L(t), more, tags);
    LaterKeepsQueued(L(s), L(t), more, tags);
    forall c | c in s.calls ensures CallOK(L(t), s.calls[c]) {
      LaterKeepsCall(L(s), L(t), more, tags, s.calls[c]);
    }
  }

  lemma FreshUnmarked(op: EduOp, lane: Lane)
    requires op.Append? ==> Mark(op.edu, lane) == 0
    ensures forall i :: 0 <= i < |Fresh(op)| ==> Mark(Fresh(op)[i], lane) == 0
  {
    if op.Append? { DurableOfOne(op.edu); }
  }

  lemma SysKeeps(s: State, a: Protocol.Action)
    requires Core(s) && SysAllowed(s, a)
    requires s.server in Protocol.Apply(s.sys, a).dests
    requires Grows(D(s), Protocol.Apply(s.sys, a).dests[s.server], MoreFor(s.server, a))
    ensures Core(Apply(s, Sys(a)))
  {
    var t := Apply(s, Sys(a));
    if a.AddEDU? && a.dest == s.server { OthersUnitsOK(s, L(t), a.op); }
    LedgerGrows(s, t, MoreFor(s.server, a), TagsFor(s, a));
  }

  /** Somebody else's durable unit carries no mark of this lane, and stands for no row. */
  lemma OthersUnitsOK(s: State, m: Ledger, op: EduOp)
    requires op.Append? ==> Mark(op.edu, s.lane) == 0
    requires m.lane == s.lane && TableOK(m)
    ensures forall i :: 0 <= i < |Fresh(op)| ==> UnitOK(m, |s.tags| + i, Fresh(op)[i], {})
  {
    FreshUnmarked(op, s.lane);
  }

  // ---------- the table and the reads ----------

  lemma AppendKeepsUnits(l: Ledger, m: Ledger, row: Option<Row>)
    requires LedgerOK(l) && Appended(l, m, row)
    ensures LedgerOK(m)
  {
    assert forall r :: r in m.appended ==> r in l.appended || r.id == m.top;
    forall i | 0 <= i < |m.tags| ensures UnitOK(m, i, m.units[i], m.tags[i]) {
      assert UnitOK(l, i, l.units[i], l.tags[i]);
    }
    assert row.Some? ==> row.value in m.outbox;
    assert forall r :: r in l.outbox ==> r in m.outbox;
  }

  ghost predicate Appended(l: Ledger, m: Ledger, row: Option<Row>) {
    m.top > l.top &&
    match row
    case None => m == l.(top := m.top)
    case Some(r) => r.id == m.top && m == l.(top := m.top, appended := l.appended + [r], outbox := l.outbox + [r])
  }

  lemma AppendKeepsCall(l: Ledger, m: Ledger, row: Option<Row>, c: Call)
    requires Appended(l, m, row) && CallOK(l, c)
    ensures CallOK(m, c)
  {
    assert forall r :: r in m.appended ==> r in l.appended || r.id == m.top;
    if c.GotUnits? {
      forall k | 0 <= k < |c.plan| ensures PartOK(m, c.plan[k], c.next, if k == |c.plan| - 1 then c.next else 0) {
        assert PartOK(l, c.plan[k], c.next, if k == |c.plan| - 1 then c.next else 0);
      }
    }
  }

  lemma AppendKeeps(s: State, a: Action)
    requires Core(s) && Enabled(s, a) && (a.AppendRow? || a.AppendOther?)
    ensures Core(Apply(s, a))
  {
    var l, m := L(s), L(Apply(s, a));
    var row := if a.AppendRow? then Some(a.row) else None;
    AppendKeepsUnits(l, m, row);
    assert forall r :: r in m.appended ==> r in l.appended || r.id == m.top;
    forall c | c in s.calls ensures CallOK(m, s.calls[c]) {
      AppendKeepsCall(l, m, row, s.calls[c]);
    }
  }

  /** A read's rows are the table's, and none that the cursor steps over is missing. */
  ghost predicate Takes(outbox: seq<Row>, last: int, current: int, rows: seq<Row>, next: int) {
    && next <= current
    && (forall r :: r in rows ==> r in outbox && r.id <= next)
    && (forall r :: r in outbox && last < r.id <= next ==> r in rows)
  }

  lemma WholeRange(outbox: seq<Row>, last: int, current: int)
    ensures Takes(outbox, last, current, InRange(outbox, last, current), current)
  {
  }

  lemma {:induction false} CutRange(outbox: seq<Row>, last: int, current: int, limit: nat)
    requires Ascending(outbox) && 0 < limit <= |InRange(outbox, last, current)|
    ensures var all := InRange(outbox, last, current);
            Takes(outbox, last, current, all[..limit], all[limit - 1].id)
  {
    var all := InRange(outbox, last, current);
    InRangeAscending(outbox, last, current);
    WholeRange(outbox, last, current);
    CutMembers(all, limit);
    assert all[limit - 1] in all;
  }

  lemma AtOrBefore(all: seq<Row>, j: nat, k: nat)
    requires Ascending(all) && j < |all| && k < |all| && all[j].id <= all[k].id
    ensures j <= k
  {
  }

  /** Of ascending rows, the first so many are those up to the last of them. */
  lemma CutMembers(all: seq<Row>, limit: nat)
    requires Ascending(all) && 0 < limit <= |all|
    ensures forall r :: r in all[..limit] ==> r in all && r.id <= all[limit - 1].id
    ensures forall r :: r in all && r.id <= all[limit - 1].id ==> r in all[..limit]
  {
    forall r | r in all[..limit] ensures r in all && r.id <= all[limit - 1].id {
      var j :| 0 <= j < limit && all[..limit][j] == r;
      assert all[j] == r && (j < limit - 1 ==> all[j].id < all[limit - 1].id);
    }
    forall r | r in all && r.id <= all[limit - 1].id ensures r in all[..limit] {
      var j :| 0 <= j < |all| && all[j] == r;
      AtOrBefore(all, j, limit - 1);
      assert all[..limit][j] == r;
    }
  }

  lemma MessagesTake(outbox: seq<Row>, last: int, current: int, limit: nat)
    requires Ascending(outbox) && limit > 0
    ensures Takes(outbox, last, current, Read(outbox, last, current, limit).0, Read(outbox, last, current, limit).1)
  {
    var all := InRange(outbox, last, current);
    if last < current && |all| >= limit {
      CutRange(outbox, last, current, limit);
    } else {
      WholeRange(outbox, last, current);
    }
  }

  lemma ListsTake(outbox: seq<Row>, last: int, current: int, limit: nat)
    requires Ascending(outbox) && limit > 0
    ensures Takes(outbox, last, current, ReadLists(outbox, last, current, limit).0, ReadLists(outbox, last, current, limit).1)
  {
    var all := InRange(outbox, last, current);
    if all == [] {
      WholeRange(outbox, last, current);
    } else {
      CutRange(outbox, last, current, if |all| > limit then limit else |all|);
      assert all[..|all|] == all;
      assert ReadLists(outbox, last, current, limit) ==
             var n := if |all| > limit then limit else |all|; (all[..n], all[n - 1].id);
    }
  }

  lemma ReadTakes(lane: Lane, outbox: seq<Row>, last: int, current: int, limit: nat)
    requires Ascending(outbox) && limit > 0
    ensures Takes(outbox, last, current, ReadOf(lane, outbox, last, current, limit).0, ReadOf(lane, outbox, last, current, limit).1)
  {
    if lane.Messages? { MessagesTake(outbox, last, current, limit); } else { ListsTake(outbox, last, current, limit); }
  }

  /** Main half of every read: whatever it steps over is in its units, or delivery got
      past it before it was deleted. */
  lemma ReadIsEnough(l: Ledger, last: int, current: int, limit: nat, plan: seq<Planned>)
    requires TableOK(l) && DeletedOK(l) && limit > 0
    requires var (rows, next) := ReadOf(l.lane, l.outbox, last, current, limit); PlanFor(l.lane, rows, next, plan)
    ensures var (_, next) := ReadOf(l.lane, l.outbox, last, current, limit);
            next <= current && Reads(l, last, next, plan) && PlanOK(l, plan, next)
  {
    var (rows, next) := ReadOf(l.lane, l.outbox, last, current, limit);
    ReadTakes(l.lane, l.outbox, last, current, limit);
    assert Takes(l.outbox, last, current, rows, next);
    forall r | r in l.appended && l.start < r.id && last < r.id <= next ensures Queued(l.tags, r) || InPlan(plan, r) {
      if r in l.outbox {
        assert r in rows;
      } else {
        var i :| 0 <= i < l.through && i < |l.tags| && r in l.tags[i];
      }
    }
    forall k | 0 <= k < |plan| ensures PartOK(l, plan[k], next, if k == |plan| - 1 then next else 0) {
      assert PlannedOK(l.lane, rows, plan[k], if k == |plan| - 1 then next else 0);
    }
  }

  lemma ReadRowsKeeps(s: State, c: nat, plan: seq<Planned>)
    requires Core(s) && Enabled(s, ReadRows(c, plan))
    ensures Core(Apply(s, ReadRows(c, plan)))
  {
    var l, call := L(s), s.calls[c];
    var (_, next) := ReadOf(s.lane, s.outbox, call.last, call.current, s.limit);
    assert CallOK(l, call);
    ReadIsEnough(l, call.last, call.current, s.limit, plan);
    assert CallOK(l, GotUnits(call.last, next, plan, 0));
  }

  lemma RowQueued(l: Ledger, call: Call, r: Row)
    requires call.GotUnits? && CallOK(l, call) && call.done == |call.plan|
    requires r in l.appended && l.start < r.id <= call.next
    ensures Queued(l.tags, r)
  {
    if r.id > call.last && InPlan(call.plan, r) {
      var k :| 0 <= k < |call.plan| && r in call.plan[k].stands;
    }
  }

  lemma NextCallOK(l: Ledger, m: Ledger, call: Call)
    requires call.GotUnits? && CallOK(l, call) && call.done < |call.plan|
    requires Later(l, m, [call.plan[call.done].unit], [call.plan[call.done].stands])
    ensures CallOK(m, call.(done := call.done + 1))
  {
    var p := call.plan[call.done];
    LaterKeepsCall(l, m, [p.unit], [p.stands], call);
    forall r | r in p.stands ensures Queued(m.tags, r) {
      assert r in m.tags[|l.tags|];
    }
    assert DoneOK(m, call.plan, call.done + 1);
  }

  /** Once the last unit is in, every row up to its mark is queued. */
  lemma NextUnitOK(l: Ledger, m: Ledger, call: Call)
    requires LedgerOK(l) && call.GotUnits? && CallOK(l, call) && call.done < |call.plan|
    requires Later(l, m, [call.plan[call.done].unit], [call.plan[call.done].stands])
    ensures CallOK(m, call.(done := call.done + 1))
    ensures UnitOK(m, |l.tags|, call.plan[call.done].unit, call.plan[call.done].stands)
  {
    var p, k := call.plan[call.done], call.done;
    NextCallOK(l, m, call);
    assert PartOK(l, p, call.next, if k == |call.plan| - 1 then call.next else 0);
    assert forall r :: r in m.appended ==> 0 < r.id;
    forall r | r in m.appended && m.start < r.id <= Mark(p.unit, l.lane) ensures QueuedBy(m.tags, r, |l.tags| + 1) {
      if k == |call.plan| - 1 { RowQueued(m, call.(done := k + 1), r); }
    }
  }

  lemma EnqueueNextKeeps(s: State, c: nat)
    requires Core(s) && Enabled(s, EnqueueNext(c))
    requires var p := s.calls[c].plan[s.calls[c].done];
             Grows(D(s), Protocol.AfterAddEDU(D(s), Append(p.unit)), Fresh(Append(p.unit)))
    ensures Core(Apply(s, EnqueueNext(c)))
  {
    var t := Apply(s, EnqueueNext(c));
    var call := s.calls[c];
    var p := call.plan[call.done];
    assert D(t) == Protocol.AfterAddEDU(D(s), Append(p.unit));
    assert CallOK(L(s), call);
    assert PartOK(L(s), p, call.next, if call.done == |call.plan| - 1 then call.next else 0);
    DurableOfOne(p.unit);
    NextUnitOK(L(s), L(t), call);
    LedgerGrows(s, t, [p.unit], [p.stands]);
  }

  lemma SetCursorKeeps(s: State, c: nat)
    requires Core(s) && Enabled(s, SetCursor(c))
    ensures Core(Apply(s, SetCursor(c)))
  {
    var l, call := L(s), s.calls[c];
    assert CallOK(l, call);
    forall r | r in l.appended && l.start < r.id <= Max(s.cursor, call.next) ensures Queued(l.tags, r) {
      if r.id > s.cursor { RowQueued(l, call, r); }
    }
  }

  /** Delivery has got past everything a reported mark covers. */
  lemma MarkIsPassed(s: State, mark: int, r: Row)
    requires Core(s) && ProtocolSafety.DestOK(D(s)) && Protocol.Reported(D(s), s.lane, mark)
    requires r in s.appended && s.start < r.id <= mark
    ensures QueuedBy(s.tags, r, Through(D(s)))
  {
    var d := D(s);
    assert ProtocolSafety.MarkDelivered(d, s.lane, mark);
    var i :| 0 <= i < d.durableOut && i < |d.durableIn| && Mark(d.durableIn[i], s.lane) == mark;
    assert d.queued[d.kept[i]] == d.durableIn[i];
    assert UnitOK(L(s), d.kept[i], L(s).units[d.kept[i]], L(s).tags[d.kept[i]]);
    assert d.kept[i] <= d.kept[d.durableOut - 1];
    StillQueued(s.tags, s.tags, r, d.kept[i] + 1, Through(d));
  }

  lemma OutboxIrrelevant(l: Ledger, m: Ledger)
    requires m == l.(outbox := m.outbox)
    ensures forall x :: AllQueued(l, x) ==> AllQueued(m, x)
    ensures forall c :: CallOK(l, c) ==> CallOK(m, c)
    ensures UnitsOK(l) ==> UnitsOK(m)
  {
    if UnitsOK(l) {
      forall i | 0 <= i < |m.tags| ensures UnitOK(m, i, m.units[i], m.tags[i]) {
        assert UnitOK(l, i, l.units[i], l.tags[i]);
      }
    }
    forall c | CallOK(l, c) ensures CallOK(m, c) {
      if c.GotUnits? {
        forall k | 0 <= k < |c.plan| ensures PartOK(m, c.plan[k], c.next, if k == |c.plan| - 1 then c.next else 0) {
          assert PartOK(l, c.plan[k], c.next, if k == |c.plan| - 1 then c.next else 0);
        }
      }
    }
  }

  lemma DeleteKeeps(s: State, upTo: int)
    requires Core(s) && ProtocolSafety.DestOK(D(s)) && Enabled(s, Delete(upTo))
    ensures Core(Apply(s, Delete(upTo)))
  {
    var l, m := L(s), L(Apply(s, Delete(upTo)));
    InRangeAscending(s.outbox, upTo, s.top);
    forall r | r in m.appended && m.start < r.id && r !in m.outbox ensures QueuedBy(m.tags, r, m.through) {
      if r in l.outbox { MarkIsPassed(s, upTo, r); }
    }
    OutboxIrrelevant(l, m);
  }

  lemma BookkeepingKeeps(s: State, a: Action)
    requires Core(s) && Enabled(s, a) && (a.Begin? || a.ReadCursor? || a.Fail?)
    ensures Core(Apply(s, a))
  {
    if a.ReadCursor? { assert CallOK(L(s), s.calls[a.call]); }
    assert L(Apply(s, a)) == L(s);
  }

  lemma StepKeeps(s: State, a: Action)
    requires Core(s) && ProtocolSafety.Inv(s.sys) && Enabled(s, a)
    ensures Core(Apply(s, a))
  {
    match a
    case Sys(b) =>
      SysGrows(s.sys, b, s.server);
      SysKeeps(s, b);
    case AppendRow(_) => AppendKeeps(s, a);
    case AppendOther(_) => AppendKeeps(s, a);
    case ReadRows(c, plan) => ReadRowsKeeps(s, c, plan);
    case EnqueueNext(c) =>
      SysGrows(s.sys, Protocol.AddEDU(s.server, Append(s.calls[c].plan[s.calls[c].done].unit)), s.server);
      EnqueueNextKeeps(s, c);
    case SetCursor(c) => SetCursorKeeps(s, c);
    case Delete(upTo) =>
      InvGivesDest(s.sys, s.server);
      DeleteKeeps(s, upTo);
    case _ => BookkeepingKeeps(s, a);
  }

  function SysAction(s: State, a: Action): Option<Protocol.Action>
    requires a.EnqueueNext? ==> a.call in s.calls && s.calls[a.call].GotUnits? && s.calls[a.call].done < |s.calls[a.call].plan|
  {
    match a
    case Sys(b) => Some(b)
    case EnqueueNext(c) => Some(Protocol.AddEDU(s.server, Append(s.calls[c].plan[s.calls[c].done].unit)))
    case _ => None
  }

  /** The machine moves the protocol only by its own steps. */
  lemma SysSteps(s: State, a: Action)
    requires s.server in s.sys.dests && s.limit > 0 && Enabled(s, a)
    ensures SysAction(s, a).None? ==> Apply(s, a).sys == s.sys
    ensures SysAction(s, a).Some? ==>
              Protocol.Enabled(s.sys, SysAction(s, a).value) &&
              Apply(s, a).sys == Protocol.Apply(s.sys, SysAction(s, a).value)
    ensures Apply(s, a).start == s.start && Apply(s, a).server == s.server && Apply(s, a).lane == s.lane
  {
  }

  // ---------- every run ----------

  /** The worker has just started: some rows wait in the table, the saved cursor is
      known, and no durable unit has been queued for the server yet. */
  ghost predicate Startup(cap: nat, lim: Limits, s: State) {
    && (exists run :: Protocol.Reaches(cap, lim, run, s.sys))
    && s.server in s.sys.dests && s.limit > 0
    && D(s).queued == [] && s.tags == []
    && s.calls == map[] && s.appended == s.outbox && Ascending(s.outbox)
    && 0 <= s.start == s.cursor <= s.top
    && (forall r :: r in s.outbox ==> 0 < r.id <= s.top)
  }

  ghost predicate Steps(s: State, a: Action, t: State) {
    s.server in s.sys.dests && s.limit > 0 && Enabled(s, a) && t == Apply(s, a)
  }

  ghost predicate Runs(s0: State, run: seq<Action>, s: State) {
    if run == [] then s == s0
    else
      var n := |run| - 1;
      exists before :: Runs(s0, run[..n], before) && Steps(before, run[n], s)
  }

  lemma StartupIsInv(cap: nat, lim: Limits, s: State)
    requires Startup(cap, lim, s)
    ensures Core(s) && ProtocolSafety.Inv(s.sys)
  {
    var run :| Protocol.Reaches(cap, lim, run, s.sys);
    ProtocolSafety.ReachableIsInv(cap, lim, run, s.sys);
  }

  lemma StepKeepsBoth(s: State, a: Action, t: State)
    requires Core(s) && ProtocolSafety.Inv(s.sys) && Steps(s, a, t)
    ensures Core(t) && ProtocolSafety.Inv(t.sys) && t.start == s.start
  {
    StepKeeps(s, a);
    SysSteps(s, a);
    if SysAction(s, a).Some? {
      ProtocolSafety.StepKeepsInv(s.sys, SysAction(s, a).value);
    }
  }

  lemma {:induction false} RunsKeep(s0: State, run: seq<Action>, s: State)
    requires Core(s0) && ProtocolSafety.Inv(s0.sys) && Runs(s0, run, s)
    ensures Core(s) && ProtocolSafety.Inv(s.sys) && s.start == s0.start
  {
    if run != [] {
      var n := |run| - 1;
      var before :| Runs(s0, run[..n], before) && Steps(before, run[n], s);
      RunsKeep(s0, run[..n], before);
      StepKeepsBoth(before, run[n], s);
    }
  }

  // ---------- what it says of deletion ----------

  /** The i-th durable unit ever queued for the server stands for the row. */
  predicate Stands(s: State, r: Row, i: nat) {
    i < |s.tags| && r in s.tags[i]
  }

  /** A reported mark covers the row, or it is gone from the table. */
  ghost predicate MayBeGone(s: State, r: Row)
    requires s.server in s.sys.dests
  {
    (exists mark :: Protocol.Reported(D(s), s.lane, mark) && r.id <= mark) || r !in s.outbox
  }

  lemma PassedRow(s: State, r: Row)
    requires Core(s) && ProtocolSafety.DestOK(D(s))
    requires r in s.appended && s.start < r.id && MayBeGone(s, r)
    ensures |s.tags| == |D(s).queued| && QueuedBy(s.tags, r, Through(D(s)))
  {
    if r in s.outbox {
      var mark :| Protocol.Reported(D(s), s.lane, mark) && r.id <= mark;
      MarkIsPassed(s, mark, r);
    }
  }

  /** Of the units delivery has got past, those delivered are those no drop removed. */
  lemma PassedIff(d: Protocol.Dest, i: nat)
    requires ProtocolSafety.DurableOK(d) && ProtocolSafety.KeptOK(d)
    ensures ProtocolSafety.WasDelivered(d, i) <==> i < Through(d) && i in d.kept
  {
    var n := d.durableOut;
    ProtocolSafety.RisingOnce(d.kept, n, i);
    if i in d.kept[..n] {
      var j :| 0 <= j < n && d.kept[..n][j] == i;
      assert d.kept[j] <= d.kept[n - 1];
    }
    if i in d.kept[n..] && n > 0 {
      var j :| 0 <= j < |d.kept| - n && d.kept[n..][j] == i;
      assert d.kept[n - 1] < d.kept[n + j];
    }
  }

  /** Some unit of the row was queued, and delivery has got past it. */
  ghost predicate Passed(s: State, r: Row)
    requires s.server in s.sys.dests
  {
    exists i: nat :: Stands(s, r, i) && i < Through(D(s))
  }

  ghost predicate PassedWhole(s: State, r: Row)
    requires s.server in s.sys.dests
  {
    exists i: nat :: Stands(s, r, i) && i < Through(D(s)) && !ProtocolSafety.WasDropped(D(s), i)
  }

  ghost predicate RowDelivered(s: State, r: Row)
    requires s.server in s.sys.dests
  {
    exists i: nat :: Stands(s, r, i) && ProtocolSafety.WasDelivered(D(s), i)
  }

  ghost predicate RowWaits(s: State, r: Row)
    requires s.server in s.sys.dests
  {
    exists i: nat :: Stands(s, r, i) && ProtocolSafety.Waits(D(s), i)
  }

  /** Not every unit of the row was dropped. */
  ghost predicate Survives(s: State, r: Row)
    requires s.server in s.sys.dests
  {
    exists i: nat :: Stands(s, r, i) && !ProtocolSafety.WasDropped(D(s), i)
  }

  /** Some drop removed a unit of the row. */
  ghost predicate TouchedByDrop(s: State, r: Row)
    requires s.server in s.sys.dests
  {
    exists i: nat :: Stands(s, r, i) && ProtocolSafety.WasDropped(D(s), i)
  }

  /** Main, for messages and for device list pokes alike: in every run, drops and all, a
      row above the startup cursor that a reported mark covers, or that is gone, was
      queued and delivery has got past a unit of it. It was delivered if and only if such
      a unit was not dropped; it was delivered or still waits if and only if not every
      unit of it was dropped. Deleting it is safe whenever no drop touched it. */
  lemma DeletionIsSafeIff(cap: nat, lim: Limits, s0: State, run: seq<Action>, s: State, r: Row)
    requires Startup(cap, lim, s0) && Runs(s0, run, s) && s.server in s.sys.dests
    requires r in s.appended && s0.start < r.id && MayBeGone(s, r)
    ensures Passed(s, r)
    ensures RowDelivered(s, r) <==> PassedWhole(s, r)
    ensures RowDelivered(s, r) || RowWaits(s, r) <==> Survives(s, r)
    ensures !TouchedByDrop(s, r) ==> RowDelivered(s, r)
  {
    StartupIsInv(cap, lim, s0);
    RunsKeep(s0, run, s);
    InvGivesDest(s.sys, s.server);
    PassedRow(s, r);
    SafeIff(s, r);
  }

  lemma UnitFate(s: State, r: Row, i: nat)
    requires s.server in s.sys.dests && ProtocolSafety.DurableOK(D(s)) && ProtocolSafety.KeptOK(D(s))
    requires |s.tags| == |D(s).queued| && Stands(s, r, i)
    ensures ProtocolSafety.WasDelivered(D(s), i) <==> i < Through(D(s)) && !ProtocolSafety.WasDropped(D(s), i)
    ensures ProtocolSafety.WasDelivered(D(s), i) || ProtocolSafety.Waits(D(s), i) <==> !ProtocolSafety.WasDropped(D(s), i)
  {
    PassedIff(D(s), i);
    ProtocolSafety.RisingOnce(D(s).kept, D(s).durableOut, i);
  }

  lemma SafeIff(s: State, r: Row)
    requires s.server in s.sys.dests && ProtocolSafety.DurableOK(D(s)) && ProtocolSafety.KeptOK(D(s))
    requires |s.tags| == |D(s).queued| && QueuedBy(s.tags, r, Through(D(s)))
    ensures Passed(s, r)
    ensures RowDelivered(s, r) <==> PassedWhole(s, r)
    ensures RowDelivered(s, r) || RowWaits(s, r) <==> Survives(s, r)
    ensures !TouchedByDrop(s, r) ==> RowDelivered(s, r)
  {
    forall i: nat | Stands(s, r, i)
      ensures ProtocolSafety.WasDelivered(D(s), i) <==> i < Through(D(s)) && !ProtocolSafety.WasDropped(D(s), i)
      ensures ProtocolSafety.WasDelivered(D(s), i) || ProtocolSafety.Waits(D(s), i) <==> !ProtocolSafety.WasDropped(D(s), i)
    {
      UnitFate(s, r, i);
    }
    var j :| 0 <= j < Through(D(s)) && j < |s.tags| && r in s.tags[j];
    assert Stands(s, r, j);
  }

  /** A message's unit, when delivered, was on the wire as the message itself. */
  lemma DeliveredAsItself(cap: nat, lim: Limits, s0: State, run: seq<Action>, s: State, r: Row, i: nat)
    requires Startup(cap, lim, s0) && Runs(s0, run, s) && s.server in s.sys.dests && s.lane.Messages?
    requires Stands(s, r, i) && ProtocolSafety.WasDelivered(D(s), i)
    ensures exists j :: 0 <= j < |DurableSent(D(s).sent)| && DurableSent(D(s).sent)[j] == Unit(DirectToDevice, Raw(r.msg))
  {
    StartupIsInv(cap, lim, s0);
    RunsKeep(s0, run, s);
    InvGivesDest(s.sys, s.server);
    var d := D(s);
    var j :| 0 <= j < d.durableOut && d.kept[..d.durableOut][j] == i;
    assert UnitOK(L(s), i, L(s).units[i], L(s).tags[i]);
    assert d.queued[d.kept[j]] == d.durableIn[j];
    assert DurableSent(d.sent)[j] == d.durableIn[j].unit;
  }
}
