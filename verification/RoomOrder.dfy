/** Per-room order, end to end: batches of events grouped by room, one goroutine a
    room, each queueing its events one destination at a time, all of it interleaved
    with every step of the protocol. */
module RoomOrder {
  import opened Units
  import opened QueueSpec
  import opened Grouping
  import Protocol
  import ProtocolSafety

  /** One room's goroutine: events left, and the one being fanned out. */
  datatype Work = Work(todo: seq<PDU>, current: Option<PDU>, targets: seq<nat>)

  /** The pickup side: the room goroutines and the cursor. */
  datatype Plan = Plan(
    rooms: map<string, Work>,
    busy: bool,           // a batch is being handled
    cursor: int,          // the pickup cursor
    next: int)            // where the batch being handled ends

  datatype State = State(sys: Protocol.State, plan: Plan)

  datatype Action =
    | Sys(a: Protocol.Action)
    | StartBatch(events: seq<PDU>, next: int)
    | Route(room: string, targets: seq<nat>)
    | EnqueueOne(room: string)
    | EventDone(room: string)
    | EndBatch

  ghost predicate Distinct(targets: seq<nat>) {
    forall i, j :: 0 <= i < j < |targets| ==> targets[i] != targets[j]
  }

  predicate Idle(w: Work) {
    w.todo == [] && w.current.None?
  }

  ghost predicate Enabled(s: State, a: Action) {
    var p := s.plan;
    match a
    case Sys(a) => Protocol.Enabled(s.sys, a) && !a.AddPDU?
    case StartBatch(events, next) =>
      && !p.busy && p.cursor <= next && Ascending(events)
      && forall k :: 0 <= k < |events| ==> p.cursor < events[k].ordering <= next
    case Route(room, targets) =>
      && room in p.rooms && p.rooms[room].current.None? && p.rooms[room].todo != []
      && Distinct(targets) && forall k :: 0 <= k < |targets| ==> targets[k] in s.sys.dests
    case EnqueueOne(room) =>
      && room in p.rooms && p.rooms[room].current.Some? && p.rooms[room].targets != []
      && Protocol.Enabled(s.sys, Protocol.AddPDU(p.rooms[room].targets[0], p.rooms[room].current.value))
    case EventDone(room) => room in p.rooms && p.rooms[room].current.Some? && p.rooms[room].targets == []
    case EndBatch => p.busy && forall r :: r in p.rooms ==> Idle(p.rooms[r])
  }

  function Rooms(events: seq<PDU>): set<string> {
    set k | 0 <= k < |events| :: events[k].room
  }

  function PlanAfter(s: State, a: Action): Plan
    requires Enabled(s, a)
  {
    var p := s.plan;
    match a
    case Sys(_) => p
    case StartBatch(events, next) =>
      p.(busy := true, next := next, rooms := map r | r in Rooms(events) :: Work(InRoom(events, r), None, []))
    case Route(room, targets) =>
      var w := p.rooms[room];
      p.(rooms := p.rooms[room := Work(w.todo[1..], Some(w.todo[0]), targets)])
    case EnqueueOne(room) =>
      p.(rooms := p.rooms[room := p.rooms[room].(targets := p.rooms[room].targets[1..])])
    case EventDone(room) => p.(rooms := p.rooms[room := p.rooms[room].(current := None)])
    case EndBatch => p.(busy := false, rooms := map[], cursor := p.next)
  }

  function Apply(s: State, a: Action): State
    requires Enabled(s, a)
  {
    var plan := PlanAfter(s, a);
    match a
    case Sys(b) => State(Protocol.Apply(s.sys, b), plan)
    case EnqueueOne(room) =>
      var w := s.plan.rooms[room];
      State(Protocol.Apply(s.sys, Protocol.AddPDU(w.targets[0], w.current.value)), plan)
    case _ => State(s.sys, plan)
  }

  // ---------- one destination's line ----------

  /** Everything delivered live, then everything still waiting. */
  function Line(d: Protocol.Dest): seq<PDU> {
    d.log + if d.unackedPDUs <= |d.q.pdus| then d.q.pdus[d.unackedPDUs..] else []
  }

  ghost predicate LineInOrder(line: seq<PDU>) {
    forall i, j :: 0 <= i < j < |line| && line[i].room == line[j].room ==> line[i].ordering < line[j].ordering
  }

  /** Nothing in a line is ahead of what its room has still to queue there. */
  ghost predicate Behind(p: Plan, r: nat, e: PDU) {
    && e.ordering <= (if p.busy then p.next else p.cursor)
    && (p.busy && e.room !in p.rooms ==> e.ordering <= p.cursor)
    && (e.room in p.rooms ==>
          var w := p.rooms[e.room];
          (forall k :: 0 <= k < |w.todo| ==> e.ordering < w.todo[k].ordering) &&
          (w.current.Some? ==> e.ordering <= w.current.value.ordering &&
                               (r in w.targets ==> e.ordering < w.current.value.ordering)))
  }

  ghost predicate WorkOK(p: Plan, room: string, w: Work) {
    && Ascending(w.todo) && Distinct(w.targets)
    && (forall k :: 0 <= k < |w.todo| ==> w.todo[k].room == room && w.todo[k].ordering <= p.next)
    && (w.current.Some? ==> w.current.value.room == room && w.current.value.ordering <= p.next &&
                            forall k :: 0 <= k < |w.todo| ==> w.current.value.ordering < w.todo[k].ordering)
    && (w.current.None? ==> w.targets == [])
  }

  ghost predicate LineBehind(p: Plan, r: nat, line: seq<PDU>) {
    LineInOrder(line) && forall i :: 0 <= i < |line| ==> Behind(p, r, line[i])
  }

  ghost predicate PlanOK(p: Plan) {
    && (p.busy ==> p.cursor <= p.next) && (!p.busy ==> p.rooms == map[])
    && (forall room :: room in p.rooms ==> WorkOK(p, room, p.rooms[room]))
  }

  ghost predicate Core(s: State) {
    PlanOK(s.plan) && forall r :: r in s.sys.dests ==> LineBehind(s.plan, r, Line(s.sys.dests[r]))
  }

  lemma SendLine(d: Protocol.Dest, b: Taken)
    requires ProtocolSafety.DestOK(d) && ProtocolSafety.PhaseOK(d, Protocol.Sending(b))
    ensures Line(Protocol.AfterSend(d, b)) == Line(d)
  {
    assert d.q.pdus == b.pdus + d.q.pdus[|b.pdus|..];
    assert d.q.pdus[0..] == d.q.pdus;
  }

  lemma DequeueLine(d: Protocol.Dest, b: Taken)
    requires ProtocolSafety.PhaseOK(d, Protocol.Delivered(b))
    ensures Line(Protocol.AfterDequeue(d, b)) == Line(d)
  {
    var e := Protocol.AfterDequeue(d, b);
    assert e.q.pdus[0..] == e.q.pdus == d.q.pdus[d.unackedPDUs..];
  }

  lemma RestartLine(d: Protocol.Dest)
    ensures Line(Protocol.AfterRestart(d)) <= Line(d)
  {
    assert Line(Protocol.AfterRestart(d)) <= d.log;
  }

  /** No protocol step but queueing a PDU adds to a line; a restart of catch-up cuts it
      back to what has been delivered. */
  lemma DestLine(s: Protocol.State, a: Protocol.Action)
    requires Protocol.Enabled(s, a) && Protocol.Target(s, a).Some? && !a.AddPDU?
    requires ProtocolSafety.DestOK(s.dests[Protocol.Target(s, a).value])
    requires (a.SendSucceeds? || a.DequeueBatch?) ==>
               ProtocolSafety.PhaseOK(s.dests[Protocol.Target(s, a).value], s.procs[a.pid].phase)
    ensures Line(Protocol.DestAfter(s, a)) <= Line(s.dests[Protocol.Target(s, a).value])
  {
    var d := s.dests[Protocol.Target(s, a).value];
    match a
    case SendSucceeds(pid) => SendLine(d, s.procs[pid].phase.batch);
    case DequeueBatch(pid) => DequeueLine(d, s.procs[pid].phase.batch);
    case RestartForOutage(_) => RestartLine(d);
    case _ => SameLine(s, a);
  }

  lemma SameLine(s: Protocol.State, a: Protocol.Action)
    requires Protocol.Enabled(s, a) && Protocol.Target(s, a).Some?
    requires !(a.AddPDU? || a.SendSucceeds? || a.DequeueBatch? || a.RestartForOutage?)
    ensures Line(Protocol.DestAfter(s, a)) == Line(s.dests[Protocol.Target(s, a).value])
  {
    ProtocolFields(s, a);
  }

  lemma ProtocolFields(s: Protocol.State, a: Protocol.Action)
    requires Protocol.Enabled(s, a) && Protocol.Target(s, a).Some?
    requires !(a.AddPDU? || a.SendSucceeds? || a.DequeueBatch? || a.RestartForOutage?)
    ensures var d, e := s.dests[Protocol.Target(s, a).value], Protocol.DestAfter(s, a);
            e.log == d.log && e.q.pdus == d.q.pdus && e.unackedPDUs == d.unackedPDUs
  {
    if ProtocolSafety.OnlyFlags(a) { ProtocolSafety.OnlyFlagsSameData(s, a); }
  }

  lemma TargetLine(s: Protocol.State, a: Protocol.Action)
    requires ProtocolSafety.DataOK(s) && Protocol.Enabled(s, a) && Protocol.Target(s, a).Some? && !a.AddPDU?
    ensures Line(Protocol.DestAfter(s, a)) <= Line(s.dests[Protocol.Target(s, a).value])
  {
    assert ProtocolSafety.DestOK(s.dests[Protocol.Target(s, a).value]);
    if a.SendSucceeds? || a.DequeueBatch? {
      assert ProtocolSafety.ProcOK(s, s.procs[a.pid]);
    }
    DestLine(s, a);
  }

  lemma SysLine(s: Protocol.State, a: Protocol.Action, r: nat)
    requires ProtocolSafety.DataOK(s) && Protocol.Enabled(s, a) && !a.AddPDU?
    requires r in Protocol.Apply(s, a).dests
    ensures r in s.dests ==> Line(Protocol.Apply(s, a).dests[r]) <= Line(s.dests[r])
    ensures r !in s.dests ==> Line(Protocol.Apply(s, a).dests[r]) == []
  {
    if Protocol.Target(s, a) == Some(r) { TargetLine(s, a); }
  }

  lemma PrefixBehind(p: Plan, r: nat, line: seq<PDU>, part: seq<PDU>)
    requires LineBehind(p, r, line) && part <= line
    ensures LineBehind(p, r, part)
  {
    forall i | 0 <= i < |part| ensures Behind(p, r, part[i]) {
      assert part[i] == line[i];
    }
  }

  lemma SysKeeps(s: State, a: Protocol.Action)
    requires Core(s) && ProtocolSafety.DataOK(s.sys) && Protocol.Enabled(s.sys, a) && !a.AddPDU?
    ensures Core(Apply(s, Sys(a)))
  {
    var sys := Protocol.Apply(s.sys, a);
    forall r | r in sys.dests ensures LineBehind(s.plan, r, Line(sys.dests[r])) {
      SysLine(s.sys, a, r);
      if r in s.sys.dests {
        PrefixBehind(s.plan, r, Line(s.sys.dests[r]), Line(sys.dests[r]));
      }
    }
  }

  lemma NewWorkOK(s: State, events: seq<PDU>, next: int, room: string)
    requires PlanOK(s.plan) && Enabled(s, StartBatch(events, next))
    ensures WorkOK(PlanAfter(s, StartBatch(events, next)), room, Work(InRoom(events, room), None, []))
  {
    InRoomAscending(events, room);
  }

  lemma WorkStaysOK(s: State, a: Action, room: string)
    requires PlanOK(s.plan) && Enabled(s, a) && !a.StartBatch? && room in PlanAfter(s, a).rooms
    ensures WorkOK(PlanAfter(s, a), room, PlanAfter(s, a).rooms[room])
  {
    assert WorkOK(s.plan, room, s.plan.rooms[room]);
  }

  lemma PlanKeeps(s: State, a: Action)
    requires PlanOK(s.plan) && Enabled(s, a)
    ensures PlanOK(PlanAfter(s, a))
  {
    var q := PlanAfter(s, a);
    forall room | room in q.rooms ensures WorkOK(q, room, q.rooms[room]) {
      if a.StartBatch? { NewWorkOK(s, a.events, a.next, room); } else { WorkStaysOK(s, a, room); }
    }
  }

  lemma PlanKeepsBehind(s: State, a: Action, r: nat, e: PDU)
    requires PlanOK(s.plan) && Enabled(s, a) && Behind(s.plan, r, e)
    ensures Behind(PlanAfter(s, a), r, e)
  {
    if e.room in s.plan.rooms { assert WorkOK(s.plan, e.room, s.plan.rooms[e.room]); }
  }

  lemma PlanKeepsLine(s: State, a: Action, r: nat, line: seq<PDU>)
    requires PlanOK(s.plan) && Enabled(s, a) && LineBehind(s.plan, r, line)
    ensures LineBehind(PlanAfter(s, a), r, line)
  {
    forall i | 0 <= i < |line| ensures Behind(PlanAfter(s, a), r, line[i]) {
      PlanKeepsBehind(s, a, r, line[i]);
    }
  }

  lemma AddedLine(s: Protocol.State, r: nat, p: PDU)
    requires r in s.dests && ProtocolSafety.DestOK(s.dests[r])
    ensures Protocol.Apply(s, Protocol.AddPDU(r, p)).dests ==
            s.dests[r := Protocol.AfterAddPDU(s.dests[r], p)]
    ensures var line, after := Line(s.dests[r]), Line(Protocol.AfterAddPDU(s.dests[r], p));
            after == line || after == line + [p]
  {
    var d := s.dests[r];
    var q := QueueSpec.EnqueuePDU(d.q, p);
    if q.pdus != d.q.pdus {
      assert q.pdus[d.unackedPDUs..] == d.q.pdus[d.unackedPDUs..] + [p];
    }
  }

  /** The event being fanned out goes behind everything of its room already there. */
  lemma NewestInLine(s: State, room: string, line: seq<PDU>)
    requires PlanOK(s.plan) && Enabled(s, EnqueueOne(room))
    requires LineBehind(s.plan, s.plan.rooms[room].targets[0], line)
    ensures LineBehind(PlanAfter(s, EnqueueOne(room)), s.plan.rooms[room].targets[0],
                       line + [s.plan.rooms[room].current.value])
  {
    var w := s.plan.rooms[room];
    var target, e := w.targets[0], w.current.value;
    assert WorkOK(s.plan, room, w);
    PlanKeepsLine(s, EnqueueOne(room), target, line);
    assert forall i :: 0 <= i < |line| ==> Behind(s.plan, target, line[i]);
    assert Behind(PlanAfter(s, EnqueueOne(room)), target, e);
  }

  lemma EnqueueKeeps(s: State, room: string)
    requires Core(s) && ProtocolSafety.DataOK(s.sys) && Enabled(s, EnqueueOne(room))
    ensures Core(Apply(s, EnqueueOne(room)))
  {
    var a := EnqueueOne(room);
    var target, e := s.plan.rooms[room].targets[0], s.plan.rooms[room].current.value;
    PlanKeeps(s, a);
    assert ProtocolSafety.DestOK(s.sys.dests[target]);
    AddedLine(s.sys, target, e);
    forall r | r in s.sys.dests
      ensures LineBehind(PlanAfter(s, a), r, Line(s.sys.dests[r]))
      ensures r == target ==> LineBehind(PlanAfter(s, a), r, Line(s.sys.dests[r]) + [e])
    {
      PlanKeepsLine(s, a, r, Line(s.sys.dests[r]));
      if r == target { NewestInLine(s, room, Line(s.sys.dests[r])); }
    }
  }

  lemma MoveKeeps(s: State, a: Action)
    requires Core(s) && Enabled(s, a) && !a.Sys? && !a.EnqueueOne?
    ensures Core(Apply(s, a)) && Apply(s, a).sys == s.sys
  {
    PlanKeeps(s, a);
    forall r | r in s.sys.dests ensures LineBehind(PlanAfter(s, a), r, Line(s.sys.dests[r])) {
      PlanKeepsLine(s, a, r, Line(s.sys.dests[r]));
    }
  }

  lemma StepKeeps(s: State, a: Action)
    requires Core(s) && ProtocolSafety.Inv(s.sys) && Enabled(s, a)
    ensures Core(Apply(s, a)) && ProtocolSafety.Inv(Apply(s, a).sys)
  {
    match a
    case Sys(b) =>
      SysKeeps(s, b);
      ProtocolSafety.StepKeepsInv(s.sys, b);
    case EnqueueOne(room) =>
      EnqueueKeeps(s, room);
      ProtocolSafety.StepKeepsInv(s.sys, Protocol.AddPDU(s.plan.rooms[room].targets[0], s.plan.rooms[room].current.value));
    case _ => MoveKeeps(s, a);
  }

  // ---------- every run ----------

  ghost predicate Startup(cap: nat, lim: Limits, s: State) {
    s.sys == Protocol.Init(cap, lim) && s.plan.rooms == map[] && !s.plan.busy
  }

  ghost predicate Steps(s: State, a: Action, t: State) {
    Enabled(s, a) && t == Apply(s, a)
  }

  ghost predicate Runs(s0: State, run: seq<Action>, s: State) {
    if run == [] then s == s0
    else
      var n := |run| - 1;
      exists before :: Runs(s0, run[..n], before) && Steps(before, run[n], s)
  }

  lemma {:induction false} RunsKeep(s0: State, run: seq<Action>, s: State)
    requires Core(s0) && ProtocolSafety.Inv(s0.sys) && Runs(s0, run, s)
    ensures Core(s) && ProtocolSafety.Inv(s.sys)
  {
    if run != [] {
      var n := |run| - 1;
      var before :| Runs(s0, run[..n], before) && Steps(before, run[n], s);
      RunsKeep(s0, run[..n], before);
      StepKeeps(before, run[n]);
    }
  }

  /** However the rooms' goroutines, the loops and catch-up interleave, and across
      batches, one room's PDUs are delivered live to each destination in strictly
      ascending stream order, and what still waits there continues it. What catch-up
      sends is not in this line, and no batch fails: one that is tried again queues its
      rooms' events a second time. */
  lemma RoomsStayInOrder(cap: nat, lim: Limits, s0: State, run: seq<Action>, s: State, r: nat, i: nat, j: nat)
    requires Startup(cap, lim, s0) && Runs(s0, run, s) && r in s.sys.dests
    requires i < j < |Line(s.sys.dests[r])|
    requires Line(s.sys.dests[r])[i].room == Line(s.sys.dests[r])[j].room
    ensures Line(s.sys.dests[r])[i].ordering < Line(s.sys.dests[r])[j].ordering
    ensures s.sys.dests[r].log <= Line(s.sys.dests[r])
  {
    ProtocolSafety.ReachableIsInv(cap, lim, [], s0.sys);
    assert Core(s0);
    RunsKeep(s0, run, s);
    assert LineBehind(s.plan, r, Line(s.sys.dests[r]));
  }
}
