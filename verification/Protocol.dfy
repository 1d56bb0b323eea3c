/** The Manager and all its destination queues as one state machine. Every critical
    section of the original is one action, a send is a begin and an end, and any
    number of producers, transmission loops, waits for a concurrency slot and
    catch-up sends interleave. In Dest, q has the queue's own fields and the rest is
    history. */
module Protocol {
  import opened Units
  import opened QueueSpec
  import opened DurableUnits

  datatype Dest = Dest(
    name: string,
    q: Queue,
    log: seq<PDU>,           // delivered live, ever
    base: nat,               // |log| when catch-up last restarted
    accepted: seq<PDU>,      // queued since then
    queued: seq<EDU>,        // durable units queued, ever
    durableIn: seq<EDU>,     // those no outage has dropped
    kept: seq<nat>,          // where each of these stands in queued
    durableOut: nat,         // how many of these have been delivered
    sent: seq<Unit>,         // units delivered, ever
    unackedPDUs: nat,        // delivered and not yet dequeued
    unackedEDUs: nat,
    reported: seq<Report>,   // marks reported as delivered
    told: bool,              // somebody has called Wake since the loop last looked
    unsaid: bool)            // something was queued since that look or the last Wake

  datatype Report = Report(toDeviceUpTo: int, deviceListUpTo: int)

  function ReportMark(r: Report, lane: Lane): int {
    if lane.Messages? then r.toDeviceUpTo else r.deviceListUpTo
  }

  /** A lane's marks that have been reported. */
  ghost predicate Reported(d: Dest, lane: Lane, mark: int) {
    mark > 0 && exists k :: 0 <= k < |d.reported| && ReportMark(d.reported[k], lane) == mark
  }

  /** Why a loop stops. It abandons the attempt when the server is backing off, or the
      worker is stopping. */
  datatype Stop = Drained | Abandoned | HeldBack | Outage | Unencodable | SendFailed

  /** Where a goroutine that holds or wants a claim has got to. */
  datatype Phase =
    | WantSlot               // won TryStart, waiting for the semaphore
    | Top                    // at the head of the transmission loop
    | DroppedForOutage       // long backoff: units dropped, RestartCatchUp next
    | TookNothing            // re-check of newData next
    | Sending(batch: Taken)
    | Delivered(batch: Taken)  // the remote confirmed; dequeue next
    | Dequeued(batch: Taken)   // mark report next
    | Advancing(batch: Taken)  // cursor update next
    | Exiting(why: Stop)     // deferred running = false next
    | SlotOnly               // deferred release of the semaphore next

  datatype Proc =
    | Creating(name: string)                // missed under the read lock
    | Loop(dest: nat, phase: Phase)
    | CatchUpSending(dest: nat, pdu: PDU)
    | CatchUpSent(dest: nat, pdu: PDU)      // cursor update next
    | CatchUpReleasing(dest: nat)
    | Rewaking(dest: nat)                   // released with data waiting: Wake next

  datatype State = State(
    names: map<string, nat>,   // Manager.dests
    dests: map<nat, Dest>,     // every Destination ever allocated
    procs: map<nat, Proc>,
    slots: int,                // len(Manager.sem)
    cap: nat,                  // cap(Manager.sem)
    lim: Limits)

  datatype Flag = SetCursor(v: int) | TakeSkipped | Finish

  datatype Action =
    | Miss(name: string, pid: nat)
    | Create(pid: nat, dest: nat)
    | AddPDU(dest: nat, pdu: PDU)
    | AddEDU(dest: nat, op: EduOp)
    | Wake(dest: nat, pid: nat)
    | GetSlot(pid: nat)
    | CancelWait(pid: nat)
    | LeaveLoop(pid: nat)        // context over, or backing off
    | HoldPresence(pid: nat)
    | DropForOutage(pid: nat)
    | RestartForOutage(pid: nat)
    | TakeBatch(pid: nat)
    | Recheck(pid: nat)
    | SendFails(pid: nat)
    | SendSucceeds(pid: nat)
    | DequeueBatch(pid: nat)
    | ReportMarks(pid: nat)
    | AdvanceCursor(pid: nat)
    | ClearRunning(pid: nat)
    | FreeSlot(pid: nat)
    | CatchUpClaim(dest: nat, pdu: PDU, pid: nat)
    | CatchUpFails(pid: nat)
    | CatchUpSucceeds(pid: nat)
    | CatchUpAdvance(pid: nat)
    | CatchUpRelease(pid: nat)
    | Rewake(pid: nat)
    | CatchUpFlag(dest: nat, flag: Flag)

  function NewDest(name: string): Dest {
    Dest(name, FRESH, [], 0, [], [], [], [], 0, [], 0, 0, [], false, false)
  }

  function Init(cap: nat, lim: Limits): State {
    State(map[], map[], map[], 0, cap, lim)
  }

  predicate AtPhase(s: State, pid: nat) {
    pid in s.procs && s.procs[pid].Loop? && s.procs[pid].dest in s.dests
  }

  predicate Enabled(s: State, a: Action) {
    match a
    case Miss(name, pid) => name !in s.names && pid !in s.procs
    case Create(pid, r) => pid in s.procs && s.procs[pid].Creating? && r !in s.dests
    case AddPDU(r, _) => r in s.dests
    case AddEDU(r, op) => r in s.dests && OpOK(op)
    case Wake(r, pid) => r in s.dests && pid !in s.procs
    case GetSlot(pid) => AtPhase(s, pid) && s.procs[pid].phase.WantSlot? && s.slots < s.cap
    case CancelWait(pid) => AtPhase(s, pid) && s.procs[pid].phase.WantSlot?
    case LeaveLoop(pid) => AtPhase(s, pid) && s.procs[pid].phase.Top?
    case HoldPresence(pid) =>
      AtPhase(s, pid) && s.procs[pid].phase.Top? && OnlyPresence(s.dests[s.procs[pid].dest].q)
    case DropForOutage(pid) => AtPhase(s, pid) && s.procs[pid].phase.Top?
    case RestartForOutage(pid) => AtPhase(s, pid) && s.procs[pid].phase.DroppedForOutage?
    case TakeBatch(pid) =>
      AtPhase(s, pid) && s.procs[pid].phase.Top?
    case Recheck(pid) => AtPhase(s, pid) && s.procs[pid].phase.TookNothing?
    case SendFails(pid) => AtPhase(s, pid) && s.procs[pid].phase.Sending?
    case SendSucceeds(pid) => AtPhase(s, pid) && s.procs[pid].phase.Sending?
    case DequeueBatch(pid) => AtPhase(s, pid) && s.procs[pid].phase.Delivered?
    case ReportMarks(pid) => AtPhase(s, pid) && s.procs[pid].phase.Dequeued?
    case AdvanceCursor(pid) => AtPhase(s, pid) && s.procs[pid].phase.Advancing?
    case ClearRunning(pid) => AtPhase(s, pid) && s.procs[pid].phase.Exiting?
    case FreeSlot(pid) => AtPhase(s, pid) && s.procs[pid].phase.SlotOnly?
    case CatchUpClaim(r, _, pid) => r in s.dests && pid !in s.procs
    case CatchUpFails(pid) => pid in s.procs && s.procs[pid].CatchUpSending? && s.procs[pid].dest in s.dests
    case CatchUpSucceeds(pid) => pid in s.procs && s.procs[pid].CatchUpSending? && s.procs[pid].dest in s.dests
    case CatchUpAdvance(pid) => pid in s.procs && s.procs[pid].CatchUpSent? && s.procs[pid].dest in s.dests
    case CatchUpRelease(pid) => pid in s.procs && s.procs[pid].CatchUpReleasing? && s.procs[pid].dest in s.dests
    case Rewake(pid) => pid in s.procs && s.procs[pid].Rewaking? && s.procs[pid].dest in s.dests
    case CatchUpFlag(r, _) => r in s.dests
  }

  // ---------- what an action does to one destination ----------

  function AfterAddPDU(d: Dest, p: PDU): Dest {
    var q := QueueSpec.EnqueuePDU(d.q, p);
    if q.pdus == d.q.pdus then d.(q := q)
    else d.(q := q, accepted := d.accepted + [p], unsaid := true)
  }

  function AfterAddEDU(d: Dest, op: EduOp): Dest {
    d.(q := EnqueueEDU(d.q, op), unsaid := true, queued := d.queued + Fresh(op),
       durableIn := d.durableIn + Fresh(op), kept := d.kept + if Fresh(op) == [] then [] else [|d.queued|])
  }

  function AfterRestart(d: Dest): Dest {
    d.(q := RestartCatchUp(d.q), base := |d.log|, accepted := [])
  }

  /** A call of Wake, whoever wins. */
  function AfterWake(d: Dest): Dest {
    d.(q := TryStart(d.q), told := true, unsaid := false)
  }

  /** The loop's look: what is queued from here on is announced anew. */
  function AfterLook(d: Dest): Dest {
    d.(q := d.q.(newData := false), told := false, unsaid := false)
  }

  /** A long outage drops the unmarked units that wait. */
  function AfterDrop(d: Dest): Dest {
    if d.durableOut <= |d.durableIn| == |d.kept| then
      d.(q := DropEphemeral(d.q),
         durableIn := d.durableIn[..d.durableOut] + KeepMarked(d.durableIn[d.durableOut..]),
         kept := d.kept[..d.durableOut] + KeptAt(d.durableIn[d.durableOut..], d.kept[d.durableOut..]))
    else d
  }

  function AfterSend(d: Dest, b: Taken): Dest {
    d.(log := d.log + b.pdus, sent := d.sent + b.edus,
       durableOut := d.durableOut + |DurableSent(b.edus)|,
       unackedPDUs := |b.pdus|, unackedEDUs := |b.edus|)
  }

  function AfterDequeue(d: Dest, b: Taken): Dest {
    if |b.pdus| <= |d.q.pdus| && |b.edus| <= |d.q.edus| then
      d.(q := Dequeue(d.q, |b.pdus|, |b.edus|), unackedPDUs := 0, unackedEDUs := 0)
    else d
  }

  function AfterReport(d: Dest, b: Taken): Dest {
    if b.toDeviceUpTo > 0 || b.deviceListUpTo > 0 then
      d.(reported := d.reported + [Report(b.toDeviceUpTo, b.deviceListUpTo)])
    else d
  }

  function AfterAdvance(d: Dest, b: Taken): Dest {
    if b.pdus == [] then d else d.(q := QueueSpec.Delivered(d.q, b.pdus[|b.pdus| - 1].ordering))
  }

  function AfterFlag(d: Dest, flag: Flag): Dest {
    match flag
    case SetCursor(v) => d.(q := SetLastSuccessful(d.q, v))
    case TakeSkipped => d.(q := ClearSkipped(d.q))
    case Finish => d.(q := FinishCatchUp(d.q))
  }

  /** A unit that does not encode ends the loop with everything still queued. */
  function AfterTake(batch: Option<Taken>): Phase {
    match batch
    case None => Exiting(Unencodable)
    case Some(b) => if b.pdus == [] && b.edus == [] then TookNothing else Sending(b)
  }

  /** The destination an action locks, if any. */
  function Target(s: State, a: Action): Option<nat>
    requires Enabled(s, a)
    ensures Target(s, a).Some? ==> Target(s, a).value in s.dests
  {
    match a
    case AddPDU(r, _) => Some(r)
    case AddEDU(r, _) => Some(r)
    case Wake(r, _) => Some(r)
    case CatchUpClaim(r, _, _) => Some(r)
    case CatchUpFlag(r, _) => Some(r)
    case CancelWait(pid) => Some(s.procs[pid].dest)
    case HoldPresence(pid) => Some(s.procs[pid].dest)
    case DropForOutage(pid) => Some(s.procs[pid].dest)
    case RestartForOutage(pid) => Some(s.procs[pid].dest)
    case TakeBatch(pid) => Some(s.procs[pid].dest)
    case SendSucceeds(pid) => Some(s.procs[pid].dest)
    case DequeueBatch(pid) => Some(s.procs[pid].dest)
    case ReportMarks(pid) => Some(s.procs[pid].dest)
    case AdvanceCursor(pid) => Some(s.procs[pid].dest)
    case ClearRunning(pid) => Some(s.procs[pid].dest)
    case CatchUpAdvance(pid) => Some(s.procs[pid].dest)
    case CatchUpRelease(pid) => Some(s.procs[pid].dest)
    case Rewake(pid) => Some(s.procs[pid].dest)
    case _ => None
  }

  /** What the action makes of that destination. */
  function DestAfter(s: State, a: Action): Dest
    requires Enabled(s, a) && Target(s, a).Some?
  {
    var d := s.dests[Target(s, a).value];
    match a
    case AddPDU(_, p) => AfterAddPDU(d, p)
    case AddEDU(_, op) => AfterAddEDU(d, op)
    case Wake(_, _) => AfterWake(d)
    case CatchUpClaim(_, _, _) => d.(q := Claim(d.q))
    case CatchUpFlag(_, flag) => AfterFlag(d, flag)
    case CancelWait(_) => d.(q := Release(d.q))
    case HoldPresence(_) => AfterLook(d)
    case DropForOutage(_) => AfterDrop(d)
    case RestartForOutage(_) => AfterRestart(d)
    case TakeBatch(_) => AfterLook(d)
    case SendSucceeds(pid) => AfterSend(d, s.procs[pid].phase.batch)
    case DequeueBatch(pid) => AfterDequeue(d, s.procs[pid].phase.batch)
    case ReportMarks(pid) => AfterReport(d, s.procs[pid].phase.batch)
    case AdvanceCursor(pid) => AfterAdvance(d, s.procs[pid].phase.batch)
    case ClearRunning(_) => d.(q := Release(d.q))
    case CatchUpAdvance(pid) => d.(q := CaughtUp(d.q, s.procs[pid].pdu.ordering))
    case CatchUpRelease(_) => d.(q := Release(d.q))
    case Rewake(_) => AfterWake(d)
  }

  /** The phase a goroutine of the transmission loop goes to next. */
  function PhaseAfter(s: State, a: Action): Option<Phase>
    requires Enabled(s, a)
  {
    match a
    case GetSlot(_) => Some(Top)
    case LeaveLoop(_) => Some(Exiting(Abandoned))
    case HoldPresence(_) => Some(Exiting(HeldBack))
    case DropForOutage(_) => Some(DroppedForOutage)
    case RestartForOutage(_) => Some(Exiting(Outage))
    case TakeBatch(pid) => Some(AfterTake(Take(s.dests[s.procs[pid].dest].q, s.lim)))
    case Recheck(pid) => Some(if s.dests[s.procs[pid].dest].q.newData then Top else Exiting(Drained))
    case SendFails(_) => Some(Exiting(SendFailed))
    case SendSucceeds(pid) => Some(Delivered(s.procs[pid].phase.batch))
    case DequeueBatch(pid) => Some(Dequeued(s.procs[pid].phase.batch))
    case ReportMarks(pid) => Some(Advancing(s.procs[pid].phase.batch))
    case AdvanceCursor(_) => Some(Top)
    case ClearRunning(_) => Some(SlotOnly)
    case _ => None
  }

  function Pid(a: Action): nat {
    match a
    case AddPDU(_, _) => 0
    case AddEDU(_, _) => 0
    case CatchUpFlag(_, _) => 0
    case _ => a.pid
  }

  function ProcsAfter(s: State, a: Action): map<nat, Proc>
    requires Enabled(s, a)
  {
    if PhaseAfter(s, a).Some? then
      s.procs[Pid(a) := Loop(s.procs[Pid(a)].dest, PhaseAfter(s, a).value)]
    else
      match a
      case Miss(name, pid) => s.procs[pid := Creating(name)]
      case Create(pid, _) => s.procs - {pid}
      case Wake(r, pid) => if s.dests[r].q.running then s.procs else s.procs[pid := Loop(r, WantSlot)]
      case CancelWait(pid) => s.procs - {pid}
      case FreeSlot(pid) => s.procs - {pid}
      case CatchUpClaim(r, p, pid) =>
        if s.dests[r].q.running then s.procs else s.procs[pid := CatchUpSending(r, p)]
      case CatchUpFails(pid) => s.procs[pid := CatchUpReleasing(s.procs[pid].dest)]
      case CatchUpSucceeds(pid) => s.procs[pid := CatchUpSent(s.procs[pid].dest, s.procs[pid].pdu)]
      case CatchUpAdvance(pid) => s.procs[pid := CatchUpReleasing(s.procs[pid].dest)]
      case CatchUpRelease(pid) =>
        if s.dests[s.procs[pid].dest].q.newData then s.procs[pid := Rewaking(s.procs[pid].dest)] else s.procs - {pid}
      case Rewake(pid) =>
        if s.dests[s.procs[pid].dest].q.running then s.procs - {pid}
        else s.procs[pid := Loop(s.procs[pid].dest, WantSlot)]
      case _ => s.procs
  }

  function SlotsAfter(s: State, a: Action): int {
    if a.GetSlot? then s.slots + 1 else if a.FreeSlot? then s.slots - 1 else s.slots
  }

  function Apply(s: State, a: Action): State
    requires Enabled(s, a)
  {
    var procs, slots := ProcsAfter(s, a), SlotsAfter(s, a);
    if a.Create? then
      var name := s.procs[a.pid].name;
      // The re-check under the write lock: somebody else may have got here first.
      if name in s.names then s.(procs := procs)
      else s.(procs := procs, names := s.names[name := a.dest], dests := s.dests[a.dest := NewDest(name)])
    else if Target(s, a).Some? then
      s.(procs := procs, slots := slots, dests := s.dests[Target(s, a).value := DestAfter(s, a)])
    else
      s.(procs := procs, slots := slots)
  }

  /** Every run from an empty manager. */
  ghost predicate Reaches(cap: nat, lim: Limits, run: seq<Action>, s: State) {
    if run == [] then s == Init(cap, lim)
    else
      var n := |run| - 1;
      exists before :: Reaches(cap, lim, run[..n], before) && Enabled(before, run[n]) && s == Apply(before, run[n])
  }
}
