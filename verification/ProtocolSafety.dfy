/** The inductive invariant of the protocol, and what it says of every run. */
module ProtocolSafety {
  import opened Units
  import opened QueueSpec
  import opened DurableUnits
  import opened Protocol

  // ---------- the invariant ----------

  /** Every allocated queue is the one its name leads to, so a name has one queue. */
  ghost predicate NamesOK(s: State) {
    && (forall n :: n in s.names ==> s.names[n] in s.dests && s.dests[s.names[n]].name == n)
    && (forall r :: r in s.dests ==> s.dests[r].name in s.names && s.names[s.dests[r].name] == r)
  }

  /** The destination a goroutine has the right to send to, if any. */
  function ClaimOf(p: Proc): Option<nat> {
    match p
    case Creating(_) => None
    case Loop(r, phase) => if phase.SlotOnly? then None else Some(r)
    case CatchUpSending(r, _) => Some(r)
    case CatchUpSent(r, _) => Some(r)
    case CatchUpReleasing(r) => Some(r)
    case Rewaking(_) => None
  }

  ghost predicate ClaimsOK(s: State) {
    && (forall i :: i in s.procs && ClaimOf(s.procs[i]).Some? ==>
          ClaimOf(s.procs[i]).value in s.dests && s.dests[ClaimOf(s.procs[i]).value].q.running)
    && (forall i, j :: i in s.procs && j in s.procs && ClaimOf(s.procs[i]).Some? && ClaimOf(s.procs[i]) == ClaimOf(s.procs[j]) ==>
          i == j)
    && (forall r :: r in s.dests && s.dests[r].q.running ==>
          exists i :: i in s.procs && ClaimOf(s.procs[i]) == Some(r))
  }

  predicate HasSlot(p: Proc) {
    p.Loop? && !p.phase.WantSlot?
  }

  function SlotHolders(procs: map<nat, Proc>): set<nat> {
    set i | i in procs && HasSlot(procs[i])
  }

  ghost predicate SlotsOK(s: State) {
    s.slots == |SlotHolders(s.procs)| && s.slots <= s.cap
  }

  /** The queue still starts with what a batch copied out of it. */
  ghost predicate BatchOK(q: Queue, b: Taken) {
    && |b.pdus| <= |q.pdus| && b.pdus == q.pdus[..|b.pdus|]
    && |b.edus| <= |q.edus|
    && DurableSent(b.edus) == UnitsOf(DurableOf(q.edus[..|b.edus|]))
    && forall lane :: TakenMark(b, lane) == MaxMark(q.edus[..|b.edus|], lane)
  }

  /** A mark belongs to a durable unit that has been delivered. */
  ghost predicate MarkDelivered(d: Dest, lane: Lane, mark: int) {
    exists i :: 0 <= i < d.durableOut && i < |d.durableIn| && Mark(d.durableIn[i], lane) == mark
  }

  ghost predicate MarksOK(d: Dest, b: Taken) {
    forall lane :: TakenMark(b, lane) > 0 ==> MarkDelivered(d, lane, TakenMark(b, lane))
  }

  ghost predicate DurableOK(d: Dest) {
    && d.durableOut <= |d.durableIn|
    && DurableSent(d.sent) == UnitsOf(d.durableIn[..d.durableOut])
    && d.unackedEDUs <= |d.q.edus|
    && d.durableIn[d.durableOut..] == DurableOf(d.q.edus[d.unackedEDUs..])
    && (forall lane, mark :: Reported(d, lane, mark) ==> MarkDelivered(d, lane, mark))
  }

  /** The units no drop has removed, among all that were queued. */
  ghost predicate KeptOK(d: Dest) {
    Rising(d.kept) && Stand(d.queued, d.durableIn, d.kept)
  }

  /** newData is never set without a call of Wake, or something queued whose own is still to come. */
  ghost predicate WordOK(d: Dest) {
    d.q.newData ==> d.told || d.unsaid
  }

  ghost predicate DestOK(d: Dest) {
    && d.base <= |d.log|
    && d.unackedPDUs <= |d.q.pdus|
    && d.unackedEDUs <= |d.q.edus|
    && d.accepted == d.log[d.base..] + d.q.pdus[d.unackedPDUs..]
    && EdusOK(d.q.edus)
    && (!d.q.running ==> d.unackedPDUs == 0 && d.unackedEDUs == 0)
    && DurableOK(d) && KeptOK(d) && WordOK(d)
  }

  /** A Wake since the loop last looked found the claim taken, and said so. */
  ghost predicate Heard(d: Dest) {
    d.told ==> d.q.newData
  }

  /** What waits came after the loop looked, and said so. */
  ghost predicate NothingUnsaid(d: Dest) {
    Heard(d) && (d.q.pdus != [] || d.q.edus != [] ==> d.q.newData)
  }

  ghost predicate PhaseOK(d: Dest, phase: Phase) {
    match phase
    case Sending(b) => d.unackedPDUs == 0 && d.unackedEDUs == 0 && BatchOK(d.q, b) && Heard(d)
    case Delivered(b) =>
      d.unackedPDUs == |b.pdus| && d.unackedEDUs == |b.edus| && BatchOK(d.q, b) && MarksOK(d, b) && Heard(d)
    case Dequeued(b) => d.unackedPDUs == 0 && d.unackedEDUs == 0 && MarksOK(d, b) && Heard(d)
    case Advancing(_) => d.unackedPDUs == 0 && d.unackedEDUs == 0 && Heard(d)
    case TookNothing => d.unackedPDUs == 0 && d.unackedEDUs == 0 && NothingUnsaid(d)
    case Exiting(why) => d.unackedPDUs == 0 && d.unackedEDUs == 0 && StopOK(d, why)
    case SlotOnly => true
    case _ => d.unackedPDUs == 0 && d.unackedEDUs == 0
  }

  /** A loop that stops has looked, unless it was told not to try. */
  ghost predicate StopOK(d: Dest, why: Stop) {
    match why
    case Drained => NothingUnsaid(d)
    case Abandoned => true
    case Outage => true
    case _ => Heard(d)
  }

  /** A catch-up send leaves the live queue as the head of the loop finds it. */
  function PhaseOf(p: Proc): Phase {
    if p.Loop? then p.phase else if p.Rewaking? then SlotOnly else Top
  }

  ghost predicate ProcOK(s: State, p: Proc) {
    p.Creating? || (p.dest in s.dests && PhaseOK(s.dests[p.dest], PhaseOf(p)))
  }

  ghost predicate DataOK(s: State) {
    && (forall r :: r in s.dests ==> DestOK(s.dests[r]))
    && (forall i :: i in s.procs ==> ProcOK(s, s.procs[i]))
  }

  ghost predicate Inv(s: State) {
    NamesOK(s) && ClaimsOK(s) && SlotsOK(s) && DataOK(s)
  }

  // ---------- one step: names ----------

  lemma DestKeepsName(s: State, a: Action)
    requires Enabled(s, a) && Target(s, a).Some?
    ensures DestAfter(s, a).name == s.dests[Target(s, a).value].name
  {
  }

  lemma StepKeepsNames(s: State, a: Action)
    requires NamesOK(s) && Enabled(s, a)
    ensures NamesOK(Apply(s, a))
    ensures forall n :: n in s.names ==> n in Apply(s, a).names && Apply(s, a).names[n] == s.names[n]
  {
    if Target(s, a).Some? {
      DestKeepsName(s, a);
      InstallKeepsNames(s, Apply(s, a), Target(s, a).value, DestAfter(s, a));
    } else if a.Create? {
      CreateKeepsNames(s, a.pid, a.dest);
    }
  }

  lemma InstallKeepsNames(s: State, t: State, r: nat, d: Dest)
    requires NamesOK(s) && r in s.dests && d.name == s.dests[r].name
    requires t.names == s.names && t.dests == s.dests[r := d]
    ensures NamesOK(t)
  {
  }

  lemma CreateKeepsNames(s: State, pid: nat, r: nat)
    requires NamesOK(s) && Enabled(s, Create(pid, r))
    ensures NamesOK(Apply(s, Create(pid, r)))
  {
  }

  // ---------- one step: claims ----------

  /** The claim a step takes or gives up: goroutine and destination. */
  datatype ClaimChange = NoChange | Takes(pid: nat, dest: nat) | Gives(pid: nat, dest: nat)

  function ClaimsIn(procs: map<nat, Proc>, i: nat): Option<nat> {
    if i in procs then ClaimOf(procs[i]) else None
  }

  function Running(s: State, r: nat): bool {
    r in s.dests && s.dests[r].q.running
  }

  ghost predicate Changes(s: State, t: State, c: ClaimChange) {
    && (forall r :: r in s.dests ==> r in t.dests)
    && match c
       case NoChange =>
         (forall i :: ClaimsIn(t.procs, i) == ClaimsIn(s.procs, i)) && (forall r :: Running(t, r) == Running(s, r))
       case Takes(pid, d) =>
         && d in s.dests && !Running(s, d) && ClaimsIn(s.procs, pid).None?
         && (forall i :: ClaimsIn(t.procs, i) == if i == pid then Some(d) else ClaimsIn(s.procs, i))
         && (forall r :: Running(t, r) == (r == d || Running(s, r)))
       case Gives(pid, d) =>
         && ClaimsIn(s.procs, pid) == Some(d)
         && (forall i :: ClaimsIn(t.procs, i) == if i == pid then None else ClaimsIn(s.procs, i))
         && (forall r :: Running(t, r) == (r != d && Running(s, r)))
  }

  function ChangeOf(s: State, a: Action): ClaimChange
    requires Enabled(s, a)
  {
    match a
    case Wake(r, pid) => if s.dests[r].q.running then NoChange else Takes(pid, r)
    case CatchUpClaim(r, _, pid) => if s.dests[r].q.running then NoChange else Takes(pid, r)
    case CancelWait(pid) => Gives(pid, s.procs[pid].dest)
    case ClearRunning(pid) => Gives(pid, s.procs[pid].dest)
    case CatchUpRelease(pid) => Gives(pid, s.procs[pid].dest)
    case Rewake(pid) => if s.dests[s.procs[pid].dest].q.running then NoChange else Takes(pid, s.procs[pid].dest)
    case _ => NoChange
  }

  lemma StepChangesProcs(s: State, a: Action)
    requires Enabled(s, a)
    ensures match ChangeOf(s, a)
            case NoChange => forall i :: ClaimsIn(ProcsAfter(s, a), i) == ClaimsIn(s.procs, i)
            case Takes(pid, d) =>
              ClaimsIn(s.procs, pid).None? &&
              forall i :: ClaimsIn(ProcsAfter(s, a), i) == if i == pid then Some(d) else ClaimsIn(s.procs, i)
            case Gives(pid, d) =>
              ClaimsIn(s.procs, pid) == Some(d) &&
              forall i :: ClaimsIn(ProcsAfter(s, a), i) == if i == pid then None else ClaimsIn(s.procs, i)
  {
  }

  lemma StepChangesRunning(s: State, a: Action)
    requires Enabled(s, a) && Target(s, a).Some?
    ensures DestAfter(s, a).q.running ==
            match ChangeOf(s, a)
            case NoChange => s.dests[Target(s, a).value].q.running
            case Takes(_, _) => true
            case Gives(_, _) => false
    ensures !ChangeOf(s, a).NoChange? ==> ChangeOf(s, a).dest == Target(s, a).value
    ensures ChangeOf(s, a).Takes? ==> !s.dests[Target(s, a).value].q.running
  {
    if MovesData(a) {
      MovingLeavesRunning(s, a);
    } else if a.AddPDU? || a.AddEDU? {
      AddingLeavesRunning(s, a);
    } else if a.CatchUpFlag? || a.CatchUpAdvance? {
      CursorLeavesRunning(s, a);
    } else if !AboutClaim(a) {
      RestLeavesRunning(s, a);
    }
  }

  predicate AboutClaim(a: Action) {
    a.Wake? || a.Rewake? || a.CatchUpClaim? || a.CancelWait? || a.ClearRunning? || a.CatchUpRelease?
  }

  predicate MovesData(a: Action) {
    a.SendSucceeds? || a.DequeueBatch? || a.ReportMarks? || a.AdvanceCursor?
  }

  lemma AddingLeavesRunning(s: State, a: Action)
    requires Enabled(s, a) && (a.AddPDU? || a.AddEDU?)
    ensures DestAfter(s, a).q.running == s.dests[a.dest].q.running && ChangeOf(s, a).NoChange?
  {
  }

  lemma MovingLeavesRunning(s: State, a: Action)
    requires Enabled(s, a) && Target(s, a).Some? && MovesData(a)
    ensures DestAfter(s, a).q.running == s.dests[Target(s, a).value].q.running && ChangeOf(s, a).NoChange?
  {
  }

  lemma CursorLeavesRunning(s: State, a: Action)
    requires Enabled(s, a) && (a.CatchUpFlag? || a.CatchUpAdvance?)
    ensures DestAfter(s, a).q.running == s.dests[Target(s, a).value].q.running && ChangeOf(s, a).NoChange?
  {
  }

  lemma RestLeavesRunning(s: State, a: Action)
    requires Enabled(s, a) && Target(s, a).Some? && !AboutClaim(a) && !MovesData(a)
    requires !a.CatchUpFlag? && !a.CatchUpAdvance? && !a.AddPDU? && !a.AddEDU?
    ensures DestAfter(s, a).q.running == s.dests[Target(s, a).value].q.running && ChangeOf(s, a).NoChange?
  {
  }

  lemma StepChangesClaims(s: State, a: Action)
    requires Enabled(s, a)
    ensures Changes(s, Apply(s, a), ChangeOf(s, a))
  {
    StepChangesProcs(s, a);
    if Target(s, a).Some? { StepChangesRunning(s, a); }
  }

  lemma ChangeKeepsClaims(s: State, t: State, c: ClaimChange)
    requires ClaimsOK(s) && Changes(s, t, c)
    ensures ClaimsOK(t)
  {
    forall i | i in t.procs && ClaimOf(t.procs[i]).Some?
      ensures ClaimOf(t.procs[i]).value in t.dests && t.dests[ClaimOf(t.procs[i]).value].q.running
    {
      assert ClaimsIn(t.procs, i) == ClaimOf(t.procs[i]);
      var r := ClaimOf(t.procs[i]).value;
      if c == NoChange || i != c.pid {
        assert ClaimsIn(s.procs, i) == Some(r);
        assert Running(s, r);
      }
      assert Running(t, r);
    }
    forall i, j | i in t.procs && j in t.procs && ClaimOf(t.procs[i]).Some? &&
                  ClaimOf(t.procs[i]) == ClaimOf(t.procs[j])
      ensures i == j
    {
      assert ClaimsIn(t.procs, i) == ClaimsIn(t.procs, j);
      assert i != j ==> ClaimsIn(s.procs, i) != ClaimsIn(s.procs, j);
    }
    forall r | r in t.dests && t.dests[r].q.running
      ensures exists i :: i in t.procs && ClaimOf(t.procs[i]) == Some(r)
    {
      assert Running(t, r);
      if c.Takes? && c.dest == r {
        assert ClaimsIn(t.procs, c.pid) == Some(r);
      } else {
        assert Running(s, r);
        var i :| i in s.procs && ClaimOf(s.procs[i]) == Some(r);
        assert ClaimsIn(s.procs, i) == Some(r);
        assert ClaimsIn(t.procs, i) == Some(r);
      }
    }
  }

  // ---------- one step: slots ----------

  predicate SlotIn(procs: map<nat, Proc>, i: nat) {
    i in procs && HasSlot(procs[i])
  }

  lemma StepMovesSlot(s: State, a: Action)
    requires Enabled(s, a)
    ensures a.GetSlot? ==> !SlotIn(s.procs, a.pid)
    ensures a.FreeSlot? ==> SlotIn(s.procs, a.pid)
    ensures forall i :: SlotIn(ProcsAfter(s, a), i) ==
                        if a.GetSlot? && i == a.pid then true
                        else if a.FreeSlot? && i == a.pid then false
                        else SlotIn(s.procs, i)
  {
  }

  lemma StepKeepsSlots(s: State, a: Action)
    requires SlotsOK(s) && Enabled(s, a)
    ensures SlotsOK(Apply(s, a))
  {
    StepMovesSlot(s, a);
    HoldersMove(s.procs, ProcsAfter(s, a), Pid(a), a.GetSlot?, a.FreeSlot?);
  }

  lemma HoldersMove(procs: map<nat, Proc>, after: map<nat, Proc>, pid: nat, gets: bool, frees: bool)
    requires gets ==> !SlotIn(procs, pid)
    requires frees ==> SlotIn(procs, pid) && !gets
    requires forall i :: SlotIn(after, i) ==
                         if gets && i == pid then true else if frees && i == pid then false else SlotIn(procs, i)
    ensures |SlotHolders(after)| == |SlotHolders(procs)| + (if gets then 1 else 0) - (if frees then 1 else 0)
  {
    var a, b := SlotHolders(procs), SlotHolders(after);
    assert forall i :: i in a <==> SlotIn(procs, i);
    assert forall i :: i in b <==> SlotIn(after, i);
    assert b == if gets then a + {pid} else if frees then a - {pid} else a;
  }

  // ---------- one step: data ----------

  lemma AddPDUKeeps(d: Dest, p: PDU)
    requires DestOK(d)
    ensures DestOK(AfterAddPDU(d, p))
    ensures forall phase :: PhaseOK(d, phase) ==> PhaseOK(AfterAddPDU(d, p), phase)
  {
    var e := AfterAddPDU(d, p);
    if e.q.pdus != d.q.pdus {
      assert e.q.pdus[d.unackedPDUs..] == d.q.pdus[d.unackedPDUs..] + [p];
    }
    SameUnits(d, e);
    forall phase | PhaseOK(d, phase) ensures PhaseOK(e, phase) {
      SamePhase(d, e, phase);
    }
  }

  /** The durable units and what is known of them stay as they were. */
  ghost predicate UnitsSame(d: Dest, e: Dest) {
    && e.q.edus == d.q.edus && e.unackedEDUs == d.unackedEDUs && e.sent == d.sent && e.reported == d.reported
    && e.queued == d.queued && e.durableIn == d.durableIn && e.kept == d.kept && e.durableOut == d.durableOut
  }

  lemma SameUnits(d: Dest, e: Dest)
    requires DurableOK(d) && KeptOK(d) && UnitsSame(d, e)
    ensures DurableOK(e) && KeptOK(e)
  {
    forall lane, mark | Reported(e, lane, mark) ensures MarkDelivered(e, lane, mark) {
      assert Reported(d, lane, mark);
      MarkStays(d, e, lane, mark);
    }
  }

  /** A phase depends on the queue only through the batch it copied, and the word left. */
  lemma SamePhase(d: Dest, e: Dest, phase: Phase)
    requires PhaseOK(d, phase) && UnitsSame(d, e)
    requires d.q.pdus <= e.q.pdus && e.unackedPDUs == d.unackedPDUs
    requires Heard(d) ==> Heard(e)
    requires NothingUnsaid(d) ==> NothingUnsaid(e)
    ensures PhaseOK(e, phase)
  {
    if phase.Sending? || phase.Delivered? {
      assert e.q.pdus[..|phase.batch.pdus|] == d.q.pdus[..|phase.batch.pdus|];
    }
    if phase.Delivered? || phase.Dequeued? { MarksStay(d, e, phase.batch); }
  }

  lemma MarkStays(d: Dest, e: Dest, lane: Lane, mark: int)
    requires MarkDelivered(d, lane, mark) && d.durableOut <= e.durableOut
    requires d.durableOut <= |d.durableIn| && d.durableOut <= |e.durableIn|
    requires d.durableIn[..d.durableOut] == e.durableIn[..d.durableOut]
    ensures MarkDelivered(e, lane, mark)
  {
    var i :| 0 <= i < d.durableOut && i < |d.durableIn| && Mark(d.durableIn[i], lane) == mark;
    assert e.durableIn[..d.durableOut][i] == d.durableIn[..d.durableOut][i];
  }

  lemma MarksStay(d: Dest, e: Dest, b: Taken)
    requires MarksOK(d, b) && UnitsSame(d, e)
    ensures MarksOK(e, b)
  {
    forall lane | TakenMark(b, lane) > 0 ensures MarkDelivered(e, lane, TakenMark(b, lane)) {
      assert MarkDelivered(d, lane, TakenMark(b, lane));
    }
  }

  lemma AddEDUKeepsDurable(d: Dest, op: EduOp)
    requires DurableOK(d) && EdusOK(d.q.edus) && OpOK(op)
    ensures DurableOK(AfterAddEDU(d, op))
  {
    var e := AfterAddEDU(d, op);
    EnqueueIsAlike(d.q.edus, op);
    EnqueueAtCut(d.q.edus, op, d.unackedEDUs);
    assert e.durableIn[..d.durableOut] == d.durableIn[..d.durableOut];
    assert e.durableIn[d.durableOut..] == d.durableIn[d.durableOut..] + Fresh(op);
    forall lane, mark | Reported(e, lane, mark) ensures MarkDelivered(e, lane, mark) {
      assert Reported(d, lane, mark);
      MarkStays(d, e, lane, mark);
    }
  }

  lemma FreshIsOne(op: EduOp)
    ensures |Fresh(op)| <= 1
  {
    if op.Append? { DurableOfOne(op.edu); }
  }

  lemma AddEDUKeepsKept(d: Dest, op: EduOp)
    requires KeptOK(d)
    ensures KeptOK(AfterAddEDU(d, op))
  {
    FreshIsOne(op);
    RisingNext(d.kept, |d.queued|);
  }

  lemma AddEDUKeepsDest(d: Dest, op: EduOp)
    requires DestOK(d) && OpOK(op)
    ensures DestOK(AfterAddEDU(d, op))
  {
    EnqueueIsAlike(d.q.edus, op);
    AddEDUKeepsDurable(d, op);
    AddEDUKeepsKept(d, op);
  }

  lemma AddEDUKeepsPhase(d: Dest, op: EduOp, phase: Phase)
    requires DestOK(d) && OpOK(op) && PhaseOK(d, phase)
    ensures PhaseOK(AfterAddEDU(d, op), phase)
  {
    var e := AfterAddEDU(d, op);
    if phase.Sending? || phase.Delivered? {
      EnqueueAtCut(d.q.edus, op, |phase.batch.edus|);
    }
    if phase.Delivered? || phase.Dequeued? {
      forall lane | TakenMark(phase.batch, lane) > 0 ensures MarkDelivered(e, lane, TakenMark(phase.batch, lane)) {
        assert e.durableIn[..d.durableOut] == d.durableIn[..d.durableOut];
        MarkStays(d, e, lane, TakenMark(phase.batch, lane));
      }
    }
  }

  lemma AddEDUKeeps(d: Dest, op: EduOp)
    requires DestOK(d) && OpOK(op)
    ensures DestOK(AfterAddEDU(d, op))
    ensures forall phase :: PhaseOK(d, phase) ==> PhaseOK(AfterAddEDU(d, op), phase)
  {
    AddEDUKeepsDest(d, op);
    forall phase | PhaseOK(d, phase) ensures PhaseOK(AfterAddEDU(d, op), phase) {
      AddEDUKeepsPhase(d, op, phase);
    }
  }

  lemma TakeGivesBatchOK(q: Queue, lim: Limits)
    requires EdusOK(q.edus) && Take(q, lim).Some?
    ensures BatchOK(q, Take(q, lim).value)
  {
    var edus := EDUPrefix(q, lim);
    MaterialiseKeepsDurable(edus);
    assert edus == q.edus[..|edus|];
  }

  lemma MovedOver(units: seq<EDU>, out: nat, moved: seq<EDU>, rest: seq<EDU>)
    requires out <= |units| && units[out..] == moved + rest
    ensures out + |moved| <= |units|
    ensures units[..out + |moved|] == units[..out] + moved && units[out + |moved|..] == rest
    ensures forall i :: 0 <= i < |moved| ==> units[out + i] == moved[i]
  {
    assert units == units[..out] + (moved + rest);
  }

  lemma UnitsOfConcat(a: seq<EDU>, b: seq<EDU>)
    ensures UnitsOf(a + b) == UnitsOf(a) + UnitsOf(b)
  {
  }

  /** What a transaction takes of the durable units, and what stays behind. */
  lemma SendMoves(d: Dest, b: Taken)
    requires DurableOK(d) && d.unackedEDUs == 0 && BatchOK(d.q, b)
    ensures var moved, e := DurableOf(d.q.edus[..|b.edus|]), AfterSend(d, b);
            e.durableOut == d.durableOut + |moved| && e.durableOut <= |e.durableIn| &&
            e.durableIn[..e.durableOut] == d.durableIn[..d.durableOut] + moved &&
            e.durableIn[e.durableOut..] == DurableOf(d.q.edus[|b.edus|..]) &&
            forall i :: 0 <= i < |moved| ==> e.durableIn[d.durableOut + i] == moved[i]
  {
    var n := |b.edus|;
    assert d.q.edus[0..] == d.q.edus == d.q.edus[..n] + d.q.edus[n..];
    DurableOfConcat(d.q.edus[..n], d.q.edus[n..]);
    assert |UnitsOf(DurableOf(d.q.edus[..n]))| == |DurableOf(d.q.edus[..n])|;
    MovedOver(d.durableIn, d.durableOut, DurableOf(d.q.edus[..n]), DurableOf(d.q.edus[n..]));
  }

  lemma SendKeepsMarks(d: Dest, b: Taken)
    requires DurableOK(d) && EdusOK(d.q.edus) && d.unackedEDUs == 0 && BatchOK(d.q, b)
    ensures forall lane, mark :: Reported(AfterSend(d, b), lane, mark) ==> MarkDelivered(AfterSend(d, b), lane, mark)
    ensures MarksOK(AfterSend(d, b), b)
  {
    var e := AfterSend(d, b);
    SendMoves(d, b);
    assert e.durableIn[..d.durableOut] == d.durableIn[..d.durableOut];
    forall lane, mark | Reported(e, lane, mark) ensures MarkDelivered(e, lane, mark) {
      assert Reported(d, lane, mark);
      MarkStays(d, e, lane, mark);
    }
    forall lane | TakenMark(b, lane) > 0 ensures MarkDelivered(e, lane, TakenMark(b, lane)) {
      BatchMarkSent(d, b, lane);
    }
  }

  lemma BatchMarkSent(d: Dest, b: Taken, lane: Lane)
    requires DurableOK(d) && EdusOK(d.q.edus) && d.unackedEDUs == 0 && BatchOK(d.q, b) && TakenMark(b, lane) > 0
    ensures MarkDelivered(AfterSend(d, b), lane, TakenMark(b, lane))
  {
    var e, taken := AfterSend(d, b), d.q.edus[..|b.edus|];
    SendMoves(d, b);
    assert EdusOK(taken);
    BatchMark(taken, lane);
    var i :| 0 <= i < |DurableOf(taken)| && Mark(DurableOf(taken)[i], lane) == TakenMark(b, lane);
    assert e.durableIn[d.durableOut + i] == DurableOf(taken)[i];
  }

  lemma SendKeepsDurable(d: Dest, b: Taken)
    requires DurableOK(d) && EdusOK(d.q.edus) && d.unackedEDUs == 0 && BatchOK(d.q, b)
    ensures DurableOK(AfterSend(d, b)) && MarksOK(AfterSend(d, b), b)
  {
    SendMoves(d, b);
    SendKeepsMarks(d, b);
    DurableSentConcat(d.sent, b.edus);
    UnitsOfConcat(d.durableIn[..d.durableOut], DurableOf(d.q.edus[..|b.edus|]));
  }

  lemma SendKeeps(d: Dest, b: Taken)
    requires DestOK(d) && PhaseOK(d, Sending(b)) && d.q.running
    ensures DestOK(AfterSend(d, b)) && PhaseOK(AfterSend(d, b), Delivered(b))
  {
    var e := AfterSend(d, b);
    assert d.q.pdus == b.pdus + d.q.pdus[|b.pdus|..];
    assert e.log[e.base..] == d.log[d.base..] + b.pdus;
    SendKeepsDurable(d, b);
  }

  lemma DequeueKeeps(d: Dest, b: Taken)
    requires DestOK(d) && PhaseOK(d, Delivered(b)) && d.q.running
    ensures DestOK(AfterDequeue(d, b)) && PhaseOK(AfterDequeue(d, b), Dequeued(b))
  {
    var e := AfterDequeue(d, b);
    assert e.q.pdus[0..] == e.q.pdus;
    assert e.q.edus[0..] == e.q.edus;
    forall lane, mark | Reported(e, lane, mark) ensures MarkDelivered(e, lane, mark) {
      assert Reported(d, lane, mark);
      MarkStays(d, e, lane, mark);
    }
    forall lane | TakenMark(b, lane) > 0 ensures MarkDelivered(e, lane, TakenMark(b, lane)) {
      MarkStays(d, e, lane, TakenMark(b, lane));
    }
  }

  lemma ReportKeeps(d: Dest, b: Taken)
    requires DestOK(d) && PhaseOK(d, Dequeued(b))
    ensures DestOK(AfterReport(d, b)) && PhaseOK(AfterReport(d, b), Advancing(b))
  {
    var e := AfterReport(d, b);
    forall lane, mark | Reported(e, lane, mark) ensures MarkDelivered(e, lane, mark) {
      if Reported(d, lane, mark) {
        MarkStays(d, e, lane, mark);
      } else {
        var k :| 0 <= k < |e.reported| && ReportMark(e.reported[k], lane) == mark;
        assert k == |d.reported| && TakenMark(b, lane) == mark;
        MarkStays(d, e, lane, mark);
      }
    }
  }

  lemma DropKeepsDurable(d: Dest)
    requires DurableOK(d) && KeptOK(d) && d.unackedEDUs == 0
    ensures DurableOK(AfterDrop(d))
  {
    var e, waiting := AfterDrop(d), d.durableIn[d.durableOut..];
    assert d.q.edus[0..] == d.q.edus;
    DropOnDurable(d.q.edus);
    assert e.durableIn[..d.durableOut] == d.durableIn[..d.durableOut];
    assert e.durableIn[d.durableOut..] == KeepMarked(waiting);
    assert e.q.edus[0..] == e.q.edus;
    forall lane, mark | Reported(e, lane, mark) ensures MarkDelivered(e, lane, mark) {
      assert Reported(d, lane, mark);
      MarkStays(d, e, lane, mark);
    }
  }

  lemma StandJoins(queued: seq<EDU>, a: seq<EDU>, x: seq<nat>, b: seq<EDU>, y: seq<nat>)
    requires Stand(queued, a, x) && Stand(queued, b, y)
    ensures Stand(queued, a + b, x + y)
  {
  }

  lemma RisingJoins(x: seq<nat>, y: seq<nat>)
    requires Rising(x) && Rising(y) && forall i, j :: 0 <= i < |x| && 0 <= j < |y| ==> x[i] < y[j]
    ensures Rising(x + y)
  {
  }

  lemma DropKeepsKept(d: Dest)
    requires DurableOK(d) && KeptOK(d)
    ensures KeptOK(AfterDrop(d))
  {
    var n := d.durableOut;
    var waiting, at := d.durableIn[n..], d.kept[n..];
    KeptStand(d.queued, waiting, at);
    StandJoins(d.queued, d.durableIn[..n], d.kept[..n], KeepMarked(waiting), KeptAt(waiting, at));
    KeptRising(waiting, at);
    forall i, j | 0 <= i < n && 0 <= j < |KeptAt(waiting, at)| ensures d.kept[i] < KeptAt(waiting, at)[j] {
      assert KeptAt(waiting, at)[j] in at;
    }
    RisingJoins(d.kept[..n], KeptAt(waiting, at));
  }

  lemma DropKeeps(d: Dest)
    requires DestOK(d) && d.unackedPDUs == 0 && d.unackedEDUs == 0
    ensures DestOK(AfterDrop(d))
  {
    var kept := KeepMarked(d.q.edus);
    forall i | 0 <= i < |kept| ensures EduOK(kept[i]) {
      assert kept[i] in d.q.edus;
    }
    DropKeepsDurable(d);
    DropKeepsKept(d);
  }

  lemma RestartKeeps(d: Dest)
    requires DestOK(d) && d.unackedPDUs == 0 && d.unackedEDUs == 0
    ensures DestOK(AfterRestart(d))
  {
    SameUnits(d, AfterRestart(d));
  }

  /** Only flags, cursors, the claim and the word left differ. */
  ghost predicate SameData(d: Dest, e: Dest) {
    e == d.(told := e.told, unsaid := e.unsaid,
    q := d.q.(running := e.q.running, newData := e.q.newData, catchingUp := e.q.catchingUp,
    skipped := e.q.skipped, lastSuccessful := e.q.lastSuccessful, known := e.q.known))
  }

  lemma SameDataKeeps(d: Dest, e: Dest)
    requires DestOK(d) && SameData(d, e) && WordOK(e)
    requires !e.q.running ==> d.unackedPDUs == 0 && d.unackedEDUs == 0
    ensures DestOK(e)
    ensures (Heard(d) ==> Heard(e)) && (NothingUnsaid(d) ==> NothingUnsaid(e)) ==>
              forall phase :: PhaseOK(d, phase) ==> PhaseOK(e, phase)
  {
    SameUnits(d, e);
    if (Heard(d) ==> Heard(e)) && (NothingUnsaid(d) ==> NothingUnsaid(e)) {
      forall phase | PhaseOK(d, phase) ensures PhaseOK(e, phase) {
        SamePhase(d, e, phase);
      }
    }
  }

  /** Actions anybody may take, claim or no claim. */
  predicate IsProducer(a: Action) {
    a.AddPDU? || a.AddEDU? || a.Wake? || a.Rewake? || a.CatchUpClaim? || a.CatchUpFlag?
  }

  predicate OnlyFlags(a: Action) {
    !(a.AddPDU? || a.AddEDU? || a.DropForOutage? || a.RestartForOutage? ||
      a.SendSucceeds? || a.DequeueBatch? || a.ReportMarks?)
  }

  predicate ForCatchUp(a: Action) {
    a.CatchUpClaim? || a.CatchUpFlag? || a.CatchUpAdvance? || a.CatchUpRelease?
  }

  lemma LoopFlagsSameData(s: State, a: Action)
    requires Enabled(s, a) && Target(s, a).Some? && OnlyFlags(a) && !ForCatchUp(a)
    ensures SameData(s.dests[Target(s, a).value], DestAfter(s, a))
  {
  }

  lemma CatchUpFlagSameData(d: Dest, flag: Flag)
    ensures SameData(d, AfterFlag(d, flag))
  {
  }

  lemma CatchUpFlagsSameData(s: State, a: Action)
    requires Enabled(s, a) && Target(s, a).Some? && ForCatchUp(a)
    ensures SameData(s.dests[Target(s, a).value], DestAfter(s, a))
  {
    if a.CatchUpFlag? { CatchUpFlagSameData(s.dests[a.dest], a.flag); }
  }

  lemma OnlyFlagsSameData(s: State, a: Action)
    requires Enabled(s, a) && Target(s, a).Some? && OnlyFlags(a)
    ensures SameData(s.dests[Target(s, a).value], DestAfter(s, a))
  {
    if ForCatchUp(a) { CatchUpFlagsSameData(s, a); } else { LoopFlagsSameData(s, a); }
  }

  /** A claim won with a call of Wake: nobody held it, so nobody minds what was heard. */
  predicate WakesUp(s: State, a: Action)
    requires Enabled(s, a)
  {
    (a.Wake? || a.Rewake?) && !s.dests[Target(s, a).value].q.running
  }

  lemma FlagsWord(s: State, a: Action)
    requires Enabled(s, a) && Target(s, a).Some? && OnlyFlags(a) && WordOK(s.dests[Target(s, a).value])
    ensures WordOK(DestAfter(s, a))
  {
  }

  lemma FlagsHeard(s: State, a: Action)
    requires Enabled(s, a) && IsProducer(a) && OnlyFlags(a) && !WakesUp(s, a)
    ensures var d, e := s.dests[Target(s, a).value], DestAfter(s, a);
            (Heard(d) ==> Heard(e)) && (NothingUnsaid(d) ==> NothingUnsaid(e))
  {
  }

  lemma FlagsKeep(s: State, a: Action, r: nat, e: Dest)
    requires DataOK(s) && Enabled(s, a) && IsProducer(a) && OnlyFlags(a)
    requires r in s.dests && Target(s, a) == Some(r) && e == DestAfter(s, a)
    ensures DestOK(e) && e.unackedPDUs == s.dests[r].unackedPDUs && e.unackedEDUs == s.dests[r].unackedEDUs
    ensures !WakesUp(s, a) ==> forall phase :: PhaseOK(s.dests[r], phase) ==> PhaseOK(e, phase)
  {
    assert DestOK(s.dests[r]);
    OnlyFlagsSameData(s, a);
    StepChangesRunning(s, a);
    FlagsWord(s, a);
    SameDataKeeps(s.dests[r], e);
    if !WakesUp(s, a) { FlagsHeard(s, a); }
  }

  lemma HolderClaims(s: State, a: Action)
    requires Enabled(s, a) && Target(s, a).Some? && !IsProducer(a)
    ensures Pid(a) in s.procs && ClaimOf(s.procs[Pid(a)]) == Target(s, a)
    ensures !s.procs[Pid(a)].Creating? && s.procs[Pid(a)].dest == Target(s, a).value
    ensures Pid(a) in ProcsAfter(s, a) ==>
              !ProcsAfter(s, a)[Pid(a)].Creating? && ProcsAfter(s, a)[Pid(a)].dest == Target(s, a).value
  {
  }

  lemma HolderNotSending(s: State, a: Action)
    requires Enabled(s, a) && Target(s, a).Some? && !IsProducer(a)
    requires !(a.SendSucceeds? || a.DequeueBatch? || a.ReportMarks?)
    ensures var before := PhaseOf(s.procs[Pid(a)]);
            !before.Sending? && !before.Delivered? && !before.Dequeued? && !before.SlotOnly?
    ensures Pid(a) in ProcsAfter(s, a) ==>
              var after := PhaseOf(ProcsAfter(s, a)[Pid(a)]);
              !after.Delivered? && !after.Dequeued? &&
              (after.Sending? ==> a.TakeBatch? && Take(s.dests[Target(s, a).value].q, s.lim) == Some(after.batch))
  {
  }

  lemma HolderSends(s: State, a: Action)
    requires Enabled(s, a) && (a.SendSucceeds? || a.DequeueBatch? || a.ReportMarks?)
    requires DestOK(s.dests[Target(s, a).value]) && s.dests[Target(s, a).value].q.running
    requires PhaseOK(s.dests[Target(s, a).value], s.procs[Pid(a)].phase)
    ensures DestOK(DestAfter(s, a))
    ensures Pid(a) in ProcsAfter(s, a) && PhaseOK(DestAfter(s, a), PhaseOf(ProcsAfter(s, a)[Pid(a)]))
  {
    var d := s.dests[Target(s, a).value];
    if a.SendSucceeds? {
      SendKeeps(d, s.procs[a.pid].phase.batch);
    } else if a.DequeueBatch? {
      DequeueKeeps(d, s.procs[a.pid].phase.batch);
    } else {
      ReportKeeps(d, s.procs[a.pid].phase.batch);
    }
  }

  lemma HolderDest(s: State, a: Action)
    requires DataOK(s) && Enabled(s, a) && Target(s, a).Some? && !IsProducer(a)
    requires !(a.SendSucceeds? || a.DequeueBatch? || a.ReportMarks?)
    requires s.dests[Target(s, a).value].unackedPDUs == 0 && s.dests[Target(s, a).value].unackedEDUs == 0
    ensures DestOK(DestAfter(s, a))
    ensures DestAfter(s, a).unackedPDUs == 0 && DestAfter(s, a).unackedEDUs == 0
  {
    var d := s.dests[Target(s, a).value];
    assert DestOK(d);
    if a.DropForOutage? {
      DropKeeps(d);
    } else if a.RestartForOutage? {
      RestartKeeps(d);
    } else {
      OnlyFlagsSameData(s, a);
      FlagsWord(s, a);
      SameDataKeeps(d, DestAfter(s, a));
    }
  }

  /** The phases a holder that is not sending goes to next need only what its look found. */
  lemma HolderPhase(s: State, a: Action)
    requires Enabled(s, a) && Target(s, a).Some? && !IsProducer(a) && !a.TakeBatch?
    requires !(a.SendSucceeds? || a.DequeueBatch? || a.ReportMarks?) && Pid(a) in ProcsAfter(s, a)
    ensures var after := PhaseOf(ProcsAfter(s, a)[Pid(a)]);
            after.Top? || after.DroppedForOutage? || after.SlotOnly? ||
            after == Exiting(Outage) || (after == Exiting(HeldBack) && a.HoldPresence?)
  {
  }

  lemma HolderMovesOn(s: State, a: Action)
    requires DataOK(s) && Enabled(s, a) && Target(s, a).Some? && !IsProducer(a)
    requires !(a.SendSucceeds? || a.DequeueBatch? || a.ReportMarks?)
    requires s.dests[Target(s, a).value].unackedPDUs == 0 && s.dests[Target(s, a).value].unackedEDUs == 0
    ensures DestOK(DestAfter(s, a))
    ensures Pid(a) in ProcsAfter(s, a) ==> PhaseOK(DestAfter(s, a), PhaseOf(ProcsAfter(s, a)[Pid(a)]))
  {
    HolderDest(s, a);
    if a.TakeBatch? {
      LookKeepsPhase(s, a.pid);
    } else if Pid(a) in ProcsAfter(s, a) {
      HolderPhase(s, a);
    }
  }

  /** A look that takes nothing has seen an empty queue. */
  lemma LookKeepsPhase(s: State, pid: nat)
    requires Enabled(s, TakeBatch(pid)) && DestOK(s.dests[s.procs[pid].dest])
    requires s.dests[s.procs[pid].dest].unackedPDUs == 0 && s.dests[s.procs[pid].dest].unackedEDUs == 0
    ensures PhaseOK(AfterLook(s.dests[s.procs[pid].dest]), AfterTake(Take(s.dests[s.procs[pid].dest].q, s.lim)))
  {
    var d := s.dests[s.procs[pid].dest];
    if Take(d.q, s.lim).Some? { TakeGivesBatchOK(d.q, s.lim); }
  }

  lemma HolderKeeps(s: State, a: Action)
    requires Inv(s) && Enabled(s, a) && Target(s, a).Some? && !IsProducer(a)
    ensures DestOK(DestAfter(s, a))
    ensures Pid(a) in ProcsAfter(s, a) ==> PhaseOK(DestAfter(s, a), PhaseOf(ProcsAfter(s, a)[Pid(a)]))
  {
    HolderClaims(s, a);
    var d := s.dests[Target(s, a).value];
    assert ProcOK(s, s.procs[Pid(a)]);
    assert d.q.running && DestOK(d);
    if a.SendSucceeds? || a.DequeueBatch? || a.ReportMarks? {
      HolderSends(s, a);
    } else {
      HolderNotSending(s, a);
      HolderMovesOn(s, a);
    }
  }

  lemma UntargetedKeeps(s: State, a: Action, i: nat)
    requires Enabled(s, a) && Target(s, a).None? && i in ProcsAfter(s, a)
    requires i in s.procs ==> ProcOK(s, s.procs[i])
    ensures ProcOK(s, ProcsAfter(s, a)[i])
  {
  }

  lemma OnlyActorMoves(s: State, a: Action, i: nat)
    requires Enabled(s, a) && i in ProcsAfter(s, a) && i != Pid(a)
    ensures i in s.procs && ProcsAfter(s, a)[i] == s.procs[i]
  {
  }

  lemma ProducerProcs(s: State, a: Action)
    requires Enabled(s, a) && IsProducer(a) && Pid(a) in ProcsAfter(s, a)
    ensures (Pid(a) in s.procs && ProcsAfter(s, a)[Pid(a)] == s.procs[Pid(a)]) ||
            (!s.dests[Target(s, a).value].q.running &&
             !ProcsAfter(s, a)[Pid(a)].Creating? &&
             ProcsAfter(s, a)[Pid(a)].dest == Target(s, a).value &&
             (PhaseOf(ProcsAfter(s, a)[Pid(a)]) == Top || PhaseOf(ProcsAfter(s, a)[Pid(a)]) == WantSlot))
    ensures (a.Wake? || a.Rewake?) && Pid(a) in s.procs ==> ClaimOf(s.procs[Pid(a)]).None?
  {
  }

  /** A goroutine's data once destination r has become d. */
  ghost predicate FitsAfter(s: State, r: nat, d: Dest, p: Proc) {
    p.Creating? || (p.dest in s.dests && PhaseOK(if p.dest == r then d else s.dests[p.dest], PhaseOf(p)))
  }

  lemma StayingFits(s: State, a: Action, r: nat, d: Dest, i: nat)
    requires ClaimsOK(s) && Enabled(s, a) && IsProducer(a) && i in s.procs && ProcOK(s, s.procs[i])
    requires Target(s, a) == Some(r) && r in s.dests
    requires !WakesUp(s, a) ==> forall phase :: PhaseOK(s.dests[r], phase) ==> PhaseOK(d, phase)
    ensures FitsAfter(s, r, d, s.procs[i])
  {
    if WakesUp(s, a) { IdleFits(s, r, i); }
  }

  lemma ProducerFits(s: State, a: Action, r: nat, d: Dest, i: nat)
    requires DataOK(s) && ClaimsOK(s) && Enabled(s, a) && IsProducer(a) && i in ProcsAfter(s, a)
    requires Target(s, a) == Some(r) && r in s.dests && DestOK(d)
    requires d.unackedPDUs == s.dests[r].unackedPDUs && d.unackedEDUs == s.dests[r].unackedEDUs
    requires !WakesUp(s, a) ==> forall phase :: PhaseOK(s.dests[r], phase) ==> PhaseOK(d, phase)
    ensures FitsAfter(s, r, d, ProcsAfter(s, a)[i])
  {
    if i == Pid(a) { ProducerProcs(s, a); } else { OnlyActorMoves(s, a, i); }
    if i in s.procs && ProcsAfter(s, a)[i] == s.procs[i] {
      StayingFits(s, a, r, d, i);
    } else {
      assert DestOK(s.dests[r]);
    }
  }

  /** While nobody sends to a server, the goroutines that still name it depend on nothing. */
  lemma IdleFits(s: State, r: nat, i: nat)
    requires ClaimsOK(s) && i in s.procs && r in s.dests && !s.dests[r].q.running
    ensures s.procs[i].Creating? || s.procs[i].dest != r || PhaseOf(s.procs[i]).SlotOnly?
  {
    assert ClaimOf(s.procs[i]) != Some(r);
  }

  lemma OtherFits(s: State, r: nat, d: Dest, actor: nat, i: nat)
    requires ClaimsOK(s) && i in s.procs && i != actor && ProcOK(s, s.procs[i])
    requires actor in s.procs && ClaimOf(s.procs[actor]) == Some(r)
    ensures FitsAfter(s, r, d, s.procs[i])
  {
    // The actor holds the only claim on r, so this goroutine holds none.
    assert ClaimOf(s.procs[i]) != Some(r);
  }

  lemma InstallDest(s: State, r: nat, d: Dest, procs: map<nat, Proc>, t: State)
    requires DataOK(s) && r in s.dests && DestOK(d)
    requires forall i :: i in procs ==> FitsAfter(s, r, d, procs[i])
    requires t.dests == s.dests[r := d] && t.procs == procs
    ensures DataOK(t)
  {
    forall i | i in t.procs ensures ProcOK(t, t.procs[i]) {
      assert FitsAfter(s, r, d, procs[i]);
    }
  }

  lemma ProducerData(s: State, a: Action)
    requires Inv(s) && Enabled(s, a) && IsProducer(a)
    ensures DataOK(Apply(s, a))
  {
    if a.AddPDU? {
      PDUData(s, a.dest, a.pdu);
    } else if a.AddEDU? {
      EDUData(s, a.dest, a.op);
    } else {
      FlagsData(s, a);
    }
  }

  lemma PDUData(s: State, r: nat, p: PDU)
    requires Inv(s) && Enabled(s, AddPDU(r, p))
    ensures DataOK(Apply(s, AddPDU(r, p)))
  {
    AddPDUKeeps(s.dests[r], p);
    ProducerInstalls(s, AddPDU(r, p), r, AfterAddPDU(s.dests[r], p), s.procs, Apply(s, AddPDU(r, p)));
  }

  lemma EDUData(s: State, r: nat, op: EduOp)
    requires Inv(s) && Enabled(s, AddEDU(r, op))
    ensures DataOK(Apply(s, AddEDU(r, op)))
  {
    AddEDUKeeps(s.dests[r], op);
    ProducerInstalls(s, AddEDU(r, op), r, AfterAddEDU(s.dests[r], op), s.procs, Apply(s, AddEDU(r, op)));
  }

  lemma FlagsData(s: State, a: Action)
    requires Inv(s) && Enabled(s, a) && IsProducer(a) && OnlyFlags(a)
    ensures DataOK(Apply(s, a))
  {
    FlagsKeep(s, a, Target(s, a).value, DestAfter(s, a));
    ProducerInstalls(s, a, Target(s, a).value, DestAfter(s, a), ProcsAfter(s, a), Apply(s, a));
  }

  lemma ProducerInstalls(s: State, a: Action, r: nat, d: Dest, procs: map<nat, Proc>, t: State)
    requires DataOK(s) && ClaimsOK(s) && Enabled(s, a) && IsProducer(a) && procs == ProcsAfter(s, a)
    requires Target(s, a) == Some(r) && r in s.dests && DestOK(d)
    requires d.unackedPDUs == s.dests[r].unackedPDUs && d.unackedEDUs == s.dests[r].unackedEDUs
    requires !WakesUp(s, a) ==> forall phase :: PhaseOK(s.dests[r], phase) ==> PhaseOK(d, phase)
    requires t.dests == s.dests[r := d] && t.procs == procs
    ensures DataOK(t)
  {
    AllFit(s, a, r, d, procs);
    InstallDest(s, r, d, procs, t);
  }

  lemma AllFit(s: State, a: Action, r: nat, d: Dest, procs: map<nat, Proc>)
    requires DataOK(s) && ClaimsOK(s) && Enabled(s, a) && IsProducer(a) && procs == ProcsAfter(s, a)
    requires Target(s, a) == Some(r) && r in s.dests && DestOK(d)
    requires d.unackedPDUs == s.dests[r].unackedPDUs && d.unackedEDUs == s.dests[r].unackedEDUs
    requires !WakesUp(s, a) ==> forall phase :: PhaseOK(s.dests[r], phase) ==> PhaseOK(d, phase)
    ensures forall i :: i in procs ==> FitsAfter(s, r, d, procs[i])
  {
    forall i | i in procs ensures FitsAfter(s, r, d, procs[i]) {
      ProducerFits(s, a, r, d, i);
    }
  }

  lemma HolderData(s: State, a: Action)
    requires Inv(s) && Enabled(s, a) && Target(s, a).Some? && !IsProducer(a)
    ensures DataOK(Apply(s, a))
  {
    var r, d, procs := Target(s, a).value, DestAfter(s, a), ProcsAfter(s, a);
    HolderClaims(s, a);
    HolderKeeps(s, a);
    forall i | i in procs ensures FitsAfter(s, r, d, procs[i]) {
      if i != Pid(a) {
        OnlyActorMoves(s, a, i);
        OtherFits(s, r, d, Pid(a), i);
      }
    }
    InstallDest(s, r, d, procs, Apply(s, a));
  }

  lemma UntargetedState(s: State, a: Action)
    requires Enabled(s, a) && Target(s, a).None?
    ensures Apply(s, a).procs == ProcsAfter(s, a)
    ensures Apply(s, a).dests == s.dests ||
            (a.Create? && a.dest !in s.dests && Apply(s, a).dests == s.dests[a.dest := NewDest(s.procs[a.pid].name)])
  {
  }

  lemma NewDestOK(name: string)
    ensures DestOK(NewDest(name))
  {
  }

  lemma GrowDests(s: State, t: State)
    requires DataOK(s)
    requires forall r :: r in s.dests ==> r in t.dests && t.dests[r] == s.dests[r]
    requires forall r :: r in t.dests && r !in s.dests ==> DestOK(t.dests[r])
    requires forall i :: i in t.procs ==> ProcOK(s, t.procs[i])
    ensures DataOK(t)
  {
    forall i | i in t.procs ensures ProcOK(t, t.procs[i]) {
      assert ProcOK(s, t.procs[i]);
    }
  }

  lemma UntargetedData(s: State, a: Action)
    requires Inv(s) && Enabled(s, a) && Target(s, a).None?
    ensures DataOK(Apply(s, a))
  {
    forall i | i in ProcsAfter(s, a) ensures ProcOK(s, ProcsAfter(s, a)[i]) {
      UntargetedKeeps(s, a, i);
    }
    UntargetedState(s, a);
    if a.Create? { NewDestOK(s.procs[a.pid].name); }
    GrowDests(s, Apply(s, a));
  }

  lemma StepKeepsData(s: State, a: Action)
    requires Inv(s) && Enabled(s, a)
    ensures DataOK(Apply(s, a))
  {
    if Target(s, a).None? {
      UntargetedData(s, a);
    } else if IsProducer(a) {
      ProducerData(s, a);
    } else {
      HolderData(s, a);
    }
  }

  lemma StepKeepsInv(s: State, a: Action)
    requires Inv(s) && Enabled(s, a)
    ensures Inv(Apply(s, a))
  {
    StepKeepsNames(s, a);
    StepChangesClaims(s, a);
    ChangeKeepsClaims(s, Apply(s, a), ChangeOf(s, a));
    StepKeepsSlots(s, a);
    StepKeepsData(s, a);
  }

  lemma {:induction false} ReachableIsInv(cap: nat, lim: Limits, run: seq<Action>, s: State)
    requires Reaches(cap, lim, run, s)
    ensures Inv(s) && s.cap == cap && s.lim == lim
  {
    if run != [] {
      var n := |run| - 1;
      var before :| Reaches(cap, lim, run[..n], before) && Enabled(before, run[n]) && s == Apply(before, run[n]);
      ReachableIsInv(cap, lim, run[..n], before);
      StepKeepsInv(before, run[n]);
      LimitsStay(before, run[n]);
    }
  }

  lemma LimitsStay(s: State, a: Action)
    requires Enabled(s, a)
    ensures Apply(s, a).cap == s.cap && Apply(s, a).lim == s.lim
  {
  }

  // ---------- what it says of every run ----------

  function Holders(s: State, r: nat): set<nat> {
    set i | i in s.procs && ClaimOf(s.procs[i]) == Some(r)
  }

  /** running is true exactly when one goroutine holds the claim, and false exactly when none does. */
  lemma RunningIsOneHolder(cap: nat, lim: Limits, run: seq<Action>, s: State, r: nat)
    requires Reaches(cap, lim, run, s) && r in s.dests
    ensures |Holders(s, r)| == if s.dests[r].q.running then 1 else 0
  {
    ReachableIsInv(cap, lim, run, s);
    OneHolder(s, r);
  }

  lemma OneHolder(s: State, r: nat)
    requires ClaimsOK(s) && r in s.dests
    ensures |Holders(s, r)| == if s.dests[r].q.running then 1 else 0
  {
    if s.dests[r].q.running {
      var i :| i in s.procs && ClaimOf(s.procs[i]) == Some(r);
      assert Holders(s, r) == {i};
    } else {
      assert Holders(s, r) == {};
    }
  }

  /** On the wire: between the start of a send and its answer. */
  predicate InFlight(p: Proc) {
    p.CatchUpSending? || (p.Loop? && p.phase.Sending?)
  }

  /** Never two transactions in flight to one server, live or catch-up, however the
      lookups that created its queue raced. */
  lemma OneTransactionInFlight(cap: nat, lim: Limits, run: seq<Action>, s: State, i: nat, j: nat)
    requires Reaches(cap, lim, run, s)
    requires i in s.procs && j in s.procs && InFlight(s.procs[i]) && InFlight(s.procs[j])
    ensures s.procs[i].dest in s.dests && s.procs[j].dest in s.dests
    ensures s.dests[s.procs[i].dest].name == s.dests[s.procs[j].dest].name ==> i == j
  {
    ReachableIsInv(cap, lim, run, s);
    assert ProcOK(s, s.procs[i]) && ProcOK(s, s.procs[j]);
    if s.dests[s.procs[i].dest].name == s.dests[s.procs[j].dest].name {
      assert s.procs[i].dest == s.procs[j].dest;
      assert ClaimOf(s.procs[i]) == ClaimOf(s.procs[j]);
    }
  }

  /** No more loops run than the semaphore allows, and giving a slot back never blocks. */
  lemma LoopsWithinCapacity(cap: nat, lim: Limits, run: seq<Action>, s: State)
    requires Reaches(cap, lim, run, s)
    ensures |SlotHolders(s.procs)| <= cap
    ensures forall i :: i in SlotHolders(s.procs) ==> s.slots > 0
  {
    ReachableIsInv(cap, lim, run, s);
  }

  /** A batch that has been confirmed and is about to be dequeued, if there is one. */
  ghost predicate Confirmed(s: State, r: nat, b: Taken) {
    exists i :: i in s.procs && s.procs[i] == Loop(r, Delivered(b))
  }

  /** PDUs queued since catch-up last restarted are those delivered live since then
      followed by those waiting; while a confirmed batch waits to be dequeued it is
      both, and is exactly the front of the queue. */
  lemma PDUsConserved(cap: nat, lim: Limits, run: seq<Action>, s: State, r: nat)
    requires Reaches(cap, lim, run, s) && r in s.dests
    ensures s.dests[r].base <= |s.dests[r].log|
    ensures (forall b :: !Confirmed(s, r, b)) ==>
              s.dests[r].accepted == s.dests[r].log[s.dests[r].base..] + s.dests[r].q.pdus
    ensures forall b :: Confirmed(s, r, b) ==>
              |b.pdus| <= |s.dests[r].q.pdus| && b.pdus == s.dests[r].q.pdus[..|b.pdus|] &&
              s.dests[r].accepted == s.dests[r].log[s.dests[r].base..] + s.dests[r].q.pdus[|b.pdus|..]
  {
    ReachableIsInv(cap, lim, run, s);
    assert DestOK(s.dests[r]);
    forall b | Confirmed(s, r, b)
      ensures BatchOK(s.dests[r].q, b) && s.dests[r].unackedPDUs == |b.pdus|
    {
      ConfirmedIsInFront(s, r, b);
    }
    if forall b :: !Confirmed(s, r, b) {
      NothingUnacked(s, r);
      assert s.dests[r].q.pdus[0..] == s.dests[r].q.pdus;
    }
  }

  lemma ConfirmedIsInFront(s: State, r: nat, b: Taken)
    requires DataOK(s) && r in s.dests && Confirmed(s, r, b)
    ensures BatchOK(s.dests[r].q, b) && s.dests[r].unackedPDUs == |b.pdus|
  {
    var i :| i in s.procs && s.procs[i] == Loop(r, Delivered(b));
    assert ProcOK(s, s.procs[i]);
  }

  lemma NothingUnacked(s: State, r: nat)
    requires ClaimsOK(s) && DataOK(s) && r in s.dests && forall b :: !Confirmed(s, r, b)
    ensures s.dests[r].unackedPDUs == 0
  {
    assert DestOK(s.dests[r]);
    if s.dests[r].q.running {
      var i :| i in s.procs && ClaimOf(s.procs[i]) == Some(r);
      assert ProcOK(s, s.procs[i]);
      if s.procs[i].Loop? && s.procs[i].phase.Delivered? {
        assert Confirmed(s, r, s.procs[i].phase.batch);
      }
    }
  }

  lemma DequeueSplits(q: Queue, b: Taken)
    requires BatchOK(q, b)
    ensures var after := Dequeue(q, |b.pdus|, |b.edus|);
            q.pdus == b.pdus + after.pdus && after.edus == q.edus[|b.edus|..] &&
            UnitsOf(DurableOf(q.edus)) == DurableSent(b.edus) + UnitsOf(DurableOf(after.edus))
  {
    var front, back := q.edus[..|b.edus|], q.edus[|b.edus|..];
    assert q.edus == front + back;
    DurableOfConcat(front, back);
    assert UnitsOf(DurableOf(front) + DurableOf(back)) == UnitsOf(DurableOf(front)) + UnitsOf(DurableOf(back));
  }

  /** A dequeue removes exactly the batch that was sent, whatever arrived meanwhile,
      and is never asked for more than waits. */
  lemma DequeueRemovesTheBatch(cap: nat, lim: Limits, run: seq<Action>, s: State, pid: nat)
    requires Reaches(cap, lim, run, s) && Enabled(s, DequeueBatch(pid))
    ensures var b := s.procs[pid].phase.batch;
            var before := s.dests[s.procs[pid].dest].q;
            var after := DestAfter(s, DequeueBatch(pid)).q;
            |b.pdus| <= |before.pdus| && |b.edus| <= |before.edus| &&
            before.pdus == b.pdus + after.pdus && after.edus == before.edus[|b.edus|..] &&
            UnitsOf(DurableOf(before.edus)) == DurableSent(b.edus) + UnitsOf(DurableOf(after.edus))
  {
    ReachableIsInv(cap, lim, run, s);
    assert Confirmed(s, s.procs[pid].dest, s.procs[pid].phase.batch);
    ConfirmedIsInFront(s, s.procs[pid].dest, s.procs[pid].phase.batch);
    DequeueSplits(s.dests[s.procs[pid].dest].q, s.procs[pid].phase.batch);
  }

  // ---------- what becomes of a durable unit ----------

  /** The i-th durable unit ever queued has been delivered; or waits; or was dropped. */
  ghost predicate WasDelivered(d: Dest, i: nat) {
    d.durableOut <= |d.kept| && i in d.kept[..d.durableOut]
  }

  ghost predicate Waits(d: Dest, i: nat) {
    d.durableOut <= |d.kept| && i in d.kept[d.durableOut..]
  }

  ghost predicate WasDropped(d: Dest, i: nat) {
    i < |d.queued| && i !in d.kept
  }

  lemma {:induction false} RisingOnce(at: seq<nat>, n: nat, x: nat)
    requires Rising(at) && n <= |at|
    ensures x in at <==> x in at[..n] || x in at[n..]
    ensures !(x in at[..n] && x in at[n..])
  {
    assert at == at[..n] + at[n..];
    if x in at[..n] && x in at[n..] {
      assert false;
    }
  }

  /** Over every run, outages and all, each durable unit ever queued has been delivered,
      waits, or was dropped, and only one of these. What was delivered and what waits are
      those units, content for content and in the order they were queued, the delivered
      ones before the waiting; and a reported mark is that of a delivered one. */
  lemma DurableUnitsConserved(cap: nat, lim: Limits, run: seq<Action>, s: State, r: nat)
    requires Reaches(cap, lim, run, s) && r in s.dests
    ensures var d := s.dests[r];
            d.durableOut <= |d.durableIn| && KeptOK(d) && d.unackedEDUs <= |d.q.edus| &&
            DurableSent(d.sent) == UnitsOf(d.durableIn[..d.durableOut]) &&
            DurableOf(d.q.edus[d.unackedEDUs..]) == d.durableIn[d.durableOut..] &&
            (forall lane, mark :: Reported(d, lane, mark) ==> MarkDelivered(d, lane, mark))
    ensures var d := s.dests[r];
            forall i: nat :: i < |d.queued| ==>
                               (WasDelivered(d, i) || Waits(d, i) || WasDropped(d, i)) &&
                               !(WasDelivered(d, i) && Waits(d, i)) && !(WasDelivered(d, i) && WasDropped(d, i)) &&
                               !(Waits(d, i) && WasDropped(d, i))
  {
    ReachableIsInv(cap, lim, run, s);
    var d := s.dests[r];
    assert DestOK(d);
    forall i: nat | i < |d.queued|
      ensures WasDelivered(d, i) || Waits(d, i) || WasDropped(d, i)
      ensures !(WasDelivered(d, i) && Waits(d, i)) && !(WasDelivered(d, i) && WasDropped(d, i))
      ensures !(Waits(d, i) && WasDropped(d, i))
    {
      RisingOnce(d.kept, d.durableOut, i);
    }
  }

  /** What a step drops: nothing, unless it is an outage's, which drops a unit that waits
      if and only if the unit carries no mark. */
  lemma DropsTheUnmarked(cap: nat, lim: Limits, run: seq<Action>, s: State, a: Action, r: nat, i: nat)
    requires Reaches(cap, lim, run, s) && Enabled(s, a) && r in s.dests && i < |s.dests[r].queued|
    requires !WasDropped(s.dests[r], i)
    ensures r in Apply(s, a).dests && i < |Apply(s, a).dests[r].queued|
    ensures WasDropped(Apply(s, a).dests[r], i) <==>
            a.DropForOutage? && s.procs[a.pid].dest == r && Waits(s.dests[r], i) && Unmarked(s.dests[r].queued[i])
  {
    ReachableIsInv(cap, lim, run, s);
    assert DestOK(s.dests[r]);
    StepDrops(s, a, r, i);
  }

  lemma StepDrops(s: State, a: Action, r: nat, i: nat)
    requires Enabled(s, a) && r in s.dests && DurableOK(s.dests[r]) && KeptOK(s.dests[r])
    requires i < |s.dests[r].queued| && i in s.dests[r].kept
    ensures r in Apply(s, a).dests && i < |Apply(s, a).dests[r].queued|
    ensures i !in Apply(s, a).dests[r].kept <==>
            a.DropForOutage? && s.procs[a.pid].dest == r && Waits(s.dests[r], i) && Unmarked(s.dests[r].queued[i])
  {
    if Target(s, a) == Some(r) {
      if a.DropForOutage? { DropsOne(s.dests[r], i); } else { NotDropped(s, a, i); }
    }
  }

  lemma NotDropped(s: State, a: Action, i: nat)
    requires Enabled(s, a) && Target(s, a).Some? && !a.DropForOutage? && i in s.dests[Target(s, a).value].kept
    ensures i in DestAfter(s, a).kept
    ensures |DestAfter(s, a).queued| >= |s.dests[Target(s, a).value].queued|
  {
  }

  lemma DropsOne(d: Dest, i: nat)
    requires DurableOK(d) && KeptOK(d) && i in d.kept
    ensures i in AfterDrop(d).kept <==> !(Waits(d, i) && Unmarked(d.queued[i]))
  {
    var n := d.durableOut;
    var waiting, at := d.durableIn[n..], d.kept[n..];
    RisingOnce(d.kept, n, i);
    KeptRising(waiting, at);
    if Waits(d, i) {
      var j :| 0 <= j < |at| && at[j] == i;
      KeptExactly(waiting, at, j);
      assert d.queued[d.kept[n + j]] == d.durableIn[n + j];
    }
  }
}
