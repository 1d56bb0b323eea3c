/** A run that deletes a message nobody was sent: two rows are read together, a long
    outage drops the unit of the first, and the mark on the second covers both. */
module OutageRun {
  import opened Units
  import opened QueueSpec
  import opened DurableUnits
  import opened ToDevice
  import opened Marks
  import P = Protocol
  import Wakeups
  import ProtocolSafety

  /** One server's queue with at most one goroutine about it, and its outbox. */
  function Scene(cap: nat, lim: Limits, d: P.Dest, phase: Option<P.Phase>, slots: int,
                 outbox: seq<Row>, appended: seq<Row>, calls: map<nat, Call>, tags: seq<set<Row>>): State {
    State(P.State(map["hs" := 7], map[7 := d], if phase.Some? then map[1 := P.Loop(7, phase.value)] else map[],
                  slots, cap, lim),
          Messages, 7, 10, 0, 0, 2, outbox, appended, calls, tags)
  }

  const R1 := Row(1, Json("first", true))
  const R2 := Row(2, Json("second", true))
  const ROWS := [R1, R2]
  const U1 := EDU(Unit(DirectToDevice, Raw(R1.msg)), 0, 0, "", None, None)
  const U2 := EDU(Unit(DirectToDevice, Raw(R2.msg)), 2, 0, "", None, None)
  const PLAN := [Planned(U1, {R1}), Planned(U2, {R2})]
  const BATCH := Taken([], [U2.unit], 2, 0)

  // The queue, from the read to the report.
  const D0 := P.NewDest("hs").(q := Wakeups.RUNNING, told := true)
  const D1 := D0.(q := D0.q.(edus := [U1], newData := true), queued := [U1], durableIn := [U1], kept := [0], unsaid := true)
  const D2 := D1.(q := D1.q.(edus := [U1, U2]), queued := [U1, U2], durableIn := [U1, U2], kept := [0, 1])
  const D3 := D2.(q := D2.q.(edus := [U2]), durableIn := [U2], kept := [1])
  const D4 := D3.(q := D3.q.(running := false))
  const D5 := D3.(told := true, unsaid := false)
  const D6 := D5.(q := D5.q.(newData := false), told := false)
  const D7 := D6.(durableOut := 1, sent := [U2.unit], unackedEDUs := 1)
  const D8 := D7.(q := D7.q.(edus := []), unackedEDUs := 0)
  const D9 := D8.(reported := [P.Report(2, 0)])

  lemma OneMore(s0: State, run: seq<Action>, s: State, a: Action, t: State)
    requires Runs(s0, run, s) && Steps(s, a, t)
    ensures Runs(s0, run + [a], t)
  {
    assert (run + [a])[..|run|] == run;
  }

  lemma StartIsReached(cap: nat, lim: Limits) returns (run: seq<P.Action>)
    requires cap > 0
    ensures P.Reaches(cap, lim, run, Wakeups.With(cap, lim, Wakeups.RUNNING, [], Some(P.Top), 1, true, false))
  {
    run := [P.Miss("hs", 0), P.Create(0, 7)];
    Wakeups.Created(cap, lim);
    Wakeups.Claimed(cap, lim, run);
    Wakeups.Started(cap, lim, run + [P.Action.Wake(7, 1)]);
    run := (run + [P.Action.Wake(7, 1)]) + [P.GetSlot(1)];
  }

  lemma StartsUp(cap: nat, lim: Limits)
    requires cap > 0
    ensures Startup(cap, lim, Scene(cap, lim, D0, Some(P.Top), 1, ROWS, ROWS, map[], []))
  {
    var sys := Wakeups.With(cap, lim, Wakeups.RUNNING, [], Some(P.Top), 1, true, false);
    var run := StartIsReached(cap, lim);
    assert P.Reaches(cap, lim, run, sys);
    assert Scene(cap, lim, D0, Some(P.Top), 1, ROWS, ROWS, map[], []).sys == sys;
  }

  // ---------- the read ----------

  lemma BeginsRead(cap: nat, lim: Limits)
    ensures var s, t := Scene(cap, lim, D0, Some(P.Top), 1, ROWS, ROWS, map[], []),
                        Scene(cap, lim, D0, Some(P.Top), 1, ROWS, ROWS, map[0 := Started(2)], []);
            Steps(s, Begin(0, 2), t)
  {
  }

  lemma ReadsCursor(cap: nat, lim: Limits)
    ensures var s, t := Scene(cap, lim, D0, Some(P.Top), 1, ROWS, ROWS, map[0 := Started(2)], []),
                        Scene(cap, lim, D0, Some(P.Top), 1, ROWS, ROWS, map[0 := GotCursor(2, 0)], []);
            Steps(s, ReadCursor(0), t)
  {
  }

  lemma ReadBoth()
    ensures Read(ROWS, 0, 2, 10) == (ROWS, 2) && PlanFor(Messages, ROWS, 2, PLAN)
  {
    assert ROWS[1..] == [R2] && ROWS[1..][1..] == [];
    assert InRange([R2], 0, 2) == [R2];
    assert InRange(ROWS, 0, 2) == ROWS;
    assert R1 in PLAN[0].stands && R2 in PLAN[1].stands;
    assert forall r :: r in ROWS ==> r == R1 || r == R2;
  }

  lemma ReadsRows(cap: nat, lim: Limits)
    ensures var s, t := Scene(cap, lim, D0, Some(P.Top), 1, ROWS, ROWS, map[0 := GotCursor(2, 0)], []),
                        Scene(cap, lim, D0, Some(P.Top), 1, ROWS, ROWS, map[0 := GotUnits(0, 2, PLAN, 0)], []);
            Steps(s, ReadRows(0, PLAN), t)
  {
    ReadBoth();
  }

  lemma AddsFirst()
    ensures P.AfterAddEDU(D0, Append(U1)) == D1 && OpOK(Append(U1))
  {
    DurableOfOne(U1);
    assert [] + [U1] == [U1] && [] + [0] == [0];
  }

  lemma QueuesFirst(cap: nat, lim: Limits)
    ensures var s, t := Scene(cap, lim, D0, Some(P.Top), 1, ROWS, ROWS, map[0 := GotUnits(0, 2, PLAN, 0)], []),
                        Scene(cap, lim, D1, Some(P.Top), 1, ROWS, ROWS, map[0 := GotUnits(0, 2, PLAN, 1)], [{R1}]);
            Steps(s, EnqueueNext(0), t)
  {
    AddsFirst();
    assert [] + [{R1}] == [{R1}];
  }

  lemma AddsSecond()
    ensures P.AfterAddEDU(D1, Append(U2)) == D2 && OpOK(Append(U2))
  {
    DurableOfOne(U2);
    assert [U1] + [U2] == [U1, U2] && [0] + [1] == [0, 1];
  }

  lemma QueuesSecond(cap: nat, lim: Limits)
    ensures var s, t := Scene(cap, lim, D1, Some(P.Top), 1, ROWS, ROWS, map[0 := GotUnits(0, 2, PLAN, 1)], [{R1}]),
                        Scene(cap, lim, D2, Some(P.Top), 1, ROWS, ROWS, map[0 := GotUnits(0, 2, PLAN, 2)], [{R1}, {R2}]);
            Steps(s, EnqueueNext(0), t)
  {
    AddsSecond();
    assert [{R1}] + [{R2}] == [{R1}, {R2}];
  }

  /** What the read leaves behind stays as it is from here on. */
  function After(cap: nat, lim: Limits, d: P.Dest, phase: Option<P.Phase>, slots: int, outbox: seq<Row>): State {
    Scene(cap, lim, d, phase, slots, outbox, ROWS, map[0 := GotUnits(0, 2, PLAN, 2)], [{R1}, {R2}])
  }

  lemma ReadHappens(cap: nat, lim: Limits) returns (run: seq<Action>)
    requires cap > 0
    ensures Runs(Scene(cap, lim, D0, Some(P.Top), 1, ROWS, ROWS, map[], []), run, After(cap, lim, D2, Some(P.Top), 1, ROWS))
  {
    var s0 := Scene(cap, lim, D0, Some(P.Top), 1, ROWS, ROWS, map[], []);
    var s1 := Scene(cap, lim, D0, Some(P.Top), 1, ROWS, ROWS, map[0 := Started(2)], []);
    var s2 := Scene(cap, lim, D0, Some(P.Top), 1, ROWS, ROWS, map[0 := GotCursor(2, 0)], []);
    var s3 := Scene(cap, lim, D0, Some(P.Top), 1, ROWS, ROWS, map[0 := GotUnits(0, 2, PLAN, 0)], []);
    var s4 := Scene(cap, lim, D1, Some(P.Top), 1, ROWS, ROWS, map[0 := GotUnits(0, 2, PLAN, 1)], [{R1}]);
    BeginsRead(cap, lim);
    ReadsCursor(cap, lim);
    ReadsRows(cap, lim);
    QueuesFirst(cap, lim);
    QueuesSecond(cap, lim);
    run := [];
    OneMore(s0, run, s0, Begin(0, 2), s1);
    run := run + [Begin(0, 2)];
    OneMore(s0, run, s1, ReadCursor(0), s2);
    run := run + [ReadCursor(0)];
    OneMore(s0, run, s2, ReadRows(0, PLAN), s3);
    run := run + [ReadRows(0, PLAN)];
    OneMore(s0, run, s3, EnqueueNext(0), s4);
    run := run + [EnqueueNext(0)];
    OneMore(s0, run, s4, EnqueueNext(0), After(cap, lim, D2, Some(P.Top), 1, ROWS));
    run := run + [EnqueueNext(0)];
  }

  // ---------- the outage, and the delivery after it ----------

  /** A step of the protocol on the one queue there is. */
  lemma Moves(cap: nat, lim: Limits, d: P.Dest, phase: Option<P.Phase>, slots: int, a: P.Action,
              e: P.Dest, next: Option<P.Phase>, more: int)
    requires !a.AddEDU?
    requires var s := After(cap, lim, d, phase, slots, ROWS).sys;
             P.Enabled(s, a) && P.Apply(s, a) == After(cap, lim, e, next, more, ROWS).sys
    ensures Steps(After(cap, lim, d, phase, slots, ROWS), Sys(a), After(cap, lim, e, next, more, ROWS))
  {
    assert [{R1}, {R2}] + [] == [{R1}, {R2}];
  }

  lemma KeepsSecond()
    ensures KeepMarked([U1, U2]) == [U2]
  {
    assert [U1, U2] == [U1] + [U2] && [U1] == [] + [U1];
    KeepMarkedNext([U1], U2);
    KeepMarkedNext([], U1);
  }

  lemma DropsFirst()
    ensures P.AfterDrop(D2) == D3
  {
    KeepsSecond();
    KeptSecond();
    assert D2.durableIn[0..] == [U1, U2] && D2.durableIn[..0] == [] && D2.kept[..0] == [];
    assert [] + [U2] == [U2];
  }

  lemma Drops(cap: nat, lim: Limits)
    ensures Steps(After(cap, lim, D2, Some(P.Top), 1, ROWS), Sys(P.DropForOutage(1)),
                  After(cap, lim, D3, Some(P.DroppedForOutage), 1, ROWS))
  {
    DropsFirst();
    Moves(cap, lim, D2, Some(P.Top), 1, P.DropForOutage(1), D3, Some(P.DroppedForOutage), 1);
  }

  lemma KeptSecond()
    ensures KeptAt([U1, U2], [0, 1]) == [1] && D2.kept[0..] == [0, 1]
  {
    assert [U1, U2][..1] == [U1] && [0, 1][..1] == [0];
    assert [U1][..0] == [] && [0][..0] == [];
    assert KeptAt([U1], [0]) == [];
  }

  lemma Restarts(cap: nat, lim: Limits)
    ensures Steps(After(cap, lim, D3, Some(P.DroppedForOutage), 1, ROWS), Sys(P.RestartForOutage(1)),
                  After(cap, lim, D3, Some(P.Exiting(P.Outage)), 1, ROWS))
  {
    Moves(cap, lim, D3, Some(P.DroppedForOutage), 1, P.RestartForOutage(1), D3, Some(P.Exiting(P.Outage)), 1);
  }

  lemma Clears(cap: nat, lim: Limits)
    ensures Steps(After(cap, lim, D3, Some(P.Exiting(P.Outage)), 1, ROWS), Sys(P.ClearRunning(1)),
                  After(cap, lim, D4, Some(P.SlotOnly), 1, ROWS))
  {
    Moves(cap, lim, D3, Some(P.Exiting(P.Outage)), 1, P.ClearRunning(1), D4, Some(P.SlotOnly), 1);
  }

  lemma Frees(cap: nat, lim: Limits)
    ensures Steps(After(cap, lim, D4, Some(P.SlotOnly), 1, ROWS), Sys(P.FreeSlot(1)), After(cap, lim, D4, None, 0, ROWS))
  {
    assert map[1 := P.Loop(7, P.SlotOnly)] - {1} == map[];
    Moves(cap, lim, D4, Some(P.SlotOnly), 1, P.FreeSlot(1), D4, None, 0);
  }

  lemma WakesAgain(cap: nat, lim: Limits)
    ensures Steps(After(cap, lim, D4, None, 0, ROWS), Sys(P.Action.Wake(7, 1)), After(cap, lim, D5, Some(P.WantSlot), 0, ROWS))
  {
    Moves(cap, lim, D4, None, 0, P.Action.Wake(7, 1), D5, Some(P.WantSlot), 0);
  }

  lemma GetsSlot(cap: nat, lim: Limits)
    requires cap > 0
    ensures Steps(After(cap, lim, D5, Some(P.WantSlot), 0, ROWS), Sys(P.GetSlot(1)), After(cap, lim, D5, Some(P.Top), 1, ROWS))
  {
    Moves(cap, lim, D5, Some(P.WantSlot), 0, P.GetSlot(1), D5, Some(P.Top), 1);
  }

  lemma MarkOfOne(e: EDU, lane: Lane)
    ensures MaxMark([e], lane) == Max(0, Mark(e, lane))
  {
    var one := [e];
    assert one[..|one| - 1] == [] && MaxMark([], lane) == 0;
  }

  lemma TakesSecond(lim: Limits)
    ensures Take(D5.q, lim) == Some(BATCH)
  {
    MarkOfOne(U2, Messages);
    MarkOfOne(U2, Lists);
    assert MaterialiseAll([U2]) == [U2.unit];
  }

  lemma Looks(cap: nat, lim: Limits)
    ensures Steps(After(cap, lim, D5, Some(P.Top), 1, ROWS), Sys(P.TakeBatch(1)),
                  After(cap, lim, D6, Some(P.Sending(BATCH)), 1, ROWS))
  {
    TakesSecond(lim);
    Moves(cap, lim, D5, Some(P.Top), 1, P.TakeBatch(1), D6, Some(P.Sending(BATCH)), 1);
  }

  lemma Sends(cap: nat, lim: Limits)
    ensures Steps(After(cap, lim, D6, Some(P.Sending(BATCH)), 1, ROWS), Sys(P.SendSucceeds(1)),
                  After(cap, lim, D7, Some(P.Delivered(BATCH)), 1, ROWS))
  {
    assert DurableSent([U2.unit]) == [U2.unit] + DurableSent([U2.unit][1..]);
    assert P.AfterSend(D6, BATCH) == D7;
    Moves(cap, lim, D6, Some(P.Sending(BATCH)), 1, P.SendSucceeds(1), D7, Some(P.Delivered(BATCH)), 1);
  }

  lemma Dequeues(cap: nat, lim: Limits)
    ensures Steps(After(cap, lim, D7, Some(P.Delivered(BATCH)), 1, ROWS), Sys(P.DequeueBatch(1)),
                  After(cap, lim, D8, Some(P.Dequeued(BATCH)), 1, ROWS))
  {
    assert P.AfterDequeue(D7, BATCH) == D8;
    Moves(cap, lim, D7, Some(P.Delivered(BATCH)), 1, P.DequeueBatch(1), D8, Some(P.Dequeued(BATCH)), 1);
  }

  lemma Reports(cap: nat, lim: Limits)
    ensures Steps(After(cap, lim, D8, Some(P.Dequeued(BATCH)), 1, ROWS), Sys(P.ReportMarks(1)),
                  After(cap, lim, D9, Some(P.Advancing(BATCH)), 1, ROWS))
  {
    assert [] + [P.Report(2, 0)] == [P.Report(2, 0)];
    assert P.AfterReport(D8, BATCH) == D9;
    Moves(cap, lim, D8, Some(P.Dequeued(BATCH)), 1, P.ReportMarks(1), D9, Some(P.Advancing(BATCH)), 1);
  }

  lemma Deletes(cap: nat, lim: Limits)
    ensures Steps(After(cap, lim, D9, Some(P.Advancing(BATCH)), 1, ROWS), Delete(2),
                  After(cap, lim, D9, Some(P.Advancing(BATCH)), 1, []))
  {
    assert P.ReportMark(D9.reported[0], Messages) == 2;
    assert ROWS[1..] == [R2] && [R2][1..] == [];
    assert InRange([R2], 2, 2) == [] && InRange(ROWS, 2, 2) == [];
  }

  lemma DropHappens(cap: nat, lim: Limits, s0: State, run: seq<Action>) returns (more: seq<Action>)
    requires cap > 0 && Runs(s0, run, After(cap, lim, D2, Some(P.Top), 1, ROWS))
    ensures Runs(s0, more, After(cap, lim, D5, Some(P.Top), 1, ROWS))
  {
    Drops(cap, lim);
    Restarts(cap, lim);
    Clears(cap, lim);
    Frees(cap, lim);
    WakesAgain(cap, lim);
    GetsSlot(cap, lim);
    OneMore(s0, run, After(cap, lim, D2, Some(P.Top), 1, ROWS), Sys(P.DropForOutage(1)), After(cap, lim, D3, Some(P.DroppedForOutage), 1, ROWS));
    more := run + [Sys(P.DropForOutage(1))];
    OneMore(s0, more, After(cap, lim, D3, Some(P.DroppedForOutage), 1, ROWS), Sys(P.RestartForOutage(1)), After(cap, lim, D3, Some(P.Exiting(P.Outage)), 1, ROWS));
    more := more + [Sys(P.RestartForOutage(1))];
    OneMore(s0, more, After(cap, lim, D3, Some(P.Exiting(P.Outage)), 1, ROWS), Sys(P.ClearRunning(1)), After(cap, lim, D4, Some(P.SlotOnly), 1, ROWS));
    more := more + [Sys(P.ClearRunning(1))];
    OneMore(s0, more, After(cap, lim, D4, Some(P.SlotOnly), 1, ROWS), Sys(P.FreeSlot(1)), After(cap, lim, D4, None, 0, ROWS));
    more := more + [Sys(P.FreeSlot(1))];
    OneMore(s0, more, After(cap, lim, D4, None, 0, ROWS), Sys(P.Action.Wake(7, 1)), After(cap, lim, D5, Some(P.WantSlot), 0, ROWS));
    more := more + [Sys(P.Action.Wake(7, 1))];
    OneMore(s0, more, After(cap, lim, D5, Some(P.WantSlot), 0, ROWS), Sys(P.GetSlot(1)), After(cap, lim, D5, Some(P.Top), 1, ROWS));
    more := more + [Sys(P.GetSlot(1))];
  }

  lemma DeliveryHappens(cap: nat, lim: Limits, s0: State, run: seq<Action>) returns (more: seq<Action>)
    requires Runs(s0, run, After(cap, lim, D5, Some(P.Top), 1, ROWS))
    ensures Runs(s0, more, After(cap, lim, D9, Some(P.Advancing(BATCH)), 1, []))
  {
    Looks(cap, lim);
    Sends(cap, lim);
    Dequeues(cap, lim);
    Reports(cap, lim);
    Deletes(cap, lim);
    OneMore(s0, run, After(cap, lim, D5, Some(P.Top), 1, ROWS), Sys(P.TakeBatch(1)), After(cap, lim, D6, Some(P.Sending(BATCH)), 1, ROWS));
    more := run + [Sys(P.TakeBatch(1))];
    OneMore(s0, more, After(cap, lim, D6, Some(P.Sending(BATCH)), 1, ROWS), Sys(P.SendSucceeds(1)), After(cap, lim, D7, Some(P.Delivered(BATCH)), 1, ROWS));
    more := more + [Sys(P.SendSucceeds(1))];
    OneMore(s0, more, After(cap, lim, D7, Some(P.Delivered(BATCH)), 1, ROWS), Sys(P.DequeueBatch(1)), After(cap, lim, D8, Some(P.Dequeued(BATCH)), 1, ROWS));
    more := more + [Sys(P.DequeueBatch(1))];
    OneMore(s0, more, After(cap, lim, D8, Some(P.Dequeued(BATCH)), 1, ROWS), Sys(P.ReportMarks(1)), After(cap, lim, D9, Some(P.Advancing(BATCH)), 1, ROWS));
    more := more + [Sys(P.ReportMarks(1))];
    OneMore(s0, more, After(cap, lim, D9, Some(P.Advancing(BATCH)), 1, ROWS), Delete(2), After(cap, lim, D9, Some(P.Advancing(BATCH)), 1, []));
    more := more + [Delete(2)];
  }

  /** The first message is gone from the table; no transaction ever carried it, and it
      does not wait. */
  lemma AnUndeliveredMessageIsDeleted(cap: nat, lim: Limits) returns (s0: State, run: seq<Action>, s: State)
    requires cap > 0
    ensures Startup(cap, lim, s0) && Runs(s0, run, s) && s.server in s.sys.dests
    ensures R1 in s.appended && s0.start < R1.id && R1 !in s.outbox
    ensures !RowDelivered(s, R1) && !RowWaits(s, R1) && TouchedByDrop(s, R1)
    ensures DurableSent(D(s).sent) == [Unit(DirectToDevice, Raw(R2.msg))]
  {
    s0 := Scene(cap, lim, D0, Some(P.Top), 1, ROWS, ROWS, map[], []);
    StartsUp(cap, lim);
    run := ReadHappens(cap, lim);
    run := DropHappens(cap, lim, s0, run);
    run := DeliveryHappens(cap, lim, s0, run);
    s := After(cap, lim, D9, Some(P.Advancing(BATCH)), 1, []);
    assert D(s) == D9 && s.tags == [{R1}, {R2}];
    assert Stands(s, R1, 0) && ProtocolSafety.WasDropped(D(s), 0);
    assert DurableSent([U2.unit]) == [U2.unit] + DurableSent([U2.unit][1..]);
    forall i: nat | Stands(s, R1, i) ensures !ProtocolSafety.WasDelivered(D(s), i) && !ProtocolSafety.Waits(D(s), i) {
      assert i == 0;
    }
  }
}
