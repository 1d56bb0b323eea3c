/** What becomes of a call of Wake. Deciding to stop and giving up the claim are two
    critical sections, so one can fall between them; this says exactly when. */
module Wakeups {
  import opened Units
  import opened QueueSpec
  import opened Protocol
  import ProtocolSafety

  /** A step in which a loop looks at a queue: what is queued from then on is new. */
  predicate Looks(s: State, a: Action, r: nat)
    requires Enabled(s, a)
  {
    (a.TakeBatch? || a.HoldPresence?) && s.procs[a.pid].dest == r
  }

  /** A run, from any state, in which no loop looks at r. */
  ghost predicate Unlooked(s: State, run: seq<Action>, u: State, r: nat) {
    if run == [] then u == s
    else
      var n := |run| - 1;
      exists before :: Unlooked(s, run[..n], before, r) && Enabled(before, run[n]) &&
                       !Looks(before, run[n], r) && u == Apply(before, run[n])
  }

  ghost predicate Stopping(s: State, i: nat, r: nat) {
    i in s.procs && s.procs[i] == Loop(r, Exiting(Drained))
  }

  // ---------- the decision ----------

  /** A loop's last look decides: with newData set it goes round again; without, the queue
      is empty, so whatever waits when the claim is given up came later. */
  lemma LoopStopsEmpty(cap: nat, lim: Limits, run: seq<Action>, s: State, pid: nat)
    requires Reaches(cap, lim, run, s) && Enabled(s, Recheck(pid))
    ensures var q := s.dests[s.procs[pid].dest].q;
            (Stopping(Apply(s, Recheck(pid)), pid, s.procs[pid].dest) <==> !q.newData) &&
            (!q.newData ==> q.pdus == [] && q.edus == [] && !s.dests[s.procs[pid].dest].told)
  {
    ProtocolSafety.ReachableIsInv(cap, lim, run, s);
    LastLook(s, pid);
  }

  lemma LastLook(s: State, pid: nat)
    requires ProtocolSafety.DataOK(s) && Enabled(s, Recheck(pid))
    ensures ProtocolSafety.NothingUnsaid(s.dests[s.procs[pid].dest])
  {
    assert ProtocolSafety.ProcOK(s, s.procs[pid]);
  }

  lemma StepUnlooked(s: State, a: Action, r: nat, i: nat)
    requires Enabled(s, a) && !Looks(s, a, r) && r in s.dests && s.dests[r].q.newData
    ensures r in Apply(s, a).dests && Apply(s, a).dests[r].q.newData
    ensures Stopping(Apply(s, a), i, r) ==> Stopping(s, i, r)
  {
    if Target(s, a) == Some(r) { TargetUnlooked(s, a, r); }
    if Stopping(Apply(s, a), i, r) { StopsByRecheck(s, a, r, i); }
  }

  lemma TargetUnlooked(s: State, a: Action, r: nat)
    requires Enabled(s, a) && !Looks(s, a, r) && Target(s, a) == Some(r) && s.dests[r].q.newData
    ensures DestAfter(s, a).q.newData
  {
    if ProtocolSafety.OnlyFlags(a) { FlagsUnlooked(s, a); } else { DataUnlooked(s, a); }
  }

  lemma FlagsUnlooked(s: State, a: Action)
    requires Enabled(s, a) && ProtocolSafety.OnlyFlags(a) && !a.TakeBatch? && !a.HoldPresence? && Target(s, a).Some?
    ensures s.dests[Target(s, a).value].q.newData ==> DestAfter(s, a).q.newData
  {
  }

  lemma DataUnlooked(s: State, a: Action)
    requires Enabled(s, a) && !ProtocolSafety.OnlyFlags(a) && Target(s, a).Some?
    ensures s.dests[Target(s, a).value].q.newData ==> DestAfter(s, a).q.newData
  {
  }

  lemma StopsByRecheck(s: State, a: Action, r: nat, i: nat)
    requires Enabled(s, a) && r in s.dests && s.dests[r].q.newData
    requires i in ProcsAfter(s, a) && ProcsAfter(s, a)[i] == Loop(r, Exiting(Drained))
    ensures Stopping(s, i, r)
  {
    if i == Pid(a) { ActorStops(s, a, r); } else { ProtocolSafety.OnlyActorMoves(s, a, i); }
  }

  lemma ActorStops(s: State, a: Action, r: nat)
    requires Enabled(s, a) && r in s.dests && s.dests[r].q.newData
    requires Pid(a) in ProcsAfter(s, a) && ProcsAfter(s, a)[Pid(a)] == Loop(r, Exiting(Drained))
    ensures Stopping(s, Pid(a), r)
  {
  }

  lemma {:induction false} NewsStays(s: State, run: seq<Action>, u: State, r: nat, i: nat)
    requires Unlooked(s, run, u, r) && r in s.dests && s.dests[r].q.newData
    ensures r in u.dests && u.dests[r].q.newData
    ensures Stopping(u, i, r) ==> Stopping(s, i, r)
  {
    if run != [] {
      var n := |run| - 1;
      var before :| Unlooked(s, run[..n], before, r) && Enabled(before, run[n]) &&
                    !Looks(before, run[n], r) && u == Apply(before, run[n]);
      NewsStays(s, run[..n], before, r, i);
      StepUnlooked(before, run[n], r, i);
    }
  }

  /** Main: a call of Wake that finds the claim taken. However the run goes on, the holder
      can come to stop for want of work without another look if and only if it had already
      decided to when the call came. */
  lemma LostWakeIff(s: State, r: nat, pid: nat, i: nat)
    requires Enabled(s, Action.Wake(r, pid)) && s.dests[r].q.running
    ensures (exists run, u :: Unlooked(Apply(s, Action.Wake(r, pid)), run, u, r) && Stopping(u, i, r))
            <==> Stopping(s, i, r)
  {
    var t := Apply(s, Action.Wake(r, pid));
    assert t.procs == s.procs;
    if Stopping(s, i, r) {
      assert Unlooked(t, [], t, r) && Stopping(t, i, r);
    }
    forall run, u | Unlooked(t, run, u, r) && Stopping(u, i, r) ensures Stopping(s, i, r) {
      NewsStays(t, run, u, r, i);
    }
  }

  // ---------- giving up the claim ----------

  /** Somebody has called Wake since the last look; nobody sends, or is about to wake. */
  ghost predicate Stranded(s: State, r: nat) {
    r in s.dests && s.dests[r].told && !s.dests[r].q.running &&
    forall i :: i in s.procs ==> s.procs[i] != Rewaking(r)
  }

  /** Main: when a loop that has looked gives up its claim, a call of Wake is left
      unanswered if and only if one has come since the look, and then newData is set. If
      whatever was queued has been followed by its own call, newData alone decides: it is
      the guard that a catch-up release checks and a loop's does not. What waits then came
      after the loop had stopped, if it stopped for want of work. */
  lemma ClearingStrandsIff(cap: nat, lim: Limits, run: seq<Action>, s: State, pid: nat)
    requires Reaches(cap, lim, run, s) && Enabled(s, ClearRunning(pid))
    requires !s.procs[pid].phase.why.Abandoned? && !s.procs[pid].phase.why.Outage?
    ensures var r, d := s.procs[pid].dest, s.dests[s.procs[pid].dest];
            var rewaking := exists i :: i in s.procs && s.procs[i] == Rewaking(r);
            (Stranded(Apply(s, ClearRunning(pid)), r) <==> d.told && !rewaking) &&
            (d.told ==> d.q.newData) &&
            (!d.unsaid ==> (Stranded(Apply(s, ClearRunning(pid)), r) <==> d.q.newData && !rewaking)) &&
            (s.procs[pid].phase.why.Drained? && (d.q.pdus != [] || d.q.edus != []) ==> d.q.newData)
  {
    var r := s.procs[pid].dest;
    ProtocolSafety.ReachableIsInv(cap, lim, run, s);
    StopsHaving(s, pid);
    ClearedProcs(s, pid);
    if s.dests[r].told && forall i :: i in s.procs ==> s.procs[i] != Rewaking(r) {
      assert Stranded(Apply(s, ClearRunning(pid)), r);
    }
  }

  lemma StopsHaving(s: State, pid: nat)
    requires ProtocolSafety.DataOK(s) && Enabled(s, ClearRunning(pid))
    ensures ProtocolSafety.WordOK(s.dests[s.procs[pid].dest])
    ensures ProtocolSafety.StopOK(s.dests[s.procs[pid].dest], s.procs[pid].phase.why)
  {
    assert ProtocolSafety.DestOK(s.dests[s.procs[pid].dest]);
    assert ProtocolSafety.ProcOK(s, s.procs[pid]);
  }

  lemma ClearedProcs(s: State, pid: nat)
    requires Enabled(s, ClearRunning(pid))
    ensures var r, t := s.procs[pid].dest, Apply(s, ClearRunning(pid));
            t.dests == s.dests[r := s.dests[r].(q := Release(s.dests[r].q))] &&
            forall i :: i in t.procs && t.procs[i] == Rewaking(r) <==> i in s.procs && s.procs[i] == Rewaking(r)
  {
  }

  /** Catch-up's release does check: it strands nothing, and wakes exactly when told to. */
  lemma CatchUpHandsOn(s: State, pid: nat)
    requires Enabled(s, CatchUpRelease(pid))
    ensures var r, t := s.procs[pid].dest, Apply(s, CatchUpRelease(pid));
            ((pid in t.procs && t.procs[pid] == Rewaking(r)) <==> s.dests[r].q.newData) &&
            (s.dests[r].q.newData ==> !Stranded(t, r))
  {
  }

  // ---------- a run that loses one ----------

  lemma OneMore(cap: nat, lim: Limits, run: seq<Action>, s: State, a: Action, t: State)
    requires Reaches(cap, lim, run, s) && Enabled(s, a) && t == Apply(s, a)
    ensures Reaches(cap, lim, run + [a], t)
  {
    assert (run + [a])[..|run|] == run;
  }

  /** One server's queue, and at most one goroutine about it. */
  function With(cap: nat, lim: Limits, q: Queue, accepted: seq<PDU>, phase: Option<Phase>,
                slots: int, told: bool, unsaid: bool): State {
    State(map["hs" := 7], map[7 := NewDest("hs").(q := q, accepted := accepted, told := told, unsaid := unsaid)],
          if phase.Some? then map[1 := Loop(7, phase.value)] else map[], slots, cap, lim)
  }

  const RUNNING := FRESH.(running := true)

  lemma Created(cap: nat, lim: Limits)
    ensures Reaches(cap, lim, [Miss("hs", 0), Create(0, 7)], With(cap, lim, FRESH, [], None, 0, false, false))
  {
    var s0 := Init(cap, lim);
    var s1 := s0.(procs := map[0 := Creating("hs")]);
    OneMore(cap, lim, [], s0, Miss("hs", 0), s1);
    assert [] + [Miss("hs", 0)] == [Miss("hs", 0)];
    assert s1.procs - {0} == map[];
    OneMore(cap, lim, [Miss("hs", 0)], s1, Create(0, 7), With(cap, lim, FRESH, [], None, 0, false, false));
    assert [Miss("hs", 0)] + [Create(0, 7)] == [Miss("hs", 0), Create(0, 7)];
  }

  lemma Claimed(cap: nat, lim: Limits, run: seq<Action>)
    requires Reaches(cap, lim, run, With(cap, lim, FRESH, [], None, 0, false, false))
    ensures Reaches(cap, lim, run + [Action.Wake(7, 1)], With(cap, lim, RUNNING, [], Some(WantSlot), 0, true, false))
  {
    OneMore(cap, lim, run, With(cap, lim, FRESH, [], None, 0, false, false), Action.Wake(7, 1), With(cap, lim, RUNNING, [], Some(WantSlot), 0, true, false));
  }

  lemma Started(cap: nat, lim: Limits, run: seq<Action>)
    requires cap > 0 && Reaches(cap, lim, run, With(cap, lim, RUNNING, [], Some(WantSlot), 0, true, false))
    ensures Reaches(cap, lim, run + [GetSlot(1)], With(cap, lim, RUNNING, [], Some(Top), 1, true, false))
  {
    OneMore(cap, lim, run, With(cap, lim, RUNNING, [], Some(WantSlot), 0, true, false), GetSlot(1), With(cap, lim, RUNNING, [], Some(Top), 1, true, false));
  }

  /** A look at an empty queue: the loop finds nothing... */
  lemma FindsNothing(cap: nat, lim: Limits, run: seq<Action>)
    requires Reaches(cap, lim, run, With(cap, lim, RUNNING, [], Some(Top), 1, true, false))
    ensures Reaches(cap, lim, run + [TakeBatch(1)], With(cap, lim, RUNNING, [], Some(TookNothing), 1, false, false))
  {
    assert Take(RUNNING, lim) == Some(Taken([], [], 0, 0));
    OneMore(cap, lim, run, With(cap, lim, RUNNING, [], Some(Top), 1, true, false), TakeBatch(1),
            With(cap, lim, RUNNING, [], Some(TookNothing), 1, false, false));
  }

  /** ...and decides to stop. */
  lemma DecidesToStop(cap: nat, lim: Limits, run: seq<Action>)
    requires Reaches(cap, lim, run, With(cap, lim, RUNNING, [], Some(TookNothing), 1, false, false))
    ensures Reaches(cap, lim, run + [Recheck(1)], With(cap, lim, RUNNING, [], Some(Exiting(Drained)), 1, false, false))
  {
    OneMore(cap, lim, run, With(cap, lim, RUNNING, [], Some(TookNothing), 1, false, false), Recheck(1),
            With(cap, lim, RUNNING, [], Some(Exiting(Drained)), 1, false, false));
  }

  lemma Queued(cap: nat, lim: Limits, run: seq<Action>, p: PDU)
    requires Reaches(cap, lim, run, With(cap, lim, RUNNING, [], Some(Exiting(Drained)), 1, false, false))
    ensures Reaches(cap, lim, run + [AddPDU(7, p)],
                    With(cap, lim, RUNNING.(pdus := [p], newData := true), [p], Some(Exiting(Drained)), 1, false, true))
  {
    var s6 := With(cap, lim, RUNNING, [], Some(Exiting(Drained)), 1, false, false);
    var d := NewDest("hs").(q := RUNNING);
    assert [] + [p] == [p];
    assert AfterAddPDU(d, p) == d.(q := RUNNING.(pdus := [p], newData := true), accepted := [p], unsaid := true);
    OneMore(cap, lim, run, s6, AddPDU(7, p),
            With(cap, lim, RUNNING.(pdus := [p], newData := true), [p], Some(Exiting(Drained)), 1, false, true));
  }

  /** The wakeup finds the queue still claimed. */
  lemma WokenTooLate(cap: nat, lim: Limits, run: seq<Action>, p: PDU)
    requires Reaches(cap, lim, run, With(cap, lim, RUNNING.(pdus := [p], newData := true), [p], Some(Exiting(Drained)), 1, false, true))
    ensures Reaches(cap, lim, run + [Action.Wake(7, 2)],
                    With(cap, lim, RUNNING.(pdus := [p], newData := true), [p], Some(Exiting(Drained)), 1, true, false))
  {
    var s7 := With(cap, lim, RUNNING.(pdus := [p], newData := true), [p], Some(Exiting(Drained)), 1, false, true);
    assert TryStart(s7.dests[7].q) == s7.dests[7].q;
    OneMore(cap, lim, run, s7, Action.Wake(7, 2),
            With(cap, lim, RUNNING.(pdus := [p], newData := true), [p], Some(Exiting(Drained)), 1, true, false));
  }

  lemma Stopped(cap: nat, lim: Limits, run: seq<Action>, p: PDU)
    requires Reaches(cap, lim, run, With(cap, lim, RUNNING.(pdus := [p], newData := true), [p], Some(Exiting(Drained)), 1, true, false))
    ensures Reaches(cap, lim, run + [ClearRunning(1)],
                    With(cap, lim, FRESH.(pdus := [p], newData := true), [p], Some(SlotOnly), 1, true, false))
  {
    var s7 := With(cap, lim, RUNNING.(pdus := [p], newData := true), [p], Some(Exiting(Drained)), 1, true, false);
    assert Release(s7.dests[7].q) == FRESH.(pdus := [p], newData := true);
    OneMore(cap, lim, run, s7, ClearRunning(1),
            With(cap, lim, FRESH.(pdus := [p], newData := true), [p], Some(SlotOnly), 1, true, false));
  }

  lemma Gone(cap: nat, lim: Limits, run: seq<Action>, p: PDU)
    requires Reaches(cap, lim, run, With(cap, lim, FRESH.(pdus := [p], newData := true), [p], Some(SlotOnly), 1, true, false))
    ensures Reaches(cap, lim, run + [FreeSlot(1)], With(cap, lim, FRESH.(pdus := [p], newData := true), [p], None, 0, true, false))
  {
    var s8 := With(cap, lim, FRESH.(pdus := [p], newData := true), [p], Some(SlotOnly), 1, true, false);
    assert s8.procs - {1} == map[];
    OneMore(cap, lim, run, s8, FreeSlot(1), With(cap, lim, FRESH.(pdus := [p], newData := true), [p], None, 0, true, false));
  }

  /** A reachable state in which an event waits, its wakeup has been given, and nobody
      runs or is about to: it waits for the next thing to be queued for that server. */
  lemma AWakeupCanBeLost(cap: nat, lim: Limits, p: PDU) returns (run: seq<Action>, s: State)
    requires cap > 0
    ensures Reaches(cap, lim, run, s) && s.procs == map[] && 7 in s.dests && Stranded(s, 7)
    ensures s.dests[7].q.pdus == [p] && s.dests[7].q.newData && !s.dests[7].q.running
  {
    run := [Miss("hs", 0), Create(0, 7)];
    Created(cap, lim);
    Claimed(cap, lim, run);
    run := run + [Action.Wake(7, 1)];
    Started(cap, lim, run);
    run := run + [GetSlot(1)];
    FindsNothing(cap, lim, run);
    run := run + [TakeBatch(1)];
    DecidesToStop(cap, lim, run);
    run := run + [Recheck(1)];
    Queued(cap, lim, run, p);
    run := run + [AddPDU(7, p)];
    WokenTooLate(cap, lim, run, p);
    run := run + [Action.Wake(7, 2)];
    Stopped(cap, lim, run, p);
    run := run + [ClearRunning(1)];
    Gone(cap, lim, run, p);
    run := run + [FreeSlot(1)];
    s := With(cap, lim, FRESH.(pdus := [p], newData := true), [p], None, 0, true, false);
  }
}
