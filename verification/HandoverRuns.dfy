/** Runs that show where the handover does lose an event: the window between the two
    lock sections of the finish, and a cursor not yet read at process start. */
module HandoverRuns {
  import opened Units
  import opened QueueSpec
  import opened Handover

  ghost predicate Trace(states: seq<State>, run: seq<Action>) {
    |states| == |run| + 1 && forall i :: 0 <= i < |run| ==> Steps(states[i], run[i], states[i + 1])
  }

  lemma {:induction false} TraceRuns(states: seq<State>, run: seq<Action>)
    requires Trace(states, run)
    ensures Runs(states[0], run, states[|run|])
  {
    if run != [] {
      var n := |run| - 1;
      var front, before := states[..n + 1], run[..n];
      forall i | 0 <= i < n ensures Steps(front[i], before[i], front[i + 1]) {
        assert Steps(states[i], run[i], states[i + 1]);
      }
      TraceRuns(front, before);
      assert Steps(states[n], run[n], states[n + 1]);
    }
  }

  function Begin(recorded: seq<Event>, marks: map<string, int>, db: int, known: bool): State {
    State(FRESH.(known := known), LiveOff, Away, db, recorded, marks,
          {}, {}, {}, {}, [], db, true, 0, 0, {}, {})
  }

  lemma {:induction false} NothingOwed(recorded: seq<Event>, marks: map<string, int>, ls: int)
    requires forall e :: e in recorded ==> e.pdu.ordering <= ls
    ensures Owed(recorded, marks, ls) == []
  {
    if recorded != [] { NothingOwed(recorded[1..], marks, ls); }
  }

  lemma EmptyPageTrace() returns (states: seq<State>, run: seq<Action>)
    ensures Trace(states, run) && |run| == 3
    ensures states[0] == Begin([], map[], 5, true)
    ensures states[3] == states[0].(q := states[0].q.(lastSuccessful := 5), pass := Finishing(5))
  {
    var s0 := Begin([], map[], 5, true);
    var s1 := s0.(q := s0.q.(lastSuccessful := 5), pass := Paging(5));
    assert Steps(s0, StartPass, s1);
    var s2 := s1.(pass := EmptyPage(5));
    assert Steps(s1, ReadPage, s2) by { NothingOwed([], map[], 5); }
    var s3 := s2.(pass := Finishing(5));
    assert Steps(s2, TakeSkipped, s3);
    states := [s0, s1, s2, s3];
    run := [StartPass, ReadPage, TakeSkipped];
  }

  lemma WindowTrace(s3: State, e: Event) returns (states: seq<State>, run: seq<Action>)
    requires s3 == Begin([], map[], 5, true).(q := FRESH.(known := true, lastSuccessful := 5), pass := Finishing(5))
    requires e.sendable && e.pdu.ordering == 7
    ensures Trace(states, run) && |run| == 3
    ensures states[0] == s3
    ensures states[3] == State(FRESH.(known := true, lastSuccessful := 5, skipped := 7, catchingUp := false),
                               LiveOff, Away, 5, [e], map[e.pdu.room := 7],
                               {7}, {7}, {7}, {}, [], 5, true, 5, 5, {7}, {})
  {
    var s4 := s3.(recorded := [e], marks := map[e.pdu.room := 7]);
    assert Steps(s3, Record(e), s4);
    var s5 := s4.(q := s4.q.(skipped := 7), enqueued := {7}, skippedAll := {7}, windowed := {7});
    assert Steps(s4, Enqueue(0), s5);
    var s6 := s5.(q := s5.q.(catchingUp := false), pass := Away, from := 5, upTo := 5, lost := {7});
    assert Steps(s5, Finish, s6);
    states := [s3, s4, s5, s6];
    run := [Record(e), Enqueue(0), Finish];
  }

  /** With the finish in two lock sections, as it is: an event recorded and queued
      between them is dropped by the queue and never sent by anyone. */
  lemma TwoSectionsLoseAnEvent() returns (s0: State, run: seq<Action>, s: State, e: Event)
    ensures Startup(s0) && s0.q.known && Runs(s0, run, s) && !s.q.catchingUp
    ensures e in s.recorded && s0.db < e.pdu.ordering && e.sendable && !Superseded(s, e)
    ensures e.pdu.ordering in s.enqueued && !Handed(s, e)
  {
    e := Event(PDU("$e", 7, "!r", "{}"), true);
    var a, r := EmptyPageTrace();
    var b, t := WindowTrace(a[3], e);
    TraceJoins(a, r, b, t);
    run := r + t;
    TraceRuns(a + b[1..], run);
    s0, s := a[0], b[3];
  }

  lemma QueuedTrace(e: Event, f: Event) returns (states: seq<State>, run: seq<Action>)
    requires e.pdu.ordering == 50 && f.sendable && f.pdu.ordering == 100 && e.pdu.room != f.pdu.room
    ensures Trace(states, run) && |run| == 2
    ensures states[0] == Begin([e], map[e.pdu.room := 50], 10, false)
    ensures states[2] == State(FRESH.(pdus := [f.pdu], newData := true), LiveOff, Away, 10, [e, f],
                               map[e.pdu.room := 50, f.pdu.room := 100], {100}, {}, {}, {}, [], 10, true, 0, 0, {}, {})
  {
    var s0 := Begin([e], map[e.pdu.room := 50], 10, false);
    var s1 := s0.(recorded := [e, f], marks := map[e.pdu.room := 50, f.pdu.room := 100]);
    assert Steps(s0, Record(f), s1);
    var s2 := s1.(q := s1.q.(pdus := [f.pdu], newData := true), enqueued := {100});
    assert Steps(s1, Enqueue(1), s2);
    states := [s0, s1, s2];
    run := [Record(f), Enqueue(1)];
  }

  lemma TakenTrace(s2: State, p: PDU) returns (states: seq<State>, run: seq<Action>)
    requires s2.live.LiveOff? && !s2.q.running && s2.q.pdus == [p]
    ensures Trace(states, run) && |run| == 2
    ensures states[0] == s2
    ensures states[2] == s2.(q := s2.q.(running := true), live := LiveSending([p]))
  {
    var s3 := s2.(q := s2.q.(running := true), live := LiveTop);
    assert Steps(s2, LiveStarts, s3);
    var s4 := s3.(live := LiveSending([p]));
    assert s3.q.pdus[..1] == [p];
    assert Steps(s3, LiveTakes(1), s4);
    states := [s2, s3, s4];
    run := [LiveStarts, LiveTakes(1)];
  }

  lemma DeliveredTrace(s4: State, p: PDU) returns (states: seq<State>, run: seq<Action>)
    requires s4.live == LiveSending([p]) && s4.q.pdus == [p] && s4.delivered == [] && s4.db < p.ordering
    ensures Trace(states, run) && |run| == 2
    ensures states[0] == s4
    ensures states[2] == s4.(q := s4.q.(pdus := []), live := LiveTop, delivered := [p], db := p.ordering, clean := false)
  {
    var s5 := s4.(live := LiveSent([p]), delivered := [p], db := p.ordering, clean := false);
    assert Steps(s4, LiveDelivers(true), s5);
    var s6 := s5.(live := LiveTop, q := s5.q.(pdus := []));
    assert Steps(s5, LiveDequeues, s6);
    states := [s4, s5, s6];
    run := [LiveDelivers(true), LiveDequeues];
  }

  lemma FinishTrace(s6: State) returns (states: seq<State>, run: seq<Action>)
    requires s6.pass.Away? && !s6.clean && s6.q.catchingUp && s6.q.skipped <= s6.db && s6.q.lastSuccessful <= s6.db
    requires forall x :: x in s6.recorded ==> x.pdu.ordering <= s6.db
    ensures Trace(states, run) && |run| == 4
    ensures states[0] == s6
    ensures states[4] == s6.(q := s6.q.(lastSuccessful := s6.db, known := true, skipped := 0, catchingUp := false),
                             base := s6.db, clean := true, windowed := {}, from := s6.db, upTo := s6.db, lost := {},
                             passedOver := s6.passedOver + Between(s6))
  {
    var c := s6.db;
    var s7 := s6.(q := s6.q.(lastSuccessful := c, known := true), pass := Paging(c), base := c, clean := true,
                 passedOver := s6.passedOver + Between(s6));
    assert Steps(s6, StartPass, s7);
    var s8 := s7.(pass := EmptyPage(c));
    assert Steps(s7, ReadPage, s8) by { NothingOwed(s7.recorded, s7.marks, c); }
    var s9 := s8.(pass := Finishing(c), q := s8.q.(skipped := 0), windowed := {});
    assert Steps(s8, TakeSkipped, s9);
    var s10 := s9.(q := s9.q.(catchingUp := false), pass := Away, from := c, upTo := c, lost := {});
    assert Steps(s9, Finish, s10);
    states := [s6, s7, s8, s9, s10];
    run := [StartPass, ReadPage, TakeSkipped, Finish];
  }

  lemma TraceJoins(a: seq<State>, r: seq<Action>, b: seq<State>, t: seq<Action>)
    requires Trace(a, r) && Trace(b, t) && a[|r|] == b[0]
    ensures Trace(a + b[1..], r + t)
    ensures (a + b[1..])[0] == a[0] && (a + b[1..])[|r + t|] == b[|t|]
  {
    var states, run := a + b[1..], r + t;
    forall i | 0 <= i < |run| ensures Steps(states[i], run[i], states[i + 1]) {
      if i < |r| {
        assert Steps(a[i], r[i], a[i + 1]);
      } else {
        assert Steps(b[i - |r|], t[i - |r|], b[i - |r| + 1]);
      }
    }
  }

  /** With the cursor not yet read, as at process start: an event queued live and
      delivered before the first pass moves the persisted cursor past a row that is
      owed, and catch-up then starts above it. */
  lemma LiveSendSkipsAnOwedRow() returns (s0: State, run: seq<Action>, s: State, e: Event)
    ensures Startup(s0) && !s0.q.known && Runs(s0, run, s) && !s.q.catchingUp
    ensures e in s0.recorded && s0.db < e.pdu.ordering && e.sendable && Current(s.marks, e)
    ensures !Handed(s, e) && e.pdu.ordering in s.passedOver && e.pdu.ordering <= s.upTo
  {
    e := Event(PDU("$old", 50, "!a", "{}"), true);
    var f := Event(PDU("$new", 100, "!b", "{}"), true);
    var a, r := QueuedTrace(e, f);
    var b, t := TakenTrace(a[2], f.pdu);
    TraceJoins(a, r, b, t);
    a, r := a + b[1..], r + t;
    b, t := DeliveredTrace(a[4], f.pdu);
    TraceJoins(a, r, b, t);
    a, r := a + b[1..], r + t;
    b, t := FinishTrace(a[6]);
    TraceJoins(a, r, b, t);
    run := r + t;
    TraceRuns(a + b[1..], run);
    s0, s := a[0], b[4];
    assert Startup(s0) by {
      assert e in s0.recorded;
      assert Backed(s0.recorded, "!a", 50);
    }
  }
}
