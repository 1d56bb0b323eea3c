/** The pickup loop against everything that moves under it: events persisted and purged
    between its reads, pokes arriving in two halves, failures anywhere, restarts. */
module PickupRuns {
  import opened Units
  import opened Pickup

  datatype Phase =
    | Off
    | Idle
    | Reading                                            // about to read the saved cursor
    | FirstSaving(from: int)                             // no cursor: about to save the tip
    | Starting(from: int)                                // about to read the newest poke
    | Querying(from: int, upto: int)
    | EmptySaving(next: int, upto: int)
    | Loading(rows: seq<int>, next: int, upto: int)
    | Handling(todo: seq<int>, next: int, upto: int)
    | Saving(next: int, upto: int)
    | Recording(next: int, upto: int)

  datatype State = State(
    table: seq<int>,
    issued: int,                // no event to come orders at or below this
    lastPoked: int,
    wake: bool,
    midNotify: nat,             // notifiers between their two halves
    cursor: Option<int>,
    position: Option<int>,      // the position last recorded for the writer
    phase: Phase,
    clean: bool,                // the last pass ended well
    // history
    start: Option<int>,         // the first cursor there was
    handled: multiset<int>,
    failed: bool)               // some pass failed, or was killed

  datatype Action =
    | Persist(e: int)
    | Purge(i: nat)
    | Burn(upto: int)           // orderings given out and never used
    | Poke(max: int)
    | Signal
    | Seed
    | Begin
    | ReadCursor
    | SaveTip
    | ReadUpto
    | Query(limit: nat)
    | SaveEmpty
    | LoadRows
    | HandleOne(i: nat)
    | HandledAll
    | Save
    | RecordPosition
    | Fail                      // whatever the pass is at, it returns an error
    | Kill

  predicate InPass(p: Phase) {
    !p.Off? && !p.Idle?
  }

  predicate Enabled(s: State, a: Action) {
    match a
    case Persist(e) => e > s.issued
    case Purge(i) => i < |s.table|
    case Burn(upto) => upto > s.issued
    case Poke(max) => max <= s.issued
    case Signal => s.midNotify > 0
    case Seed => s.phase.Off?
    case Begin => s.phase.Idle? && s.wake
    case ReadCursor => s.phase.Reading?
    case SaveTip => s.phase.FirstSaving?
    case ReadUpto => s.phase.Starting?
    case Query(limit) => s.phase.Querying? && limit > 0
    case SaveEmpty => s.phase.EmptySaving?
    case LoadRows => s.phase.Loading?
    case HandleOne(i) => s.phase.Handling? && i < |s.phase.todo|
    case HandledAll => s.phase.Handling? && s.phase.todo == []
    case Save => s.phase.Saving?
    case RecordPosition => s.phase.Recording?
    case Fail => InPass(s.phase)
    case Kill => true
  }

  function WithCursor(s: State, pos: int): Option<int> {
    Some(if s.cursor.Some? then Max(s.cursor.value, pos) else pos)
  }

  /** After a batch: another while the window is not used up. */
  function BatchEnds(s: State, next: int, upto: int): State {
    if next < upto then s.(phase := Reading) else s.(phase := Idle, clean := true)
  }

  function Newest(table: seq<int>): int {
    if table == [] then 0 else table[|table| - 1]
  }

  /** The rows of a page that are still there when they are loaded. */
  function StillThere(rows: seq<int>, table: seq<int>): seq<int> {
    Held(rows, set e | e in rows && e !in table)
  }

  function Apply(s: State, a: Action): State
    requires Enabled(s, a)
  {
    match a
    case Persist(e) => s.(table := s.table + [e], issued := e)
    case Purge(i) => s.(table := s.table[..i] + s.table[i + 1..])
    case Burn(upto) => s.(issued := upto)
    case Poke(max) => s.(lastPoked := Max(s.lastPoked, max), midNotify := s.midNotify + 1)
    case Signal => s.(wake := true, midNotify := s.midNotify - 1)
    case Seed => s.(lastPoked := Max(s.lastPoked, Newest(s.table)), wake := true, phase := Idle)
    case Begin => s.(wake := false, phase := Reading)
    case ReadCursor =>
      s.(phase := if s.cursor.Some? then Starting(s.cursor.value) else FirstSaving(s.lastPoked))
    case SaveTip =>
      s.(cursor := WithCursor(s, s.phase.from),
         start := if s.start.Some? then s.start else Some(s.phase.from),
         phase := Starting(s.phase.from))
    case ReadUpto =>
      if s.phase.from >= s.lastPoked then s.(phase := Idle, clean := true)
      else s.(phase := Querying(s.phase.from, s.lastPoked))
    case Query(limit) =>
      var rows := Page(s.table, s.phase.from, s.phase.upto, limit);
      var next := Next(rows, s.phase.upto, limit);
      s.(phase := if rows == [] then EmptySaving(next, s.phase.upto) else Loading(rows, next, s.phase.upto))
    case SaveEmpty => BatchEnds(s.(cursor := WithCursor(s, s.phase.next)), s.phase.next, s.phase.upto)
    case LoadRows =>
      s.(phase := Handling(StillThere(s.phase.rows, s.table), s.phase.next, s.phase.upto))
    case HandleOne(i) =>
      s.(handled := s.handled + multiset{s.phase.todo[i]},
         phase := s.phase.(todo := s.phase.todo[..i] + s.phase.todo[i + 1..]))
    case HandledAll => s.(phase := Saving(s.phase.next, s.phase.upto))
    case Save => s.(cursor := WithCursor(s, s.phase.next), phase := Recording(s.phase.next, s.phase.upto))
    case RecordPosition => BatchEnds(s.(position := Some(s.phase.next)), s.phase.next, s.phase.upto)
    case Fail => s.(phase := Idle, clean := false, failed := true)
    case Kill =>
      s.(phase := Off, lastPoked := 0, wake := false, midNotify := 0, failed := s.failed || InPass(s.phase))
  }

  ghost predicate Init(s: State) {
    Sorted(s.table) && (s.table != [] ==> Newest(s.table) <= s.issued) && s.issued >= 0 &&
    (s.cursor.Some? ==> s.cursor.value <= s.issued) && s.start == s.cursor && PositionOK(s) &&
    s.phase.Off? && s.lastPoked == 0 && !s.wake && s.midNotify == 0 && s.handled == multiset{} && !s.failed
  }

  ghost predicate Steps(s: State, a: Action, t: State) {
    Enabled(s, a) && t == Apply(s, a)
  }

  ghost predicate Reaches(first: State, s: State, run: seq<Action>)
    decreases |run|
  {
    if run == [] then s == first
    else
      var n := |run| - 1;
      exists before :: Reaches(first, before, run[..n]) && Steps(before, run[n], s)
  }

  // ---------- what every step keeps ----------

  ghost predicate TableOK(s: State) {
    Sorted(s.table) && (forall e :: e in s.table ==> e <= s.issued) && s.lastPoked <= s.issued &&
    s.issued >= 0
  }

  ghost predicate CursorOK(s: State) {
    s.cursor.Some? == s.start.Some? &&
    (s.cursor.Some? ==> s.start.value <= s.cursor.value <= s.issued)
  }

  /** The recorded position is never past the saved cursor. */
  ghost predicate PositionOK(s: State) {
    s.position.Some? ==> s.cursor.Some? && s.position.value <= s.cursor.value
  }

  /** Nothing below the cursor was passed over. */
  ghost predicate Covered(s: State) {
    s.cursor.Some? && s.start.Some? ==> forall e :: e in s.table && s.start.value < e <= s.cursor.value ==> e in s.handled
  }

  ghost predicate Range(rows: seq<int>, lo: int, hi: int) {
    forall e :: e in rows ==> lo < e <= hi
  }

  /** What the table holds of (lo, hi] is in rows or handled. */
  ghost predicate Accounted(table: seq<int>, lo: int, hi: int, rows: seq<int>, handled: multiset<int>) {
    forall e :: e in table && lo < e <= hi ==> e in rows || e in handled
  }

  ghost predicate Ahead(s: State, next: int, upto: int) {
    s.cursor.Some? && s.cursor.value < next <= upto <= s.issued
  }

  /** Where a batch is to end, and what of it is settled. */
  ghost predicate PhaseOK(s: State) {
    match s.phase
    case FirstSaving(from) => s.cursor.None? && from <= s.issued
    case Starting(from) => s.cursor == Some(from)
    case Querying(from, upto) => s.cursor == Some(from) && from < upto <= s.issued
    case EmptySaving(next, upto) =>
      Ahead(s, next, upto) && Accounted(s.table, s.cursor.value, next, [], multiset{})
    case Loading(rows, next, upto) =>
      Ahead(s, next, upto) && Sorted(rows) && Range(rows, s.cursor.value, next) &&
      Accounted(s.table, s.cursor.value, next, rows, multiset{})
    case Handling(todo, next, upto) =>
      Ahead(s, next, upto) && Range(todo, s.cursor.value, next) &&
      Accounted(s.table, s.cursor.value, next, todo, s.handled)
    case Saving(next, upto) => Ahead(s, next, upto) && Accounted(s.table, s.cursor.value, next, [], s.handled)
    case Recording(next, upto) => s.cursor == Some(next) && next <= upto <= s.issued
    case _ => true
  }

  /** A poke the batch in hand does not know of has left a wakeup, or is about to. */
  ghost predicate Noticed(s: State) {
    match s.phase
    case Querying(_, upto) => s.lastPoked <= upto || s.wake || s.midNotify > 0
    case EmptySaving(_, upto) => s.lastPoked <= upto || s.wake || s.midNotify > 0
    case Loading(_, _, upto) => s.lastPoked <= upto || s.wake || s.midNotify > 0
    case Handling(_, _, upto) => s.lastPoked <= upto || s.wake || s.midNotify > 0
    case Saving(_, upto) => s.lastPoked <= upto || s.wake || s.midNotify > 0
    case Recording(_, upto) => s.lastPoked <= upto || s.wake || s.midNotify > 0
    case Idle => s.clean ==> (s.cursor.Some? && s.lastPoked <= s.cursor.value) || s.wake || s.midNotify > 0
    case _ => true
  }

  /** The events of the batch in hand that have been handled and not yet saved. */
  predicate Unsaved(s: State, e: int) {
    match s.phase
    case Handling(todo, next, _) => s.cursor.Some? && s.cursor.value < e <= next && e !in todo
    case Saving(next, _) => s.cursor.Some? && s.cursor.value < e <= next
    case _ => false
  }

  ghost predicate AtMostOnce(m: multiset<int>) {
    forall e :: e in m ==> m[e] == 1
  }

  ghost predicate Once(s: State) {
    (s.phase.Handling? ==> AtMostOnce(multiset(s.phase.todo))) && AtMostOnce(s.handled) && InRange(s)
  }

  /** Only what the cursor covers, or the batch in hand, has been handled. */
  ghost predicate InRange(s: State) {
    s.handled != multiset{} ==>
      s.cursor.Some? && s.start.Some? &&
      forall e :: e in s.handled ==> s.start.value < e <= s.cursor.value || Unsaved(s, e)
  }

  ghost predicate Inv(s: State) {
    TableOK(s) && CursorOK(s) && PositionOK(s) && Covered(s) && PhaseOK(s) && Noticed(s) && (!s.failed ==> Once(s))
  }

  lemma PurgeKeepsOrder(table: seq<int>, i: nat)
    requires Sorted(table) && i < |table|
    ensures var left := table[..i] + table[i + 1..];
            Sorted(left) && forall e :: e in left ==> e in table
  {
    var left, n := table[..i] + table[i + 1..], |table| - 1;
    if i < n {
      PurgeKeepsOrder(table[..n], i);
      assert left[..n - 1] == table[..n][..i] + table[..n][i + 1..];
    } else {
      assert left == table[..n];
    }
  }

  lemma StepKeepsTable(s: State, a: Action)
    requires Enabled(s, a) && TableOK(s)
    ensures TableOK(Apply(s, a))
  {
    match a
    case Persist(e) =>
      assert (s.table + [e])[..|s.table|] == s.table;
      assert forall j :: 0 <= j < |s.table| ==> s.table[j] in s.table;
    case Purge(i) => PurgeKeepsOrder(s.table, i);
    case Seed => assert s.table != [] ==> Newest(s.table) in s.table;
    case _ =>
  }

  lemma StepKeepsCursor(s: State, a: Action)
    requires Enabled(s, a) && TableOK(s) && CursorOK(s) && PhaseOK(s)
    ensures CursorOK(Apply(s, a))
    ensures s.cursor.Some? ==> Apply(s, a).cursor.Some? && s.cursor.value <= Apply(s, a).cursor.value
    ensures s.start.Some? ==> Apply(s, a).start == s.start
  {
  }

  lemma StepKeepsPosition(s: State, a: Action)
    requires Enabled(s, a) && PositionOK(s) && PhaseOK(s)
    ensures PositionOK(Apply(s, a))
  {
  }

  /** The cursor stands, and the table gains nothing below it. */
  lemma CoveredStays(s: State, t: State)
    requires Covered(s) && t.cursor == s.cursor && t.start == s.start
    requires forall e :: e in t.table ==> e in s.table || (s.cursor.Some? ==> e > s.cursor.value)
    requires forall e :: e in s.handled ==> e in t.handled
    ensures Covered(t)
  {
  }

  /** The three ways the cursor moves. */
  predicate Saves(a: Action) {
    a.SaveTip? || a.SaveEmpty? || a.Save?
  }

  lemma SaveKeepsCovered(s: State, a: Action)
    requires Enabled(s, a) && Saves(a) && CursorOK(s) && PhaseOK(s) && Covered(s)
    ensures Covered(Apply(s, a))
  {
  }

  lemma StepKeepsCovered(s: State, a: Action)
    requires Enabled(s, a) && TableOK(s) && CursorOK(s) && PhaseOK(s) && Covered(s)
    ensures Covered(Apply(s, a))
  {
    if Saves(a) {
      SaveKeepsCovered(s, a);
    } else {
      if a.Purge? { PurgeKeepsOrder(s.table, a.i); }
      CoveredStays(s, Apply(s, a));
    }
  }

  lemma QueryKeepsPhase(s: State, limit: nat)
    requires Enabled(s, Action.Query(limit)) && TableOK(s) && CursorOK(s) && PhaseOK(s)
    ensures PhaseOK(Apply(s, Action.Query(limit)))
  {
    var from, upto := s.phase.from, s.phase.upto;
    PageIsAWindow(s.table, from, upto, limit);
    var rows := Page(s.table, from, upto, limit);
    var next := Next(rows, upto, limit);
    WindowMembers(s.table, from, next);
    WindowSorted(s.table, from, next);
    assert forall e :: e in rows <==> e in s.table && from < e <= next;
  }

  lemma Without(todo: seq<int>, i: nat)
    requires i < |todo|
    ensures var left := todo[..i] + todo[i + 1..];
            multiset(todo) == multiset(left) + multiset{todo[i]} &&
            forall e :: e in todo <==> e in left || e == todo[i]
  {
    assert todo == todo[..i] + [todo[i]] + todo[i + 1..];
  }

  lemma LoadKeepsPhase(s: State)
    requires Enabled(s, LoadRows) && PhaseOK(s)
    ensures PhaseOK(Apply(s, LoadRows))
    ensures Once(s) ==> Once(Apply(s, LoadRows))
  {
    var rows := s.phase.rows;
    var gone := set e | e in rows && e !in s.table;
    HeldMembers(rows, gone);
    HeldOnce(rows, gone);
  }

  lemma PurgeKeepsPhase(s: State, i: nat)
    requires Enabled(s, Purge(i)) && TableOK(s) && PhaseOK(s)
    ensures PhaseOK(Apply(s, Purge(i)))
  {
    PurgeKeepsOrder(s.table, i);
  }

  /** What happens around the pass: rows come, pokes come. */
  predicate Outside(a: Action) {
    a.Persist? || a.Burn? || a.Poke? || a.Signal?
  }

  lemma OutsideKeepsPhase(s: State, a: Action)
    requires Enabled(s, a) && Outside(a) && TableOK(s) && CursorOK(s) && PhaseOK(s)
    ensures PhaseOK(Apply(s, a))
  {
  }

  lemma HandleKeepsPhase(s: State, i: nat)
    requires Enabled(s, HandleOne(i)) && PhaseOK(s)
    ensures PhaseOK(Apply(s, HandleOne(i)))
  {
    Without(s.phase.todo, i);
  }

  lemma StepKeepsPhase(s: State, a: Action)
    requires Enabled(s, a) && TableOK(s) && CursorOK(s) && PhaseOK(s)
    ensures PhaseOK(Apply(s, a))
  {
    if Outside(a) {
      OutsideKeepsPhase(s, a);
    } else if a.Purge? {
      PurgeKeepsPhase(s, a.i);
    } else if a.Query? {
      QueryKeepsPhase(s, a.limit);
    } else if a.LoadRows? {
      LoadKeepsPhase(s);
    } else if a.HandleOne? {
      HandleKeepsPhase(s, a.i);
    } else {
      MoveKeepsPhase(s, a);
    }
  }

  /** Steps of the pass that leave the table and what is to be handled alone. */
  lemma MoveKeepsPhase(s: State, a: Action)
    requires Enabled(s, a) && TableOK(s) && CursorOK(s) && PhaseOK(s)
    requires !Outside(a) && !a.Purge? && !a.Query? && !a.LoadRows? && !a.HandleOne?
    ensures PhaseOK(Apply(s, a))
  {
  }

  lemma StepKeepsNoticed(s: State, a: Action)
    requires Enabled(s, a) && TableOK(s) && CursorOK(s) && PhaseOK(s) && Noticed(s)
    ensures Noticed(Apply(s, a))
  {
  }

  lemma RemovedOnce(all: multiset<int>, left: multiset<int>, x: int)
    requires AtMostOnce(all) && all == left + multiset{x}
    ensures AtMostOnce(left) && x !in left
  {
    assert x in all && all[x] == left[x] + 1;
    forall e | e in left ensures left[e] == 1 {
      assert e in all && all[e] >= left[e];
    }
  }

  lemma HandleKeepsCounts(todo: seq<int>, handled: multiset<int>, i: nat)
    requires i < |todo| && AtMostOnce(multiset(todo)) && AtMostOnce(handled) && todo[i] !in handled
    ensures AtMostOnce(multiset(todo[..i] + todo[i + 1..])) && AtMostOnce(handled + multiset{todo[i]})
    ensures todo[i] !in todo[..i] + todo[i + 1..]
  {
    Without(todo, i);
    RemovedOnce(multiset(todo), multiset(todo[..i] + todo[i + 1..]), todo[i]);
  }

  lemma HandleKeepsOnce(s: State, i: nat)
    requires Enabled(s, HandleOne(i)) && CursorOK(s) && PhaseOK(s) && Once(s)
    ensures Once(Apply(s, HandleOne(i)))
  {
    var todo := s.phase.todo;
    assert todo[i] in todo;
    assert !Unsaved(s, todo[i]);
    HandleKeepsCounts(todo, s.handled, i);
    Without(todo, i);
  }

  /** Nothing handled, and what covers the handled events still does. */
  lemma OnceStays(s: State, t: State)
    requires Once(s) && t.handled == s.handled && t.start == s.start && t.cursor == s.cursor
    requires t.phase.Handling? ==> AtMostOnce(multiset(t.phase.todo))
    requires forall e :: Unsaved(s, e) ==> Unsaved(t, e)
    ensures Once(t)
  {
  }

  lemma SaveKeepsOnce(s: State, a: Action)
    requires Enabled(s, a) && Saves(a) && CursorOK(s) && PhaseOK(s) && Once(s)
    ensures Once(Apply(s, a))
  {
  }

  lemma StepKeepsOnce(s: State, a: Action)
    requires Enabled(s, a) && CursorOK(s) && PhaseOK(s) && Once(s)
    ensures !Apply(s, a).failed ==> Once(Apply(s, a))
  {
    if a.LoadRows? {
      LoadKeepsPhase(s);
    } else if a.HandleOne? {
      HandleKeepsOnce(s, a.i);
    } else if Saves(a) {
      SaveKeepsOnce(s, a);
    } else if !Apply(s, a).failed {
      OnceStays(s, Apply(s, a));
    }
  }

  lemma StepKeepsInv(s: State, a: Action)
    requires Enabled(s, a) && Inv(s)
    ensures Inv(Apply(s, a))
  {
    StepKeepsTable(s, a);
    StepKeepsCursor(s, a);
    StepKeepsPosition(s, a);
    StepKeepsCovered(s, a);
    StepKeepsPhase(s, a);
    StepKeepsNoticed(s, a);
    if !s.failed {
      StepKeepsOnce(s, a);
    }
  }

  lemma {:induction false} InitIsInv(s: State)
    requires Init(s)
    ensures Inv(s)
  {
    if s.table != [] {
      var n := |s.table| - 1;
      forall e | e in s.table ensures e <= s.issued {
        var j :| 0 <= j <= n && s.table[j] == e;
      }
    }
  }

  /** The saved cursor never moves back, in any run from any reachable state. */
  lemma {:induction false} RunsKeep(first: State, s: State, run: seq<Action>)
    requires Inv(first) && Reaches(first, s, run)
    ensures Inv(s)
    ensures first.cursor.Some? ==> s.cursor.Some? && first.cursor.value <= s.cursor.value
    ensures first.start.Some? ==> s.start == first.start
    decreases |run|
  {
    if run != [] {
      var n := |run| - 1;
      var before :| Reaches(first, before, run[..n]) && Steps(before, run[n], s);
      RunsKeep(first, before, run[..n]);
      StepKeepsInv(before, run[n]);
      StepKeepsCursor(before, run[n]);
    }
  }

  // ---------- main results ----------

  /** Whatever failed on the way, an event the table still holds between the first cursor
      and the saved one has been handled; exactly once when nothing failed. */
  lemma NothingIsPassedOver(first: State, s: State, run: seq<Action>, e: int)
    requires Init(first) && Reaches(first, s, run)
    requires s.cursor.Some? && s.start.Some? && e in s.table && s.start.value < e <= s.cursor.value
    ensures s.handled[e] >= 1
    ensures !s.failed ==> s.handled[e] == 1
  {
    InitIsInv(first);
    RunsKeep(first, s, run);
  }

  /** Nor is an event held behind the position recorded for the writer unhandled: who
      resumes from there passes over nothing. */
  lemma RecordedWasHandled(first: State, s: State, run: seq<Action>, e: int)
    requires Init(first) && Reaches(first, s, run)
    requires s.position.Some? && s.start.Some? && e in s.table && s.start.value < e <= s.position.value
    ensures s.handled[e] >= 1
    ensures s.cursor.Some? && s.position.value <= s.cursor.value
  {
    InitIsInv(first);
    RunsKeep(first, s, run);
  }

  /** While nothing has failed, no event is handled twice, nor any that lies outside
      the range the cursor covered or the batch in hand is covering. */
  lemma NothingIsHandledTwice(first: State, s: State, run: seq<Action>, e: int)
    requires Init(first) && Reaches(first, s, run) && !s.failed
    ensures s.handled[e] <= 1
    ensures e in s.handled ==>
              s.cursor.Some? && s.start.Some? && (s.start.value < e <= s.cursor.value || Unsaved(s, e))
  {
    InitIsInv(first);
    RunsKeep(first, s, run);
  }

  /** Idle after a pass that went well, no wakeup waiting and no notifier halfway:
      everything up to the newest poke has been handled. */
  lemma IdleHasCaughtUp(first: State, s: State, run: seq<Action>)
    requires Init(first) && Reaches(first, s, run)
    requires s.phase.Idle? && s.clean && !s.wake && s.midNotify == 0
    ensures s.cursor.Some? && s.start.Some? && s.cursor.value >= s.lastPoked
    ensures forall e :: e in s.table && s.start.value < e <= s.lastPoked ==> e in s.handled
  {
    InitIsInv(first);
    RunsKeep(first, s, run);
  }
}
