/** Catch-up handing a destination back to the live path. Recording an event in
    destination_rooms, handing it to EnqueuePDU, the pages and sends of catch-up,
    and the live loop are separate actions in any order. TakeCatchUpSkipped and
    FinishCatchUp are two actions, as they are two critical sections. Two steps are
    coarser than the code: SendOk moves the cursor, persists it and gives up the claim
    in one, and LiveDelivers persists the cursor before LiveDequeues takes the batch out
    of the queue, where the code dequeues first. */
module Handover {
  import opened Units
  import opened QueueSpec

  /** An event routed to the destination; sendable says whether it serialises. */
  datatype Event = Event(pdu: PDU, sendable: bool)

  datatype Live =
    | LiveOff
    | LiveTop
    | LiveSending(batch: seq<PDU>)
    | LiveSent(batch: seq<PDU>)

  /** Where a pass of CatchUp.Destination has got to; ls is its lastSuccessful. */
  datatype Pass =
    | Away
    | Paging(ls: int)
    | InPage(ls: int, todo: seq<Event>)
    | SendingOne(ls: int, todo: seq<Event>)   // todo[0] is on the wire
    | EmptyPage(ls: int)                      // TakeCatchUpSkipped next
    | Finishing(ls: int)                      // FinishCatchUp next

  datatype State = State(
    q: Queue,
    live: Live,
    pass: Pass,
    db: int,                   // the persisted cursor
    recorded: seq<Event>,      // every event recorded as owed, in recording order
    marks: map<string, int>,   // destination_rooms: the newest ordering of each room
    // history
    enqueued: set<int>,        // orderings handed to EnqueuePDU
    skippedAll: set<int>,      // orderings EnqueuePDU dropped
    windowed: set<int>,        // of those, the ones dropped since the last TakeCatchUpSkipped that went on to finish
    caught: set<int>,          // orderings sent by catch-up
    delivered: seq<PDU>,       // delivered live
    base: int,                 // what catch-up is answerable from
    clean: bool,               // no live send has moved the persisted cursor since base
    from: int,                 // base when catch-up finished
    upTo: int,                 // its cursor then
    lost: set<int>,            // windowed then
    passedOver: set<int>)      // owed rows a pass started above

  datatype Action =
    | Record(e: Event)
    | Enqueue(k: nat)
    | StartPass
    | StopPass
    | ReadPage
    | StepOver
    | SendBegins
    | SendOk(persisted: bool)
    | SendFails
    | PageDone
    | TakeSkipped
    | Finish
    | LiveStarts
    | LiveTakes(n: nat)
    | LiveDelivers(persisted: bool)
    | LiveDequeues
    | LiveStops

  const PAGE: nat := 50

  predicate Current(marks: map<string, int>, e: Event) {
    e.pdu.room in marks && marks[e.pdu.room] == e.pdu.ordering
  }

  /** Owed rows above a cursor, oldest first: one per room. */
  function Owed(recorded: seq<Event>, marks: map<string, int>, ls: int): (rows: seq<Event>)
    ensures forall e :: e in rows <==> e in recorded && Current(marks, e) && e.pdu.ordering > ls
  {
    if recorded == [] then []
    else
      var e := recorded[0];
      (if Current(marks, e) && e.pdu.ordering > ls then [e] else []) + Owed(recorded[1..], marks, ls)
  }

  function FirstPage(rows: seq<Event>): (page: seq<Event>)
    ensures page <= rows && |page| <= 50 && (|page| == 50 || page == rows)
  {
    if |rows| <= PAGE then rows else rows[..PAGE]
  }

  /** Still its room's newest, sendable, and not yet sent by catch-up. */
  predicate Owing(s: State, e: Event) {
    Current(s.marks, e) && e.sendable && e.pdu.ordering !in s.caught
  }

  /** Owed rows between what catch-up answers from and the persisted cursor. */
  function Between(s: State): (rows: set<int>) {
    set e | e in s.recorded && Owing(s, e) && s.base < e.pdu.ordering <= s.db :: e.pdu.ordering
  }

  predicate Enabled(s: State, a: Action) {
    match a
    case Record(e) => forall k :: 0 <= k < |s.recorded| ==> s.recorded[k].pdu.ordering < e.pdu.ordering
    case Enqueue(k) => k < |s.recorded| && s.recorded[k].sendable
    case StartPass => s.pass.Away?
    case StopPass => s.pass.Paging? || s.pass.InPage? || s.pass.EmptyPage?
    case ReadPage => s.pass.Paging?
    case StepOver => s.pass.InPage? && s.pass.todo != [] && !s.pass.todo[0].sendable
    case SendBegins => s.pass.InPage? && s.pass.todo != [] && s.pass.todo[0].sendable
    case SendOk(_) => s.pass.SendingOne? && s.pass.todo != []
    case SendFails => s.pass.SendingOne?
    case PageDone => s.pass.InPage? && s.pass.todo == []
    case TakeSkipped => s.pass.EmptyPage?
    case Finish => s.pass.Finishing?
    case LiveStarts => s.live.LiveOff? && !s.q.running
    case LiveTakes(n) => s.live.LiveTop? && n <= |s.q.pdus|
    case LiveDelivers(_) => s.live.LiveSending?
    case LiveDequeues => s.live.LiveSent? && |s.live.batch| <= |s.q.pdus|
    case LiveStops => s.live.LiveTop? || s.live.LiveSending?
  }

  function Apply(s: State, a: Action): State
    requires Enabled(s, a)
  {
    match a
    case Record(e) => s.(recorded := s.recorded + [e], marks := s.marks[e.pdu.room := e.pdu.ordering])
    case Enqueue(k) =>
      var p := s.recorded[k].pdu;
      var s' := s.(q := EnqueuePDU(s.q, p), enqueued := s.enqueued + {p.ordering});
      if s.q.catchingUp && s.q.known then
        s'.(skippedAll := s.skippedAll + {p.ordering},
            windowed := if s.pass.Finishing? then s.windowed + {p.ordering} else s.windowed)
      else s'
    case StartPass =>
      s.(q := SetLastSuccessful(s.q, s.db), pass := Paging(s.db),
         base := if s.clean then s.base else s.db, clean := true,
         passedOver := if s.clean then s.passedOver else s.passedOver + Between(s))
    case StopPass => s.(pass := Away)
    case ReadPage =>
      var rows := Owed(s.recorded, s.marks, s.pass.ls);
      s.(pass := if rows == [] then EmptyPage(s.pass.ls) else InPage(s.pass.ls, FirstPage(rows)))
    case StepOver => s.(pass := InPage(s.pass.todo[0].pdu.ordering, s.pass.todo[1..]))
    case SendBegins =>
      if s.q.running then s.(pass := Away)
      else s.(q := Claim(s.q), pass := SendingOne(s.pass.ls, s.pass.todo))
    case SendOk(persisted) =>
      var o := s.pass.todo[0].pdu.ordering;
      s.(q := Release(CaughtUp(s.q, o)), pass := InPage(o, s.pass.todo[1..]), caught := s.caught + {o},
         db := if persisted then Max(s.db, o) else s.db)
    case SendFails => s.(q := Release(s.q), pass := Away)
    case PageDone => s.(pass := Paging(s.pass.ls))
    case TakeSkipped =>
      s.(q := ClearSkipped(s.q), windowed := {},
         pass := if s.q.skipped > s.pass.ls then Paging(s.pass.ls) else Finishing(s.pass.ls))
    case Finish =>
      var s' := s.(q := FinishCatchUp(s.q), pass := Away);
      if s.q.catchingUp then s'.(from := s.base, upTo := s.pass.ls, lost := s.windowed) else s'
    case LiveStarts => s.(q := TryStart(s.q), live := LiveTop)
    case LiveTakes(n) => s.(live := LiveSending(s.q.pdus[..n]))
    case LiveDelivers(persisted) =>
      var b := s.live.batch;
      var s' := s.(live := LiveSent(b), delivered := s.delivered + b);
      if b != [] && persisted then s'.(db := Max(s.db, b[|b| - 1].ordering), clean := false) else s'
    case LiveDequeues => s.(q := Dequeue(s.q, |s.live.batch|, 0), live := LiveTop)
    case LiveStops => s.(q := Release(s.q), live := LiveOff)
  }

  // ---------- what catch-up is answerable for ----------

  ghost predicate Superseded(s: State, e: Event) {
    e.pdu.room in s.marks && s.marks[e.pdu.room] > e.pdu.ordering
  }

  /** Done with by catch-up: sent, overtaken in its room, or unsendable. */
  ghost predicate Settled(s: State, e: Event) {
    e.pdu.ordering in s.caught || Superseded(s, e) || !e.sendable
  }

  /** Sent by catch-up, or pending or delivered on the live queue. */
  ghost predicate Handed(s: State, e: Event) {
    e.pdu.ordering in s.caught || OnLivePath(s, e.pdu)
  }

  ghost predicate OnLivePath(s: State, p: PDU) {
    p in s.q.pdus || p in s.delivered
  }

  ghost predicate HasOrdering(recorded: seq<Event>, o: int) {
    exists e :: e in recorded && e.pdu.ordering == o
  }

  ghost predicate HasPDU(recorded: seq<Event>, p: PDU) {
    exists e :: e in recorded && e.pdu == p
  }

  ghost predicate Backed(recorded: seq<Event>, room: string, o: int) {
    exists e :: e in recorded && e.pdu.room == room && e.pdu.ordering == o
  }

  ghost predicate Increasing(recorded: seq<Event>) {
    forall i, j :: 0 <= i < j < |recorded| ==> recorded[i].pdu.ordering < recorded[j].pdu.ordering
  }

  ghost predicate RecordOK(recorded: seq<Event>, marks: map<string, int>) {
    && Increasing(recorded)
    && (forall e :: e in recorded ==> e.pdu.room in marks && e.pdu.ordering <= marks[e.pdu.room])
    && (forall r :: r in marks ==> Backed(recorded, r, marks[r]))
  }

  /** A cursor is the one we started from or an event's; nothing recorded later is at or below it. */
  ghost predicate CursorOK(s: State, c: int) {
    && (c == s.base || (s.base <= c && HasOrdering(s.recorded, c)))
    && NoGap(s, c)
  }

  ghost predicate NoGap(s: State, c: int) {
    forall e :: e in s.recorded && s.base < e.pdu.ordering <= c ==> Settled(s, e)
  }

  /** The page holds every event between its cursor and its end that still matters. */
  ghost predicate TodoOK(s: State, ls: int, todo: seq<Event>) {
    && Increasing(todo)
    && (forall i :: 0 <= i < |todo| ==> todo[i] in s.recorded && todo[i].pdu.ordering > ls)
    && (forall e :: e in s.recorded && todo != [] && ls < e.pdu.ordering <= todo[|todo| - 1].pdu.ordering ==>
          e in todo || Superseded(s, e))
  }

  /** Since an empty page was read, nothing above its cursor has been sent or queued. */
  ghost predicate AtOrBelow(s: State, ls: int) {
    && (forall o :: o in s.caught ==> o <= ls)
    && (s.q.catchingUp ==> forall p :: OnLivePath(s, p) ==> p.ordering <= ls)
  }

  ghost predicate PassOK(s: State) {
    match s.pass
    case Away => true
    case Paging(ls) => CursorOK(s, ls)
    case InPage(ls, todo) => CursorOK(s, ls) && TodoOK(s, ls, todo)
    case SendingOne(ls, todo) => CursorOK(s, ls) && TodoOK(s, ls, todo)
    case EmptyPage(ls) =>
      CursorOK(s, ls) && AtOrBelow(s, ls) && forall o :: o in s.skippedAll && o > ls ==> o <= s.q.skipped
    case Finishing(ls) =>
      CursorOK(s, ls) && AtOrBelow(s, ls) && forall o :: o in s.skippedAll && o > ls ==> o in s.windowed
  }

  /** Everything queued, sent or dropped was recorded first; everything handed to
      the queue is on the live path or was dropped. */
  ghost predicate QueueOK(s: State) {
    && (forall p :: OnLivePath(s, p) ==> HasPDU(s.recorded, p))
    && (forall o :: o in s.caught || o in s.skippedAll || o in s.enqueued ==> HasOrdering(s.recorded, o))
    && (forall e :: e in s.recorded && e.pdu.ordering in s.enqueued ==>
          OnLivePath(s, e.pdu) || e.pdu.ordering in s.skippedAll)
    && (!s.pass.Away? ==> s.q.known)
  }

  ghost predicate LiveOK(s: State) {
    && (s.live.LiveSending? || s.live.LiveSent? ==> s.live.batch <= s.q.pdus)
    && (s.live.LiveSent? ==> forall p :: p in s.live.batch ==> p in s.delivered)
  }

  ghost predicate DbOK(s: State) {
    && (s.db == s.base || (s.base <= s.db && HasOrdering(s.recorded, s.db)))
    && (s.clean ==> NoGap(s, s.db))
  }

  /** Once finished: everything up to the cursor is settled, and everything above it
      that was handed to the queue is with the live path, or fell into the window. */
  ghost predicate Accounted(s: State, e: Event) {
    if e.pdu.ordering <= s.upTo then Settled(s, e)
    else Handed(s, e) || e.pdu.ordering !in s.enqueued || e.pdu.ordering in s.lost
  }

  ghost predicate Complete(s: State) {
    && (s.upTo == s.from || (s.from <= s.upTo && HasOrdering(s.recorded, s.upTo)))
    && (forall e :: e in s.recorded && s.from < e.pdu.ordering ==> Accounted(s, e))
  }

  ghost predicate Inv(s: State) {
    && RecordOK(s.recorded, s.marks) && QueueOK(s) && LiveOK(s) && PassOK(s) && DbOK(s)
    && (!s.q.catchingUp ==> Complete(s))
  }

  // ---------- steps that record nothing ----------

  /** Settling and handing over only ever grow. */
  ghost predicate Grows(s: State, t: State) {
    && t.recorded == s.recorded && t.marks == s.marks
    && (forall o :: o in s.caught ==> o in t.caught)
    && (forall p :: OnLivePath(s, p) ==> OnLivePath(t, p))
  }

  lemma CursorStays(s: State, t: State, c: int)
    requires Grows(s, t) && t.base == s.base && CursorOK(s, c)
    ensures CursorOK(t, c)
  {
  }

  lemma TodoStays(s: State, t: State, ls: int, todo: seq<Event>)
    requires Grows(s, t) && TodoOK(s, ls, todo)
    ensures TodoOK(t, ls, todo)
  {
  }

  lemma CompleteStays(s: State, t: State)
    requires Grows(s, t) && Complete(s)
    requires t.from == s.from && t.upTo == s.upTo && t.lost == s.lost && t.enqueued == s.enqueued
    ensures Complete(t)
  {
    forall e | e in t.recorded && t.from < e.pdu.ordering ensures Accounted(t, e) {
      assert Accounted(s, e);
    }
  }

  /** The pass stands where it stood and nothing it watches has changed. */
  lemma PassStays(s: State, t: State)
    requires PassOK(s) && Grows(s, t) && t.base == s.base && t.pass == s.pass
    requires t.caught == s.caught && t.skippedAll == s.skippedAll && t.windowed == s.windowed
    requires t.q.skipped == s.q.skipped && t.q.catchingUp == s.q.catchingUp
    requires forall p :: OnLivePath(t, p) ==> OnLivePath(s, p)
    ensures PassOK(t)
  {
    if !s.pass.Away? { CursorStays(s, t, s.pass.ls); }
    if s.pass.InPage? || s.pass.SendingOne? { TodoStays(s, t, s.pass.ls, s.pass.todo); }
  }

  lemma QueueStays(s: State, t: State)
    requires QueueOK(s) && Grows(s, t)
    requires t.enqueued == s.enqueued && t.skippedAll == s.skippedAll
    requires forall p :: OnLivePath(t, p) ==> OnLivePath(s, p)
    requires forall o :: o in t.caught ==> o in s.caught || HasOrdering(s.recorded, o)
    requires !t.pass.Away? ==> t.q.known
    ensures QueueOK(t)
  {
  }

  lemma DbStays(s: State, t: State)
    requires DbOK(s) && Grows(s, t) && t.base == s.base && t.db == s.db && t.clean == s.clean
    ensures DbOK(t)
  {
  }

  lemma EnqueueKeepsPass(s: State, k: nat)
    requires PassOK(s) && QueueOK(s) && Enabled(s, Enqueue(k))
    ensures Grows(s, Apply(s, Enqueue(k))) && PassOK(Apply(s, Enqueue(k)))
  {
    var t := Apply(s, Enqueue(k));
    EnqueueGrows(s, k);
    if !s.pass.Away? { CursorStays(s, t, s.pass.ls); }
    if s.pass.InPage? || s.pass.SendingOne? { TodoStays(s, t, s.pass.ls, s.pass.todo); }
  }

  lemma EnqueueGrows(s: State, k: nat)
    requires Enabled(s, Enqueue(k))
    ensures Grows(s, Apply(s, Enqueue(k)))
  {
    assert s.q.pdus <= Apply(s, Enqueue(k)).q.pdus;
  }

  lemma SameOrderingSameEvent(recorded: seq<Event>, x: Event, y: Event)
    requires Increasing(recorded) && x in recorded && y in recorded && x.pdu.ordering == y.pdu.ordering
    ensures x == y
  {
  }

  lemma EnqueueKeepsQueue(s: State, k: nat)
    requires QueueOK(s) && LiveOK(s) && RecordOK(s.recorded, s.marks) && Enabled(s, Enqueue(k))
    ensures QueueOK(Apply(s, Enqueue(k))) && LiveOK(Apply(s, Enqueue(k)))
  {
    var t, x := Apply(s, Enqueue(k)), s.recorded[k];
    assert x in s.recorded;
    assert HasPDU(s.recorded, x.pdu) && HasOrdering(s.recorded, x.pdu.ordering);
    EnqueueKeepsPath(s, k);
    EnqueueKeepsLive(s, k);
    assert forall p :: OnLivePath(t, p) ==> OnLivePath(s, p) || p == x.pdu;
  }

  lemma EnqueueKeepsLive(s: State, k: nat)
    requires LiveOK(s) && Enabled(s, Enqueue(k))
    ensures LiveOK(Apply(s, Enqueue(k)))
  {
    assert s.q.pdus <= Apply(s, Enqueue(k)).q.pdus;
  }

  lemma EnqueueKeepsPath(s: State, k: nat)
    requires QueueOK(s) && Increasing(s.recorded) && Enabled(s, Enqueue(k))
    ensures var t := Apply(s, Enqueue(k));
            forall e :: e in t.recorded && e.pdu.ordering in t.enqueued ==>
              OnLivePath(t, e.pdu) || e.pdu.ordering in t.skippedAll
  {
    var t, x := Apply(s, Enqueue(k)), s.recorded[k];
    forall e | e in t.recorded && e.pdu.ordering in t.enqueued
      ensures OnLivePath(t, e.pdu) || e.pdu.ordering in t.skippedAll
    {
      if e.pdu.ordering == x.pdu.ordering { SameOrderingSameEvent(s.recorded, e, x); }
    }
  }

  lemma EnqueueKeepsComplete(s: State, k: nat)
    requires RecordOK(s.recorded, s.marks) && Complete(s) && !s.q.catchingUp && Enabled(s, Enqueue(k))
    ensures Complete(Apply(s, Enqueue(k)))
  {
    var t, x := Apply(s, Enqueue(k)), s.recorded[k];
    forall e | e in t.recorded && t.from < e.pdu.ordering ensures Accounted(t, e) {
      assert Accounted(s, e);
      if e.pdu.ordering == x.pdu.ordering { SameOrderingSameEvent(s.recorded, e, x); }
    }
  }

  lemma EnqueueKeeps(s: State, k: nat)
    requires Inv(s) && Enabled(s, Enqueue(k))
    ensures Inv(Apply(s, Enqueue(k)))
  {
    EnqueueKeepsPass(s, k);
    EnqueueKeepsQueue(s, k);
    DbStays(s, Apply(s, Enqueue(k)));
    if !s.q.catchingUp { EnqueueKeepsComplete(s, k); }
  }

  lemma StartKeepsPass(s: State)
    requires DbOK(s) && Enabled(s, StartPass)
    ensures Grows(s, Apply(s, StartPass)) && PassOK(Apply(s, StartPass)) && DbOK(Apply(s, StartPass))
  {
    assert CursorOK(Apply(s, StartPass), s.db);
  }

  lemma StartKeepsQueue(s: State)
    requires QueueOK(s) && LiveOK(s) && Enabled(s, StartPass)
    ensures QueueOK(Apply(s, StartPass)) && LiveOK(Apply(s, StartPass))
  {
    QueueStays(s, Apply(s, StartPass));
  }

  lemma StartKeeps(s: State)
    requires Inv(s) && Enabled(s, StartPass)
    ensures Inv(Apply(s, StartPass))
  {
    var t := Apply(s, StartPass);
    StartKeepsPass(s);
    StartKeepsQueue(s);
    if !s.q.catchingUp { CompleteStays(s, t); }
  }

  /** An empty page means the cursor is level with everything recorded. */
  lemma EmptyPageIsLevel(recorded: seq<Event>, marks: map<string, int>, ls: int, o: int)
    requires RecordOK(recorded, marks) && Owed(recorded, marks, ls) == [] && HasOrdering(recorded, o)
    ensures o <= ls
  {
    var e :| e in recorded && e.pdu.ordering == o;
    var r := e.pdu.room;
    assert Backed(recorded, r, marks[r]);
    var x :| x in recorded && x.pdu.room == r && x.pdu.ordering == marks[r];
    assert x !in Owed(recorded, marks, ls);
  }

  lemma ReadEmpty(s: State)
    requires Inv(s) && Enabled(s, ReadPage) && Owed(s.recorded, s.marks, s.pass.ls) == []
    ensures PassOK(Apply(s, ReadPage))
  {
    var t, ls := Apply(s, ReadPage), s.pass.ls;
    CursorStays(s, t, ls);
    forall o | HasOrdering(s.recorded, o) ensures o <= ls {
      EmptyPageIsLevel(s.recorded, s.marks, ls, o);
    }
    forall p | OnLivePath(s, p) ensures p.ordering <= ls {
      assert HasPDU(s.recorded, p);
      assert HasOrdering(s.recorded, p.ordering);
    }
  }

  lemma {:induction false} OwedAscending(recorded: seq<Event>, marks: map<string, int>, ls: int)
    requires Increasing(recorded)
    ensures Increasing(Owed(recorded, marks, ls))
  {
    if recorded != [] {
      var rest := Owed(recorded[1..], marks, ls);
      OwedAscending(recorded[1..], marks, ls);
      forall k | 0 <= k < |rest| ensures recorded[0].pdu.ordering < rest[k].pdu.ordering {
        assert rest[k] in rest;
        var j :| 0 <= j < |recorded[1..]| && recorded[1..][j] == rest[k];
        assert recorded[j + 1] == rest[k];
      }
    }
  }

  lemma PageIsWhole(s: State, ls: int)
    requires RecordOK(s.recorded, s.marks) && Owed(s.recorded, s.marks, ls) != []
    ensures TodoOK(s, ls, FirstPage(Owed(s.recorded, s.marks, ls)))
  {
    var rows := Owed(s.recorded, s.marks, ls);
    var todo := FirstPage(rows);
    OwedAscending(s.recorded, s.marks, ls);
    forall i | 0 <= i < |todo| ensures todo[i] in s.recorded && todo[i].pdu.ordering > ls {
      assert rows[i] in rows;
    }
    forall e | e in s.recorded && ls < e.pdu.ordering <= todo[|todo| - 1].pdu.ordering
      ensures e in todo || Superseded(s, e)
    {
      if Current(s.marks, e) {
        InFirstPage(rows, e);
      }
    }
  }

  lemma InFirstPage(rows: seq<Event>, e: Event)
    requires Increasing(rows) && e in rows
    requires e.pdu.ordering <= FirstPage(rows)[|FirstPage(rows)| - 1].pdu.ordering
    ensures e in FirstPage(rows)
  {
    var i :| 0 <= i < |rows| && rows[i] == e;
    if |rows| > PAGE {
      assert i < PAGE;
      assert FirstPage(rows)[i] == e;
    }
  }

  lemma ReadRows(s: State)
    requires Inv(s) && Enabled(s, ReadPage) && Owed(s.recorded, s.marks, s.pass.ls) != []
    ensures PassOK(Apply(s, ReadPage))
  {
    var t, ls := Apply(s, ReadPage), s.pass.ls;
    CursorStays(s, t, ls);
    PageIsWhole(s, ls);
    TodoStays(s, t, ls, t.pass.todo);
  }

  lemma ReadKeepsRest(s: State)
    requires QueueOK(s) && LiveOK(s) && DbOK(s) && Enabled(s, ReadPage)
    ensures QueueOK(Apply(s, ReadPage)) && LiveOK(Apply(s, ReadPage)) && DbOK(Apply(s, ReadPage))
    ensures !s.q.catchingUp && Complete(s) ==> Complete(Apply(s, ReadPage))
  {
    var t := Apply(s, ReadPage);
    assert Grows(s, t);
    QueueStays(s, t);
    DbStays(s, t);
    if !s.q.catchingUp && Complete(s) { CompleteStays(s, t); }
  }

  lemma ReadKeeps(s: State)
    requires Inv(s) && Enabled(s, ReadPage)
    ensures Inv(Apply(s, ReadPage))
  {
    if Owed(s.recorded, s.marks, s.pass.ls) == [] { ReadEmpty(s); } else { ReadRows(s); }
    ReadKeepsRest(s);
  }

  /** Moving the cursor to the front event of the page, once that event is settled. */
  lemma CursorMoves(s: State, t: State, ls: int, todo: seq<Event>)
    requires CursorOK(s, ls) && TodoOK(s, ls, todo) && todo != []
    requires Grows(s, t) && t.base == s.base && Settled(t, todo[0])
    ensures CursorOK(t, todo[0].pdu.ordering)
  {
    var o := todo[0].pdu.ordering;
    assert todo[0] in s.recorded;
    forall e | e in t.recorded && t.base < e.pdu.ordering <= o ensures Settled(t, e) {
      if e.pdu.ordering > ls && e in todo {
        var i :| 0 <= i < |todo| && todo[i] == e;
        assert i == 0;
      } else if e.pdu.ordering <= ls {
        assert Settled(s, e);
      }
    }
  }

  lemma TodoMoves(s: State, t: State, ls: int, todo: seq<Event>)
    requires TodoOK(s, ls, todo) && todo != [] && Grows(s, t)
    ensures TodoOK(t, todo[0].pdu.ordering, todo[1..])
  {
    var rest, o := todo[1..], todo[0].pdu.ordering;
    assert forall i :: 0 <= i < |rest| ==> rest[i] == todo[i + 1];
    forall e | e in t.recorded && rest != [] && o < e.pdu.ordering <= rest[|rest| - 1].pdu.ordering
      ensures e in rest || Superseded(t, e)
    {
      if e in todo {
        var i :| 0 <= i < |todo| && todo[i] == e;
        assert rest[i - 1] == e;
      }
    }
  }

  lemma AdvanceKeepsPass(s: State, a: Action)
    requires PassOK(s) && Enabled(s, a) && (a.StepOver? || a.SendOk?)
    ensures PassOK(Apply(s, a))
  {
    var t := Apply(s, a);
    assert Grows(s, t);
    CursorMoves(s, t, s.pass.ls, s.pass.todo);
    TodoMoves(s, t, s.pass.ls, s.pass.todo);
  }

  lemma AdvanceKeepsQueue(s: State, a: Action)
    requires QueueOK(s) && LiveOK(s) && Enabled(s, a) && (a.StepOver? || a.SendOk?)
    requires HasOrdering(s.recorded, s.pass.todo[0].pdu.ordering)
    ensures QueueOK(Apply(s, a)) && LiveOK(Apply(s, a))
  {
    QueueStays(s, Apply(s, a));
  }

  lemma AdvanceKeepsComplete(s: State, a: Action)
    requires Complete(s) && Enabled(s, a) && (a.StepOver? || a.SendOk?)
    ensures Complete(Apply(s, a))
  {
    CompleteStays(s, Apply(s, a));
  }

  lemma AdvanceKeeps(s: State, a: Action)
    requires Inv(s) && Enabled(s, a) && (a.StepOver? || a.SendOk?)
    ensures Inv(Apply(s, a))
  {
    assert HasOrdering(s.recorded, s.pass.todo[0].pdu.ordering) by { assert s.pass.todo[0] in s.recorded; }
    AdvanceKeepsPass(s, a);
    AdvanceKeepsDb(s, a);
    AdvanceKeepsQueue(s, a);
    if !s.q.catchingUp { AdvanceKeepsComplete(s, a); }
  }

  lemma AdvanceKeepsDb(s: State, a: Action)
    requires DbOK(s) && Enabled(s, a) && (a.StepOver? || a.SendOk?)
    requires HasOrdering(s.recorded, s.pass.todo[0].pdu.ordering)
    requires CursorOK(Apply(s, a), s.pass.todo[0].pdu.ordering)
    ensures DbOK(Apply(s, a))
  {
    var t := Apply(s, a);
    assert Grows(s, t);
    if s.clean { assert NoGap(t, s.db); }
  }

  predicate MovesOnly(a: Action) {
    a.StopPass? || a.SendBegins? || a.SendFails? || a.PageDone?
  }

  lemma MoveKeepsPass(s: State, a: Action)
    requires PassOK(s) && Enabled(s, a) && MovesOnly(a)
    ensures PassOK(Apply(s, a))
  {
    var t := Apply(s, a);
    assert Grows(s, t);
    CursorStays(s, t, s.pass.ls);
    if s.pass.InPage? || s.pass.SendingOne? { TodoStays(s, t, s.pass.ls, s.pass.todo); }
  }

  lemma MoveKeepsRest(s: State, a: Action)
    requires QueueOK(s) && LiveOK(s) && DbOK(s) && Enabled(s, a) && MovesOnly(a)
    ensures QueueOK(Apply(s, a)) && LiveOK(Apply(s, a)) && DbOK(Apply(s, a))
    ensures Complete(s) ==> Complete(Apply(s, a))
  {
    var t := Apply(s, a);
    assert Grows(s, t);
    QueueStays(s, t);
    DbStays(s, t);
    if Complete(s) { CompleteStays(s, t); }
  }

  lemma MoveKeeps(s: State, a: Action)
    requires Inv(s) && Enabled(s, a) && MovesOnly(a)
    ensures Inv(Apply(s, a))
  {
    MoveKeepsPass(s, a);
    MoveKeepsRest(s, a);
  }

  lemma TakeKeepsPass(s: State)
    requires PassOK(s) && Enabled(s, TakeSkipped)
    ensures Grows(s, Apply(s, TakeSkipped)) && PassOK(Apply(s, TakeSkipped))
  {
    CursorStays(s, Apply(s, TakeSkipped), s.pass.ls);
  }

  lemma TakeKeepsRest(s: State)
    requires QueueOK(s) && LiveOK(s) && DbOK(s) && Enabled(s, TakeSkipped)
    ensures QueueOK(Apply(s, TakeSkipped)) && LiveOK(Apply(s, TakeSkipped)) && DbOK(Apply(s, TakeSkipped))
    ensures !s.q.catchingUp && Complete(s) ==> Complete(Apply(s, TakeSkipped))
  {
    var t := Apply(s, TakeSkipped);
    assert Grows(s, t);
    QueueStays(s, t);
    DbStays(s, t);
    if !s.q.catchingUp && Complete(s) { CompleteStays(s, t); }
  }

  lemma TakeKeeps(s: State)
    requires Inv(s) && Enabled(s, TakeSkipped)
    ensures Inv(Apply(s, TakeSkipped))
  {
    TakeKeepsPass(s);
    TakeKeepsRest(s);
  }

  lemma FinishCompletes(s: State)
    requires PassOK(s) && QueueOK(s) && s.q.catchingUp && Enabled(s, Finish)
    ensures Complete(Apply(s, Finish))
  {
    var t, ls := Apply(s, Finish), s.pass.ls;
    forall e | e in t.recorded && t.from < e.pdu.ordering ensures Accounted(t, e) {
      if e.pdu.ordering <= ls {
        assert Settled(s, e);
      } else if e.pdu.ordering in s.enqueued && !OnLivePath(s, e.pdu) {
        assert e.pdu.ordering in s.skippedAll;
      }
    }
  }

  lemma FinishKeepsRest(s: State)
    requires QueueOK(s) && LiveOK(s) && DbOK(s) && Enabled(s, Finish)
    ensures QueueOK(Apply(s, Finish)) && LiveOK(Apply(s, Finish)) && DbOK(Apply(s, Finish))
    ensures !s.q.catchingUp && Complete(s) ==> Complete(Apply(s, Finish))
  {
    var t := Apply(s, Finish);
    QueueStays(s, t);
    DbStays(s, t);
    if !s.q.catchingUp && Complete(s) { CompleteStays(s, t); }
  }

  lemma FinishKeeps(s: State)
    requires Inv(s) && Enabled(s, Finish)
    ensures Inv(Apply(s, Finish))
  {
    FinishKeepsRest(s);
    if s.q.catchingUp { FinishCompletes(s); }
  }

  lemma LiveKeepsPass(s: State, a: Action)
    requires PassOK(s) && Enabled(s, a) && (a.LiveStarts? || a.LiveTakes? || a.LiveStops?)
    ensures Grows(s, Apply(s, a)) && PassOK(Apply(s, a))
  {
    PassStays(s, Apply(s, a));
  }

  lemma LiveKeepsQueue(s: State, a: Action)
    requires QueueOK(s) && LiveOK(s) && Enabled(s, a) && (a.LiveStarts? || a.LiveTakes? || a.LiveStops?)
    ensures QueueOK(Apply(s, a)) && LiveOK(Apply(s, a))
  {
    var t := Apply(s, a);
    assert Grows(s, t);
    QueueStays(s, t);
  }

  lemma LiveKeeps(s: State, a: Action)
    requires Inv(s) && Enabled(s, a) && (a.LiveStarts? || a.LiveTakes? || a.LiveStops?)
    ensures Inv(Apply(s, a))
  {
    var t := Apply(s, a);
    LiveKeepsPass(s, a);
    LiveKeepsQueue(s, a);
    DbStays(s, t);
    if !s.q.catchingUp { CompleteStays(s, t); }
  }

  lemma DeliverPath(s: State, a: Action)
    requires LiveOK(s) && Enabled(s, a) && (a.LiveDelivers? || a.LiveDequeues?)
    ensures forall p :: OnLivePath(Apply(s, a), p) <==> OnLivePath(s, p)
    ensures LiveOK(Apply(s, a))
  {
    var t, b := Apply(s, a), s.live.batch;
    assert forall p :: p in b ==> p in s.q.pdus;
    if a.LiveDequeues? {
      assert s.q.pdus == b + t.q.pdus;
    }
  }

  lemma DeliverKeepsDb(s: State, a: Action)
    requires DbOK(s) && QueueOK(s) && LiveOK(s) && Enabled(s, a) && (a.LiveDelivers? || a.LiveDequeues?)
    ensures DbOK(Apply(s, a))
  {
    var b := s.live.batch;
    if a.LiveDelivers? && b != [] {
      assert OnLivePath(s, b[|b| - 1]);
      assert HasPDU(s.recorded, b[|b| - 1]);
      assert HasOrdering(s.recorded, b[|b| - 1].ordering);
    }
    if s.clean { assert NoGap(s, s.db); }
  }

  lemma DeliverKeepsRest(s: State, a: Action)
    requires QueueOK(s) && LiveOK(s) && PassOK(s) && Enabled(s, a) && (a.LiveDelivers? || a.LiveDequeues?)
    ensures QueueOK(Apply(s, a)) && LiveOK(Apply(s, a)) && PassOK(Apply(s, a))
    ensures Complete(s) ==> Complete(Apply(s, a))
  {
    var t := Apply(s, a);
    DeliverPath(s, a);
    assert Grows(s, t);
    PassStays(s, t);
    QueueStays(s, t);
    if Complete(s) { CompleteStays(s, t); }
  }

  lemma DeliverKeeps(s: State, a: Action)
    requires Inv(s) && Enabled(s, a) && (a.LiveDelivers? || a.LiveDequeues?)
    ensures Inv(Apply(s, a))
  {
    DeliverKeepsRest(s, a);
    DeliverKeepsDb(s, a);
  }

  // ---------- recording ----------

  lemma StillThere(a: seq<Event>, e: Event)
    ensures forall o :: HasOrdering(a, o) ==> HasOrdering(a + [e], o)
    ensures forall p :: HasPDU(a, p) ==> HasPDU(a + [e], p)
    ensures forall r, o :: Backed(a, r, o) ==> Backed(a + [e], r, o)
  {
    assert forall x :: x in a ==> x in a + [e];
  }

  lemma RecordedLater(s: State, e: Event, o: int)
    requires Enabled(s, Record(e)) && HasOrdering(s.recorded, o)
    ensures o < e.pdu.ordering
  {
    var x :| x in s.recorded && x.pdu.ordering == o;
  }

  lemma RecordKeepsRecord(s: State, e: Event)
    requires RecordOK(s.recorded, s.marks) && Enabled(s, Record(e))
    ensures RecordOK(Apply(s, Record(e)).recorded, Apply(s, Record(e)).marks)
  {
    var t := Apply(s, Record(e));
    StillThere(s.recorded, e);
    assert e in t.recorded;
    assert Backed(t.recorded, e.pdu.room, e.pdu.ordering);
    forall x | x in t.recorded ensures x.pdu.room in t.marks && x.pdu.ordering <= t.marks[x.pdu.room] {
      assert x == e || x in s.recorded;
    }
  }

  lemma RecordKeepsCursor(s: State, e: Event, c: int)
    requires RecordOK(s.recorded, s.marks) && Enabled(s, Record(e)) && CursorOK(s, c)
    ensures CursorOK(Apply(s, Record(e)), c)
  {
    var t := Apply(s, Record(e));
    StillThere(s.recorded, e);
    if c != s.base { RecordedLater(s, e, c); }
    forall x | x in t.recorded && t.base < x.pdu.ordering <= c ensures Settled(t, x) {
      assert x in s.recorded && Settled(s, x);
      if Superseded(s, x) { RecordRaisesMark(s, e, x.pdu.room); }
    }
  }

  lemma RecordRaisesMark(s: State, e: Event, room: string)
    requires RecordOK(s.recorded, s.marks) && Enabled(s, Record(e)) && room in s.marks
    ensures room in Apply(s, Record(e)).marks && s.marks[room] <= Apply(s, Record(e)).marks[room]
  {
    if room == e.pdu.room {
      assert Backed(s.recorded, room, s.marks[room]);
      RecordedLater(s, e, s.marks[room]);
    }
  }

  lemma RecordKeepsTodo(s: State, e: Event, ls: int, todo: seq<Event>)
    requires RecordOK(s.recorded, s.marks) && Enabled(s, Record(e)) && TodoOK(s, ls, todo)
    ensures TodoOK(Apply(s, Record(e)), ls, todo)
  {
    var t := Apply(s, Record(e));
    if todo != [] { assert todo[|todo| - 1] in s.recorded; }
    forall x | x in t.recorded && todo != [] && ls < x.pdu.ordering <= todo[|todo| - 1].pdu.ordering
      ensures x in todo || Superseded(t, x)
    {
      assert x in s.recorded;
      if Superseded(s, x) { RecordRaisesMark(s, e, x.pdu.room); }
    }
  }

  lemma RecordKeepsPass(s: State, e: Event)
    requires RecordOK(s.recorded, s.marks) && PassOK(s) && Enabled(s, Record(e))
    ensures PassOK(Apply(s, Record(e)))
  {
    if !s.pass.Away? { RecordKeepsCursor(s, e, s.pass.ls); }
    if s.pass.InPage? || s.pass.SendingOne? { RecordKeepsTodo(s, e, s.pass.ls, s.pass.todo); }
  }

  lemma RecordKeepsQueue(s: State, e: Event)
    requires QueueOK(s) && Enabled(s, Record(e))
    ensures QueueOK(Apply(s, Record(e)))
  {
    var t := Apply(s, Record(e));
    StillThere(s.recorded, e);
    forall x | x in t.recorded && x.pdu.ordering in t.enqueued
      ensures OnLivePath(t, x.pdu) || x.pdu.ordering in t.skippedAll
    {
      if x !in s.recorded {
        RecordedLater(s, e, e.pdu.ordering);
      }
    }
  }

  lemma RecordKeepsComplete(s: State, e: Event)
    requires RecordOK(s.recorded, s.marks) && QueueOK(s) && Complete(s) && Enabled(s, Record(e))
    ensures Complete(Apply(s, Record(e)))
  {
    var t := Apply(s, Record(e));
    StillThere(s.recorded, e);
    if s.upTo != s.from { RecordedLater(s, e, s.upTo); }
    forall x | x in t.recorded && t.from < x.pdu.ordering ensures Accounted(t, x) {
      if x in s.recorded { RecordKeepsAccounted(s, e, x); } else { NewIsAccounted(s, e); }
    }
  }

  lemma RecordKeepsAccounted(s: State, e: Event, x: Event)
    requires RecordOK(s.recorded, s.marks) && Accounted(s, x) && Enabled(s, Record(e))
    ensures Accounted(Apply(s, Record(e)), x)
  {
    if Superseded(s, x) { RecordRaisesMark(s, e, x.pdu.room); }
  }

  lemma NewIsAccounted(s: State, e: Event)
    requires QueueOK(s) && Enabled(s, Record(e)) && s.from < e.pdu.ordering
    requires s.upTo == s.from || HasOrdering(s.recorded, s.upTo)
    ensures Accounted(Apply(s, Record(e)), e)
  {
    if s.upTo != s.from { RecordedLater(s, e, s.upTo); }
    if e.pdu.ordering in s.enqueued { RecordedLater(s, e, e.pdu.ordering); }
  }

  lemma RecordKeeps(s: State, e: Event)
    requires Inv(s) && Enabled(s, Record(e))
    ensures Inv(Apply(s, Record(e)))
  {
    RecordKeepsRecord(s, e);
    RecordKeepsPass(s, e);
    RecordKeepsQueue(s, e);
    if !s.q.catchingUp { RecordKeepsComplete(s, e); }
    RecordKeepsDb(s, e);
  }

  lemma RecordKeepsDb(s: State, e: Event)
    requires RecordOK(s.recorded, s.marks) && DbOK(s) && Enabled(s, Record(e))
    ensures DbOK(Apply(s, Record(e)))
  {
    StillThere(s.recorded, e);
    if s.clean { RecordKeepsCursor(s, e, s.db); }
  }

  lemma StepKeeps(s: State, a: Action)
    requires Inv(s) && Enabled(s, a)
    ensures Inv(Apply(s, a))
  {
    match a
    case Record(e) => RecordKeeps(s, e);
    case Enqueue(k) => EnqueueKeeps(s, k);
    case StartPass => StartKeeps(s);
    case ReadPage => ReadKeeps(s);
    case StepOver => AdvanceKeeps(s, a);
    case SendOk(_) => AdvanceKeeps(s, a);
    case TakeSkipped => TakeKeeps(s);
    case Finish => FinishKeeps(s);
    case LiveDelivers(_) => DeliverKeeps(s, a);
    case LiveDequeues => DeliverKeeps(s, a);
    case StopPass => MoveKeeps(s, a);
    case SendBegins => MoveKeeps(s, a);
    case SendFails => MoveKeeps(s, a);
    case PageDone => MoveKeeps(s, a);
    case _ => LiveKeeps(s, a);
  }

  // ---------- every run ----------

  /** A destination assumed to be behind: owed rows of any earlier life, a persisted
      cursor, and nothing queued. */
  ghost predicate Startup(s: State) {
    && s.q.catchingUp && s.q.pdus == [] && s.live.LiveOff? && s.pass.Away?
    && RecordOK(s.recorded, s.marks)
    && s.enqueued == {} && s.skippedAll == {} && s.windowed == {} && s.caught == {} && s.lost == {}
    && s.delivered == [] && s.base == s.db && s.db >= 0 && s.clean && s.passedOver == {}
  }

  ghost predicate Steps(s: State, a: Action, t: State) {
    Enabled(s, a) && t == Apply(s, a)
  }

  ghost predicate Runs(s0: State, run: seq<Action>, s: State) {
    if run == [] then s == s0
    else
      var n := |run| - 1;
      exists before :: Runs(s0, run[..n], before) && Steps(before, run[n], s)
  }

  lemma {:induction false} RunsKeep(s0: State, run: seq<Action>, s: State)
    requires Startup(s0) && Runs(s0, run, s)
    ensures Inv(s)
  {
    if run != [] {
      var n := |run| - 1;
      var before :| Runs(s0, run[..n], before) && Steps(before, run[n], s);
      RunsKeep(s0, run[..n], before);
      StepKeeps(before, run[n]);
    }
  }

  /** Once catch-up has finished, every event recorded above the cursor it answers
      from is accounted for, in every interleaving and over any number of passes cut
      short: up to its last cursor it was sent, overtaken in its room or unsendable;
      above it, everything handed to the queue is on the live path or already sent,
      but for what was dropped between the two lock sections of the finish. */
  lemma HandoverIsComplete(s0: State, run: seq<Action>, s: State, e: Event)
    requires Startup(s0) && Runs(s0, run, s) && !s.q.catchingUp
    requires e in s.recorded && s.from < e.pdu.ordering
    ensures if e.pdu.ordering <= s.upTo then Settled(s, e)
            else Handed(s, e) || e.pdu.ordering !in s.enqueued || e.pdu.ordering in s.lost
  {
    RunsKeep(s0, run, s);
    assert Accounted(s, e);
  }

  /** Exactly what the finish loses: of the events handed to the queue that are still
      their room's newest and sendable, those dropped above the cursor since
      TakeCatchUpSkipped, and no others. Had the two critical sections been one, there
      would be none. */
  lemma FinishLosesExactlyTheWindow(s0: State, run: seq<Action>, s: State, e: Event)
    requires Startup(s0) && Runs(s0, run, s) && s.q.catchingUp && Enabled(s, Finish)
    requires e in s.recorded && s.base < e.pdu.ordering && e.pdu.ordering in s.enqueued
    requires e.sendable && !Superseded(s, e)
    ensures Handed(Apply(s, Finish), e) <==> !(e.pdu.ordering in s.windowed && e.pdu.ordering > s.pass.ls)
  {
    RunsKeep(s0, run, s);
    if e.pdu.ordering <= s.pass.ls {
      assert Settled(s, e);
    } else if OnLivePath(s, e.pdu) {
      assert false;
    } else {
      assert e.pdu.ordering in s.skippedAll;
    }
  }

  /** What the queue's own skipped mark knows of the window between the two sections. */
  ghost predicate WindowOK(s: State) {
    s.pass.Finishing? ==>
      && (forall o :: o in s.windowed ==> o <= s.q.skipped && o in s.enqueued)
      && (s.q.skipped == 0 || s.q.skipped in s.windowed)
  }

  lemma WindowStays(s: State, a: Action)
    requires WindowOK(s) && QueueOK(s) && Enabled(s, a)
    ensures WindowOK(Apply(s, a))
  {
    if !a.Enqueue? && !a.TakeSkipped? { WindowUntouched(s, a); }
  }

  lemma WindowUntouched(s: State, a: Action)
    requires Enabled(s, a) && !a.Enqueue? && !a.TakeSkipped?
    ensures var t := Apply(s, a);
            t.windowed == s.windowed && t.q.skipped == s.q.skipped && t.enqueued == s.enqueued &&
            (t.pass.Finishing? ==> s.pass.Finishing?)
  {
  }

  lemma CursorsStay(s: State, a: Action)
    requires s.db >= 0 && s.base >= 0 && Enabled(s, a)
    ensures Apply(s, a).db >= 0 && Apply(s, a).base >= 0
  {
  }

  lemma {:induction false} RunsKeepWindow(s0: State, run: seq<Action>, s: State)
    requires Startup(s0) && Runs(s0, run, s)
    ensures WindowOK(s) && s.db >= 0 && s.base >= 0
  {
    if run != [] {
      var n := |run| - 1;
      var before :| Runs(s0, run[..n], before) && Steps(before, run[n], s);
      RunsKeepWindow(s0, run[..n], before);
      RunsKeep(s0, run[..n], before);
      WindowStays(before, run[n]);
      CursorsStay(before, run[n]);
    }
  }

  /** Handed to the queue, above the cursor catch-up stopped at, and with neither sender. */
  ghost predicate FallsBetween(s: State, ls: int, e: Event) {
    && e in s.recorded && e.pdu.ordering in s.enqueued && e.pdu.ordering > ls
    && !Handed(s, e)
  }

  /** The finish loses an event exactly when the skipped mark has passed the cursor
      again since TakeCatchUpSkipped: the test that TakeCatchUpSkipped's caller makes,
      one critical section too early. */
  lemma FinishLosesIff(s0: State, run: seq<Action>, s: State)
    requires Startup(s0) && Runs(s0, run, s) && s.q.catchingUp && Enabled(s, Finish)
    ensures (exists e :: FallsBetween(Apply(s, Finish), s.pass.ls, e)) <==> s.q.skipped > s.pass.ls
  {
    RunsKeep(s0, run, s);
    RunsKeepWindow(s0, run, s);
    var t, ls := Apply(s, Finish), s.pass.ls;
    if e :| FallsBetween(t, ls, e) { FallenIsSkipped(s, e); }
    if s.q.skipped > ls {
      var e := SkippedFalls(s);
      assert FallsBetween(t, ls, e);
    }
  }

  lemma FallenIsSkipped(s: State, e: Event)
    requires PassOK(s) && QueueOK(s) && WindowOK(s) && Enabled(s, Finish)
    requires FallsBetween(Apply(s, Finish), s.pass.ls, e)
    ensures s.q.skipped > s.pass.ls
  {
    assert !OnLivePath(s, e.pdu);
    assert e.pdu.ordering in s.skippedAll;
  }

  lemma SkippedFalls(s: State) returns (e: Event)
    requires PassOK(s) && QueueOK(s) && WindowOK(s) && s.q.catchingUp && Enabled(s, Finish)
    requires s.q.skipped > s.pass.ls >= 0
    ensures FallsBetween(Apply(s, Finish), s.pass.ls, e)
  {
    assert HasOrdering(s.recorded, s.q.skipped);
    e :| e in s.recorded && e.pdu.ordering == s.q.skipped;
    assert !OnLivePath(s, e.pdu);
  }

  // ---------- rows a pass starts above ----------

  /** From where the process started to where catch-up answers from, a row is settled
      or was passed over, never both. */
  ghost predicate PassedOK(s: State, start: int) {
    && (s.base == start || HasOrdering(s.recorded, s.base))
    && (forall o :: o in s.passedOver ==> o <= s.base && o !in s.caught)
    && (forall e :: e in s.recorded && start < e.pdu.ordering <= s.base ==>
          Settled(s, e) || e.pdu.ordering in s.passedOver)
    && (!s.q.catchingUp ==> s.from <= s.base)
  }

  lemma NotOwingIsSettled(s: State, e: Event)
    requires RecordOK(s.recorded, s.marks) && e in s.recorded && !Owing(s, e)
    ensures Settled(s, e)
  {
  }

  lemma StartKeepsPassed(s: State, start: int)
    requires PassedOK(s, start) && DbOK(s) && RecordOK(s.recorded, s.marks) && Enabled(s, StartPass)
    ensures PassedOK(Apply(s, StartPass), start)
  {
    var t := Apply(s, StartPass);
    forall e | e in t.recorded && start < e.pdu.ordering <= t.base
      ensures Settled(t, e) || e.pdu.ordering in t.passedOver
    {
      if e.pdu.ordering > s.base && !Owing(s, e) { NotOwingIsSettled(s, e); }
    }
  }

  lemma SendKeepsPassed(s: State, persisted: bool, start: int)
    requires PassedOK(s, start) && PassOK(s) && Enabled(s, SendOk(persisted))
    ensures PassedOK(Apply(s, SendOk(persisted)), start)
  {
    assert s.pass.todo[0].pdu.ordering > s.base;
  }

  lemma RecordKeepsPassed(s: State, e: Event, start: int)
    requires PassedOK(s, start) && RecordOK(s.recorded, s.marks) && Enabled(s, Record(e))
    ensures PassedOK(Apply(s, Record(e)), start)
  {
    var t := Apply(s, Record(e));
    StillThere(s.recorded, e);
    if s.base != start { RecordedLater(s, e, s.base); }
    forall x | x in t.recorded && start < x.pdu.ordering <= t.base
      ensures Settled(t, x) || x.pdu.ordering in t.passedOver
    {
      assert x in s.recorded;
      if Superseded(s, x) { RecordRaisesMark(s, e, x.pdu.room); }
    }
  }

  lemma OtherKeepsPassed(s: State, a: Action, start: int)
    requires PassedOK(s, start) && Enabled(s, a) && !a.StartPass? && !a.SendOk? && !a.Record?
    ensures PassedOK(Apply(s, a), start)
  {
    var t := Apply(s, a);
    assert t.recorded == s.recorded && t.marks == s.marks && t.caught == s.caught;
    assert t.base == s.base && t.passedOver == s.passedOver;
  }

  lemma {:induction false} RunsKeepPassed(s0: State, run: seq<Action>, s: State)
    requires Startup(s0) && Runs(s0, run, s)
    ensures PassedOK(s, s0.db)
  {
    if run != [] {
      var n := |run| - 1;
      var before :| Runs(s0, run[..n], before) && Steps(before, run[n], s);
      RunsKeepPassed(s0, run[..n], before);
      RunsKeep(s0, run[..n], before);
      PassedStep(before, run[n], s0.db);
    }
  }

  lemma PassedStep(s: State, a: Action, start: int)
    requires Inv(s) && PassedOK(s, start) && Enabled(s, a)
    ensures PassedOK(Apply(s, a), start)
  {
    match a
    case StartPass => StartKeepsPassed(s, start);
    case SendOk(persisted) => SendKeepsPassed(s, persisted, start);
    case Record(e) => RecordKeepsPassed(s, e, start);
    case _ => OtherKeepsPassed(s, a, start);
  }

  /** What becomes of each row above the cursor the process started from and up to the
      one catch-up finished at, whether or not that cursor was known: a row still its
      room's newest and sendable was sent by catch-up exactly when no pass started
      above it, and so reaches the destination exactly when that holds or the live
      path has it. */
  lemma CaughtIffNotPassedOver(s0: State, run: seq<Action>, s: State, e: Event)
    requires Startup(s0) && Runs(s0, run, s) && !s.q.catchingUp
    requires e in s.recorded && s0.db < e.pdu.ordering <= s.upTo && Current(s.marks, e) && e.sendable
    ensures e.pdu.ordering in s.caught <==> e.pdu.ordering !in s.passedOver
    ensures Handed(s, e) <==> OnLivePath(s, e.pdu) || e.pdu.ordering !in s.passedOver
  {
    RunsKeep(s0, run, s);
    RunsKeepPassed(s0, run, s);
    if e.pdu.ordering > s.from { assert Accounted(s, e); }
  }

  /** Exactly when the start of a pass leaves a row behind: one is owed between the
      cursor catch-up answered from until now and the persisted cursor it is about to
      start at. Those rows, and no others, are left behind. */
  lemma StartPassesOverIff(s0: State, run: seq<Action>, s: State)
    requires Startup(s0) && Runs(s0, run, s) && Enabled(s, StartPass)
    ensures Apply(s, StartPass).passedOver == s.passedOver + Between(s) && s.passedOver !! Between(s)
    ensures Apply(s, StartPass).passedOver != s.passedOver <==>
            exists e :: e in Owed(s.recorded, s.marks, s.base) && e.pdu.ordering <= s.db &&
                        e.sendable && e.pdu.ordering !in s.caught
  {
    RunsKeep(s0, run, s);
    RunsKeepPassed(s0, run, s);
    NewlyPassed(s, s0.db);
    BetweenIsOwed(s);
    if s.clean { NothingBetween(s); }
  }

  lemma NewlyPassed(s: State, start: int)
    requires PassedOK(s, start)
    ensures s.passedOver !! Between(s)
    ensures s.passedOver + Between(s) != s.passedOver <==> Between(s) != {}
  {
    if o :| o in Between(s) { assert o in s.passedOver + Between(s); }
  }

  /** A cursor that no live send has moved stands above nothing that is owed. */
  lemma NothingBetween(s: State)
    requires s.clean && NoGap(s, s.db)
    ensures Between(s) == {}
  {
    forall e | e in s.recorded && s.base < e.pdu.ordering <= s.db ensures !Owing(s, e) {
      assert Settled(s, e);
    }
  }

  lemma BetweenIsOwed(s: State)
    ensures Between(s) != {} <==>
            exists e :: e in Owed(s.recorded, s.marks, s.base) && e.pdu.ordering <= s.db &&
                        e.sendable && e.pdu.ordering !in s.caught
  {
    if e :| e in Owed(s.recorded, s.marks, s.base) && e.pdu.ordering <= s.db && e.sendable &&
            e.pdu.ordering !in s.caught {
      assert e.pdu.ordering in Between(s);
    }
    if o :| o in Between(s) {
      var e :| e in s.recorded && Owing(s, e) && s.base < e.pdu.ordering <= s.db && e.pdu.ordering == o;
      assert e in Owed(s.recorded, s.marks, s.base);
    }
  }

  /** Catch-up answers from the cursor it was given, if that cursor was known before
      anything could be queued. */
  ghost predicate KnownStart(s: State, start: int) {
    && s.q.known
    && (s.q.catchingUp ==>
          s.q.pdus == [] && s.clean && s.base == start &&
          (s.live.LiveSending? || s.live.LiveSent? ==> s.live.batch == []))
    && (!s.q.catchingUp ==> s.from == start)
  }

  lemma KnownStartStays(s: State, a: Action, start: int)
    requires KnownStart(s, start) && Enabled(s, a)
    ensures KnownStart(Apply(s, a), start)
  {
    if s.q.catchingUp { KnownWhileBehind(s, a, start); }
  }

  lemma KnownWhileBehind(s: State, a: Action, start: int)
    requires KnownStart(s, start) && s.q.catchingUp && Enabled(s, a)
    ensures KnownStart(Apply(s, a), start)
  {
  }

  lemma {:induction false} KnownCursorIsTheStart(s0: State, run: seq<Action>, s: State)
    requires Startup(s0) && s0.q.known && Runs(s0, run, s)
    ensures KnownStart(s, s0.db)
  {
    if run != [] {
      var n := |run| - 1;
      var before :| Runs(s0, run[..n], before) && Steps(before, run[n], s);
      KnownCursorIsTheStart(s0, run[..n], before);
      KnownStartStays(before, run[n], s0.db);
    }
  }

  /** Runs in which no event reaches the queue between the two sections of the finish. */
  ghost predicate AtomicRuns(s0: State, run: seq<Action>, s: State) {
    if run == [] then s == s0
    else
      var n := |run| - 1;
      exists before :: AtomicRuns(s0, run[..n], before) && Steps(before, run[n], s) &&
                       !(run[n].Enqueue? && before.pass.Finishing?)
  }

  lemma WindowStaysEmpty(s: State, a: Action)
    requires s.windowed == {} && s.lost == {} && Enabled(s, a) && !(a.Enqueue? && s.pass.Finishing?)
    ensures Apply(s, a).windowed == {} && Apply(s, a).lost == {}
  {
  }

  lemma {:induction false} AtomicRunsLoseNothing(s0: State, run: seq<Action>, s: State)
    requires Startup(s0) && AtomicRuns(s0, run, s)
    ensures Runs(s0, run, s) && s.windowed == {} && s.lost == {}
  {
    if run != [] {
      var n := |run| - 1;
      var before :| AtomicRuns(s0, run[..n], before) && Steps(before, run[n], s) &&
                    !(run[n].Enqueue? && before.pass.Finishing?);
      AtomicRunsLoseNothing(s0, run[..n], before);
      WindowStaysEmpty(before, run[n]);
    }
  }

  /** The handover: from a known cursor, with the finish taken as one step, nothing
      recorded above the cursor falls between catch-up and the live path. */
  lemma NothingFallsBetween(s0: State, run: seq<Action>, s: State, e: Event)
    requires Startup(s0) && s0.q.known && AtomicRuns(s0, run, s) && !s.q.catchingUp
    requires e in s.recorded && s0.db < e.pdu.ordering
    ensures Settled(s, e) || Handed(s, e) || e.pdu.ordering !in s.enqueued
    ensures e.pdu.ordering !in s.enqueued && !Settled(s, e) ==> e.pdu.ordering > s.upTo
  {
    AtomicRunsLoseNothing(s0, run, s);
    KnownCursorIsTheStart(s0, run, s);
    HandoverIsComplete(s0, run, s, e);
  }
}
