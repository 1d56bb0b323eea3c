/** Run, the transmission loop of one destination, as it works on the queue's fields.
    What it cannot see is given turn by turn: the backoff gate, the remote's answer, and
    what producers queue while a transaction is on its way. Ran is the loop as a function
    of those; the methods are proved to compute it, and the lemmas say what it keeps. */
module TransmissionLoop {
  import opened Units
  import opened DestinationQueue
  import opened DurableUnits
  import Spec = QueueSpec

  datatype Arrival =
    | Event(pdu: PDU)
    | Marked(edu: EDU)
    | Keyed(key: string, unit: Unit)
    | Receipt(room: string, rtype: string, user: string, thread: string, content: Json)
    | Presence(user: string, state: Json)

  /** What one time round meets. hold is how many presence states end a wait for more of
      them, while such a wait is on. */
  datatype Turn = Turn(due: bool, longBackoff: bool, hold: Option<nat>, answer: Outcome, arrivals: seq<Arrival>)

  datatype Why = Drained | BackingOff | LongOutage | Held | Unencodable | SendFailed | RateLimited | Cancelled

  // ---------- what arrives ----------

  function EduOpOf(a: Arrival): Spec.EduOp
    requires !a.Event?
  {
    match a
    case Marked(e) => Spec.Append(e)
    case Keyed(key, unit) => Spec.Keyed(key, unit)
    case Receipt(room, rtype, user, thread, content) =>
      Spec.MergeReceipt(Spec.Slot(room, rtype, user), thread, content)
    case Presence(user, state) => Spec.MergePresence(user, state)
  }

  /** A producer does not wait for the loop: it queues and, finding it running, leaves word. */
  function ArriveAs(q: Spec.Queue, a: Arrival): Spec.Queue {
    Spec.TryStart(if a.Event? then Spec.EnqueuePDU(q, a.pdu) else Spec.EnqueueEDU(q, EduOpOf(a)))
  }

  function ArriveAll(q: Spec.Queue, arrivals: seq<Arrival>): (r: Spec.Queue)
    ensures q.pdus <= r.pdus && |q.edus| <= |r.edus|
  {
    if arrivals == [] then q
    else
      var n := |arrivals| - 1;
      var before := ArriveAll(q, arrivals[..n]);
      EnqueueGrows(before.edus, arrivals[n]);
      ArriveAs(before, arrivals[n])
  }

  lemma EnqueueGrows(edus: seq<EDU>, a: Arrival)
    ensures !a.Event? ==> |edus| <= |Spec.EnqueueInto(edus, EduOpOf(a))|
  {
  }

  /** The events among what arrived. */
  function Events(arrivals: seq<Arrival>): seq<PDU> {
    if arrivals == [] then []
    else
      var a := arrivals[|arrivals| - 1];
      Events(arrivals[..|arrivals| - 1]) + if a.Event? then [a.pdu] else []
  }

  function DurableUnit(a: Arrival): seq<EDU> {
    if a.Event? then [] else Fresh(EduOpOf(a))
  }

  /** The durable units among what arrived. */
  function DurableIn(arrivals: seq<Arrival>): seq<EDU> {
    if arrivals == [] then []
    else
      DurableIn(arrivals[..|arrivals| - 1]) + DurableUnit(arrivals[|arrivals| - 1])
  }

  /** What the worker's producers hand over. */
  ghost predicate ArrivalsOK(arrivals: seq<Arrival>) {
    forall a :: a in arrivals && !a.Event? ==> OpOK(EduOpOf(a))
  }

  ghost predicate TurnsOK(turns: seq<Turn>) {
    forall t :: t in turns ==> ArrivalsOK(t.arrivals)
  }

  function Arrived(turns: seq<Turn>): seq<Arrival> {
    if turns == [] then [] else Arrived(turns[..|turns| - 1]) + turns[|turns| - 1].arrivals
  }

  /** Events go to catch-up instead while it is known where to start from. */
  function Queued(q: Spec.Queue, events: seq<PDU>): seq<PDU> {
    if q.catchingUp && q.known then [] else events
  }

  // ---------- what leaves ----------

  /** The events of some transactions, and what each reports once delivered. */
  function Carried(sent: seq<Spec.Taken>): seq<PDU> {
    if sent == [] then [] else Carried(sent[..|sent| - 1]) + sent[|sent| - 1].pdus
  }

  /** The units of some transactions as they stood in the queue. */
  function Flat(from: seq<seq<EDU>>): seq<EDU> {
    if from == [] then [] else Flat(from[..|from| - 1]) + from[|from| - 1]
  }

  function Marks(sent: seq<Spec.Taken>): seq<(int, int)> {
    if sent == [] then []
    else
      var b := sent[|sent| - 1];
      Marks(sent[..|sent| - 1]) +
      if b.toDeviceUpTo > 0 || b.deviceListUpTo > 0 then [(b.toDeviceUpTo, b.deviceListUpTo)] else []
  }

  function Cursor(start: int, sent: seq<Spec.Taken>): int {
    if sent == [] then start
    else
      var before, b := Cursor(start, sent[..|sent| - 1]), sent[|sent| - 1];
      if b.pdus == [] then before else Max(before, b.pdus[|b.pdus| - 1].ordering)
  }

  /** A transaction made of these queued units, within the limits. */
  ghost predicate MadeOf(b: Spec.Taken, edus: seq<EDU>, lim: Spec.Limits) {
    && |b.pdus| <= lim.maxPDUs && |edus| <= lim.maxEDUs && (b.pdus != [] || edus != [])
    && b.edus == Spec.MaterialiseAll(edus)
    && forall lane :: Spec.TakenMark(b, lane) == Spec.MaxMark(edus, lane)
  }

  // ---------- the loop as a function ----------

  /** Where a loop has got to: the queue, the transactions delivered, the queued units
      each was made of, what producers added, and why it has stopped, if it has. */
  datatype Loop = Loop(
    q: Spec.Queue,
    sent: seq<Spec.Taken>,
    from: seq<seq<EDU>>,
    came: seq<Arrival>,
    why: Option<Why>)

  function Begin(q: Spec.Queue): Loop {
    Loop(q, [], [], [], None)
  }

  function Settled(q: Spec.Queue, b: Spec.Taken): Spec.Queue
    requires |b.pdus| <= |q.pdus| && |b.edus| <= |q.edus|
  {
    var rest := Spec.Dequeue(q, |b.pdus|, |b.edus|);
    if b.pdus == [] then rest else Spec.Delivered(rest, b.pdus[|b.pdus| - 1].ordering)
  }

  /** A turn that took a transaction's worth. */
  function TakenTurn(q: Spec.Queue, t: Turn, lim: Spec.Limits, b: Spec.Taken): Loop
    requires Spec.Take(q, lim) == Some(b)
  {
    var after := ArriveAll(q, t.arrivals);
    if b.pdus == [] && b.edus == [] then
      Loop(after, [], [], t.arrivals, if after.newData then None else Some(Drained))
    else
      match t.answer
      case Ok => Loop(Settled(after, b), [b], [Spec.EDUPrefix(q, lim)], t.arrivals, None)
      case Failed => Loop(after, [], [], t.arrivals, Some(Why.SendFailed))
      case RateLimited => Loop(after, [], [], t.arrivals, Some(Why.RateLimited))
  }

  function OneTurn(q: Spec.Queue, t: Turn, lim: Spec.Limits): Loop {
    var cleared := q.(newData := false);
    if !t.due then
      if t.longBackoff then Begin(Spec.RestartCatchUp(Spec.DropEphemeral(q))).(why := Some(LongOutage))
      else Begin(q).(why := Some(BackingOff))
    else if Spec.HeldBack(q, t.hold) then
      Begin(cleared).(why := Some(Held))
    else
      match Spec.Take(cleared, lim)
      case None => Begin(cleared).(why := Some(Unencodable))
      case Some(b) => TakenTurn(cleared, t, lim, b)
  }

  function Then(a: Loop, b: Loop): Loop {
    Loop(b.q, a.sent + b.sent, a.from + b.from, a.came + b.came, b.why)
  }

  function Ran(q: Spec.Queue, turns: seq<Turn>, lim: Spec.Limits): Loop {
    if turns == [] then Begin(q)
    else
      var before := Ran(q, turns[..|turns| - 1], lim);
      if before.why.Some? then before else Then(before, OneTurn(before.q, turns[|turns| - 1], lim))
  }

  function Ending(l: Loop): Why {
    if l.why.None? then Cancelled else l.why.value
  }

  // ---------- arrivals ----------

  lemma {:induction false} ArrivalsKeep(q: Spec.Queue, arrivals: seq<Arrival>)
    requires q.running
    ensures var r := ArriveAll(q, arrivals);
            && r.running && r.catchingUp == q.catchingUp && r.known == q.known
            && r.lastSuccessful == q.lastSuccessful && r.newData == (q.newData || arrivals != [])
            && r.pdus == q.pdus + Queued(q, Events(arrivals))
  {
    if arrivals != [] { ArrivalsKeep(q, arrivals[..|arrivals| - 1]); }
  }

  /** Wherever the queue is cut, arrivals leave the durable units before the cut alone
      and line up their own behind all the others. */
  lemma {:induction false} ArriveAtCut(q: Spec.Queue, arrivals: seq<Arrival>, n: nat)
    requires EdusOK(q.edus) && ArrivalsOK(arrivals) && n <= |q.edus|
    ensures EdusOK(ArriveAll(q, arrivals).edus)
    ensures DurableOf(ArriveAll(q, arrivals).edus[..n]) == DurableOf(q.edus[..n])
    ensures DurableOf(ArriveAll(q, arrivals).edus[n..]) == DurableOf(q.edus[n..]) + DurableIn(arrivals)
  {
    if arrivals != [] {
      var front, a := arrivals[..|arrivals| - 1], arrivals[|arrivals| - 1];
      ArriveAtCut(q, front, n);
      var before := ArriveAll(q, front);
      if !a.Event? {
        EnqueueIsAlike(before.edus, EduOpOf(a));
        EnqueueAtCut(before.edus, EduOpOf(a), n);
      }
    }
  }

  // ---------- what one turn keeps ----------

  /** What left, then what is left, is what waited, then what came. */
  ghost predicate Splits<T>(gone: seq<T>, left: seq<T>, waited: seq<T>, came: seq<T>) {
    gone + left == waited + came
  }

  /** What was delivered then what waits is what waited then what arrived, but that a
      long outage leaves what waits to catch-up. */
  ghost predicate EventsKept(q: Spec.Queue, l: Loop) {
    exists left :: EventsLeft(q, l, left)
  }

  ghost predicate EventsLeft(q: Spec.Queue, l: Loop, left: seq<PDU>) {
    && Splits(Carried(l.sent), left, q.pdus, Queued(q, Events(l.came)))
    && l.q.pdus == if l.why == Some(LongOutage) then [] else left
  }

  /** The same of durable units; a long outage keeps the marked ones of those that wait. */
  ghost predicate DurableKept(q: Spec.Queue, l: Loop) {
    EdusOK(l.q.edus) && EdusOK(Flat(l.from)) && exists left :: DurableLeft(q, l, left)
  }

  ghost predicate DurableLeft(q: Spec.Queue, l: Loop, left: seq<EDU>) {
    && Splits(DurableOf(Flat(l.from)), left, DurableOf(q.edus), DurableIn(l.came))
    && DurableOf(l.q.edus) == if l.why == Some(LongOutage) then Spec.KeepMarked(left) else left
  }

  ghost predicate BatchesOK(l: Loop, lim: Spec.Limits) {
    && |l.sent| == |l.from|
    && forall i :: 0 <= i < |l.sent| ==> MadeOf(l.sent[i], l.from[i], lim)
  }

  ghost predicate FlagsKept(q: Spec.Queue, l: Loop) {
    && l.q.running && l.q.known == q.known
    && l.q.catchingUp == (q.catchingUp || l.why == Some(LongOutage))
    && l.q.lastSuccessful == Cursor(q.lastSuccessful, l.sent)
    && (l.why == Some(Drained) ==> l.q.pdus == [] && l.q.edus == [] && !l.q.newData)
    && (l.why == Some(LongOutage) ==> forall e :: e in l.q.edus ==> !Unmarked(e))
    && (l.why == Some(Held) ==> l.q.pdus == [] && l.q.edus != [] && forall e :: e in l.q.edus ==> e.presence.Some?)
  }

  lemma One<T>(x: T)
    ensures [x][..0] == [] && [x][|[x]| - 1] == x
  {
  }

  lemma CarriedOne(b: Spec.Taken)
    ensures Carried([b]) == b.pdus
    ensures Marks([b]) == if b.toDeviceUpTo > 0 || b.deviceListUpTo > 0 then [(b.toDeviceUpTo, b.deviceListUpTo)] else []
  {
    One(b);
  }

  lemma CursorOne(b: Spec.Taken, start: int)
    ensures Cursor(start, [b]) == if b.pdus == [] then start else Max(start, b.pdus[|b.pdus| - 1].ordering)
  {
    One(b);
  }

  lemma FlatOne(edus: seq<EDU>)
    ensures Flat([edus]) == edus
  {
    One(edus);
  }

  lemma Assoc<T>(a: seq<T>, b: seq<T>, c: seq<T>)
    ensures (a + b) + c == a + (b + c)
  {
  }

  lemma DropPrefix<T>(taken: seq<T>, before: seq<T>, more: seq<T>)
    requires taken <= before
    ensures Splits(taken, (before + more)[|taken|..], before, more)
  {
    assert before == taken + before[|taken|..];
  }

  lemma NothingGone<T>(waited: seq<T>, came: seq<T>)
    ensures Splits([], waited + came, waited, came)
  {
  }

  lemma NothingCame<T>(waited: seq<T>)
    ensures Splits([], waited, waited, [])
  {
  }

  /** A stretch that delivered nothing and heard from nobody. */
  lemma QuietEvents(q: Spec.Queue, l: Loop)
    requires l.sent == [] && l.came == []
    requires l.q.pdus == if l.why == Some(LongOutage) then [] else q.pdus
    ensures EventsKept(q, l)
  {
    NothingCame(q.pdus);
    assert Carried(l.sent) == [] && Events(l.came) == [];
    assert EventsLeft(q, l, q.pdus);
  }

  lemma QuietDurable(q: Spec.Queue, l: Loop)
    requires EdusOK(q.edus) && l.from == [] && l.came == []
    requires l.q.edus == if l.why == Some(LongOutage) then Spec.KeepMarked(q.edus) else q.edus
    ensures DurableKept(q, l)
  {
    NothingCame(DurableOf(q.edus));
    assert Flat(l.from) == [] && DurableIn(l.came) == [];
    KeepMarkedIsOK(q.edus);
    DropOnDurable(q.edus);
    assert DurableLeft(q, l, DurableOf(q.edus));
  }

  lemma TakenKeepsEvents(q: Spec.Queue, t: Turn, lim: Spec.Limits, b: Spec.Taken)
    requires q.running && Spec.Take(q, lim) == Some(b)
    ensures EventsKept(q, TakenTurn(q, t, lim, b))
  {
    var l := TakenTurn(q, t, lim, b);
    if l.sent == [] { UnsettledEvents(q, t.arrivals, l); } else { SettledEvents(q, t.arrivals, l, b); }
  }

  lemma UnsettledEvents(q: Spec.Queue, arrivals: seq<Arrival>, l: Loop)
    requires q.running && l.sent == [] && l.came == arrivals && l.why != Some(LongOutage)
    requires l.q.pdus == ArriveAll(q, arrivals).pdus
    ensures EventsKept(q, l)
  {
    ArrivalsKeep(q, arrivals);
    NothingGone(q.pdus, Queued(q, Events(arrivals)));
    assert Carried(l.sent) == [];
    assert EventsLeft(q, l, l.q.pdus);
  }

  lemma SettledEvents(q: Spec.Queue, arrivals: seq<Arrival>, l: Loop, b: Spec.Taken)
    requires q.running && l.sent == [b] && l.came == arrivals && l.why != Some(LongOutage) && b.pdus <= q.pdus
    requires l.q.pdus == ArriveAll(q, arrivals).pdus[|b.pdus|..]
    ensures EventsKept(q, l)
  {
    ArrivalsKeep(q, arrivals);
    CarriedOne(b);
    DropPrefix(b.pdus, q.pdus, Queued(q, Events(arrivals)));
    assert EventsLeft(q, l, l.q.pdus);
  }

  lemma TakenKeepsFlags(q: Spec.Queue, t: Turn, lim: Spec.Limits, b: Spec.Taken)
    requires q.running && !q.newData && Spec.Take(q, lim) == Some(b)
    ensures FlagsKept(q, TakenTurn(q, t, lim, b))
  {
    var l := TakenTurn(q, t, lim, b);
    if l.sent == [] {
      if l.why == Some(Drained) { EmptyTake(q, lim, b); }
      UnsettledFlags(q, t.arrivals, l);
    } else {
      SettledFlags(q, t.arrivals, l, b);
    }
  }

  lemma UnsettledFlags(q: Spec.Queue, arrivals: seq<Arrival>, l: Loop)
    requires q.running && l.sent == [] && l.why != Some(LongOutage) && l.why != Some(Held) && l.q == ArriveAll(q, arrivals)
    requires l.why == Some(Drained) ==> q.pdus == [] && q.edus == [] && !l.q.newData
    ensures FlagsKept(q, l)
  {
    ArrivalsKeep(q, arrivals);
    assert l.why == Some(Drained) ==> arrivals == [];
  }

  lemma SettledFlags(q: Spec.Queue, arrivals: seq<Arrival>, l: Loop, b: Spec.Taken)
    requires q.running && l.sent == [b] && l.why.None? && |b.pdus| <= |q.pdus| && |b.edus| <= |q.edus|
    requires l.q == Settled(ArriveAll(q, arrivals), b)
    ensures FlagsKept(q, l)
  {
    ArrivalsKeep(q, arrivals);
    CursorOne(b, q.lastSuccessful);
  }

  lemma EmptyTake(q: Spec.Queue, lim: Spec.Limits, b: Spec.Taken)
    requires Spec.Take(q, lim) == Some(b) && b.pdus == [] && b.edus == []
    ensures q.pdus == [] && q.edus == []
  {
    assert Spec.PDUPrefix(q, lim) == [] && |Spec.EDUPrefix(q, lim)| == 0;
  }

  lemma SplitAt(edus: seq<EDU>, n: nat)
    requires n <= |edus|
    ensures DurableOf(edus) == DurableOf(edus[..n]) + DurableOf(edus[n..])
  {
    assert edus[..n] + edus[n..] == edus;
    DurableOfConcat(edus[..n], edus[n..]);
  }

  lemma TakenKeepsDurable(q: Spec.Queue, t: Turn, lim: Spec.Limits, b: Spec.Taken)
    requires Spec.Take(q, lim) == Some(b) && EdusOK(q.edus) && ArrivalsOK(t.arrivals)
    ensures DurableKept(q, TakenTurn(q, t, lim, b))
  {
    var l := TakenTurn(q, t, lim, b);
    if l.from == [] {
      UnsettledLeft(q, t.arrivals, l);
    } else {
      assert Spec.EDUPrefix(q, lim) == q.edus[..|b.edus|];
      SettledLeft(q, t.arrivals, l, |b.edus|);
    }
  }

  lemma UnsettledLeft(q: Spec.Queue, arrivals: seq<Arrival>, l: Loop)
    requires EdusOK(q.edus) && ArrivalsOK(arrivals)
    requires l.from == [] && l.came == arrivals && l.why != Some(LongOutage) && l.q.edus == ArriveAll(q, arrivals).edus
    ensures DurableKept(q, l)
  {
    ArriveAtCut(q, arrivals, 0);
    assert q.edus[0..] == q.edus && l.q.edus[0..] == l.q.edus;
    NothingGone(DurableOf(q.edus), DurableIn(arrivals));
    assert Flat(l.from) == [];
    assert DurableLeft(q, l, DurableOf(l.q.edus));
  }

  lemma SettledLeft(q: Spec.Queue, arrivals: seq<Arrival>, l: Loop, n: nat)
    requires EdusOK(q.edus) && ArrivalsOK(arrivals) && n <= |q.edus|
    requires l.from == [q.edus[..n]] && l.came == arrivals && l.why != Some(LongOutage)
    requires l.q.edus == ArriveAll(q, arrivals).edus[n..]
    ensures DurableKept(q, l)
  {
    SettledSplits(q, arrivals, n);
    FlatOne(q.edus[..n]);
    assert DurableLeft(q, l, DurableOf(l.q.edus));
  }

  /** Cutting off the front of the queue takes the oldest of its durable units. */
  lemma SettledSplits(q: Spec.Queue, arrivals: seq<Arrival>, n: nat)
    requires EdusOK(q.edus) && ArrivalsOK(arrivals) && n <= |q.edus|
    ensures n <= |ArriveAll(q, arrivals).edus| && EdusOK(ArriveAll(q, arrivals).edus[n..])
    ensures Splits(DurableOf(q.edus[..n]), DurableOf(ArriveAll(q, arrivals).edus[n..]), DurableOf(q.edus), DurableIn(arrivals))
  {
    ArriveAtCut(q, arrivals, n);
    SplitAt(q.edus, n);
    Assoc(DurableOf(q.edus[..n]), DurableOf(q.edus[n..]), DurableIn(arrivals));
  }

  lemma TakenIsMadeOf(q: Spec.Queue, t: Turn, lim: Spec.Limits, b: Spec.Taken)
    requires Spec.Take(q, lim) == Some(b)
    ensures BatchesOK(TakenTurn(q, t, lim, b), lim)
  {
  }

  /** Clearing newData changes nothing that is counted. */
  lemma ClearingKeeps(q: Spec.Queue, l: Loop)
    ensures EventsKept(q.(newData := false), l) ==> EventsKept(q, l)
    ensures DurableKept(q.(newData := false), l) ==> DurableKept(q, l)
  {
    if left :| EventsLeft(q.(newData := false), l, left) { assert EventsLeft(q, l, left); }
    if left :| DurableLeft(q.(newData := false), l, left) { assert DurableLeft(q, l, left); }
  }

  lemma TurnKeeps(q: Spec.Queue, t: Turn, lim: Spec.Limits)
    requires q.running
    ensures EventsKept(q, OneTurn(q, t, lim)) && FlagsKept(q, OneTurn(q, t, lim)) && BatchesOK(OneTurn(q, t, lim), lim)
  {
    var cleared := q.(newData := false);
    if t.due && !Spec.HeldBack(q, t.hold) && Spec.Take(cleared, lim).Some? {
      TakenKeepsEvents(cleared, t, lim, Spec.Take(cleared, lim).value);
      TakenKeepsFlags(cleared, t, lim, Spec.Take(cleared, lim).value);
      TakenIsMadeOf(cleared, t, lim, Spec.Take(cleared, lim).value);
      ClearingKeeps(q, OneTurn(q, t, lim));
    } else {
      QuietEvents(q, OneTurn(q, t, lim));
    }
  }

  lemma {:induction false} KeepMarkedIsOK(edus: seq<EDU>)
    requires EdusOK(edus)
    ensures EdusOK(Spec.KeepMarked(edus))
  {
    if edus != [] { KeepMarkedIsOK(edus[..|edus| - 1]); }
  }

  lemma TurnKeepsDurable(q: Spec.Queue, t: Turn, lim: Spec.Limits)
    requires EdusOK(q.edus) && ArrivalsOK(t.arrivals)
    ensures DurableKept(q, OneTurn(q, t, lim))
  {
    var cleared := q.(newData := false);
    if t.due && !Spec.HeldBack(q, t.hold) && Spec.Take(cleared, lim).Some? {
      TakenKeepsDurable(cleared, t, lim, Spec.Take(cleared, lim).value);
      ClearingKeeps(q, OneTurn(q, t, lim));
    } else {
      QuietDurable(q, OneTurn(q, t, lim));
    }
  }

  // ---------- what one turn does ----------

  function Least(a: int, b: int): int {
    if a < b then a else b
  }

  /** Exactly when a turn makes a transaction: the server is due, something waits, it is
      not only presence that may wait for more, and what the limit lets through encodes. */
  ghost predicate Makes(q: Spec.Queue, t: Turn, lim: Spec.Limits) {
    && t.due && (q.pdus != [] || q.edus != [])
    && (q.pdus != [] || (exists e :: e in q.edus && e.presence.None?) || t.hold.None? ||
        Spec.States(q.edus) >= t.hold.value)
    && forall i :: 0 <= i < |q.edus| && i < lim.maxEDUs ==> Encodable(q.edus[i])
  }

  /** It is delivered if the answer is good, and is then as much as the limits allow. */
  lemma TurnSendsIff(q: Spec.Queue, t: Turn, lim: Spec.Limits)
    ensures var l := OneTurn(q, t, lim);
            && (l.sent != [] <==> Makes(q, t, lim) && t.answer.Ok?)
            && (l.sent != [] ==>
                  && |l.sent| == 1 && l.sent[0].pdus == q.pdus[..Least(|q.pdus|, lim.maxPDUs)]
                  && l.from == [q.edus[..Least(|q.edus|, lim.maxEDUs)]])
  {
    var cleared := q.(newData := false);
    PrefixEncodes(cleared, lim);
    if Spec.Take(cleared, lim).Some? { TakenWhole(cleared, lim, Spec.Take(cleared, lim).value); }
  }

  /** Why a turn ends the loop, if it does. */
  lemma TurnEndsBecause(q: Spec.Queue, t: Turn, lim: Spec.Limits)
    requires q.running
    ensures var l := OneTurn(q, t, lim);
            && (!t.due ==> l.why == Some(if t.longBackoff then LongOutage else BackingOff))
            && (Makes(q, t, lim) ==>
                  l.why == match t.answer case Ok => None
                                          case Failed => Some(Why.SendFailed)
                                          case RateLimited => Some(Why.RateLimited))
            && (t.due && q.pdus == [] && q.edus == [] ==> l.why == if t.arrivals == [] then Some(Drained) else None)
            && (t.due && (q.pdus != [] || q.edus != []) && !Makes(q, t, lim) ==> l.why == Some(Held) || l.why == Some(Unencodable))
  {
    var cleared := q.(newData := false);
    PrefixEncodes(cleared, lim);
    if Spec.Take(cleared, lim).Some? { TakenEnds(cleared, t, lim, Spec.Take(cleared, lim).value); }
  }

  lemma TakenEnds(q: Spec.Queue, t: Turn, lim: Spec.Limits, b: Spec.Taken)
    requires Spec.Take(q, lim) == Some(b) && q.running && !q.newData
    ensures TakenTurn(q, t, lim, b).why ==
            if q.pdus == [] && q.edus == [] then if t.arrivals == [] then Some(Drained) else None
            else match t.answer case Ok => None
                                case Failed => Some(Why.SendFailed)
                                case RateLimited => Some(Why.RateLimited)
  {
    ArrivalsKeep(q, t.arrivals);
    TakenWhole(q, lim, b);
  }

  lemma PrefixEncodes(q: Spec.Queue, lim: Spec.Limits)
    ensures Spec.Take(q, lim).Some? <==> forall i :: 0 <= i < |q.edus| && i < lim.maxEDUs ==> Encodable(q.edus[i])
  {
    var edus := Spec.EDUPrefix(q, lim);
    if forall e <- edus :: Encodable(e) {
      forall i | 0 <= i < |q.edus| && i < lim.maxEDUs ensures Encodable(q.edus[i]) {
        assert edus[i] in edus;
      }
    }
  }

  lemma TakenWhole(q: Spec.Queue, lim: Spec.Limits, b: Spec.Taken)
    requires Spec.Take(q, lim) == Some(b)
    ensures b.pdus == q.pdus[..Least(|q.pdus|, lim.maxPDUs)]
    ensures Spec.EDUPrefix(q, lim) == q.edus[..Least(|q.edus|, lim.maxEDUs)]
    ensures |b.edus| == |Spec.EDUPrefix(q, lim)|
  {
  }

  /** What is left of a queue that arrivals joined, once this many of each have gone. */
  ghost predicate LeftOf(after: Spec.Queue, left: Spec.Queue, pdus: nat, edus: nat) {
    && pdus <= |after.pdus| && edus <= |after.edus|
    && left.pdus == after.pdus[pdus..] && left.edus == after.edus[edus..]
  }

  /** Short of a long outage a turn leaves all that waited, with what arrived enqueued on
      it, but for what it delivered, which it takes off the front. */
  lemma TurnLeaves(q: Spec.Queue, t: Turn, lim: Spec.Limits)
    ensures var l := OneTurn(q, t, lim);
            && |l.sent| <= 1
            && (l.sent == [] && l.why != Some(LongOutage) ==> LeftOf(ArriveAll(q, l.came), l.q, 0, 0))
            && (l.sent != [] ==> LeftOf(ArriveAll(q, l.came), l.q, |l.sent[0].pdus|, |l.sent[0].edus|))
            && (l.came == [] || l.came == t.arrivals) && (l.why.None? ==> l.came == t.arrivals)
  {
    var cleared, l := q.(newData := false), OneTurn(q, t, lim);
    if t.due && !Spec.HeldBack(q, t.hold) && Spec.Take(cleared, lim).Some? {
      TakenLeaves(cleared, t, lim, Spec.Take(cleared, lim).value);
      ClearedArrives(q, t.arrivals);
    } else {
      assert l.came == [] && ArriveAll(q, l.came) == q;
    }
  }

  lemma TakenLeaves(q: Spec.Queue, t: Turn, lim: Spec.Limits, b: Spec.Taken)
    requires Spec.Take(q, lim) == Some(b)
    ensures var l := TakenTurn(q, t, lim, b);
            && l.came == t.arrivals && |l.sent| <= 1
            && (l.sent == [] ==> LeftOf(ArriveAll(q, t.arrivals), l.q, 0, 0))
            && (l.sent != [] ==> LeftOf(ArriveAll(q, t.arrivals), l.q, |l.sent[0].pdus|, |l.sent[0].edus|))
  {
    TakenWhole(q, lim, b);
  }

  /** What arrives does not depend on newData. */
  lemma {:induction false} ClearedArrives(q: Spec.Queue, arrivals: seq<Arrival>)
    ensures var r, s := ArriveAll(q.(newData := false), arrivals), ArriveAll(q, arrivals);
            r.(newData := s.newData) == s && r.pdus == s.pdus && r.edus == s.edus
  {
    if arrivals != [] { ClearedArrives(q, arrivals[..|arrivals| - 1]); }
  }

  /** The reports of a run: the marks of each transaction that has one, and no others. */
  lemma {:induction false} MarksAreReported(sent: seq<Spec.Taken>)
    ensures forall m :: m in Marks(sent) <==>
              exists b :: b in sent && (b.toDeviceUpTo > 0 || b.deviceListUpTo > 0) && m == (b.toDeviceUpTo, b.deviceListUpTo)
    ensures |Marks(sent)| <= |sent|
  {
    if sent != [] {
      MarksAreReported(sent[..|sent| - 1]);
      assert sent == sent[..|sent| - 1] + [sent[|sent| - 1]];
    }
  }

  /** The cursor a run leaves: past the last event of every transaction, and either one of
      these or where it started. */
  lemma {:induction false} CursorIsGreatest(start: int, sent: seq<Spec.Taken>)
    ensures Cursor(start, sent) >= start
    ensures forall b :: b in sent && b.pdus != [] ==> b.pdus[|b.pdus| - 1].ordering <= Cursor(start, sent)
    ensures Cursor(start, sent) == start ||
            exists b :: b in sent && b.pdus != [] && b.pdus[|b.pdus| - 1].ordering == Cursor(start, sent)
  {
    if sent != [] {
      CursorIsGreatest(start, sent[..|sent| - 1]);
      assert sent == sent[..|sent| - 1] + [sent[|sent| - 1]];
    }
  }

  // ---------- what a run keeps ----------

  lemma {:induction false} CarriedJoins(a: seq<Spec.Taken>, b: seq<Spec.Taken>)
    ensures Carried(a + b) == Carried(a) + Carried(b)
  {
    if b == [] {
      assert a + b == a;
    } else {
      CarriedJoins(a, b[..|b| - 1]);
      assert (a + b)[..|a| + |b| - 1] == a + b[..|b| - 1];
    }
  }

  lemma {:induction false} MarksJoin(a: seq<Spec.Taken>, b: seq<Spec.Taken>)
    ensures Marks(a + b) == Marks(a) + Marks(b)
  {
    if b == [] {
      assert a + b == a;
    } else {
      MarksJoin(a, b[..|b| - 1]);
      assert (a + b)[..|a| + |b| - 1] == a + b[..|b| - 1];
    }
  }

  lemma {:induction false} CursorJoins(a: seq<Spec.Taken>, b: seq<Spec.Taken>, start: int)
    ensures Cursor(start, a + b) == Cursor(Cursor(start, a), b)
  {
    if b == [] {
      assert a + b == a;
    } else {
      CursorJoins(a, b[..|b| - 1], start);
      assert (a + b)[..|a| + |b| - 1] == a + b[..|b| - 1];
    }
  }

  lemma {:induction false} FlatJoins(a: seq<seq<EDU>>, b: seq<seq<EDU>>)
    ensures Flat(a + b) == Flat(a) + Flat(b)
  {
    if b == [] {
      assert a + b == a;
    } else {
      FlatJoins(a, b[..|b| - 1]);
      assert (a + b)[..|a| + |b| - 1] == a + b[..|b| - 1];
    }
  }

  lemma {:induction false} ArrivalsJoin(a: seq<Arrival>, b: seq<Arrival>)
    ensures Events(a + b) == Events(a) + Events(b)
  {
    if b == [] {
      assert a + b == a;
    } else {
      ArrivalsJoin(a, b[..|b| - 1]);
      assert (a + b)[..|a| + |b| - 1] == a + b[..|b| - 1];
    }
  }

  lemma DurableInNext(front: seq<Arrival>, a: Arrival)
    ensures DurableIn(front + [a]) == DurableIn(front) + DurableUnit(a)
  {
    assert (front + [a])[..|front|] == front;
  }

  lemma {:induction false} DurableInJoins(a: seq<Arrival>, b: seq<Arrival>)
    ensures DurableIn(a + b) == DurableIn(a) + DurableIn(b)
    decreases |b|
  {
    if b == [] {
      assert a + b == a;
      Assoc(DurableIn(a), [], []);
    } else {
      var front, x := b[..|b| - 1], b[|b| - 1];
      assert b == front + [x] && a + b == (a + front) + [x];
      DurableInJoins(a, front);
      DurableInNext(a + front, x);
      DurableInNext(front, x);
      Assoc(DurableIn(a), DurableIn(front), DurableUnit(x));
    }
  }

  /** Two stretches of a run end to end. */
  lemma SplitsJoin<T>(a: seq<T>, waiting: seq<T>, waited: seq<T>, came: seq<T>, b: seq<T>, left: seq<T>, more: seq<T>)
    requires Splits(a, waiting, waited, came) && Splits(b, left, waiting, more)
    ensures Splits(a + b, left, waited, came + more)
  {
    assert (a + b) + left == a + (b + left);
    assert a + (waiting + more) == (a + waiting) + more;
    assert (waited + came) + more == waited + (came + more);
  }

  lemma EventsJoin(q: Spec.Queue, l: Loop, m: Loop)
    requires l.why.None? && EventsKept(q, l) && EventsKept(l.q, m)
    requires l.q.catchingUp == q.catchingUp && l.q.known == q.known
    ensures EventsKept(q, Then(l, m))
  {
    var left :| EventsLeft(l.q, m, left);
    CarriedJoins(l.sent, m.sent);
    ArrivalsJoin(l.came, m.came);
    QueuedJoins(q, Events(l.came), Events(m.came));
    SplitsJoin(Carried(l.sent), l.q.pdus, q.pdus, Queued(q, Events(l.came)),
               Carried(m.sent), left, Queued(q, Events(m.came)));
    assert EventsLeft(q, Then(l, m), left);
  }

  lemma QueuedJoins(q: Spec.Queue, a: seq<PDU>, b: seq<PDU>)
    ensures Queued(q, a + b) == Queued(q, a) + Queued(q, b)
  {
  }

  lemma DurableJoin(q: Spec.Queue, l: Loop, m: Loop)
    requires l.why.None? && DurableKept(q, l) && DurableKept(l.q, m)
    ensures DurableKept(q, Then(l, m))
  {
    var left :| DurableLeft(l.q, m, left);
    FlatJoins(l.from, m.from);
    DurableOfConcat(Flat(l.from), Flat(m.from));
    DurableInJoins(l.came, m.came);
    SplitsJoin(DurableOf(Flat(l.from)), DurableOf(l.q.edus), DurableOf(q.edus), DurableIn(l.came),
               DurableOf(Flat(m.from)), left, DurableIn(m.came));
    assert DurableLeft(q, Then(l, m), left);
  }

  lemma FlagsJoin(q: Spec.Queue, l: Loop, m: Loop)
    requires l.why.None? && FlagsKept(q, l) && FlagsKept(l.q, m)
    ensures FlagsKept(q, Then(l, m))
  {
    CursorJoins(l.sent, m.sent, q.lastSuccessful);
  }

  lemma BatchesJoin(l: Loop, m: Loop, lim: Spec.Limits)
    requires BatchesOK(l, lim) && BatchesOK(m, lim)
    ensures BatchesOK(Then(l, m), lim)
  {
  }

  /** A run of the loop, whatever producers do meanwhile. Every transaction is made of
      queued units, within the limits, with the largest marks among them; events leave
      the queue only in a delivered transaction, oldest first. */
  lemma {:induction false} RunKeeps(q: Spec.Queue, turns: seq<Turn>, lim: Spec.Limits)
    requires q.running
    ensures var l := Ran(q, turns, lim); EventsKept(q, l) && FlagsKept(q, l) && BatchesOK(l, lim)
  {
    if turns == [] {
      QuietEvents(q, Begin(q));
    } else {
      var front, t := turns[..|turns| - 1], turns[|turns| - 1];
      RunKeeps(q, front, lim);
      var l := Ran(q, front, lim);
      if l.why.None? {
        TurnKeeps(l.q, t, lim);
        var m := OneTurn(l.q, t, lim);
        EventsJoin(q, l, m);
        FlagsJoin(q, l, m);
        BatchesJoin(l, m, lim);
      }
    }
  }

  /** Of the durable units: those delivered, then those waiting, are those that waited,
      then those that arrived. A long outage ends the run and drops the unmarked of those
      still waiting. */
  lemma {:induction false} RunKeepsDurable(q: Spec.Queue, turns: seq<Turn>, lim: Spec.Limits)
    requires EdusOK(q.edus) && TurnsOK(turns)
    ensures DurableKept(q, Ran(q, turns, lim))
  {
    if turns != [] {
      var front, t := turns[..|turns| - 1], turns[|turns| - 1];
      RunKeepsDurable(q, front, lim);
      var l := Ran(q, front, lim);
      if l.why.None? {
        TurnKeepsDurable(l.q, t, lim);
        DurableJoin(q, l, OneTurn(l.q, t, lim));
      }
    } else {
      QuietDurable(q, Begin(q));
    }
  }

  /** All that a run keeps. */
  ghost predicate RunOK(q: Spec.Queue, turns: seq<Turn>, lim: Spec.Limits) {
    var l := Ran(q, turns, lim);
    && EventsKept(q, l) && FlagsKept(q, l) && BatchesOK(l, lim)
    && (EdusOK(q.edus) && TurnsOK(turns) ==> DurableKept(q, l))
  }

  lemma Kept(q: Spec.Queue, turns: seq<Turn>, lim: Spec.Limits)
    requires q.running
    ensures RunOK(q, turns, lim)
  {
    RunKeeps(q, turns, lim);
    if EdusOK(q.edus) && TurnsOK(turns) { RunKeepsDurable(q, turns, lim); }
  }

  /** What goes on the wire of them is their content, unaltered and in order. */
  function Wire(sent: seq<Spec.Taken>): seq<Unit> {
    if sent == [] then [] else Wire(sent[..|sent| - 1]) + sent[|sent| - 1].edus
  }

  lemma WireNext(units: seq<EDU>, more: seq<EDU>)
    ensures Spec.MaterialiseAll(units + more) == Spec.MaterialiseAll(units) + Spec.MaterialiseAll(more)
  {
  }

  lemma {:induction false} WireIsFlat(sent: seq<Spec.Taken>, from: seq<seq<EDU>>)
    requires |sent| == |from| && forall i :: 0 <= i < |sent| ==> sent[i].edus == Spec.MaterialiseAll(from[i])
    ensures Wire(sent) == Spec.MaterialiseAll(Flat(from))
  {
    if sent != [] {
      var n := |sent| - 1;
      WireIsFlat(sent[..n], from[..n]);
      WireNext(Flat(from[..n]), from[n]);
    }
  }

  lemma {:induction false} FlatHas(from: seq<seq<EDU>>, i: nat, e: EDU)
    requires i < |from| && e in from[i]
    ensures e in Flat(from)
  {
    if i < |from| - 1 { FlatHas(from[..|from| - 1], i, e); }
  }

  lemma DurableOfHas(edus: seq<EDU>, e: EDU)
    requires e in edus && IsDurable(e)
    ensures e in DurableOf(edus)
  {
    var i :| 0 <= i < |edus| && edus[i] == e;
    DurableOfContains(edus, i);
  }

  /** What a run delivers of the durable units goes out unaltered and in order, and every
      mark it reports is one that a delivered durable unit carried in the queue. */
  lemma DeliveredAsQueued(q: Spec.Queue, turns: seq<Turn>, lim: Spec.Limits)
    requires q.running && EdusOK(q.edus) && TurnsOK(turns)
    ensures var l := Ran(q, turns, lim);
            && DurableSent(Wire(l.sent)) == UnitsOf(DurableOf(Flat(l.from)))
            && forall i, lane :: 0 <= i < |l.sent| && Spec.TakenMark(l.sent[i], lane) > 0 ==>
                 exists e :: e in DurableOf(Flat(l.from)) && Spec.Mark(e, lane) == Spec.TakenMark(l.sent[i], lane)
  {
    Kept(q, turns, lim);
    var l := Ran(q, turns, lim);
    WireIsFlat(l.sent, l.from);
    MaterialiseKeepsDurable(Flat(l.from));
    forall i, lane | 0 <= i < |l.sent| && Spec.TakenMark(l.sent[i], lane) > 0
      ensures exists e :: e in DurableOf(Flat(l.from)) && Spec.Mark(e, lane) == Spec.TakenMark(l.sent[i], lane)
    {
      Spec.MaxMarkIsAMark(l.from[i], lane);
      var k :| 0 <= k < |l.from[i]| && Spec.Mark(l.from[i][k], lane) == Spec.MaxMark(l.from[i], lane);
      FlatHas(l.from, i, l.from[i][k]);
      DurableOfHas(Flat(l.from), l.from[i][k]);
    }
  }

  /** The end of a loop that has stopped is the same however many turns are left. */
  lemma {:induction false} StoppedStays(q: Spec.Queue, turns: seq<Turn>, lim: Spec.Limits, k: nat)
    requires k <= |turns| && Ran(q, turns[..k], lim).why.Some?
    ensures Ran(q, turns, lim) == Ran(q, turns[..k], lim)
  {
    if k < |turns| {
      assert turns[..|turns| - 1][..k] == turns[..k];
      StoppedStays(q, turns[..|turns| - 1], lim, k);
    } else {
      assert turns[..k] == turns;
    }
  }

  lemma NextTurn(q: Spec.Queue, turns: seq<Turn>, lim: Spec.Limits, i: nat)
    requires i < |turns| && Ran(q, turns[..i], lim).why.None?
    ensures Ran(q, turns[..i + 1], lim) == Then(Ran(q, turns[..i], lim), OneTurn(Ran(q, turns[..i], lim).q, turns[i], lim))
    ensures Arrived(turns[..i + 1]) == Arrived(turns[..i]) + turns[i].arrivals
  {
    assert turns[..i + 1][..i] == turns[..i];
  }

  // ---------- the loop ----------

  method ArriveOne(d: Destination, a: Arrival)
    modifies d
    ensures d.Fields() == ArriveAs(old(d.Fields()), a)
  {
    match a {
      case Event(p) => d.EnqueuePDU(p);
      case Marked(e) => d.EnqueueMarkedEDU(e);
      case Keyed(key, unit) => d.EnqueueKeyedEDU(key, unit);
      case Receipt(room, rtype, user, thread, content) => d.EnqueueReceipt(room, rtype, user, thread, content);
      case Presence(user, state) => d.EnqueuePresence(user, state);
    }
    var _ := d.TryStart();
  }

  method Arrive(d: Destination, arrivals: seq<Arrival>)
    modifies d
    ensures d.Fields() == ArriveAll(old(d.Fields()), arrivals)
  {
    for i := 0 to |arrivals|
      invariant d.Fields() == ArriveAll(old(d.Fields()), arrivals[..i])
    {
      assert arrivals[..i + 1][..i] == arrivals[..i];
      ArriveOne(d, arrivals[i]);
    }
    assert arrivals[..|arrivals|] == arrivals;
  }

  /** Bookkeeping for a delivered transaction. */
  method Settle(d: Destination, b: Spec.Taken) returns (mark: seq<(int, int)>)
    requires |b.pdus| <= |d.pendingPDUs| && |b.edus| <= |d.pendingEDUs|
    modifies d
    ensures d.Fields() == Settled(old(d.Fields()), b) && mark == Marks([b])
  {
    CarriedOne(b);
    mark := [];
    d.Dequeue(|b.pdus|, |b.edus|);
    if b.toDeviceUpTo > 0 || b.deviceListUpTo > 0 {
      mark := [(b.toDeviceUpTo, b.deviceListUpTo)];
    }
    if |b.pdus| > 0 {
      var last := b.pdus[|b.pdus| - 1].ordering;
      if last > d.lastSuccessfulStreamOrdering {
        d.lastSuccessfulStreamOrdering := last;
      }
    }
  }

  /** holdForLocked: anything but presence goes at once, and so does enough of it. */
  method HoldFor(d: Destination, hold: Option<nat>) returns (held: bool)
    ensures held == Spec.HeldBack(d.Fields(), hold)
  {
    if hold.None? || |d.pendingPDUs| > 0 || |d.pendingEDUs| == 0 {
      return false;
    }
    var states := 0;
    for i := 0 to |d.pendingEDUs|
      invariant states == Spec.States(d.pendingEDUs[..i])
      invariant forall j :: 0 <= j < i ==> d.pendingEDUs[j].presence.Some?
    {
      assert d.pendingEDUs[..i + 1][..i] == d.pendingEDUs[..i];
      if d.pendingEDUs[i].presence.None? {
        return false;
      }
      states := states + |d.pendingEDUs[i].presence.value|;
    }
    assert d.pendingEDUs[..|d.pendingEDUs|] == d.pendingEDUs;
    return states < hold.value;
  }

  /** Under one lock: newData is cleared, and a transaction's worth copied out. */
  method Prepare(d: Destination, hold: Option<nat>) returns (why: Option<Why>, b: Spec.Taken)
    modifies d
    ensures d.Fields() == old(d.Fields()).(newData := false)
    ensures why == Some(Held) <==> Spec.HeldBack(d.Fields(), hold)
    ensures why == Some(Unencodable) <==>
            !Spec.HeldBack(d.Fields(), hold) && Spec.Take(d.Fields(), d.Limits()).None?
    ensures why.None? ==> Some(b) == Spec.Take(d.Fields(), d.Limits())
    ensures why.Some? ==> why.value == Held || why.value == Unencodable
  {
    b := Spec.Taken([], [], 0, 0);
    d.newData := false;
    var held := HoldFor(d, hold);
    if held {
      return Some(Held), b;
    }
    var batch := d.TakeLocked();
    if batch.None? {
      return Some(Unencodable), b;
    }
    return None, batch.value;
  }

  /** The send and what follows it, for a transaction just taken. */
  method Transmit(d: Destination, t: Turn, b: Spec.Taken)
    returns (why: Option<Why>, sent: seq<Spec.Taken>, marks: seq<(int, int)>)
    requires Spec.Take(d.Fields(), d.Limits()) == Some(b)
    modifies d
    ensures var l := TakenTurn(old(d.Fields()), t, d.Limits(), b);
            d.Fields() == l.q && why == l.why && sent == l.sent && marks == Marks(sent)
  {
    sent, marks := [], [];
    Arrive(d, t.arrivals);
    if |b.pdus| == 0 && |b.edus| == 0 {
      return (if d.newData then None else Some(Drained)), sent, marks;
    }
    if !t.answer.Ok? {
      why := Some(if t.answer.RateLimited? then Why.RateLimited else Why.SendFailed);
      return;
    }
    marks := Settle(d, b);
    return None, [b], marks;
  }

  /** One turn of the loop past the backoff gate. arrived says that it got as far as a
      transaction's worth, so that producers had the time to add to the queue. */
  method Attempt(d: Destination, t: Turn)
    returns (why: Option<Why>, sent: seq<Spec.Taken>, marks: seq<(int, int)>, arrived: bool)
    requires t.due
    modifies d
    ensures var l := OneTurn(old(d.Fields()), t, d.Limits());
            && d.Fields() == l.q && why == l.why && sent == l.sent && marks == Marks(sent)
            && l.came == if arrived then t.arrivals else []
    ensures why.None? ==> arrived
  {
    sent, marks := [], [];
    var b;
    why, b := Prepare(d, t.hold);
    arrived := why.None?;
    if arrived {
      why, sent, marks := Transmit(d, t, b);
    }
  }

  /** One run of the loop. Units leave the queue only in a delivered transaction, as the
      prefix it carried; everything else is still queued, behind nothing that arrived later. */
  method Run(d: Destination, turns: seq<Turn>)
    returns (why: Why, sent: seq<Spec.Taken>, marks: seq<(int, int)>, turn: nat)
    requires d.running
    modifies d
    ensures var l := Ran(old(d.Fields()), turns, d.Limits());
            && d.Fields() == Spec.Release(l.q) && sent == l.sent && why == Ending(l) && marks == Marks(sent)
            && turn <= |turns| && l.came == Arrived(turns[..turn])
    ensures RunOK(old(d.Fields()), turns, d.Limits())
  {
    ghost var q, lim := d.Fields(), d.Limits();
    sent, marks, turn, why := [], [], 0, Cancelled;
    while turn < |turns|
      invariant turn <= |turns| && why.Cancelled?
      invariant var l := Ran(q, turns[..turn], lim);
                d.Fields() == l.q && sent == l.sent && l.why.None? && l.came == Arrived(turns[..turn])
      invariant marks == Marks(sent)
    {
      var t := turns[turn];
      NextTurn(q, turns, lim, turn);
      if !t.due {
        why := BackingOff;
        if t.longBackoff {
          var _ := d.DropEphemeralEDUs();
          d.RestartCatchUp();
          why := LongOutage;
        }
        StoppedStays(q, turns, lim, turn + 1);
        break;
      }
      var ends, more, m, arrived := Attempt(d, t);
      MarksJoin(sent, more);
      sent, marks := sent + more, marks + m;
      if ends.Some? {
        StoppedStays(q, turns, lim, turn + 1);
        turn := if arrived then turn + 1 else turn;
        why := ends.value;
        break;
      }
      turn := turn + 1;
    }
    assert turn == |turns| ==> turns[..turn] == turns;
    d.Release();
    Kept(q, turns, lim);
  }
}
