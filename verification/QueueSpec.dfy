/** A destination's queue as a value, and each of its critical sections as a
    function from one value to the next. The class in DestinationQueue is proved
    against these; every state machine in the project steps by them. */
module QueueSpec {
  import opened Units

  datatype Queue = Queue(
    pdus: seq<PDU>,
    edus: seq<EDU>,
    running: bool,
    newData: bool,
    catchingUp: bool,
    skipped: int,
    lastSuccessful: int,
    known: bool)

  /** A new queue assumes it is behind. */
  const FRESH := Queue([], [], false, false, true, 0, 0, false)

  type Positive = x: int | x > 0 witness 1

  datatype Limits = Limits(maxPDUs: Positive, maxEDUs: Positive)

  // ---------- producers ----------

  function EnqueuePDU(q: Queue, p: PDU): Queue {
    if q.catchingUp && q.known then
      q.(skipped := Max(q.skipped, p.ordering))
    else
      q.(pdus := q.pdus + [p], newData := true)
  }

  /** The four ways an ephemeral unit reaches the queue. */
  datatype EduOp =
    | Append(edu: EDU)
    | Keyed(key: string, unit: Unit)
    | MergeReceipt(slot: Slot, thread: string, content: Json)
    | MergePresence(user: string, state: Json)

  /** Where a receipt lives inside one merged unit. */
  datatype Slot = Slot(room: string, rtype: string, user: string)

  function Entry(m: ReceiptMap, s: Slot): Option<ReceiptEntry> {
    if s.room in m && s.rtype in m[s.room] && s.user in m[s.room][s.rtype] then
      Some(m[s.room][s.rtype][s.user])
    else
      None
  }

  function WithEntry(m: ReceiptMap, s: Slot, entry: ReceiptEntry): ReceiptMap {
    var byType := if s.room in m then m[s.room] else map[];
    var byUser := if s.rtype in byType then byType[s.rtype] else map[];
    m[s.room := byType[s.rtype := byUser[s.user := entry]]]
  }

  lemma EntryOfWithEntry(m: ReceiptMap, s: Slot, entry: ReceiptEntry, t: Slot)
    ensures Entry(WithEntry(m, s, entry), t) == if s == t then Some(entry) else Entry(m, t)
  {
  }

  const PRESENCE_PER_EDU: nat := 50

  predicate IsReceiptEDU(e: EDU) {
    e.unit.kind == Receipt && e.receipts.Some?
  }

  predicate IsPresenceEDU(e: EDU) {
    e.unit.kind == Presence && e.presence.Some?
  }

  /** Whether an update goes into this waiting unit rather than a later one. */
  predicate Fits(e: EDU, op: EduOp) {
    match op
    case Append(_) => false
    case Keyed(key, unit) => e.key == key && e.unit.kind == unit.kind
    case MergeReceipt(slot, thread, _) =>
      IsReceiptEDU(e) &&
      var held := Entry(e.receipts.value, slot);
      held.None? || held.value.thread == thread
    case MergePresence(user, _) =>
      IsPresenceEDU(e) && (user in e.presence.value || |e.presence.value| < PRESENCE_PER_EDU)
  }

  function Put(e: EDU, op: EduOp): EDU
    requires Fits(e, op)
  {
    match op
    case Keyed(_, unit) => e.(unit := unit)
    case MergeReceipt(slot, thread, content) =>
      e.(receipts := Some(WithEntry(e.receipts.value, slot, ReceiptEntry(thread, content))))
    case MergePresence(user, state) =>
      e.(presence := Some(e.presence.value[user := state]))
  }

  function NewEDU(op: EduOp): EDU {
    match op
    case Append(e) => e
    case Keyed(key, unit) => EDU(unit, 0, 0, key, None, None)
    case MergeReceipt(slot, thread, content) =>
      EDU(Unit(Receipt, Raw(Json("", true))), 0, 0, "",
          Some(map[slot.room := map[slot.rtype := map[slot.user := ReceiptEntry(thread, content)]]]), None)
    case MergePresence(user, state) =>
      EDU(Unit(Presence, Raw(Json("", true))), 0, 0, "", None, Some(map[user := state]))
  }

  /** Position of the first waiting unit an update fits, or the queue's length. */
  function FitIndex(edus: seq<EDU>, op: EduOp): (i: nat)
    ensures i <= |edus|
    ensures forall j :: 0 <= j < i ==> !Fits(edus[j], op)
    ensures i < |edus| ==> Fits(edus[i], op)
  {
    if edus == [] || Fits(edus[0], op) then 0 else 1 + FitIndex(edus[1..], op)
  }

  function EnqueueInto(edus: seq<EDU>, op: EduOp): seq<EDU> {
    var i := FitIndex(edus, op);
    if i < |edus| then edus[i := Put(edus[i], op)] else edus + [NewEDU(op)]
  }

  function EnqueueEDU(q: Queue, op: EduOp): Queue {
    q.(edus := EnqueueInto(q.edus, op), newData := true)
  }

  // ---------- the claim ----------

  function TryStart(q: Queue): Queue {
    if q.running then q.(newData := true) else q.(running := true)
  }

  function Claim(q: Queue): Queue {
    q.(running := true)
  }

  function Release(q: Queue): Queue {
    q.(running := false)
  }

  // ---------- the transmission loop ----------

  /** One transaction's worth of work, detached from the queue. */
  datatype Taken = Taken(pdus: seq<PDU>, edus: seq<Unit>, toDeviceUpTo: int, deviceListUpTo: int)

  function PDUPrefix(q: Queue, lim: Limits): seq<PDU> {
    if |q.pdus| > lim.maxPDUs then q.pdus[..lim.maxPDUs] else q.pdus
  }

  function EDUPrefix(q: Queue, lim: Limits): seq<EDU> {
    if |q.edus| > lim.maxEDUs then q.edus[..lim.maxEDUs] else q.edus
  }

  function MaterialiseAll(edus: seq<EDU>): (units: seq<Unit>)
    ensures |units| == |edus|
    ensures forall i :: 0 <= i < |edus| ==> units[i] == Materialise(edus[i])
  {
    seq(|edus|, i requires 0 <= i < |edus| => Materialise(edus[i]))
  }

  /** The two tables a unit's marks point into. */
  datatype Lane = Messages | Lists

  function Mark(e: EDU, lane: Lane): int {
    if lane.Messages? then e.toDeviceUpTo else e.deviceListUpTo
  }

  function MaxMark(edus: seq<EDU>, lane: Lane): int {
    if edus == [] then 0 else Max(MaxMark(edus[..|edus| - 1], lane), Mark(edus[|edus| - 1], lane))
  }

  function TakenMark(b: Taken, lane: Lane): int {
    if lane.Messages? then b.toDeviceUpTo else b.deviceListUpTo
  }

  /** A batch's mark is the largest mark any of its units carries. */
  lemma {:induction false} MaxMarkIsAMark(edus: seq<EDU>, lane: Lane)
    ensures MaxMark(edus, lane) >= 0
    ensures forall i :: 0 <= i < |edus| ==> Mark(edus[i], lane) <= MaxMark(edus, lane)
    ensures MaxMark(edus, lane) > 0 ==> exists i :: 0 <= i < |edus| && Mark(edus[i], lane) == MaxMark(edus, lane)
  {
    if edus != [] {
      MaxMarkIsAMark(edus[..|edus| - 1], lane);
      assert Mark(edus[|edus| - 1], lane) <= MaxMark(edus, lane);
    }
  }

  /** Copies the next transaction without removing anything; None when a unit does not encode. */
  function Take(q: Queue, lim: Limits): Option<Taken> {
    var edus := EDUPrefix(q, lim);
    if forall e <- edus :: Encodable(e) then
      Some(Taken(PDUPrefix(q, lim), MaterialiseAll(edus), MaxMark(edus, Messages), MaxMark(edus, Lists)))
    else
      None
  }

  function Dequeue(q: Queue, pdus: nat, edus: nat): Queue
    requires pdus <= |q.pdus| && edus <= |q.edus|
  {
    q.(pdus := q.pdus[pdus..], edus := q.edus[edus..])
  }

  function Delivered(q: Queue, ordering: int): Queue {
    q.(lastSuccessful := Max(q.lastSuccessful, ordering))
  }

  function KeepMarked(edus: seq<EDU>): (kept: seq<EDU>)
    ensures |kept| <= |edus|
    ensures forall e <- kept :: !Unmarked(e) && e in edus
    ensures forall e <- edus :: !Unmarked(e) ==> e in kept
  {
    if edus == [] then []
    else
      var n := |edus| - 1;
      assert edus == edus[..n] + [edus[n]];
      KeepMarked(edus[..n]) + if Unmarked(edus[n]) then [] else [edus[n]]
  }

  function DropEphemeral(q: Queue): Queue {
    q.(edus := KeepMarked(q.edus))
  }

  /** Nothing but presence waits, so the loop may hold it back. */
  predicate OnlyPresence(q: Queue) {
    q.pdus == [] && q.edus != [] && forall e <- q.edus :: e.presence.Some?
  }

  /** How many users' states wait in presence units. */
  function States(edus: seq<EDU>): nat {
    if edus == [] then 0
    else
      var e := edus[|edus| - 1];
      States(edus[..|edus| - 1]) + if e.presence.Some? then |e.presence.value| else 0
  }

  /** Whether presence is held back; hold is the number of states that ends the wait, while
      batching is on and its time is not up. */
  predicate HeldBack(q: Queue, hold: Option<nat>) {
    hold.Some? && OnlyPresence(q) && States(q.edus) < hold.value
  }

  // ---------- catch-up ----------

  function SetLastSuccessful(q: Queue, v: int): Queue {
    q.(lastSuccessful := Max(q.lastSuccessful, v), known := true)
  }

  function FinishCatchUp(q: Queue): Queue {
    q.(catchingUp := false)
  }

  function RestartCatchUp(q: Queue): Queue {
    q.(catchingUp := true, pdus := [])
  }

  function ClearSkipped(q: Queue): Queue {
    q.(skipped := 0)
  }

  /** The cursor update after a delivered catch-up event. */
  function CaughtUp(q: Queue, ordering: int): Queue {
    if ordering > q.lastSuccessful then q.(lastSuccessful := ordering, known := true) else q
  }
}
