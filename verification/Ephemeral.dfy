/** What merging keeps true of the waiting ephemeral units, over every run of
    producers, dequeues and outage drops. */
module Ephemeral {
  import opened Units
  import opened QueueSpec

  // ---------- receipts ----------

  function Held(e: EDU, s: Slot): Option<ReceiptEntry> {
    if IsReceiptEDU(e) then Entry(e.receipts.value, s) else None
  }

  /** A slot is held for different threads by different units; a later receipt unit
      holds it only if every earlier one does. */
  ghost predicate SlotShape(edus: seq<EDU>, s: Slot) {
    && (forall i, j :: 0 <= i < j < |edus| && Held(edus[i], s).Some? && Held(edus[j], s).Some? ==>
          Held(edus[i], s).value.thread != Held(edus[j], s).value.thread)
    && (forall i, j :: 0 <= i < j < |edus| && IsReceiptEDU(edus[i]) && Held(edus[j], s).Some? ==>
          Held(edus[i], s).Some?)
  }

  ghost predicate ReceiptShape(edus: seq<EDU>) {
    && (forall s :: SlotShape(edus, s))
    && (forall i :: 0 <= i < |edus| && IsReceiptEDU(edus[i]) ==> exists s :: Held(edus[i], s).Some?)
  }

  /** What producers append as is: never a unit that already carries merged content. */
  predicate Proper(op: EduOp) {
    op.Append? ==> Plain(op.edu)
  }

  lemma HeldAfter(e: EDU, op: EduOp, s: Slot)
    requires Fits(e, op)
    ensures IsReceiptEDU(Put(e, op)) == IsReceiptEDU(e)
    ensures Held(Put(e, op), s) ==
            if op.MergeReceipt? && op.slot == s then Some(ReceiptEntry(op.thread, op.content)) else Held(e, s)
  {
    if op.MergeReceipt? {
      EntryOfWithEntry(e.receipts.value, op.slot, ReceiptEntry(op.thread, op.content), s);
    }
  }

  lemma HeldFresh(op: EduOp, s: Slot)
    requires Proper(op)
    ensures IsReceiptEDU(NewEDU(op)) == op.MergeReceipt?
    ensures Held(NewEDU(op), s) ==
            if op.MergeReceipt? && op.slot == s then Some(ReceiptEntry(op.thread, op.content)) else None
  {
  }

  lemma EnqueueKeepsSlotShape(edus: seq<EDU>, op: EduOp, s: Slot)
    requires SlotShape(edus, s) && Proper(op)
    ensures SlotShape(EnqueueInto(edus, op), s)
  {
    var k := FitIndex(edus, op);
    var after := EnqueueInto(edus, op);
    if k < |edus| { HeldAfter(edus[k], op, s); } else { HeldFresh(op, s); }
    if op.MergeReceipt? && op.slot == s {
      assert forall i :: 0 <= i < k && IsReceiptEDU(edus[i]) ==>
          Held(edus[i], s).Some? && Held(edus[i], s).value.thread != op.thread;
    }
  }

  lemma EnqueueKeepsReceiptShape(edus: seq<EDU>, op: EduOp)
    requires ReceiptShape(edus) && Proper(op)
    ensures ReceiptShape(EnqueueInto(edus, op))
  {
    var k := FitIndex(edus, op);
    var after := EnqueueInto(edus, op);
    forall s ensures SlotShape(after, s) {
      EnqueueKeepsSlotShape(edus, op, s);
    }
    forall i | 0 <= i < |after| && IsReceiptEDU(after[i])
      ensures exists s :: Held(after[i], s).Some?
    {
      if i == k < |edus| {
        HeldAfter(edus[k], op, if op.MergeReceipt? then op.slot else Slot("", "", ""));
        var s :| Held(edus[i], s).Some?;
        HeldAfter(edus[k], op, s);
        assert Held(after[i], s).Some?;
      } else if i < |edus| {
        var s :| Held(edus[i], s).Some?;
        assert Held(after[i], s).Some?;
      } else {
        HeldFresh(op, if op.MergeReceipt? then op.slot else Slot("", "", ""));
        assert Held(after[i], op.slot).Some?;
      }
    }
  }

  lemma SuffixKeepsSlotShape(edus: seq<EDU>, n: nat, s: Slot)
    requires SlotShape(edus, s) && n <= |edus|
    ensures SlotShape(edus[n..], s)
  {
    assert forall i :: 0 <= i < |edus[n..]| ==> edus[n..][i] == edus[n + i];
  }

  lemma SuffixKeepsReceiptShape(edus: seq<EDU>, n: nat)
    requires ReceiptShape(edus) && n <= |edus|
    ensures ReceiptShape(edus[n..])
  {
    var rest := edus[n..];
    forall s ensures SlotShape(rest, s) {
      SuffixKeepsSlotShape(edus, n, s);
    }
    forall i | 0 <= i < |rest| && IsReceiptEDU(rest[i])
      ensures exists s :: Held(rest[i], s).Some?
    {
      assert rest[i] == edus[n + i];
    }
  }

  function CountReceiptEDUs(edus: seq<EDU>): nat {
    if edus == [] then 0 else (if IsReceiptEDU(edus[0]) then 1 else 0) + CountReceiptEDUs(edus[1..])
  }

  /** The threads holding one slot across the waiting units. */
  ghost function Threads(edus: seq<EDU>, s: Slot): set<string> {
    if edus == [] then {}
    else (if Held(edus[0], s).Some? then {Held(edus[0], s).value.thread} else {}) + Threads(edus[1..], s)
  }

  lemma ThreadIsHeld(edus: seq<EDU>, s: Slot, t: string)
    requires t in Threads(edus, s)
    ensures exists i :: 0 <= i < |edus| && Held(edus[i], s).Some? && Held(edus[i], s).value.thread == t
  {
    if !(Held(edus[0], s).Some? && Held(edus[0], s).value.thread == t) {
      ThreadIsHeld(edus[1..], s, t);
      var i :| 0 <= i < |edus[1..]| && Held(edus[1..][i], s).Some? && Held(edus[1..][i], s).value.thread == t;
      assert Held(edus[i + 1], s).Some?;
    } else {
      assert Held(edus[0], s).Some?;
    }
  }

  lemma {:induction false} ThreadsAtMostEDUs(edus: seq<EDU>, s: Slot)
    ensures |Threads(edus, s)| <= CountReceiptEDUs(edus)
  {
    if edus != [] {
      ThreadsAtMostEDUs(edus[1..], s);
      if Held(edus[0], s).Some? {
        var t := Held(edus[0], s).value.thread;
        assert Threads(edus, s) == {t} + Threads(edus[1..], s);
        assert |{t} + Threads(edus[1..], s)| <= 1 + |Threads(edus[1..], s)|;
      } else {
        assert Threads(edus, s) == Threads(edus[1..], s);
      }
    }
  }

  lemma {:induction false} DeepestSlot(edus: seq<EDU>, s: Slot, last: nat)
    requires SlotShape(edus, s)
    requires last < |edus| && Held(edus[last], s).Some?
    requires forall j :: last < j < |edus| ==> !IsReceiptEDU(edus[j])
    ensures |Threads(edus, s)| == CountReceiptEDUs(edus)
  {
    var rest := edus[1..];
    if last > 0 {
      assert rest[last - 1] == edus[last];
      assert SlotShape(rest, s);
      DeepestSlot(rest, s, last - 1);
      if IsReceiptEDU(edus[0]) {
        NewThread(edus, s);
      }
    } else {
      NoneLater(rest, s);
      assert Threads(edus, s) == {Held(edus[0], s).value.thread};
    }
  }

  lemma NewThread(edus: seq<EDU>, s: Slot)
    requires edus != [] && SlotShape(edus, s) && Held(edus[0], s).Some?
    ensures |Threads(edus, s)| == 1 + |Threads(edus[1..], s)|
  {
    var t := Held(edus[0], s).value.thread;
    if t in Threads(edus[1..], s) {
      ThreadIsHeld(edus[1..], s, t);
    }
    assert Threads(edus, s) == {t} + Threads(edus[1..], s);
  }

  lemma NoneLater(edus: seq<EDU>, s: Slot)
    requires forall j :: 0 <= j < |edus| ==> !IsReceiptEDU(edus[j])
    ensures Threads(edus, s) == {} && CountReceiptEDUs(edus) == 0
  {
  }

  /** The number of receipt units waiting is exactly the largest number of threads
      that hold one (room, type, user). */
  lemma ReceiptEDUsAreMinimal(edus: seq<EDU>)
    requires ReceiptShape(edus)
    ensures forall s :: |Threads(edus, s)| <= CountReceiptEDUs(edus)
    ensures CountReceiptEDUs(edus) > 0 ==> exists s :: |Threads(edus, s)| == CountReceiptEDUs(edus)
  {
    forall s ensures |Threads(edus, s)| <= CountReceiptEDUs(edus) {
      ThreadsAtMostEDUs(edus, s);
    }
    if CountReceiptEDUs(edus) > 0 {
      var last := LastReceiptEDU(edus);
      var s :| Held(edus[last], s).Some?;
      DeepestSlot(edus, s, last);
    }
  }

  lemma LastReceiptEDU(edus: seq<EDU>) returns (last: nat)
    requires CountReceiptEDUs(edus) > 0
    ensures last < |edus| && IsReceiptEDU(edus[last])
    ensures forall j :: last < j < |edus| ==> !IsReceiptEDU(edus[j])
  {
    if CountReceiptEDUs(edus[1..]) > 0 {
      var l := LastReceiptEDU(edus[1..]);
      last := l + 1;
      forall j | last < j < |edus| ensures !IsReceiptEDU(edus[j]) {
        assert edus[j] == edus[1..][j - 1];
      }
    } else {
      last := 0;
      forall j | 0 < j < |edus| ensures !IsReceiptEDU(edus[j]) {
        NotCounted(edus[1..], j - 1);
        assert edus[j] == edus[1..][j - 1];
      }
    }
  }

  lemma NotCounted(edus: seq<EDU>, j: nat)
    requires CountReceiptEDUs(edus) == 0 && j < |edus|
    ensures !IsReceiptEDU(edus[j])
  {
    if j > 0 { NotCounted(edus[1..], j - 1); }
  }

  /** The waiting receipts as one map from (slot, thread) to content. */
  ghost function FindReceipt(edus: seq<EDU>, s: Slot, thread: string): Option<Json> {
    if edus == [] then None
    else if Held(edus[0], s).Some? && Held(edus[0], s).value.thread == thread
    then Some(Held(edus[0], s).value.content)
    else FindReceipt(edus[1..], s, thread)
  }

  /** Enqueueing is one update of that map, and nothing but a receipt touches it. */
  lemma {:induction false} EnqueueUpdatesReceipts(edus: seq<EDU>, op: EduOp, s: Slot, thread: string)
    requires Proper(op)
    ensures FindReceipt(EnqueueInto(edus, op), s, thread) ==
            if op.MergeReceipt? && op.slot == s && op.thread == thread then Some(op.content)
            else FindReceipt(edus, s, thread)
  {
    var after := EnqueueInto(edus, op);
    if edus == [] {
      HeldFresh(op, s);
      assert after == [NewEDU(op)];
      assert FindReceipt(after[1..], s, thread) == None;
    } else if Fits(edus[0], op) {
      HeldAfter(edus[0], op, s);
      assert after[1..] == edus[1..];
      assert FitIndex(edus, op) == 0;
    } else {
      EnqueueUpdatesReceipts(edus[1..], op, s, thread);
      assert after == [edus[0]] + EnqueueInto(edus[1..], op);
      assert after[1..] == EnqueueInto(edus[1..], op);
    }
  }

  /** A dequeue of n units takes exactly the receipts those units hold: each
      (slot, thread) is either in the taken prefix or in what is left, never both. */
  lemma {:induction false} DequeueSplitsReceipts(edus: seq<EDU>, n: nat, s: Slot, thread: string)
    requires SlotShape(edus, s) && n <= |edus|
    ensures FindReceipt(edus[..n], s, thread).Some? ==>
              FindReceipt(edus, s, thread) == FindReceipt(edus[..n], s, thread) &&
              FindReceipt(edus[n..], s, thread).None?
    ensures FindReceipt(edus[..n], s, thread).None? ==>
              FindReceipt(edus[n..], s, thread) == FindReceipt(edus, s, thread)
  {
    if n == 0 {
      assert edus[n..] == edus;
    } else {
      SuffixKeepsSlotShape(edus, 1, s);
      DequeueSplitsReceipts(edus[1..], n - 1, s, thread);
      assert edus[1..][n - 1..] == edus[n..];
      assert edus[..n][1..] == edus[1..][..n - 1];
      if Held(edus[0], s).Some? && Held(edus[0], s).value.thread == thread {
        if FindReceipt(edus[1..], s, thread).Some? {
          FoundIsHeld(edus[1..], s, thread);
          assert false;
        }
      }
    }
  }

  lemma FoundIsHeld(edus: seq<EDU>, s: Slot, thread: string)
    requires FindReceipt(edus, s, thread).Some?
    ensures exists i :: 0 <= i < |edus| && Held(edus[i], s).Some? && Held(edus[i], s).value.thread == thread
  {
    if !(Held(edus[0], s).Some? && Held(edus[0], s).value.thread == thread) {
      FoundIsHeld(edus[1..], s, thread);
      var i :| 0 <= i < |edus[1..]| && Held(edus[1..][i], s).Some? && Held(edus[1..][i], s).value.thread == thread;
      assert Held(edus[i + 1], s).Some?;
    } else {
      assert Held(edus[0], s).Some?;
    }
  }

  // ---------- presence ----------

  function Users(e: EDU): set<string> {
    if IsPresenceEDU(e) then e.presence.value.Keys else {}
  }

  /** Each user is in one presence unit, and every presence unit but the last is full. */
  ghost predicate PresenceShape(edus: seq<EDU>) {
    && (forall i, j :: 0 <= i < j < |edus| ==> Users(edus[i]) !! Users(edus[j]))
    && (forall i :: 0 <= i < |edus| && IsPresenceEDU(edus[i]) ==> 1 <= |Users(edus[i])| <= PRESENCE_PER_EDU)
    && (forall i, j :: 0 <= i < j < |edus| && IsPresenceEDU(edus[i]) && IsPresenceEDU(edus[j]) ==>
          |Users(edus[i])| == PRESENCE_PER_EDU)
  }

  lemma UsersAfter(e: EDU, op: EduOp)
    requires Fits(e, op)
    ensures IsPresenceEDU(Put(e, op)) == IsPresenceEDU(e)
    ensures Users(Put(e, op)) == Users(e) + if op.MergePresence? then {op.user} else {}
  {
  }

  /** An update put into a unit already waiting. */
  lemma PutKeepsPresenceShape(edus: seq<EDU>, op: EduOp, k: nat)
    requires PresenceShape(edus) && k == FitIndex(edus, op) < |edus|
    ensures PresenceShape(edus[k := Put(edus[k], op)])
  {
    UsersAfter(edus[k], op);
    if op.MergePresence? { GrownUsers(edus, op, k); } else { assert Users(Put(edus[k], op)) == Users(edus[k]); }
  }

  lemma GrownUsers(edus: seq<EDU>, op: EduOp, k: nat)
    requires PresenceShape(edus) && k == FitIndex(edus, op) < |edus| && op.MergePresence?
    ensures PresenceShape(edus[k := Put(edus[k], op)])
  {
    UsersAfter(edus[k], op);
    var grown := Users(edus[k]) + {op.user};
    assert op.user !in Users(edus[k]) ==> |grown| == |Users(edus[k])| + 1;
    assert op.user in Users(edus[k]) ==> grown == Users(edus[k]);
    // An earlier presence unit is full and lacks the user; one after a unit
    // with room does not exist.
    assert forall j :: 0 <= j < k && IsPresenceEDU(edus[j]) ==> op.user !in Users(edus[j]);
    assert forall j :: k < j < |edus| && IsPresenceEDU(edus[j]) ==> op.user in Users(edus[k]);
  }

  /** An update that fits nowhere starts a unit at the end. */
  lemma NewKeepsPresenceShape(edus: seq<EDU>, op: EduOp)
    requires PresenceShape(edus) && Proper(op) && FitIndex(edus, op) == |edus|
    ensures PresenceShape(edus + [NewEDU(op)])
  {
    if op.MergePresence? {
      assert Users(NewEDU(op)) == {op.user};
      assert forall j :: 0 <= j < |edus| && IsPresenceEDU(edus[j]) ==> op.user !in Users(edus[j]);
    } else {
      assert Users(NewEDU(op)) == {};
    }
  }

  lemma EnqueueKeepsPresenceShape(edus: seq<EDU>, op: EduOp)
    requires PresenceShape(edus) && Proper(op)
    ensures PresenceShape(EnqueueInto(edus, op))
  {
    if FitIndex(edus, op) < |edus| {
      PutKeepsPresenceShape(edus, op, FitIndex(edus, op));
    } else {
      NewKeepsPresenceShape(edus, op);
    }
  }

  lemma SuffixKeepsPresenceShape(edus: seq<EDU>, n: nat)
    requires PresenceShape(edus) && n <= |edus|
    ensures PresenceShape(edus[n..])
  {
  }

  function CountPresenceEDUs(edus: seq<EDU>): nat {
    if edus == [] then 0 else (if IsPresenceEDU(edus[0]) then 1 else 0) + CountPresenceEDUs(edus[1..])
  }

  function AllUsers(edus: seq<EDU>): set<string> {
    if edus == [] then {} else Users(edus[0]) + AllUsers(edus[1..])
  }

  lemma AllUsersDisjoint(e: EDU, rest: seq<EDU>)
    requires forall j :: 0 <= j < |rest| ==> Users(e) !! Users(rest[j])
    ensures Users(e) !! AllUsers(rest)
  {
    if rest != [] {
      AllUsersDisjoint(e, rest[1..]);
    }
  }

  /** n users wait in exactly ceil(n / 50) presence units. */
  lemma {:induction false} PresenceIsPacked(edus: seq<EDU>)
    requires PresenceShape(edus)
    ensures CountPresenceEDUs(edus) == (|AllUsers(edus)| + 49) / 50
  {
    if edus != [] {
      var rest := edus[1..];
      SuffixKeepsPresenceShape(edus, 1);
      PresenceIsPacked(rest);
      AllUsersDisjoint(edus[0], rest);
      assert |AllUsers(edus)| == |Users(edus[0])| + |AllUsers(rest)|;
      if IsPresenceEDU(edus[0]) {
        if CountPresenceEDUs(rest) > 0 {
          var j := APresenceEDU(rest);
          assert IsPresenceEDU(edus[j + 1]);
        } else {
          assert |AllUsers(rest)| == 0;
        }
      }
    }
  }

  lemma APresenceEDU(edus: seq<EDU>) returns (j: nat)
    requires CountPresenceEDUs(edus) > 0
    ensures j < |edus| && IsPresenceEDU(edus[j])
  {
    if IsPresenceEDU(edus[0]) {
      j := 0;
    } else {
      var l := APresenceEDU(edus[1..]);
      j := l + 1;
    }
  }

  // ---------- what goes on the wire ----------

  /** A merged receipt unit goes out with the content of each slot it holds and no other,
      and without the threads. */
  lemma ReceiptsOnTheWire(e: EDU, s: Slot)
    requires e.presence.None? && e.receipts.Some?
    ensures var w := Materialise(e);
            && w.kind == Receipt && w.content.ReceiptBody?
            && var rooms := w.content.rooms;
               && (Entry(e.receipts.value, s).Some? <==>
                     s.room in rooms && s.rtype in rooms[s.room] && s.user in rooms[s.room][s.rtype])
               && (Entry(e.receipts.value, s).Some? ==>
                     rooms[s.room][s.rtype][s.user] == Entry(e.receipts.value, s).value.content)
  {
  }

  /** Presence goes out as the latest state of each user; anything else as it was queued. */
  lemma OthersOnTheWire(e: EDU)
    ensures e.presence.Some? ==> Materialise(e).kind == Presence && Materialise(e).content == PresenceBody(e.presence.value)
    ensures e.presence.None? && e.receipts.None? ==> Materialise(e) == e.unit
  {
  }

  /** A unit fails to encode exactly for a state, or a receipt's content, that is not JSON. */
  lemma EncodableIff(e: EDU)
    ensures e.presence.Some? ==>
              (Encodable(e) <==> forall u <- e.presence.value :: e.presence.value[u].valid)
    ensures e.presence.None? && e.receipts.Some? ==>
              (Encodable(e) <==> forall s: Slot :: Entry(e.receipts.value, s).Some? ==> Entry(e.receipts.value, s).value.content.valid)
    ensures e.presence.None? && e.receipts.None? ==> Encodable(e)
  {
    if e.presence.None? && e.receipts.Some? {
      var m: ReceiptMap := e.receipts.value;
      forall s: Slot | Encodable(e) && Entry(m, s).Some? ensures Entry(m, s).value.content.valid {
        assert m[s.room][s.rtype][s.user] == Entry(m, s).value;
      }
      if forall s: Slot :: Entry(m, s).Some? ==> Entry(m, s).value.content.valid {
        forall room, rtype, u | room in m && rtype in m[room] && u in m[room][rtype]
          ensures m[room][rtype][u].content.valid
        {
          assert Entry(m, Slot(room, rtype, u)) == Some(m[room][rtype][u]);
        }
      }
    }
  }

  predicate Clobbers(e: EDU, key: string, unit: Unit) {
    e.key == key && e.unit.kind == unit.kind
  }

  /** A keyed unit takes the place of the first that waits with its key and kind, keeping
      all else about it, or goes to the end. */
  lemma KeyedReplacesFirst(edus: seq<EDU>, key: string, unit: Unit)
    ensures var after := EnqueueInto(edus, Keyed(key, unit));
            && (forall i :: 0 <= i < |edus| && edus[i].key == key && edus[i].unit.kind == unit.kind &&
                            (forall j :: 0 <= j < i ==> !Clobbers(edus[j], key, unit)) ==>
                  after == edus[i := edus[i].(unit := unit)])
            && ((forall j :: 0 <= j < |edus| ==> !Clobbers(edus[j], key, unit)) ==>
                  after == edus + [EDU(unit, 0, 0, key, None, None)])
  {
    var op := Keyed(key, unit);
    assert forall e :: Fits(e, op) <==> Clobbers(e, key, unit);
    var k := FitIndex(edus, op);
    forall i | 0 <= i < |edus| && Clobbers(edus[i], key, unit) && (forall j :: 0 <= j < i ==> !Clobbers(edus[j], key, unit))
      ensures i == k
    {
    }
  }

  /** The states that count towards ending a hold are one a user. */
  lemma {:induction false} StatesAreUsers(edus: seq<EDU>)
    requires PresenceShape(edus) && forall e :: e in edus && e.presence.Some? ==> IsPresenceEDU(e)
    ensures States(edus) == |AllUsers(edus)|
  {
    if edus != [] {
      var rest, e := edus[1..], edus[0];
      SuffixKeepsPresenceShape(edus, 1);
      StatesAreUsers(rest);
      AllUsersDisjoint(e, rest);
      assert |AllUsers(edus)| == |Users(e)| + |AllUsers(rest)|;
      StatesFromFront(edus);
    }
  }

  lemma {:induction false} StatesFromFront(edus: seq<EDU>)
    requires edus != []
    ensures States(edus) == (if edus[0].presence.Some? then |edus[0].presence.value| else 0) + States(edus[1..])
  {
    if |edus| > 1 {
      StatesFromFront(edus[..|edus| - 1]);
      assert edus[..|edus| - 1][1..] == edus[1..][..|edus| - 2];
    }
  }

  /** The waiting presence as one map from user to state. */
  ghost function FindPresence(edus: seq<EDU>, user: string): Option<Json> {
    if edus == [] then None
    else if user in Users(edus[0]) then Some(edus[0].presence.value[user])
    else FindPresence(edus[1..], user)
  }

  /** Enqueueing presence is one update of that map, and nothing else touches it. */
  lemma {:induction false} EnqueueUpdatesPresence(edus: seq<EDU>, op: EduOp, user: string)
    requires Proper(op)
    ensures FindPresence(EnqueueInto(edus, op), user) ==
            if op.MergePresence? && op.user == user then Some(op.state) else FindPresence(edus, user)
  {
    if edus == [] {
      FirstPresence(op, user);
    } else if Fits(edus[0], op) {
      FrontPresence(edus, op, user);
    } else {
      EnqueueUpdatesPresence(edus[1..], op, user);
      assert EnqueueInto(edus, op) == [edus[0]] + EnqueueInto(edus[1..], op);
      assert EnqueueInto(edus, op)[1..] == EnqueueInto(edus[1..], op);
    }
  }

  lemma FirstPresence(op: EduOp, user: string)
    requires Proper(op)
    ensures FindPresence(EnqueueInto([], op), user) == if op.MergePresence? && op.user == user then Some(op.state) else None
  {
    assert EnqueueInto([], op) == [NewEDU(op)];
    assert FindPresence([NewEDU(op)][1..], user) == None;
  }

  lemma FrontPresence(edus: seq<EDU>, op: EduOp, user: string)
    requires Proper(op) && edus != [] && Fits(edus[0], op)
    ensures FindPresence(EnqueueInto(edus, op), user) ==
            if op.MergePresence? && op.user == user then Some(op.state) else FindPresence(edus, user)
  {
    UsersAfter(edus[0], op);
    assert FitIndex(edus, op) == 0;
    assert EnqueueInto(edus, op)[1..] == edus[1..];
  }

  // ---------- runs ----------

  datatype Action =
    | Enqueue(op: EduOp)
    | Dequeue(n: nat)
    | DropUnmarked

  predicate Allowed(edus: seq<EDU>, a: Action) {
    match a
    case Enqueue(op) => Proper(op)
    case Dequeue(n) => n <= |edus|
    case DropUnmarked => true
  }

  function Step(edus: seq<EDU>, a: Action): seq<EDU>
    requires Allowed(edus, a)
  {
    match a
    case Enqueue(op) => EnqueueInto(edus, op)
    case Dequeue(n) => edus[n..]
    case DropUnmarked => KeepMarked(edus)
  }

  /** Marks travel only on units that are never merged into. */
  ghost predicate MergedCarryNoMark(edus: seq<EDU>) {
    forall i :: 0 <= i < |edus| && (IsReceiptEDU(edus[i]) || IsPresenceEDU(edus[i])) ==> Unmarked(edus[i])
  }

  ghost predicate Shape(edus: seq<EDU>) {
    ReceiptShape(edus) && PresenceShape(edus) && MergedCarryNoMark(edus)
  }

  lemma StepKeepsShape(edus: seq<EDU>, a: Action)
    requires Shape(edus) && Allowed(edus, a)
    ensures Shape(Step(edus, a))
  {
    match a
    case Enqueue(op) =>
      EnqueueKeepsReceiptShape(edus, op);
      EnqueueKeepsPresenceShape(edus, op);
    case Dequeue(n) =>
      SuffixKeepsReceiptShape(edus, n);
      SuffixKeepsPresenceShape(edus, n);
    case DropUnmarked =>
      var kept := KeepMarked(edus);
      forall i | 0 <= i < |kept| ensures !IsReceiptEDU(kept[i]) && !IsPresenceEDU(kept[i]) {
        assert kept[i] in edus;
      }
  }

  /** A run of the queue's ephemeral side, from empty. */
  ghost predicate Reaches(run: seq<Action>, edus: seq<EDU>) {
    if run == [] then edus == []
    else
      var n := |run| - 1;
      exists before :: Reaches(run[..n], before) && Allowed(before, run[n]) && edus == Step(before, run[n])
  }

  /** After any run: receipts take as few units as their threads allow, and presence
      as few as fifty users to a unit allows. */
  lemma {:induction false} MergingIsTight(run: seq<Action>, edus: seq<EDU>)
    requires Reaches(run, edus)
    ensures Shape(edus)
    ensures forall s :: |Threads(edus, s)| <= CountReceiptEDUs(edus)
    ensures CountReceiptEDUs(edus) > 0 ==> exists s :: |Threads(edus, s)| == CountReceiptEDUs(edus)
    ensures CountPresenceEDUs(edus) == (|AllUsers(edus)| + 49) / 50
  {
    if run != [] {
      var n := |run| - 1;
      var before :| Reaches(run[..n], before) && Allowed(before, run[n]) && edus == Step(before, run[n]);
      MergingIsTight(run[..n], before);
      StepKeepsShape(before, run[n]);
    }
    ReceiptEDUsAreMinimal(edus);
    PresenceIsPacked(edus);
  }
}
