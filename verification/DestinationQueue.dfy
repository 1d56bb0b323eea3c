/** One remote server's queue. Each method below is one critical section of the
    original (its lock is held from entry to return), except SendCatchUp and Run,
    which hold the claim across a send. Fields() is the queue as a value; every
    method is proved to take it where the function of the same name in QueueSpec
    takes it. */
module DestinationQueue {
  import opened Units
  import Spec = QueueSpec

  /** What a send came to. */
  datatype Outcome = Ok | Failed | RateLimited

  datatype CatchUpResult = Sent | Busy | SendFailed

  lemma MarksOfNext(edus: seq<EDU>, i: nat)
    requires i < |edus|
    ensures Spec.MaxMark(edus[..i + 1], Spec.Messages) == Max(Spec.MaxMark(edus[..i], Spec.Messages), edus[i].toDeviceUpTo)
    ensures Spec.MaxMark(edus[..i + 1], Spec.Lists) == Max(Spec.MaxMark(edus[..i], Spec.Lists), edus[i].deviceListUpTo)
  {
    assert edus[..i + 1][..i] == edus[..i];
  }

  class Destination {
    const maxPDUs: Spec.Positive
    const maxEDUs: Spec.Positive
    var pendingPDUs: seq<PDU>
    var pendingEDUs: seq<EDU>
    var running: bool
    var newData: bool
    var catchingUp: bool
    var catchupLastSkipped: int
    var lastSuccessfulStreamOrdering: int
    var lastSuccessfulKnown: bool

    ghost function Fields(): Spec.Queue
      reads this
    {
      Spec.Queue(pendingPDUs, pendingEDUs, running, newData, catchingUp, catchupLastSkipped,
                 lastSuccessfulStreamOrdering, lastSuccessfulKnown)
    }

    ghost function Limits(): Spec.Limits {
      Spec.Limits(maxPDUs, maxEDUs)
    }

    constructor (maxPDUs: int, maxEDUs: int)
      ensures Fields() == Spec.FRESH
      ensures this.maxPDUs == if maxPDUs <= 0 then 50 else maxPDUs
      ensures this.maxEDUs == if maxEDUs <= 0 then 100 else maxEDUs
    {
      this.maxPDUs := if maxPDUs <= 0 then 50 else maxPDUs;
      this.maxEDUs := if maxEDUs <= 0 then 100 else maxEDUs;
      pendingPDUs, pendingEDUs := [], [];
      running, newData := false, false;
      catchingUp, catchupLastSkipped := true, 0;
      lastSuccessfulStreamOrdering, lastSuccessfulKnown := 0, false;
    }

    method EnqueuePDU(p: PDU)
      modifies this
      ensures Fields() == Spec.EnqueuePDU(old(Fields()), p)
    {
      if catchingUp && lastSuccessfulKnown {
        if p.ordering > catchupLastSkipped {
          catchupLastSkipped := p.ordering;
        }
        return;
      }
      pendingPDUs := pendingPDUs + [p];
      newData := true;
    }

    method EnqueueMarkedEDU(e: EDU)
      modifies this
      ensures Fields() == Spec.EnqueueEDU(old(Fields()), Spec.Append(e))
    {
      pendingEDUs := pendingEDUs + [e];
      newData := true;
    }

    method EnqueueKeyedEDU(key: string, unit: Unit)
      modifies this
      ensures Fields() == Spec.EnqueueEDU(old(Fields()), Spec.Keyed(key, unit))
    {
      newData := true;
      for i := 0 to |pendingEDUs|
        invariant forall j :: 0 <= j < i ==> !Spec.Fits(pendingEDUs[j], Spec.Keyed(key, unit))
        invariant Fields() == old(Fields()).(newData := true)
      {
        if pendingEDUs[i].key == key && pendingEDUs[i].unit.kind == unit.kind {
          pendingEDUs := pendingEDUs[i := pendingEDUs[i].(unit := unit)];
          return;
        }
      }
      pendingEDUs := pendingEDUs + [EDU(unit, 0, 0, key, None, None)];
    }

    method EnqueueReceipt(room: string, rtype: string, user: string, thread: string, content: Json)
      modifies this
      ensures Fields() ==
              Spec.EnqueueEDU(old(Fields()), Spec.MergeReceipt(Spec.Slot(room, rtype, user), thread, content))
    {
      ghost var op := Spec.MergeReceipt(Spec.Slot(room, rtype, user), thread, content);
      newData := true;
      for i := 0 to |pendingEDUs|
        invariant forall j :: 0 <= j < i ==> !Spec.Fits(pendingEDUs[j], op)
        invariant Fields() == old(Fields()).(newData := true)
      {
        var e := pendingEDUs[i];
        if e.unit.kind == Receipt && e.receipts.Some? {
          var byType := if room in e.receipts.value then e.receipts.value[room] else map[];
          var byUser := if rtype in byType then byType[rtype] else map[];
          if user !in byUser || byUser[user].thread == thread {
            byUser := byUser[user := ReceiptEntry(thread, content)];
            byType := byType[rtype := byUser];
            pendingEDUs := pendingEDUs[i := e.(receipts := Some(e.receipts.value[room := byType]))];
            return;
          }
        }
      }
      pendingEDUs := pendingEDUs +
      [EDU(Unit(Receipt, Raw(Json("", true))), 0, 0, "",
           Some(map[room := map[rtype := map[user := ReceiptEntry(thread, content)]]]), None)];
    }

    method EnqueuePresence(user: string, state: Json)
      modifies this
      ensures Fields() == Spec.EnqueueEDU(old(Fields()), Spec.MergePresence(user, state))
    {
      newData := true;
      for i := 0 to |pendingEDUs|
        invariant forall j :: 0 <= j < i ==> !Spec.Fits(pendingEDUs[j], Spec.MergePresence(user, state))
        invariant Fields() == old(Fields()).(newData := true)
      {
        var e := pendingEDUs[i];
        if e.unit.kind == Presence && e.presence.Some? {
          if user in e.presence.value || |e.presence.value| < Spec.PRESENCE_PER_EDU {
            pendingEDUs := pendingEDUs[i := e.(presence := Some(e.presence.value[user := state]))];
            return;
          }
        }
      }
      pendingEDUs := pendingEDUs +
      [EDU(Unit(Presence, Raw(Json("", true))), 0, 0, "", None, Some(map[user := state]))];
    }

    method TryStart() returns (won: bool)
      modifies this
      ensures won == !old(running)
      ensures Fields() == Spec.TryStart(old(Fields()))
    {
      if running {
        newData := true;
        return false;
      }
      running := true;
      return true;
    }

    /** Unlike TryStart, a lost claim announces no new data. */
    method Claim() returns (won: bool)
      modifies this`running
      ensures won == !old(running)
      ensures Fields() == if won then Spec.Claim(old(Fields())) else old(Fields())
    {
      if running {
        return false;
      }
      running := true;
      return true;
    }

    /** Drops the claim and says whether the loop must be woken again. */
    method ReleaseClaim() returns (rewake: bool)
      modifies this`running
      ensures rewake == old(newData)
      ensures Fields() == Spec.Release(old(Fields()))
    {
      rewake := newData;
      running := false;
    }

    method Release()
      modifies this
      ensures Fields() == Spec.Release(old(Fields()))
    {
      running := false;
    }

    method TakeLocked() returns (batch: Option<Spec.Taken>)
      ensures batch == Spec.Take(Fields(), Limits())
    {
      var pdus := if |pendingPDUs| > maxPDUs then pendingPDUs[..maxPDUs] else pendingPDUs;
      var edus := if |pendingEDUs| > maxEDUs then pendingEDUs[..maxEDUs] else pendingEDUs;
      var units, toDevice, deviceList := [], 0, 0;
      for i := 0 to |edus|
        invariant |units| == i
        invariant forall j :: 0 <= j < i ==> Encodable(edus[j]) && units[j] == Materialise(edus[j])
        invariant toDevice == Spec.MaxMark(edus[..i], Spec.Messages)
        invariant deviceList == Spec.MaxMark(edus[..i], Spec.Lists)
      {
        if !Encodable(edus[i]) {
          return None;
        }
        MarksOfNext(edus, i);
        units := units + [Materialise(edus[i])];
        if edus[i].toDeviceUpTo > toDevice {
          toDevice := edus[i].toDeviceUpTo;
        }
        if edus[i].deviceListUpTo > deviceList {
          deviceList := edus[i].deviceListUpTo;
        }
      }
      assert edus[..|edus|] == edus;
      assert units == Spec.MaterialiseAll(edus);
      return Some(Spec.Taken(pdus, units, toDevice, deviceList));
    }

    method Dequeue(pdus: nat, edus: nat)
      requires pdus <= |pendingPDUs| && edus <= |pendingEDUs|
      modifies this
      ensures Fields() == Spec.Dequeue(old(Fields()), pdus, edus)
    {
      pendingPDUs := pendingPDUs[pdus..];
      pendingEDUs := pendingEDUs[edus..];
    }

    method DropEphemeralEDUs() returns (dropped: nat)
      modifies this
      ensures Fields() == Spec.DropEphemeral(old(Fields()))
      ensures dropped == old(|pendingEDUs|) - |pendingEDUs|
      ensures forall e :: e in pendingEDUs <==> e in old(pendingEDUs) && (e.toDeviceUpTo != 0 || e.deviceListUpTo != 0)
    {
      var kept := [];
      dropped := 0;
      for i := 0 to |pendingEDUs|
        invariant kept == Spec.KeepMarked(pendingEDUs[..i])
        invariant dropped == i - |kept|
      {
        assert pendingEDUs[..i + 1][..i] == pendingEDUs[..i];
        var e := pendingEDUs[i];
        if e.toDeviceUpTo == 0 && e.deviceListUpTo == 0 {
          dropped := dropped + 1;
        } else {
          kept := kept + [e];
        }
      }
      assert pendingEDUs[..|pendingEDUs|] == pendingEDUs;
      pendingEDUs := kept;
    }

    method SetLastSuccessfulStreamOrdering(v: int)
      modifies this
      ensures Fields() == Spec.SetLastSuccessful(old(Fields()), v)
    {
      if v > lastSuccessfulStreamOrdering {
        lastSuccessfulStreamOrdering := v;
      }
      lastSuccessfulKnown := true;
    }

    method FinishCatchUp()
      modifies this
      ensures Fields() == Spec.FinishCatchUp(old(Fields()))
    {
      catchingUp := false;
    }

    method RestartCatchUp()
      modifies this
      ensures Fields() == Spec.RestartCatchUp(old(Fields()))
    {
      catchingUp := true;
      pendingPDUs := [];
    }

    method TakeCatchUpSkipped() returns (v: int)
      modifies this
      ensures v == old(catchupLastSkipped)
      ensures Fields() == Spec.ClearSkipped(old(Fields()))
    {
      v := catchupLastSkipped;
      catchupLastSkipped := 0;
    }

    /** One catch-up transaction with nothing else running; the remote's answer is an input. */
    method SendCatchUp(p: PDU, answer: Outcome) returns (res: CatchUpResult)
      modifies this`running, this`lastSuccessfulStreamOrdering, this`lastSuccessfulKnown
      ensures res == if old(running) then Busy else if answer.Ok? then Sent else SendFailed
      ensures Fields() == if res.Sent? then Spec.CaughtUp(old(Fields()), p.ordering) else old(Fields())
      ensures lastSuccessfulStreamOrdering ==
              if res.Sent? then Max(old(lastSuccessfulStreamOrdering), p.ordering) else old(lastSuccessfulStreamOrdering)
      ensures lastSuccessfulKnown <==>
              old(lastSuccessfulKnown) || (res.Sent? && p.ordering > old(lastSuccessfulStreamOrdering))
    {
      var won := Claim();
      if !won {
        return Busy;
      }
      if !answer.Ok? {
        var _ := ReleaseClaim();
        return SendFailed;
      }
      if p.ordering > lastSuccessfulStreamOrdering {
        lastSuccessfulStreamOrdering := p.ordering;
        lastSuccessfulKnown := true;
      }
      var _ := ReleaseClaim();
      return Sent;
    }
  }
}
