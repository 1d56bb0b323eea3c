/** The units that stand for table rows, followed through the queue by content:
    merging, clobbering and the limit on a transaction never reorder, alter or
    lose one. */
module DurableUnits {
  import opened Units
  import opened QueueSpec

  predicate IsDurable(e: EDU) {
    Durable(e.unit.kind)
  }

  /** A durable unit is never a merged one, and only a durable unit carries a mark. */
  predicate EduOK(e: EDU) {
    && (IsDurable(e) ==> Plain(e))
    && (e.toDeviceUpTo != 0 ==> e.unit.kind.DirectToDevice? && e.toDeviceUpTo > 0)
    && (e.deviceListUpTo != 0 ==> IsDurable(e) && e.deviceListUpTo > 0)
  }

  ghost predicate EdusOK(edus: seq<EDU>) {
    forall i :: 0 <= i < |edus| ==> EduOK(edus[i])
  }

  /** What the worker's producers hand over: typing is the only keyed unit. */
  predicate OpOK(op: EduOp) {
    match op
    case Append(e) => EduOK(e)
    case Keyed(_, unit) => !Durable(unit.kind)
    case _ => true
  }

  function DurableOf(edus: seq<EDU>): seq<EDU> {
    if edus == [] then [] else (if IsDurable(edus[0]) then [edus[0]] else []) + DurableOf(edus[1..])
  }

  function DurableSent(units: seq<Unit>): seq<Unit> {
    if units == [] then [] else (if Durable(units[0].kind) then [units[0]] else []) + DurableSent(units[1..])
  }

  function UnitsOf(edus: seq<EDU>): (units: seq<Unit>)
    ensures |units| == |edus|
    ensures forall i :: 0 <= i < |edus| ==> units[i] == edus[i].unit
  {
    seq(|edus|, i requires 0 <= i < |edus| => edus[i].unit)
  }

  lemma DurableOfRest(a: seq<EDU>, b: seq<EDU>)
    requires a != []
    ensures DurableOf(a + b) == (if IsDurable(a[0]) then [a[0]] else []) + DurableOf(a[1..] + b)
  {
    assert (a + b)[1..] == a[1..] + b;
  }

  lemma {:induction false} DurableOfConcat(a: seq<EDU>, b: seq<EDU>)
    ensures DurableOf(a + b) == DurableOf(a) + DurableOf(b)
  {
    if a == [] {
      assert a + b == b;
    } else {
      DurableOfConcat(a[1..], b);
      DurableOfRest(a, b);
    }
  }

  lemma DurableOfOne(e: EDU)
    ensures DurableOf([e]) == if IsDurable(e) then [e] else []
  {
    assert DurableOf([e]) == (if IsDurable([e][0]) then [[e][0]] else []) + DurableOf([e][1..]);
  }

  lemma DurableSentRest(a: seq<Unit>, b: seq<Unit>)
    requires a != []
    ensures DurableSent(a + b) == (if Durable(a[0].kind) then [a[0]] else []) + DurableSent(a[1..] + b)
  {
    assert (a + b)[1..] == a[1..] + b;
  }

  lemma {:induction false} DurableSentConcat(a: seq<Unit>, b: seq<Unit>)
    ensures DurableSent(a + b) == DurableSent(a) + DurableSent(b)
  {
    if a == [] {
      assert a + b == b;
    } else {
      DurableSentConcat(a[1..], b);
      DurableSentRest(a, b);
    }
  }

  lemma {:induction false} MaterialiseKeepsDurable(edus: seq<EDU>)
    requires EdusOK(edus)
    ensures DurableSent(MaterialiseAll(edus)) == UnitsOf(DurableOf(edus))
  {
    if edus != [] {
      var units := MaterialiseAll(edus);
      MaterialiseKeepsDurable(edus[1..]);
      assert units[1..] == MaterialiseAll(edus[1..]);
      assert UnitsOf(DurableOf(edus)) ==
             (if IsDurable(edus[0]) then [edus[0].unit] else []) + UnitsOf(DurableOf(edus[1..]));
    }
  }

  /** Two queues alike as far as durable units and marks go. */
  ghost predicate Alike(a: seq<EDU>, b: seq<EDU>) {
    |a| == |b| &&
    forall i :: 0 <= i < |a| ==>
      a[i].toDeviceUpTo == b[i].toDeviceUpTo && a[i].deviceListUpTo == b[i].deviceListUpTo &&
      IsDurable(a[i]) == IsDurable(b[i]) && (IsDurable(a[i]) ==> a[i] == b[i])
  }

  lemma {:induction false} AlikeSameDurable(a: seq<EDU>, b: seq<EDU>)
    requires Alike(a, b)
    ensures DurableOf(a) == DurableOf(b)
  {
    if a != [] { AlikeSameDurable(a[1..], b[1..]); }
  }

  lemma {:induction false} AlikeSameMark(a: seq<EDU>, b: seq<EDU>, lane: Lane)
    requires Alike(a, b)
    ensures MaxMark(a, lane) == MaxMark(b, lane)
  {
    if a != [] { AlikeSameMark(a[..|a| - 1], b[..|b| - 1], lane); }
  }

  function Fresh(op: EduOp): seq<EDU> {
    if op.Append? then DurableOf([op.edu]) else []
  }

  lemma EnqueueIsAlike(edus: seq<EDU>, op: EduOp)
    requires EdusOK(edus) && OpOK(op)
    ensures |EnqueueInto(edus, op)| >= |edus|
    ensures EdusOK(EnqueueInto(edus, op))
    ensures Alike(EnqueueInto(edus, op)[..|edus|], edus)
    ensures DurableOf(EnqueueInto(edus, op)[|edus|..]) == Fresh(op)
  {
    var i := FitIndex(edus, op);
    var after := EnqueueInto(edus, op);
    if i == |edus| {
      assert after[|edus|..] == [NewEDU(op)];
      assert after[..|edus|] == edus;
    } else {
      assert after[|edus|..] == [];
    }
  }

  /** Wherever the queue is cut, an enqueue leaves the durable units before the cut
      alone and adds its own, if it has one, after all the others. */
  lemma EnqueueAtCut(edus: seq<EDU>, op: EduOp, n: nat)
    requires EdusOK(edus) && OpOK(op) && n <= |edus|
    ensures n <= |EnqueueInto(edus, op)|
    ensures DurableOf(EnqueueInto(edus, op)[..n]) == DurableOf(edus[..n])
    ensures forall lane :: MaxMark(EnqueueInto(edus, op)[..n], lane) == MaxMark(edus[..n], lane)
    ensures DurableOf(EnqueueInto(edus, op)[n..]) == DurableOf(edus[n..]) + Fresh(op)
  {
    var after := EnqueueInto(edus, op);
    EnqueueIsAlike(edus, op);
    AlikeCut(after[..|edus|], edus, n);
    assert after[..|edus|][..n] == after[..n];
    assert after[n..] == after[..|edus|][n..] + after[|edus|..];
    DurableOfConcat(after[..|edus|][n..], after[|edus|..]);
  }

  lemma AlikeCut(a: seq<EDU>, b: seq<EDU>, n: nat)
    requires Alike(a, b) && n <= |a|
    ensures DurableOf(a[..n]) == DurableOf(b[..n])
    ensures forall lane :: MaxMark(a[..n], lane) == MaxMark(b[..n], lane)
    ensures DurableOf(a[n..]) == DurableOf(b[n..])
  {
    AlikeSameDurable(a[..n], b[..n]);
    AlikeSameMark(a[..n], b[..n], Messages);
    AlikeSameMark(a[..n], b[..n], Lists);
    AlikeSameDurable(a[n..], b[n..]);
  }

  lemma {:induction false} DurableOfContains(edus: seq<EDU>, i: nat)
    requires i < |edus| && IsDurable(edus[i])
    ensures edus[i] in DurableOf(edus)
  {
    if i > 0 { DurableOfContains(edus[1..], i - 1); }
  }

  /** A mark a batch reports is the mark of one of the durable units in it. */
  lemma BatchMark(edus: seq<EDU>, lane: Lane)
    requires EdusOK(edus) && MaxMark(edus, lane) > 0
    ensures exists i :: 0 <= i < |DurableOf(edus)| && Mark(DurableOf(edus)[i], lane) == MaxMark(edus, lane)
  {
    MaxMarkIsAMark(edus, lane);
    var j :| 0 <= j < |edus| && Mark(edus[j], lane) == MaxMark(edus, lane);
    DurableOfContains(edus, j);
  }

  lemma KeepMarkedNext(a: seq<EDU>, e: EDU)
    ensures KeepMarked(a + [e]) == if Unmarked(e) then KeepMarked(a) else KeepMarked(a) + [e]
  {
    assert (a + [e])[..|a|] == a;
    assert KeepMarked(a) + [] == KeepMarked(a);
  }

  lemma DurableOfNext(a: seq<EDU>, e: EDU)
    ensures DurableOf(a + [e]) == if IsDurable(e) then DurableOf(a) + [e] else DurableOf(a)
  {
    DurableOfConcat(a, [e]);
    DurableOfOne(e);
    assert DurableOf(a) + [] == DurableOf(a);
  }

  lemma DurableOfLast(edus: seq<EDU>)
    requires edus != []
    ensures var front, e := edus[..|edus| - 1], edus[|edus| - 1];
            DurableOf(edus) == if IsDurable(e) then DurableOf(front) + [e] else DurableOf(front)
  {
    DurableOfNext(edus[..|edus| - 1], edus[|edus| - 1]);
    assert edus[..|edus| - 1] + [edus[|edus| - 1]] == edus;
  }

  lemma KeepMarkedLast(edus: seq<EDU>)
    requires edus != []
    ensures var front, e := edus[..|edus| - 1], edus[|edus| - 1];
            KeepMarked(edus) == if Unmarked(e) then KeepMarked(front) else KeepMarked(front) + [e]
  {
  }

  /** The durable units a drop keeps are the marked ones among them. */
  lemma {:induction false} DropOnDurable(edus: seq<EDU>)
    ensures DurableOf(KeepMarked(edus)) == KeepMarked(DurableOf(edus))
  {
    if edus != [] {
      var front, e := edus[..|edus| - 1], edus[|edus| - 1];
      DropOnDurable(front);
      DurableOfLast(edus);
      KeepMarkedLast(edus);
      DurableOfNext(KeepMarked(front), e);
      KeepMarkedNext(DurableOf(front), e);
    }
  }

  /** Positions that go with units, for those a drop keeps. */
  function KeptAt(edus: seq<EDU>, at: seq<nat>): seq<nat>
    requires |edus| == |at|
  {
    if edus == [] then []
    else
      var n := |edus| - 1;
      KeptAt(edus[..n], at[..n]) + if Unmarked(edus[n]) then [] else [at[n]]
  }

  ghost predicate Rising(at: seq<nat>) {
    forall i, j :: 0 <= i < j < |at| ==> at[i] < at[j]
  }

  /** Where each of some units stands among all that were ever queued. */
  ghost predicate Stand(queued: seq<EDU>, edus: seq<EDU>, at: seq<nat>) {
    |edus| == |at| && forall i :: 0 <= i < |at| ==> at[i] < |queued| && queued[at[i]] == edus[i]
  }

  /** A drop keeps units and their positions together. */
  lemma {:induction false} KeptStand(queued: seq<EDU>, edus: seq<EDU>, at: seq<nat>)
    requires Stand(queued, edus, at)
    ensures Stand(queued, KeepMarked(edus), KeptAt(edus, at))
  {
    if edus != [] {
      KeptStand(queued, edus[..|edus| - 1], at[..|edus| - 1]);
    }
  }

  lemma RisingNext(at: seq<nat>, x: nat)
    requires Rising(at) && forall i :: 0 <= i < |at| ==> at[i] < x
    ensures Rising(at + [x])
  {
  }

  lemma {:induction false} KeptRising(edus: seq<EDU>, at: seq<nat>)
    requires |edus| == |at| && Rising(at)
    ensures Rising(KeptAt(edus, at))
    ensures forall x :: x in KeptAt(edus, at) ==> x in at
  {
    if edus != [] {
      var n := |edus| - 1;
      var front := KeptAt(edus[..n], at[..n]);
      KeptRising(edus[..n], at[..n]);
      forall i | 0 <= i < |front| ensures front[i] < at[n] {
        assert front[i] in front && front[i] in at[..n];
      }
      RisingNext(front, at[n]);
    }
  }

  /** A drop removes exactly the units that carry no mark. */
  lemma {:induction false} KeptExactly(edus: seq<EDU>, at: seq<nat>, j: nat)
    requires |edus| == |at| && Rising(at) && j < |edus|
    ensures at[j] in KeptAt(edus, at) <==> !Unmarked(edus[j])
  {
    var n := |edus| - 1;
    KeptRising(edus[..n], at[..n]);
    if j < n {
      KeptExactly(edus[..n], at[..n], j);
      assert at[n] != at[j];
    } else if at[n] in KeptAt(edus[..n], at[..n]) {
      assert false;
    }
  }
}
