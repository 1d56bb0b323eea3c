/** handleEvent: an event's destinations are recorded as owed before any queue is touched. */
module EventRouting {
  import opened Units
  import opened DestinationQueue
  import opened Manager
  import Spec = QueueSpec

  type Routes = map<(string, string), int>   // newest ordering, by destination and room

  datatype Fault = NoFault | Resolving | ReadingTimings | Recording | RecordingSynapse

  /** Our shard's share, short of the server we act for. */
  function Ours(hosts: seq<string>, mine: string -> bool, onBehalfOf: string): (r: seq<string>)
    ensures forall d :: d in r <==> d in hosts && mine(d) && d != onBehalfOf
  {
    if hosts == [] then []
    else
      var d := hosts[|hosts| - 1];
      Ours(hosts[..|hosts| - 1], mine, onBehalfOf) + if mine(d) && d != onBehalfOf then [d] else []
  }

  function Upsert(routes: Routes, d: string, room: string, ordering: int): Routes {
    if (d, room) in routes && routes[(d, room)] >= ordering then routes else routes[(d, room) := ordering]
  }

  /** RecordRoutes: one row a destination and room, never backwards. */
  function Recorded(routes: Routes, ours: seq<string>, room: string, ordering: int): Routes {
    if ours == [] then routes
    else Upsert(Recorded(routes, ours[..|ours| - 1], room, ordering), ours[|ours| - 1], room, ordering)
  }

  /** Each destination's row for the room is then the event's own ordering, unless it was
      there already at that or a later one; no other row changes, and none appears. */
  lemma {:induction false} RecordedIsOwed(routes: Routes, ours: seq<string>, room: string, ordering: int)
    ensures var after := Recorded(routes, ours, room, ordering);
            && (forall k :: k in after <==> k in routes || (k.0 in ours && k.1 == room))
            && (forall k :: k in after ==>
                  after[k] == if k.0 in ours && k.1 == room && !(k in routes && routes[k] >= ordering) then ordering
                              else routes[k])
  {
    if ours != [] {
      RecordedIsOwed(routes, ours[..|ours| - 1], room, ordering);
      assert ours == ours[..|ours| - 1] + [ours[|ours| - 1]];
    }
  }

  /** So no row goes back, and every row names an event: one it named before, or this one. */
  lemma RecordedNamesEvents(routes: Routes, ours: seq<string>, room: string, ordering: int, events: set<int>)
    requires ordering in events && forall k :: k in routes ==> routes[k] in events
    ensures var after := Recorded(routes, ours, room, ordering);
            && (forall k :: k in after ==> after[k] in events)
            && (forall k :: k in routes ==> k in after && routes[k] <= after[k])
            && (forall d :: d in ours ==> (d, room) in after && after[(d, room)] >= ordering)
  {
    RecordedIsOwed(routes, ours, room, ordering);
  }

  /** A queue by name; one that does not exist yet is as good as new. */
  ghost function QueueOf(m: Manager, name: string): Spec.Queue
    reads m, if name in m.dests then {m.dests[name]} else {}
  {
    if name in m.dests then m.dests[name].Fields() else Spec.FRESH
  }

  /** Queued and, if nobody is sending, claimed for a loop to be spawned. */
  function Handed(q: Spec.Queue, p: PDU): Spec.Queue {
    Spec.TryStart(Spec.EnqueuePDU(q, p))
  }

  /** What that makes of a queue, field by field. */
  lemma HandedIs(q: Spec.Queue, p: PDU)
    ensures var h, toCatchUp := Handed(q, p), q.catchingUp && q.known;
            && h.running && h.newData == (q.newData || !toCatchUp || q.running)
            && h.pdus == (if toCatchUp then q.pdus else q.pdus + [p])
            && h.skipped == (if toCatchUp && p.ordering > q.skipped then p.ordering else q.skipped)
            && h.edus == q.edus && h.catchingUp == q.catchingUp
            && h.lastSuccessful == q.lastSuccessful && h.known == q.known
  {
  }

  /** The event goes somewhere: it is eligible, some of its hosts are ours, and it serialises. */
  predicate ToSend(eligible: bool, ours: seq<string>, serialises: bool) {
    eligible && ours != [] && serialises
  }

  /** The call that fails, if one does, was not reached. */
  predicate Missed(fault: Fault, eligible: bool, ours: seq<string>, serialises: bool, primary: bool) {
    match fault
    case NoFault => true
    case Resolving => !eligible
    case ReadingTimings => !eligible || ours == []
    case Recording => !ToSend(eligible, ours, serialises)
    case RecordingSynapse => !ToSend(eligible, ours, serialises) || !primary
  }

  class Router {
    const manager: Manager
    const primary: bool          // also records where Synapse keeps its own
    var routes: Routes
    var synapseRoutes: Routes

    constructor (manager: Manager, primary: bool)
      ensures this.manager == manager && this.primary == primary && routes == map[] && synapseRoutes == map[]
    {
      this.manager, this.primary, routes, synapseRoutes := manager, primary, map[], map[];
    }

    method Share(hosts: seq<string>, mine: string -> bool, onBehalfOf: string) returns (ours: seq<string>)
      ensures ours == Ours(hosts, mine, onBehalfOf)
    {
      ours := [];
      for i := 0 to |hosts|
        invariant ours == Ours(hosts[..i], mine, onBehalfOf)
      {
        assert hosts[..i + 1][..i] == hosts[..i];
        if !mine(hosts[i]) {
          continue;
        }
        if hosts[i] == onBehalfOf {
          continue;
        }
        ours := ours + [hosts[i]];
      }
      assert hosts[..|hosts|] == hosts;
    }

    /** Nothing is queued that is not recorded. An error, which keeps the pickup cursor
        from passing the event, or an event that is not to be sent, leaves every queue as
        it was; otherwise the queues of the destinations that are due, and no others, get
        the event. It counts as sent only if there was one. */
    method HandleEvent(e: PDU, eligible: bool, hosts: seq<string>, mine: string -> bool, onBehalfOf: string,
                       due: string -> bool, serialises: bool, fault: Fault)
      returns (sent: bool, ok: bool)
      requires manager.Valid() && Distinct(hosts)
      modifies this, manager`dests, manager.dests.Values
      ensures manager.Valid()
      ensures var ours := Ours(hosts, mine, onBehalfOf);
              ok <==> match fault
                      case NoFault => true
                      case Resolving => !eligible
                      case ReadingTimings => !eligible || ours == []
                      case Recording => !eligible || ours == [] || !serialises
                      case RecordingSynapse => !eligible || ours == [] || !serialises || !primary
      ensures !eligible || !serialises ==> !sent && routes == old(routes) && synapseRoutes == old(synapseRoutes)
      ensures var ours := Ours(hosts, mine, onBehalfOf);
              sent <==> ok && ToSend(eligible, ours, serialises) && exists n :: n in ours && due(n)
      ensures var ours := Ours(hosts, mine, onBehalfOf);
              ok && ToSend(eligible, ours, serialises) ==>
                routes == Recorded(old(routes), ours, e.room, e.ordering) &&
                synapseRoutes == if primary then Recorded(old(synapseRoutes), ours, e.room, e.ordering)
                                 else old(synapseRoutes)
      ensures ok && !ToSend(eligible, Ours(hosts, mine, onBehalfOf), serialises) ==> routes == old(routes)
      ensures !ok || !ToSend(eligible, Ours(hosts, mine, onBehalfOf), serialises) ==>
                manager.dests == old(manager.dests) && synapseRoutes == old(synapseRoutes)
      ensures !ok ==> routes == if fault.RecordingSynapse? then Recorded(old(routes), Ours(hosts, mine, onBehalfOf), e.room, e.ordering)
                                else old(routes)
      ensures forall n :: QueueOf(manager, n) ==
                          if sent && n in Ours(hosts, mine, onBehalfOf) && due(n) then Handed(old(QueueOf(manager, n)), e)
                          else old(QueueOf(manager, n))
    {
      var ours, go;
      sent := false;
      ours, go, ok := Decide(eligible, hosts, mine, onBehalfOf, serialises, fault);
      if !go {
        return;
      }
      OursDistinct(hosts, mine, onBehalfOf);
      sent, ok := Commit(ours, e, due, fault);
    }

    /** Recorded first, then queued where it is due. */
    method Commit(ours: seq<string>, e: PDU, due: string -> bool, fault: Fault) returns (sent: bool, ok: bool)
      requires manager.Valid() && Distinct(ours)
      modifies this, manager`dests, manager.dests.Values
      ensures manager.Valid()
      ensures ok <==> !fault.Recording? && !(fault.RecordingSynapse? && primary)
      ensures routes == if fault.Recording? then old(routes) else Recorded(old(routes), ours, e.room, e.ordering)
      ensures synapseRoutes == if ok && primary then Recorded(old(synapseRoutes), ours, e.room, e.ordering)
                               else old(synapseRoutes)
      ensures sent <==> ok && exists n :: n in ours && due(n)
      ensures !ok ==> manager.dests == old(manager.dests)
      ensures forall n :: QueueOf(manager, n) ==
                          if ok && n in ours && due(n) then Handed(old(QueueOf(manager, n)), e) else old(QueueOf(manager, n))
    {
      sent := false;
      ok := RecordRoutes(ours, e, fault);
      if ok {
        sent := FanOut(ours, due, e);
      }
    }

    /** Everything there is to decide before anything is written. */
    method Decide(eligible: bool, hosts: seq<string>, mine: string -> bool, onBehalfOf: string, serialises: bool, fault: Fault)
      returns (ours: seq<string>, go: bool, ok: bool)
      ensures go ==> ok && ours == Ours(hosts, mine, onBehalfOf)
      ensures var ours := Ours(hosts, mine, onBehalfOf);
              go <==> ToSend(eligible, ours, serialises) && !fault.Resolving? && !fault.ReadingTimings?
      ensures !go ==> (ok <==> Missed(fault, eligible, Ours(hosts, mine, onBehalfOf), serialises, primary))
      ensures !ok ==> !fault.RecordingSynapse?
    {
      ours, go, ok := [], false, true;
      if !eligible {
        return;
      }
      if fault.Resolving? {
        return ours, false, false;
      }
      ours := Share(hosts, mine, onBehalfOf);
      if |ours| == 0 {
        return;
      }
      if fault.ReadingTimings? {
        return ours, false, false;
      }
      go := serialises;
    }

    /** The decision recorded as ours, then where Synapse keeps it. */
    method RecordRoutes(ours: seq<string>, e: PDU, fault: Fault) returns (ok: bool)
      modifies this
      ensures ok <==> !fault.Recording? && !(fault.RecordingSynapse? && primary)
      ensures routes == if fault.Recording? then old(routes) else Recorded(old(routes), ours, e.room, e.ordering)
      ensures synapseRoutes == if ok && primary then Recorded(old(synapseRoutes), ours, e.room, e.ordering)
                               else old(synapseRoutes)
    {
      if fault.Recording? {
        return false;
      }
      routes := Recorded(routes, ours, e.room, e.ordering);
      if primary {
        if fault.RecordingSynapse? {
          return false;
        }
        synapseRoutes := Recorded(synapseRoutes, ours, e.room, e.ordering);
      }
      return true;
    }

    method FanOut(ours: seq<string>, due: string -> bool, e: PDU) returns (any: bool)
      requires manager.Valid() && Distinct(ours)
      modifies manager`dests, manager.dests.Values
      ensures manager.Valid() && (any <==> exists n :: n in ours && due(n))
      ensures forall n :: QueueOf(manager, n) ==
                          if n in ours && due(n) then Handed(old(QueueOf(manager, n)), e) else old(QueueOf(manager, n))
    {
      any := false;
      for i := 0 to |ours|
        invariant manager.Valid() && (any <==> exists n :: n in ours[..i] && due(n))
        invariant forall n :: n in manager.dests ==>
                    fresh(manager.dests[n]) || (n in old(manager.dests) && manager.dests[n] == old(manager.dests)[n])
        invariant forall n :: QueueOf(manager, n) ==
                    if n in ours[..i] && due(n) then Handed(old(QueueOf(manager, n)), e) else old(QueueOf(manager, n))
      {
        NotYet(ours, i);
        if due(ours[i]) {
          any := true;
          HandTo(ours[i], e);
        }
      }
      assert ours[..|ours|] == ours;
    }

    /** One destination of the fan-out. */
    method HandTo(d: string, e: PDU)
      requires manager.Valid()
      modifies manager`dests, if d in manager.dests then {manager.dests[d]} else {}
      ensures manager.Valid() && d in manager.dests
      ensures QueueOf(manager, d) == Handed(old(QueueOf(manager, d)), e)
      ensures forall n :: n != d ==> QueueOf(manager, n) == old(QueueOf(manager, n))
      ensures forall n :: n in manager.dests && n != d ==> n in old(manager.dests)
      ensures forall n :: n in old(manager.dests) ==> n in manager.dests && manager.dests[n] == old(manager.dests)[n]
      ensures d !in old(manager.dests) ==> fresh(manager.dests[d])
    {
      var q := manager.GetOrCreate(d);
      q.EnqueuePDU(e);
      var _ := manager.Wake(q);
    }
  }

  predicate Distinct(s: seq<string>) {
    s == [] || (s[|s| - 1] !in s[..|s| - 1] && Distinct(s[..|s| - 1]))
  }

  lemma {:induction false} NotYet(s: seq<string>, i: nat)
    requires Distinct(s) && i < |s|
    ensures s[i] !in s[..i] && forall x :: x in s[..i + 1] <==> x in s[..i] || x == s[i]
  {
    assert s[..i + 1] == s[..i] + [s[i]];
    if i < |s| - 1 {
      NotYet(s[..|s| - 1], i);
      assert s[..|s| - 1][..i] == s[..i];
    }
  }

  lemma {:induction false} OursDistinct(hosts: seq<string>, mine: string -> bool, onBehalfOf: string)
    requires Distinct(hosts)
    ensures Distinct(Ours(hosts, mine, onBehalfOf))
  {
    if hosts != [] {
      var front, d := Ours(hosts[..|hosts| - 1], mine, onBehalfOf), hosts[|hosts| - 1];
      OursDistinct(hosts[..|hosts| - 1], mine, onBehalfOf);
      OneMore(front, d);
      assert front + [] == front;
    }
  }

  lemma OneMore(s: seq<string>, x: string)
    requires Distinct(s) && x !in s
    ensures Distinct(s + [x])
  {
    assert (s + [x])[..|s|] == s;
  }
}
