/** The manager's map of queues and its bound on running loops. Protocol has the same
    steps interleaved; here are the critical sections on the fields themselves. */
module Manager {
  import opened Units
  import opened DestinationQueue
  import opened TransmissionLoop
  import Spec = QueueSpec

  class Manager {
    const capacity: nat
    const maxPDUs: int
    const maxEDUs: int
    var dests: map<string, Destination>
    var slots: nat

    /** One queue a name, one name a queue, and no more loops than slots. */
    ghost predicate Valid()
      reads this
    {
      slots <= capacity &&
      (forall a, b :: a in dests && b in dests && dests[a] == dests[b] ==> a == b)
    }

    constructor (maxConcurrent: int, maxPDUs: int, maxEDUs: int)
      ensures Valid() && dests == map[] && slots == 0
      ensures capacity == if maxConcurrent <= 0 then 2000 else maxConcurrent
    {
      capacity := if maxConcurrent <= 0 then 2000 else maxConcurrent;
      this.maxPDUs, this.maxEDUs := maxPDUs, maxEDUs;
      dests, slots := map[], 0;
    }

    /** The section under the write lock, entered after a miss. Whatever happened since the
        miss, a queue that is there by now is the one returned. */
    method GetOrCreate(name: string) returns (d: Destination)
      requires Valid()
      modifies this`dests
      ensures Valid() && name in dests && d == dests[name]
      ensures name in old(dests) ==> dests == old(dests)
      ensures name !in old(dests) ==> dests == old(dests)[name := d] && fresh(d) && d.Fields() == Spec.FRESH
    {
      if name in dests {
        return dests[name];
      }
      d := new Destination(maxPDUs, maxEDUs);
      dests := dests[name := d];
    }

    /** raced: somebody else has created the queue between the two locks. */
    method Get(name: string, raced: bool) returns (d: Destination)
      requires Valid()
      modifies this`dests
      ensures Valid() && name in dests && d == dests[name]
      ensures forall n :: n in old(dests) ==> n in dests && dests[n] == old(dests)[n]
      ensures dests.Keys == old(dests).Keys + {name}
    {
      if name in dests {
        return dests[name];
      }
      if raced {
        d := GetOrCreate(name);
      }
      d := GetOrCreate(name);
    }

    /** Whether a goroutine is spawned to run the loop. */
    method Wake(d: Destination) returns (spawned: bool)
      modifies d
      ensures spawned == !old(d.running) && d.running
      ensures d.Fields() == Spec.TryStart(old(d.Fields()))
    {
      spawned := d.TryStart();
    }

    /** The spawned goroutine. It waits for a slot for as long as the worker lives; with
        none to be had by then, it gives up the claim, or the queue would never send again.
        Either way claim and slot are back when it returns. */
    method Loop(d: Destination, cancelled: bool, turns: seq<Turn>)
      returns (ran: bool, why: Why, sent: seq<Spec.Taken>)
      requires Valid() && d.running
      requires cancelled || slots < capacity
      modifies this`slots, d
      ensures Valid() && slots == old(slots) && !d.running && ran == !cancelled
      ensures !ran ==> sent == [] && d.Fields() == Spec.Release(old(d.Fields()))
      ensures var l := Ran(old(d.Fields()), turns, d.Limits());
              ran ==> d.Fields() == Spec.Release(l.q) && sent == l.sent && why == Ending(l)
      ensures ran ==> RunOK(old(d.Fields()), turns, d.Limits())
    {
      sent, why := [], Cancelled;
      if cancelled {
        d.Release();
        return false, why, sent;
      }
      slots := slots + 1;
      var marks, turn;
      why, sent, marks, turn := Run(d, turns);
      slots := slots - 1;
      return true, why, sent;
    }
  }
}
