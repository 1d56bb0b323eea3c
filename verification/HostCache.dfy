/** The cache of state group lookups: a map of entries and a list of them, most
    recently used first. Lookups run outside the lock, so puts may come late. */
module HostCache {

  function Without<T(==)>(s: seq<T>, x: T): seq<T> {
    if s == [] then []
    else if s[0] == x then Without(s[1..], x)
    else [s[0]] + Without(s[1..], x)
  }

  function First<T>(s: seq<T>, n: nat): seq<T> {
    if n == 0 || s == [] then [] else [s[0]] + First(s[1..], n - 1)
  }

  predicate Distinct<T(==)>(s: seq<T>) {
    s == [] || (s[0] !in s[1..] && Distinct(s[1..]))
  }

  // ---------- the specification ----------

  /** One critical section: a lookup, or the end of one that missed. */
  datatype Op = Get(group: int) | Put(group: int)

  /** What is cached, most recently used first. */
  function Step(recent: seq<int>, op: Op, max: nat): seq<int> {
    if op.Put? || op.group in recent then First([op.group] + Without(recent, op.group), max) else recent
  }

  function Cached(run: seq<Op>, max: nat): seq<int> {
    if run == [] then [] else Step(Cached(run[..|run| - 1], max), run[|run| - 1], max)
  }

  /** The groups a run hit or put, in the order it did. */
  function Touches(run: seq<Op>, max: nat): seq<int> {
    if run == [] then []
    else
      var op, before := run[|run| - 1], run[..|run| - 1];
      Touches(before, max) + if op.Put? || op.group in Cached(before, max) then [op.group] else []
  }

  /** The distinct values of a sequence, the one seen last first. */
  function LastSeen(s: seq<int>): seq<int> {
    if s == [] then [] else [s[|s| - 1]] + Without(LastSeen(s[..|s| - 1]), s[|s| - 1])
  }

  lemma {:induction false} WithoutMembers<T>(s: seq<T>, x: T)
    ensures forall y :: y in Without(s, x) <==> y in s && y != x
  {
    if s != [] {
      WithoutMembers(s[1..], x);
    }
  }

  lemma {:induction false} WithoutIsDistinct<T>(s: seq<T>, x: T)
    requires Distinct(s)
    ensures Distinct(Without(s, x))
  {
    if s != [] {
      WithoutIsDistinct(s[1..], x);
      WithoutMembers(s[1..], x);
      assert s[0] != x ==> Without(s, x)[1..] == Without(s[1..], x);
    }
  }

  lemma {:induction false} WithoutAbsent<T>(s: seq<T>, x: T)
    requires x !in s
    ensures Without(s, x) == s
  {
    if s != [] {
      WithoutAbsent(s[1..], x);
      assert s == [s[0]] + s[1..];
    }
  }

  lemma {:induction false} FirstMembers<T>(s: seq<T>, n: nat, x: T)
    requires x in First(s, n)
    ensures x in s
  {
    if x != s[0] {
      assert First(s, n)[1..] == First(s[1..], n - 1);
      FirstMembers(s[1..], n - 1, x);
    }
  }

  lemma {:induction false} FirstTwice<T>(s: seq<T>, n: nat)
    ensures First(First(s, n), n) == First(s, n)
  {
    if n > 0 && s != [] {
      FirstTwice(s[1..], n - 1);
      assert First(s, n)[1..] == First(s[1..], n - 1);
    }
  }

  lemma {:induction false} FirstIsPrefix<T>(s: seq<T>, n: nat)
    ensures First(s, n) == if n <= |s| then s[..n] else s
  {
    if n > 0 && s != [] {
      FirstIsPrefix(s[1..], n - 1);
      assert n <= |s| ==> s[..n] == [s[0]] + s[1..][..n - 1];
      assert s == [s[0]] + s[1..];
    }
  }

  /** LastSeen holds each value once, and the values of s are all there. */
  lemma {:induction false} LastSeenIsDistinct(s: seq<int>)
    ensures Distinct(LastSeen(s))
    ensures forall x :: x in LastSeen(s) <==> x in s
  {
    if s != [] {
      var n := |s| - 1;
      LastSeenIsDistinct(s[..n]);
      WithoutMembers(LastSeen(s[..n]), s[n]);
      WithoutIsDistinct(LastSeen(s[..n]), s[n]);
      assert LastSeen(s)[1..] == Without(LastSeen(s[..n]), s[n]);
      assert s == s[..n] + [s[n]];
    }
  }

  /** Forgetting the end before taking a value out loses nothing nearer the front. */
  lemma {:induction false} FirstOfWithout(s: seq<int>, x: int, n: nat)
    requires Distinct(s) && n > 0
    ensures First(Without(First(s, n), x), n - 1) == First(Without(s, x), n - 1)
  {
    if s != [] {
      var rest := First(s[1..], n - 1);
      assert First(s, n)[1..] == rest;
      if s[0] == x {
        if x in rest {
          FirstMembers(s[1..], n - 1, x);
          assert false;
        }
        WithoutAbsent(rest, x);
        WithoutAbsent(s[1..], x);
        FirstTwice(s[1..], n - 1);
      } else if n > 1 {
        FirstOfWithout(s[1..], x, n - 1);
        assert Without(First(s, n), x)[1..] == Without(rest, x);
        assert Without(s, x)[1..] == Without(s[1..], x);
      }
    }
  }

  lemma StepKeepsMostRecent(recent: seq<int>, seen: seq<int>, op: Op, max: nat)
    requires max > 0 && Distinct(seen) && recent == First(seen, max)
    requires op.Put? || op.group in recent
    ensures Step(recent, op, max) == First([op.group] + Without(seen, op.group), max)
  {
    FirstOfWithout(seen, op.group, max);
    assert ([op.group] + Without(recent, op.group))[1..] == Without(recent, op.group);
    assert ([op.group] + Without(seen, op.group))[1..] == Without(seen, op.group);
  }

  lemma LastSeenOfMore(s: seq<int>, x: int)
    ensures LastSeen(s + [x]) == [x] + Without(LastSeen(s), x)
  {
    assert (s + [x])[..|s|] == s;
  }

  /** Main: over any run, what is cached is exactly the most recently touched distinct
      groups, as many as fit, in order of recency. */
  lemma {:induction false} CachedIsMostRecent(run: seq<Op>, max: nat)
    requires max > 0
    ensures Cached(run, max) == First(LastSeen(Touches(run, max)), max)
  {
    if run != [] {
      var n := |run| - 1;
      var op, touches := run[n], Touches(run[..n], max);
      CachedIsMostRecent(run[..n], max);
      if op.Put? || op.group in Cached(run[..n], max) {
        LastSeenIsDistinct(touches);
        StepKeepsMostRecent(Cached(run[..n], max), LastSeen(touches), op, max);
        LastSeenOfMore(touches, op.group);
      } else {
        assert touches + [] == touches;
      }
    }
  }

  // ---------- the cache ----------

  class HostCacheEntry {
    const group: int
    var hosts: array<string>

    constructor (group: int, hosts: array<string>)
      ensures this.group == group && this.hosts == hosts
    {
      this.group, this.hosts := group, hosts;
    }
  }

  function Groups(lru: seq<HostCacheEntry>): seq<int> {
    if lru == [] then [] else [lru[0].group] + Groups(lru[1..])
  }

  /** The map and the list hold the same entries, each once, under its own group. */
  ghost predicate Linked(entries: map<int, HostCacheEntry>, lru: seq<HostCacheEntry>) {
    && Distinct(Groups(lru))
    && (forall e :: e in lru ==> e.group in entries && entries[e.group] == e)
    && (forall g :: g in entries ==> entries[g] in lru && entries[g].group == g)
  }

  lemma {:induction false} GroupOf(lru: seq<HostCacheEntry>, e: HostCacheEntry)
    requires e in lru
    ensures e.group in Groups(lru)
  {
    if e != lru[0] {
      GroupOf(lru[1..], e);
    }
  }

  lemma {:induction false} HolderOf(lru: seq<HostCacheEntry>, g: int) returns (e: HostCacheEntry)
    requires g in Groups(lru)
    ensures e in lru && e.group == g
  {
    if lru[0].group == g {
      e := lru[0];
    } else {
      e := HolderOf(lru[1..], g);
    }
  }

  lemma GroupCached(entries: map<int, HostCacheEntry>, lru: seq<HostCacheEntry>, group: int)
    requires Linked(entries, lru)
    ensures group in entries <==> group in Groups(lru)
  {
    if group in entries {
      GroupOf(lru, entries[group]);
    }
    if group in Groups(lru) {
      var e := HolderOf(lru, group);
    }
  }

  lemma {:induction false} GroupsWithout(lru: seq<HostCacheEntry>, e: HostCacheEntry)
    requires forall x :: x in lru && x.group == e.group ==> x == e
    ensures Groups(Without(lru, e)) == Without(Groups(lru), e.group)
  {
    if lru != [] {
      GroupsWithout(lru[1..], e);
      assert Groups(lru)[1..] == Groups(lru[1..]);
      if lru[0] != e {
        assert Without(lru, e)[1..] == Without(lru[1..], e);
      }
    }
  }

  lemma LinkedAfterMove(entries: map<int, HostCacheEntry>, lru: seq<HostCacheEntry>, e: HostCacheEntry)
    requires Linked(entries, lru) && e in lru
    ensures var moved := [e] + Without(lru, e);
            Linked(entries, moved) && Groups(moved) == [e.group] + Without(Groups(lru), e.group) &&
            forall x :: x in moved <==> x in lru
  {
    var moved, groups := [e] + Without(lru, e), Groups(lru);
    GroupsWithout(lru, e);
    WithoutMembers(lru, e);
    WithoutMembers(groups, e.group);
    WithoutIsDistinct(groups, e.group);
    assert moved[1..] == Without(lru, e);
    assert Groups(moved)[1..] == Without(groups, e.group);
  }

  lemma LinkedAfterPush(entries: map<int, HostCacheEntry>, lru: seq<HostCacheEntry>, e: HostCacheEntry)
    requires Linked(entries, lru) && e.group !in entries
    ensures Linked(entries[e.group := e], [e] + lru) && Groups([e] + lru) == [e.group] + Groups(lru)
  {
    GroupCached(entries, lru, e.group);
    assert ([e] + lru)[1..] == lru;
    assert Groups([e] + lru)[1..] == Groups(lru);
  }

  lemma {:induction false} GroupsOfFirst(lru: seq<HostCacheEntry>, n: nat)
    ensures Groups(First(lru, n)) == First(Groups(lru), n)
  {
    if n > 0 && lru != [] {
      GroupsOfFirst(lru[1..], n - 1);
      assert First(lru, n)[1..] == First(lru[1..], n - 1);
      assert Groups(lru)[1..] == Groups(lru[1..]);
    }
  }

  /** The last entry's group is nobody else's. */
  lemma {:induction false} LastStandsAlone(lru: seq<HostCacheEntry>)
    requires lru != [] && Distinct(Groups(lru))
    ensures Distinct(Groups(lru[..|lru| - 1]))
    ensures forall e :: e in lru[..|lru| - 1] ==> e.group != lru[|lru| - 1].group
    ensures forall g :: g in Groups(lru[..|lru| - 1]) ==> g in Groups(lru)
  {
    var n := |lru| - 1;
    assert Groups(lru)[1..] == Groups(lru[1..]);
    if n > 0 {
      var rest := lru[1..];
      LastStandsAlone(rest);
      assert lru[..n] == [lru[0]] + rest[..n - 1];
      assert lru[..n][1..] == rest[..n - 1];
      assert Groups(lru[..n])[1..] == Groups(rest[..n - 1]);
      GroupOf(rest, rest[n - 1]);
    }
  }

  lemma LinkedAfterPop(entries: map<int, HostCacheEntry>, lru: seq<HostCacheEntry>)
    requires Linked(entries, lru) && lru != []
    ensures var n := |lru| - 1;
            Linked(entries - {lru[n].group}, lru[..n])
  {
    var n := |lru| - 1;
    var left, last := entries - {lru[n].group}, lru[n];
    LastStandsAlone(lru);
    forall g | g in left ensures left[g] in lru[..n] && left[g].group == g {
      assert entries[g] in lru;
      var i :| 0 <= i <= n && lru[i] == entries[g];
    }
    forall e | e in lru[..n] ensures e.group in left && left[e.group] == e {
      assert e in lru;
    }
  }

  class CachedRoomHosts {
    const max: nat
    const inner: int -> seq<string>   // a state group never changes
    var entries: map<int, HostCacheEntry>
    var lru: seq<HostCacheEntry>

    ghost predicate Valid()
      reads this, lru, set e <- lru :: e.hosts
    {
      && 0 < max && |lru| <= max
      && Linked(entries, lru)
      && (forall e :: e in lru ==> e.hosts[..] == inner(e.group))
    }

    ghost function Recent(): seq<int>
      reads this
    {
      Groups(lru)
    }

    constructor (inner: int -> seq<string>, max: int)
      ensures Valid() && this.inner == inner && Recent() == []
      ensures this.max == if max <= 0 then 4096 else max
    {
      this.inner, this.max := inner, if max <= 0 then 4096 else max;
      entries, lru := map[], [];
    }

    method Copy(hosts: array<string>) returns (copy: array<string>)
      ensures fresh(copy) && copy[..] == hosts[..]
    {
      copy := new string[hosts.Length](i requires 0 <= i < hosts.Length reads hosts => hosts[i]);
      assert forall i :: 0 <= i < hosts.Length ==> copy[i] == hosts[i];
    }

    method MoveToFront(e: HostCacheEntry)
      requires Linked(entries, lru) && e in lru
      modifies this`lru
      ensures Linked(entries, lru) && |lru| == old(|lru|) && forall x :: x in lru <==> x in old(lru)
      ensures Recent() == [e.group] + Without(old(Recent()), e.group)
    {
      LinkedAfterMove(entries, lru, e);
      SameLength(lru, e);
      lru := [e] + Without(lru, e);
    }

    /** What a hit hands out is the caller's own. */
    method Get(group: int) returns (hosts: array<string>, ok: bool)
      requires Valid()
      modifies this`lru
      ensures Valid() && Recent() == Step(old(Recent()), Op.Get(group), max)
      ensures ok == (group in old(Recent())) && (!ok ==> lru == old(lru))
      ensures fresh(hosts) && (ok ==> hosts[..] == inner(group))
    {
      GroupCached(entries, lru, group);
      if group !in entries {
        hosts := new string[0];
        return hosts, false;
      }
      MoveToFront(entries[group]);
      AllFit(lru, max);
      hosts := Copy(entries[group].hosts);
      return hosts, true;
    }

    method Put(group: int, hosts: array<string>)
      requires Valid() && hosts[..] == inner(group)
      modifies this, lru
      ensures Valid() && Recent() == Step(old(Recent()), Op.Put(group), max)
      ensures forall e :: e in lru ==> e in old(lru) || fresh(e)
    {
      GroupCached(entries, lru, group);
      if group in entries {
        entries[group].hosts := hosts;
        MoveToFront(entries[group]);
        AllFit(lru, max);
        return;
      }
      WithoutAbsent(Recent(), group);
      var e := new HostCacheEntry(group, hosts);
      LinkedAfterPush(entries, lru, e);
      entries := entries[group := e];
      lru := [e] + lru;
      GroupsOfFirst(lru, max);
      Evict();
    }

    /** Forgets from the end of the list until it fits. */
    method Evict()
      requires Linked(entries, lru) && max > 0
      modifies this
      ensures Linked(entries, lru) && lru == First(old(lru), max) && |lru| <= max
      ensures forall e :: e in lru ==> e in old(lru)
    {
      ghost var was := lru;
      while |lru| > max
        invariant |lru| <= |was| && (|lru| < max ==> |lru| == |was|) && lru == was[..|lru|]
        invariant Linked(entries, lru)
      {
        var oldest := lru[|lru| - 1];
        LinkedAfterPop(entries, lru);
        lru := lru[..|lru| - 1];
        entries := entries - {oldest.group};
      }
      FirstIsPrefix(was, max);
    }

    /** Reads through on a miss; a failed read caches nothing. Whatever it returns is
        what the direct lookup would, in storage nobody else holds. */
    method JoinedHostsAtStateGroup(group: int, readFails: bool) returns (hosts: array<string>, ok: bool)
      requires Valid()
      modifies this, lru
      ensures Valid() && fresh(hosts)
      ensures ok == (group in old(Recent()) || !readFails)
      ensures ok ==> hosts[..] == inner(group)
      ensures forall e :: e in lru ==> e.hosts != hosts
      ensures Recent() == if ok then Step(old(Recent()), Op.Put(group), max) else old(Recent())
    {
      hosts, ok := Get(group);
      if ok || readFails {
        return;
      }
      var read := new string[|inner(group)|](i requires 0 <= i < |inner(group)| => inner(group)[i]);
      assert read[..] == inner(group);
      Put(group, read);
      hosts := Copy(read);
      return hosts, true;
    }
  }

  /** Nothing is forgotten while everything fits. */
  lemma AllFit(lru: seq<HostCacheEntry>, max: nat)
    requires |lru| <= max
    ensures First(Groups(lru), max) == Groups(lru)
  {
    FirstIsPrefix(lru, max);
    GroupsOfFirst(lru, max);
    assert First(lru, max) == lru;
  }

  lemma {:induction false} SameLength(lru: seq<HostCacheEntry>, e: HostCacheEntry)
    requires e in lru && Distinct(Groups(lru))
    ensures |Without(lru, e)| == |lru| - 1
  {
    assert Groups(lru)[1..] == Groups(lru[1..]);
    if lru[0] == e {
      if e in lru[1..] {
        GroupOf(lru[1..], e);
        assert false;
      }
      WithoutAbsent(lru[1..], e);
    } else {
      SameLength(lru[1..], e);
    }
  }
}
