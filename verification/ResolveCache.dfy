/** The cache of server resolutions: how long each is kept, and that dropping expired
    entries is never seen. Times are nanoseconds on one clock, passed in. */
module ResolveCache {
  import opened Units
  import opened Arithmetic

  datatype Resolved = Resolved(serverName: string, hostHeader: string, address: string, expires: int)

  const MINUTE: int := 60_000_000_000
  const DELEGATED_TTL: int := 24 * 60 * MINUTE
  const NO_DELEGATION_TTL: int := 60 * MINUTE
  const DOWN_TTL: int := 2 * MINUTE
  const REMEMBER_DELEGATION: int := 120 * MINUTE
  const MIN_TTL: int := 5 * MINUTE
  const MAX_TTL: int := 48 * 60 * MINUTE
  const SWEEP_EVERY: int := 5 * MINUTE

  function Min(a: int, b: int): int {
    if a < b then a else b
  }

  /** lastSweep is None before the first: the zero time is longer ago than any period. */
  datatype Cache = Cache(entries: map<string, Resolved>, delegatedUntil: map<string, int>, lastSweep: Option<int>)

  const NEW := Cache(map[], map[], None)

  predicate Delegates(r: Resolved) {
    r.hostHeader != "" && r.hostHeader != r.serverName
  }

  predicate UsuallyDelegates(c: Cache, name: string, now: int) {
    name in c.delegatedUntil && c.delegatedUntil[name] > now
  }

  /** How long a resolution is to be kept, before jitter. */
  function Lifetime(c: Cache, r: Resolved, now: int): int {
    var ttl := r.expires - now;
    if Delegates(r) then
      Min(Max(if ttl <= 0 then DELEGATED_TTL else ttl, MIN_TTL), MAX_TTL)
    else
      var limit := if UsuallyDelegates(c, r.serverName, now) then DOWN_TTL else NO_DELEGATION_TTL;
      if Min(ttl, limit) <= 0 then limit else Min(ttl, limit)
  }

  function Stored(c: Cache, r: Resolved, now: int, jitter: real): Cache {
    c.(delegatedUntil := if Delegates(r) then c.delegatedUntil[r.serverName := now + REMEMBER_DELEGATION]
                         else c.delegatedUntil,
       entries := c.entries[r.serverName := r.(expires := now + Jittered(Lifetime(c, r, now), jitter))])
  }

  function LiveEntries(entries: map<string, Resolved>, now: int): map<string, Resolved> {
    map n | n in entries && entries[n].expires > now :: entries[n]
  }

  function LiveMemory(until: map<string, int>, now: int): map<string, int> {
    map n | n in until && until[n] > now :: until[n]
  }

  function Swept(c: Cache, now: int): Cache {
    if c.lastSweep.Some? && now - c.lastSweep.value < SWEEP_EVERY then c
    else Cache(LiveEntries(c.entries, now), LiveMemory(c.delegatedUntil, now), Some(now))
  }

  datatype Op =
    | Store(res: Option<Resolved>, now: int, jitter: real)
    | Load(name: string, now: int)

  function Step(sweeps: bool, c: Cache, op: Op): Cache {
    match op
    case Store(res, now, jitter) =>
      if res.None? || res.value.serverName == "" then c
      else if sweeps then Swept(Stored(c, res.value, now, jitter), now)
      else Stored(c, res.value, now, jitter)
    case Load(name, now) =>
      if name in c.entries && c.entries[name].expires <= now then c.(entries := c.entries - {name}) else c
  }

  function Answer(c: Cache, op: Op): Option<Resolved> {
    if op.Load? && op.name in c.entries && c.entries[op.name].expires > op.now then Some(c.entries[op.name]) else None
  }

  function Run(sweeps: bool, run: seq<Op>): Cache {
    if run == [] then NEW else Step(sweeps, Run(sweeps, run[..|run| - 1]), run[|run| - 1])
  }

  /** What every operation of a run answered. */
  function Answers(sweeps: bool, run: seq<Op>): seq<Option<Resolved>> {
    if run == [] then []
    else
      var n := |run| - 1;
      Answers(sweeps, run[..n]) + [Answer(Run(sweeps, run[..n]), run[n])]
  }

  // ---------- sweeping is invisible ----------

  ghost predicate ClockOK(run: seq<Op>) {
    forall i, j :: 0 <= i < j < |run| ==> run[i].now <= run[j].now
  }

  /** Nobody who asks from now on can tell the two apart. */
  ghost predicate Alike(a: Cache, b: Cache, now: int) {
    LiveEntries(a.entries, now) == LiveEntries(b.entries, now) &&
    LiveMemory(a.delegatedUntil, now) == LiveMemory(b.delegatedUntil, now)
  }

  ghost predicate SameEntry(a: Cache, b: Cache, now: int, n: string) {
    && (n in a.entries && a.entries[n].expires > now <==> n in b.entries && b.entries[n].expires > now)
    && (n in a.entries && a.entries[n].expires > now ==> a.entries[n] == b.entries[n])
    && (UsuallyDelegates(a, n, now) <==> UsuallyDelegates(b, n, now))
    && (UsuallyDelegates(a, n, now) ==> a.delegatedUntil[n] == b.delegatedUntil[n])
  }

  lemma AlikeIff(a: Cache, b: Cache, now: int)
    ensures Alike(a, b, now) <==> forall n :: SameEntry(a, b, now, n)
  {
    if Alike(a, b, now) {
      forall n ensures SameEntry(a, b, now, n) {
        assert n in LiveEntries(a.entries, now) <==> n in LiveEntries(b.entries, now);
        assert n in LiveMemory(a.delegatedUntil, now) <==> n in LiveMemory(b.delegatedUntil, now);
        if n in LiveEntries(a.entries, now) {
          assert LiveEntries(a.entries, now)[n] == LiveEntries(b.entries, now)[n];
        }
        if n in LiveMemory(a.delegatedUntil, now) {
          assert LiveMemory(a.delegatedUntil, now)[n] == LiveMemory(b.delegatedUntil, now)[n];
        }
      }
    }
    if forall n :: SameEntry(a, b, now, n) {
      var x, y := LiveEntries(a.entries, now), LiveEntries(b.entries, now);
      forall n ensures (n in x <==> n in y) && (n in x ==> x[n] == y[n]) {
        assert SameEntry(a, b, now, n);
      }
      assert x == y;
      var u, v := LiveMemory(a.delegatedUntil, now), LiveMemory(b.delegatedUntil, now);
      forall n ensures (n in u <==> n in v) && (n in u ==> u[n] == v[n]) {
        assert SameEntry(a, b, now, n);
      }
      assert u == v;
    }
  }

  lemma AlikeLater(a: Cache, b: Cache, now: int, later: int)
    requires Alike(a, b, now) && now <= later
    ensures Alike(a, b, later)
  {
    AlikeIff(a, b, now);
    forall n ensures SameEntry(a, b, later, n) {
      assert SameEntry(a, b, now, n);
    }
    AlikeIff(a, b, later);
  }

  lemma SweepKeepsAlike(a: Cache, b: Cache, now: int)
    requires Alike(a, b, now)
    ensures Alike(Swept(a, now), b, now)
  {
  }

  lemma StoreKeepsAlike(a: Cache, b: Cache, r: Resolved, now: int, jitter: real)
    requires Alike(a, b, now)
    ensures Alike(Stored(a, r, now, jitter), Stored(b, r, now, jitter), now)
  {
    AlikeIff(a, b, now);
    assert SameEntry(a, b, now, r.serverName);
    assert Lifetime(a, r, now) == Lifetime(b, r, now);
    var entry := r.(expires := now + Jittered(Lifetime(a, r, now), jitter));
    assert Stored(a, r, now, jitter).entries == a.entries[r.serverName := entry];
    assert Stored(b, r, now, jitter).entries == b.entries[r.serverName := entry];
    forall n ensures SameEntry(Stored(a, r, now, jitter), Stored(b, r, now, jitter), now, n) {
      assert SameEntry(a, b, now, n);
    }
    AlikeIff(Stored(a, r, now, jitter), Stored(b, r, now, jitter), now);
  }

  lemma StepKeepsAlike(a: Cache, b: Cache, op: Op)
    requires Alike(a, b, op.now)
    ensures Alike(Step(true, a, op), Step(false, b, op), op.now) && Answer(a, op) == Answer(b, op)
  {
    match op
    case Store(res, now, jitter) =>
      if res.Some? && res.value.serverName != "" {
        StoreKeepsAlike(a, b, res.value, now, jitter);
        SweepKeepsAlike(Stored(a, res.value, now, jitter), Stored(b, res.value, now, jitter), now);
      }
    case Load(name, now) =>
      AlikeIff(a, b, now);
      assert SameEntry(a, b, now, name);
      forall n ensures SameEntry(Step(true, a, op), Step(false, b, op), now, n) {
        assert SameEntry(a, b, now, n);
      }
      AlikeIff(Step(true, a, op), Step(false, b, op), now);
  }

  /** Main: on a clock that does not go back, a cache that sweeps answers every load of
      every run exactly as one that never does. */
  lemma {:induction false} SweepingIsInvisible(run: seq<Op>)
    requires ClockOK(run)
    ensures Answers(true, run) == Answers(false, run)
    ensures run != [] ==> Alike(Run(true, run), Run(false, run), run[|run| - 1].now)
  {
    if run != [] {
      var n := |run| - 1;
      SweepingIsInvisible(run[..n]);
      if n > 0 {
        AlikeLater(Run(true, run[..n]), Run(false, run[..n]), run[n - 1].now, run[n].now);
      } else {
        assert run[..n] == [];
      }
      StepKeepsAlike(Run(true, run[..n]), Run(false, run[..n]), run[n]);
    }
  }

  predicate SweepDue(c: Cache, now: int) {
    c.lastSweep.None? || now - c.lastSweep.value >= SWEEP_EVERY
  }

  /** Something held of this name expired after t, and by now. */
  predicate ExpiredSince(c: Cache, n: string, t: int, now: int) {
    || (n in c.entries && t < c.entries[n].expires <= now)
    || (n in c.delegatedUntil && t < c.delegatedUntil[n] <= now)
  }

  /** Exactly when a sweep made now can be seen by somebody asking at t: it was due, and
      something expired after t. On a clock that does not go back, t is not before now,
      and nothing has. */
  lemma SweepShowsIff(c: Cache, now: int, t: int)
    ensures Alike(Swept(c, now), c, t) <==> !SweepDue(c, now) || forall n :: !ExpiredSince(c, n, t, now)
    ensures forall name :: Answer(Swept(c, now), Load(name, t)) != Answer(c, Load(name, t)) <==>
                           SweepDue(c, now) && name in c.entries && t < c.entries[name].expires <= now
  {
    AlikeIff(Swept(c, now), c, t);
    if SweepDue(c, now) {
      forall n ensures SameEntry(Swept(c, now), c, t, n) <==> !ExpiredSince(c, n, t, now) {
      }
    }
  }

  // ---------- the policy ----------

  /** A delegation is kept between five minutes and two days; anything else for at most an
      hour, or two minutes when the server has delegated lately; jitter widens these by a tenth. */
  lemma LifetimeBounds(c: Cache, r: Resolved, now: int, jitter: real)
    requires 0.9 <= jitter < 1.1
    ensures var kept := Stored(c, r, now, jitter).entries[r.serverName].expires - now;
            var ttl := Lifetime(c, r, now);
            kept == Jittered(ttl, jitter) &&
            if Delegates(r) then MIN_TTL <= ttl <= MAX_TTL
            else 0 < ttl <= if UsuallyDelegates(c, r.serverName, now) then DOWN_TTL else NO_DELEGATION_TTL
    ensures var kept := Stored(c, r, now, jitter).entries[r.serverName].expires - now;
            var ttl := Lifetime(c, r, now) as real;
            0 <= kept && Times(ttl, 0.9) - 1.0 < kept as real < Times(ttl, 1.1)
  {
    JitterBounds(Lifetime(c, r, now), jitter, 0.9, 1.1);
  }

  /** Exactly how long a resolution is kept, before jitter: a delegation for what its lookup
      gave, within five minutes and two days, or a day if it gave nothing; anything else for
      an hour at most, or two minutes when the server has delegated within two hours. */
  lemma LifetimeIs(c: Cache, r: Resolved, now: int)
    ensures var ttl, kept := r.expires - now, Lifetime(c, r, now);
            var second := 1_000_000_000;
            if r.hostHeader != "" && r.hostHeader != r.serverName then
              kept == if ttl <= 0 then 86_400 * second else if ttl < 300 * second then 300 * second
                      else if ttl > 172_800 * second then 172_800 * second else ttl
            else
              var limit := if r.serverName in c.delegatedUntil && c.delegatedUntil[r.serverName] > now then 120 * second
                           else 3_600 * second;
              kept == if 0 < ttl < limit then ttl else limit
    ensures forall jitter: real :: r.hostHeader != "" && r.hostHeader != r.serverName ==>
              Stored(c, r, now, jitter).delegatedUntil == c.delegatedUntil[r.serverName := now + 7_200_000_000_000]
    ensures forall jitter: real :: r.hostHeader == "" || r.hostHeader == r.serverName ==>
              Stored(c, r, now, jitter).delegatedUntil == c.delegatedUntil
  {
  }

  /** A sweep is due five minutes after the last. */
  lemma SweepIsDue(c: Cache, now: int)
    ensures SweepDue(c, now) <==> c.lastSweep.None? || now >= c.lastSweep.value + 300_000_000_000
    ensures SweepDue(c, now) ==> Swept(c, now).lastSweep == Some(now)
    ensures SweepDue(c, now) ==>
              forall n :: n in Swept(c, now).entries <==> n in c.entries && c.entries[n].expires > now
    ensures SweepDue(c, now) ==>
              forall n :: n in Swept(c, now).delegatedUntil <==> n in c.delegatedUntil && c.delegatedUntil[n] > now
    ensures !SweepDue(c, now) ==> Swept(c, now) == c
  {
  }

  // ---------- the cache ----------

  class ResolutionCache {
    var entries: map<string, Resolved>
    var delegatedUntil: map<string, int>
    var lastSweep: Option<int>

    ghost function Value(): Cache
      reads this
    {
      Cache(entries, delegatedUntil, lastSweep)
    }

    constructor ()
      ensures Value() == NEW
    {
      entries, delegatedUntil, lastSweep := map[], map[], None;
    }

    method StoreResolution(res: Option<Resolved>, now: int, jitter: real)
      modifies this
      ensures Value() == Step(true, old(Value()), Store(res, now, jitter))
    {
      if res.None? || res.value.serverName == "" {
        return;
      }
      var r := res.value;
      var ttl := r.expires - now;
      if r.hostHeader != "" && r.hostHeader != r.serverName {
        delegatedUntil := delegatedUntil[r.serverName := now + REMEMBER_DELEGATION];
        if ttl <= 0 {
          ttl := DELEGATED_TTL;
        }
        ttl := Min(Max(ttl, MIN_TTL), MAX_TTL);
      } else {
        var limit := NO_DELEGATION_TTL;
        if r.serverName in delegatedUntil && delegatedUntil[r.serverName] > now {
          limit := DOWN_TTL;
        }
        ttl := Min(ttl, limit);
        if ttl <= 0 {
          ttl := limit;
        }
      }
      assert ttl == Lifetime(old(Value()), r, now);
      entries := entries[r.serverName := r.(expires := now + Jittered(ttl, jitter))];
      Sweep(now);
    }

    /** Hands out nothing expired. */
    method LoadResolution(name: string, now: int) returns (res: Option<Resolved>)
      modifies this`entries
      ensures Value() == Step(true, old(Value()), Load(name, now)) && res == Answer(old(Value()), Load(name, now))
      ensures res.Some? <==> name in old(entries) && old(entries)[name].expires > now
      ensures res.Some? ==> res.value == old(entries)[name] && entries == old(entries)
      ensures res.None? ==> name !in entries
    {
      if name !in entries {
        return None;
      }
      if entries[name].expires <= now {
        entries := entries - {name};
        return None;
      }
      return Some(entries[name]);
    }

    method Sweep(now: int)
      modifies this
      ensures Value() == Swept(old(Value()), now)
    {
      if lastSweep.Some? && now - lastSweep.value < SWEEP_EVERY {
        return;
      }
      lastSweep := Some(now);
      SweepEntries(now);
      SweepMemory(now);
    }

    method SweepEntries(now: int)
      modifies this`entries
      ensures entries == LiveEntries(old(entries), now)
    {
      ghost var was := entries;
      var left := entries.Keys;
      while left != {}
        invariant entries == map n | n in was && (n in left || was[n].expires > now) :: was[n]
        invariant left <= was.Keys
        decreases |left|
      {
        var n :| n in left;
        if entries[n].expires <= now {
          entries := entries - {n};
        }
        left := left - {n};
      }
    }

    method SweepMemory(now: int)
      modifies this`delegatedUntil
      ensures delegatedUntil == LiveMemory(old(delegatedUntil), now)
    {
      ghost var was := delegatedUntil;
      var left := delegatedUntil.Keys;
      while left != {}
        invariant delegatedUntil == map n | n in was && (n in left || was[n] > now) :: was[n]
        invariant left <= was.Keys
        decreases |left|
      {
        var n :| n in left;
        if delegatedUntil[n] <= now {
          delegatedUntil := delegatedUntil - {n};
        }
        left := left - {n};
      }
    }
  }
}
