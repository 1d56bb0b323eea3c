/** The per-destination backoff: how a run of failures grows it, and what leaves it
    alone. Intervals are whole milliseconds, growth is over the reals; cooldowns and
    the clock they run on are in nanoseconds. */
module Backoff {
  import opened Units
  import opened Arithmetic

  datatype Timings = Timings(failureTS: int, retryLastTS: int, retryInterval: int)

  const CLEAR := Timings(0, 0, 0)

  datatype Config = Config(min: int, multiplier: real, max: int)

  predicate Due(t: Timings, now: int) {
    t.retryLastTS == 0 || t.retryLastTS + t.retryInterval <= now
  }

  // ---------- growth ----------

  /** The next interval; zero is a destination that is not failing. */
  function Grown(c: Config, interval: int, jitter: real): int {
    if interval > 0 then
      var grown := Times(Times(interval as real, c.multiplier), jitter);
      if grown > c.max as real then c.max else grown.Floor
    else
      c.min
  }

  /** The interval after a run of failures, one jitter each. */
  function Interval(c: Config, jitters: seq<real>): int {
    if jitters == [] then 0
    else Grown(c, Interval(c, jitters[..|jitters| - 1]), jitters[|jitters| - 1])
  }

  ghost predicate Sane(c: Config) {
    1 <= c.min <= c.max && c.multiplier >= 1.25
  }

  ghost predicate Jitters(jitters: seq<real>) {
    forall i :: 0 <= i < |jitters| ==> 0.8 <= jitters[i] < 1.4
  }

  function Pow(x: real, n: nat): real {
    if n == 0 then 1.0 else Times(x, Pow(x, n - 1))
  }

  lemma Rescaled(i: real, m: real, k: real)
    ensures Times(Times(i, m), k) == Times(i, k * m)
  {
    Regrouped(i, m, k);
    Swapped(m, k);
  }

  /** At least 0.8 times the multiplier. */
  lemma GrowsBy(c: Config, interval: int, jitter: real)
    requires Sane(c) && interval >= 1 && 0.8 <= jitter
    ensures Times(Times(interval as real, c.multiplier), jitter) >= Times(interval as real, 0.8 * c.multiplier)
  {
    var i := interval as real;
    Product(i, c.multiplier);
    Scaled(Times(i, c.multiplier), 0.8, jitter);
    Rescaled(i, c.multiplier, 0.8);
  }

  lemma GrownAtLeast(c: Config, interval: int, jitter: real, low: int)
    requires interval >= 1 && low <= c.max
    requires low as real <= Times(Times(interval as real, c.multiplier), jitter)
    ensures low <= Grown(c, interval, jitter) <= c.max
  {
    var grown := Times(Times(interval as real, c.multiplier), jitter);
    FloorAtLeast(grown, low);
    if grown <= c.max as real {
      FloorAtMost(grown, c.max);
    }
  }

  lemma GrownNeverShrinks(c: Config, interval: int, jitter: real)
    requires Sane(c) && 1 <= interval <= c.max && 0.8 <= jitter
    ensures interval <= Grown(c, interval, jitter) <= c.max
  {
    GrowsBy(c, interval, jitter);
    Scaled(interval as real, 1.0, 0.8 * c.multiplier);
    GrownAtLeast(c, interval, jitter, interval);
  }

  /** Intervals never shrink, and stay between the bounds. */
  lemma {:induction false} IntervalsGrow(c: Config, jitters: seq<real>)
    requires Sane(c) && Jitters(jitters) && jitters != []
    ensures c.min <= Interval(c, jitters) <= c.max
    ensures Interval(c, jitters[..|jitters| - 1]) <= Interval(c, jitters)
  {
    var n := |jitters| - 1;
    if n > 0 {
      IntervalsGrow(c, jitters[..n]);
      GrownNeverShrinks(c, Interval(c, jitters[..n]), jitters[n]);
    }
  }

  /** min * (1.4 * multiplier)^(n-1). */
  function Bound(c: Config, n: nat): real
    requires n > 0
  {
    Times(c.min as real, Pow(1.4 * c.multiplier, n - 1))
  }

  lemma GrownAtMost(c: Config, interval: int, jitter: real)
    requires Sane(c) && interval >= 1 && 0.8 <= jitter < 1.4
    ensures Grown(c, interval, jitter) as real <= Times(interval as real, 1.4 * c.multiplier)
  {
    var i := interval as real;
    Product(i, c.multiplier);
    Scaled(Times(i, c.multiplier), jitter, 1.4);
    Rescaled(i, c.multiplier, 1.4);
    FloorNear(Times(Times(i, c.multiplier), jitter));
  }

  lemma GrownWithinBound(c: Config, interval: int, jitter: real, n: nat)
    requires n > 0 && Sane(c) && interval >= 1 && 0.8 <= jitter < 1.4 && interval as real <= Bound(c, n)
    ensures Grown(c, interval, jitter) as real <= Bound(c, n + 1)
  {
    var i, min, rate, power := interval as real, c.min as real, 1.4 * c.multiplier, Pow(1.4 * c.multiplier, n - 1);
    GrownAtMost(c, interval, jitter);
    Swapped(i, rate);
    Scaled(rate, i, Times(min, power));
    Regrouped(rate, min, power);
    Regrouped(min, rate, power);
    Swapped(rate, min);
  }

  /** How far a run of failures can have taken the interval. */
  lemma {:induction false} IntervalsBounded(c: Config, jitters: seq<real>)
    requires Sane(c) && Jitters(jitters) && jitters != []
    ensures Interval(c, jitters) as real <= Bound(c, |jitters|)
  {
    var n := |jitters| - 1;
    if n > 0 {
      IntervalsBounded(c, jitters[..n]);
      IntervalsGrow(c, jitters[..n]);
      GrownWithinBound(c, Interval(c, jitters[..n]), jitters[n], n);
    } else {
      assert Interval(c, jitters) == c.min;
    }
  }

  /** The slowest first step is a whole millisecond at least. */
  ghost predicate Climbs(c: Config) {
    Times(c.min as real, 0.8 * c.multiplier - 1.0) >= 1.0
  }

  lemma StepUp(c: Config, interval: int, jitter: real)
    requires Sane(c) && c.min <= interval < c.max && 0.8 <= jitter && Climbs(c)
    ensures Grown(c, interval, jitter) > interval
  {
    var i, gain := interval as real, 0.8 * c.multiplier - 1.0;
    Swapped(c.min as real, gain);
    Swapped(i, gain);
    Scaled(gain, c.min as real, i);
    Split(i, 1.0, gain);
    GrowsBy(c, interval, jitter);
    GrownAtLeast(c, interval, jitter, interval + 1);
  }

  /** Enough failures reach the longest interval, and further ones stay there. */
  lemma {:induction false} ReachesMax(c: Config, jitters: seq<real>)
    requires Sane(c) && Jitters(jitters) && jitters != [] && Climbs(c)
    ensures Interval(c, jitters) >= if |jitters| > c.max - c.min then c.max else c.min + |jitters| - 1
  {
    var n := |jitters| - 1;
    if n > 0 {
      ReachesMax(c, jitters[..n]);
      IntervalsGrow(c, jitters[..n]);
      IntervalsGrow(c, jitters);
      if Interval(c, jitters[..n]) < c.max {
        StepUp(c, Interval(c, jitters[..n]), jitters[n]);
      }
    }
  }

  lemma SlowestStep(c: Config)
    requires Sane(c) && c.min < c.max && !Climbs(c)
    ensures Grown(c, c.min, 0.8) == c.min
  {
    var i, gain := c.min as real, 0.8 * c.multiplier - 1.0;
    Rescaled(i, c.multiplier, 0.8);
    Split(i, 1.0, gain);
    Product(i, gain);
    FloorNear(Times(i, 0.8 * c.multiplier));
  }

  /** When that is not so, the least jitter keeps the interval where it started. */
  lemma {:induction false} StuckAtMin(c: Config, n: nat)
    requires Sane(c) && c.min < c.max && !Climbs(c)
    ensures Interval(c, seq(n + 1, _ => 0.8)) == c.min
  {
    var jitters := seq(n + 1, _ => 0.8);
    if n > 0 {
      assert jitters[..n] == seq(n, _ => 0.8);
      StuckAtMin(c, n - 1);
      SlowestStep(c);
    }
  }

  ghost predicate AlwaysMax(c: Config, n: nat) {
    forall jitters :: Jitters(jitters) && |jitters| > n ==> Interval(c, jitters) == c.max
  }

  /** Main: every run of failures reaches the longest interval if and only if the first
      step of the slowest one is a whole millisecond. */
  lemma ReachesMaxIff(c: Config)
    requires Sane(c) && c.min < c.max
    ensures (exists n: nat :: AlwaysMax(c, n)) <==> Climbs(c)
  {
    if Climbs(c) {
      var n := c.max - c.min;
      forall jitters | Jitters(jitters) && |jitters| > n ensures Interval(c, jitters) == c.max {
        ReachesMax(c, jitters);
        IntervalsGrow(c, jitters);
      }
      assert AlwaysMax(c, n);
    } else {
      forall n: nat ensures !AlwaysMax(c, n) {
        var slow := seq(n + 1, _ => 0.8);
        StuckAtMin(c, n);
        assert Jitters(slow) && |slow| > n && Interval(c, slow) != c.max;
      }
    }
  }

  // ---------- one destination ----------

  /** What the limiter knows of a destination, and the row that outlives it. */
  datatype Entry = Entry(
    timings: Option<Timings>,
    loaded: bool,
    refused: bool,
    cooldown: Option<int>,
    cooldownFor: Option<int>,
    row: Timings)

  datatype Op =
    | Fail(refused: bool, now: int, jitter: real)
    | Success
    | Recovered
    | RateLimited(after: int, at: int)
    | Seed(read: Option<Timings>)          // the read began earlier, and may have failed

  const SECOND: int := 1_000_000_000
  const BASE_COOLDOWN: int := 5 * SECOND
  const MAX_COOLDOWN: int := 300 * SECOND
  const REFUSED_MAX: int := 3_600_000

  function Known(e: Entry): Timings {
    if e.timings.Some? then e.timings.value else CLEAR
  }

  function Failed(c: Config, t: Timings, now: int, jitter: real): Timings {
    Timings(if t.failureTS == 0 then now else t.failureTS, now, Grown(c, t.retryInterval, jitter))
  }

  predicate Backing(t: Timings) {
    t.retryInterval != 0 || t.retryLastTS != 0
  }

  function Wait(e: Entry, after: int): int {
    var hint := if after > 0 then after else if e.cooldownFor.Some? then e.cooldownFor.value * 2 else 0;
    var wait := if hint > 0 then hint else BASE_COOLDOWN;
    if wait > MAX_COOLDOWN then MAX_COOLDOWN else wait
  }

  function Step(c: Config, e: Entry, op: Op): Entry {
    match op
    case Fail(refused, now, jitter) =>
      var t := Failed(c, Known(e), now, jitter);
      e.(timings := Some(t), loaded := true, refused := refused, row := t)
    case Success =>
      e.(timings := Some(CLEAR), loaded := true, refused := false, cooldown := None, cooldownFor := None,
         row := if Backing(Known(e)) then CLEAR else e.row)
    case Recovered =>
      var t := Known(e);
      if !Backing(t) then e
      else if e.refused then
        if t.retryInterval > REFUSED_MAX then
          e.(timings := Some(t.(retryInterval := REFUSED_MAX)), row := t.(retryInterval := REFUSED_MAX))
        else e
      else
        e.(timings := Some(CLEAR), loaded := true, row := CLEAR)
    case RateLimited(after, at) =>
      var wait := Wait(e, after);
      e.(cooldownFor := Some(wait), cooldown := Some(at + wait))
    case Seed(read) =>
      e.(timings := Some(if e.timings.Some? then e.timings.value else if read.Some? then read.value else CLEAR),
         loaded := true)
  }

  function Run(c: Config, e: Entry, run: seq<Op>): Entry {
    if run == [] then e else Step(c, Run(c, e, run[..|run| - 1]), run[|run| - 1])
  }

  predicate Outcome(op: Op) {
    op.Fail? || op.Success? || op.Recovered?
  }

  function Outcomes(run: seq<Op>): seq<Op> {
    if run == [] then []
    else Outcomes(run[..|run| - 1]) + if Outcome(run[|run| - 1]) then [run[|run| - 1]] else []
  }

  ghost predicate Same(a: Entry, b: Entry) {
    a.timings.Some? && a.timings == b.timings && a.refused == b.refused && a.row == b.row
  }

  lemma StepKeepsSame(c: Config, a: Entry, b: Entry, op: Op)
    requires Same(a, b)
    ensures if Outcome(op) then Same(Step(c, a, op), Step(c, b, op)) else Same(Step(c, a, op), b)
  {
  }

  /** Main: once anything is known of a destination, its timings are what the outcomes
      alone make them. Rate limits and late reads, wherever they fall, change nothing. */
  lemma {:induction false} OutcomesDecide(c: Config, e: Entry, run: seq<Op>)
    requires e.timings.Some?
    ensures Same(Run(c, e, run), Run(c, e, Outcomes(run)))
  {
    if run != [] {
      var n := |run| - 1;
      var front := Outcomes(run[..n]);
      OutcomesDecide(c, e, run[..n]);
      StepKeepsSame(c, Run(c, e, run[..n]), Run(c, e, front), run[n]);
      if Outcome(run[n]) {
        RunMore(c, e, front, run[n]);
      } else {
        assert front + [] == front;
      }
    }
  }

  lemma RunMore(c: Config, e: Entry, run: seq<Op>, op: Op)
    ensures Run(c, e, run + [op]) == Step(c, Run(c, e, run), op)
  {
    assert (run + [op])[..|run|] == run;
  }

  ghost predicate NoRecovery(run: seq<Op>) {
    forall i :: 0 <= i < |run| ==> !run[i].Success? && !run[i].Recovered?
  }

  function JittersOf(run: seq<Op>): seq<real> {
    if run == [] then []
    else JittersOf(run[..|run| - 1]) + if run[|run| - 1].Fail? then [run[|run| - 1].jitter] else []
  }

  /** When the first failure of a run happened, or zero. */
  function FirstFailure(run: seq<Op>): int {
    if run == [] then 0
    else
      var before := FirstFailure(run[..|run| - 1]);
      if before == 0 && run[|run| - 1].Fail? then run[|run| - 1].now else before
  }

  /** Consecutive failures from clear: the start of the outage stays fixed, and the
      interval is the grown one, whatever rate limits and reads fall in between. */
  lemma {:induction false} OutageKeepsItsStart(c: Config, e: Entry, run: seq<Op>)
    requires e.timings == Some(CLEAR) && NoRecovery(run)
    ensures Run(c, e, run).timings.Some?
    ensures Run(c, e, run).timings.value.failureTS == FirstFailure(run)
    ensures Run(c, e, run).timings.value.retryInterval == Interval(c, JittersOf(run))
  {
    if run != [] {
      var n := |run| - 1;
      OutageKeepsItsStart(c, e, run[..n]);
      var front := JittersOf(run[..n]);
      if run[n].Fail? {
        assert (front + [run[n].jitter])[..|front|] == front;
      } else {
        assert front + [] == front;
      }
    }
  }

  /** After a failure the destination is not due again before the interval is over, and is
      due from then on; a success makes it due at once. */
  lemma BacksOffUntil(c: Config, e: Entry, refused: bool, now: int, jitter: real, at: int)
    requires now != 0
    ensures var t := Known(Step(c, e, Fail(refused, now, jitter))); Due(t, at) <==> at >= now + t.retryInterval
    ensures Due(Known(Step(c, e, Success)), at)
    ensures Known(e).failureTS != 0 ==> Known(Step(c, e, Fail(refused, now, jitter))).failureTS == Known(e).failureTS
    ensures Known(e).failureTS == 0 ==> Known(Step(c, e, Fail(refused, now, jitter))).failureTS == now
  {
  }

  /** A hinted wait is the hint, up to five minutes, whatever went before. */
  lemma HintIsTaken(c: Config, e: Entry, after: int, at: int)
    requires after > 0
    ensures var t := Step(c, e, RateLimited(after, at));
            t.cooldown == Some(at + if after > 300_000_000_000 then 300_000_000_000 else after) &&
            t.timings == e.timings && t.row == e.row
  {
  }

  // ---------- cooldowns ----------

  /** Unhinted rate limits double the wait from five seconds up to five minutes. */
  lemma {:induction false} CooldownDoubles(c: Config, e: Entry, run: seq<Op>, k: nat)
    requires e.cooldownFor.None? && run != [] && k == |run| - 1
    requires forall i :: 0 <= i < |run| ==> run[i].RateLimited? && run[i].after <= 0
    ensures Run(c, e, run).cooldownFor.Some?
    ensures Run(c, e, run).cooldownFor.value ==
            if k < 6 then 5_000_000_000 * Twice(k) else 300_000_000_000
    ensures Run(c, e, run).cooldown == Some(run[k].at + Run(c, e, run).cooldownFor.value)
  {
    if k > 0 {
      CooldownDoubles(c, e, run[..k], k - 1);
    } else {
      assert run[..0] == [];
    }
  }

  function Twice(k: nat): int {
    if k == 0 then 1 else 2 * Twice(k - 1)
  }

  // ---------- the persisted row ----------

  ghost predicate Agrees(e: Entry) {
    e.timings.Some? ==> e.row == e.timings.value || (!Backing(e.row) && !Backing(e.timings.value))
  }

  /** What the limiter believes and what a restart would read stay the same, except where
      a destination whose row says it is backing off has not been read: a failed read is
      cached as a clear destination, and a success leaves the row as it was. */
  lemma StepKeepsAgreement(c: Config, e: Entry, op: Op)
    requires Agrees(e)
    requires op.Seed? && op.read.Some? ==> op.read.value == e.row || e.timings.Some?
    ensures Agrees(Step(c, e, op)) <==>
            !(e.timings.None? && Backing(e.row) && (op.Success? || (op.Seed? && op.read.None?)))
  {
  }

  /** A destination in backoff whose read failed: it is taken as due, is never read
      again, and a success leaves the old row for the next restart to find. */
  lemma FailedReadIsCached(c: Config, row: Timings)
    requires Backing(row)
    ensures var e := Run(c, Entry(None, false, false, None, None, row), [Seed(None)]);
            e.loaded && (forall now :: Due(Known(e), now)) &&
            Step(c, e, Success).row == row
  {
    var start := Entry(None, false, false, None, None, row);
    assert [Seed(None)][..0] == [];
  }

  // ---------- the limiter ----------

  class Limiter {
    const cfg: Config
    var state: map<string, Timings>
    var loaded: set<string>
    var cooldown: map<string, int>
    var cooldownFor: map<string, int>
    var refused: set<string>
    var rows: map<string, Timings>    // the destinations table

    ghost function Of(d: string): Entry
      reads this
    {
      Entry(if d in state then Some(state[d]) else None, d in loaded, d in refused,
            if d in cooldown then Some(cooldown[d]) else None,
            if d in cooldownFor then Some(cooldownFor[d]) else None,
            if d in rows then rows[d] else CLEAR)
    }

    constructor (minInterval: int, multiplier: real, maxInterval: int, rows: map<string, Timings>)
      ensures cfg.min == if minInterval <= 0 then 600_000 else minInterval / 1_000_000
      ensures cfg.multiplier == if multiplier <= 0.0 then 2.0 else multiplier
      ensures cfg.max == if maxInterval <= 0 then 604_800_000 else maxInterval / 1_000_000
      ensures forall d :: Of(d) == Entry(None, false, false, None, None, if d in rows then rows[d] else CLEAR)
    {
      cfg := Config(if minInterval <= 0 then 600_000 else minInterval / 1_000_000,
                    if multiplier <= 0.0 then 2.0 else multiplier,
                    if maxInterval <= 0 then 604_800_000 else maxInterval / 1_000_000);
      state, loaded, cooldown, cooldownFor, refused := map[], {}, map[], map[], {};
      this.rows := rows;
    }

    method Fail(d: string, refusal: bool, now: int, jitter: real) returns (t: Timings)
      modifies this
      ensures Of(d) == Step(cfg, old(Of(d)), Op.Fail(refusal, now, jitter)) && Of(d).timings == Some(t)
      ensures t.retryLastTS == now && Of(d).row == t && Of(d).refused == refusal
      ensures forall other :: other != d ==> Of(other) == old(Of(other))
    {
      refused := if refusal then refused + {d} else refused - {d};
      t := if d in state then state[d] else CLEAR;
      if t.retryInterval > 0 {
        var grown := Times(Times(t.retryInterval as real, cfg.multiplier), jitter);
        if grown > cfg.max as real {
          grown := cfg.max as real;
        }
        t := t.(retryInterval := grown.Floor);
      } else {
        t := t.(retryInterval := cfg.min);
      }
      t := t.(retryLastTS := now);
      if t.failureTS == 0 {
        t := t.(failureTS := now);
      }
      state := state[d := t];
      loaded := loaded + {d};
      rows := rows[d := t];
    }

    /** Only a destination that was backing off is written and announced. */
    method Success(d: string) returns (up: bool)
      modifies this
      ensures Of(d) == Step(cfg, old(Of(d)), Op.Success)
      ensures up <==> d in old(state) && (old(state)[d].retryInterval != 0 || old(state)[d].retryLastTS != 0)
      ensures Of(d).timings == Some(Timings(0, 0, 0)) && Of(d).cooldown.None? && Of(d).cooldownFor.None? && !Of(d).refused
      ensures forall other :: other != d ==> Of(other) == old(Of(other))
    {
      var previous := if d in state then state[d] else CLEAR;
      state := state[d := CLEAR];
      loaded := loaded + {d};
      cooldown, cooldownFor, refused := cooldown - {d}, cooldownFor - {d}, refused - {d};
      if previous.retryInterval == 0 && previous.retryLastTS == 0 {
        return false;
      }
      rows := rows[d := CLEAR];
      return true;
    }

    /** A server that answers us is kept, within the hour; one we could not reach is cleared. */
    method Recovered(d: string) returns (up: bool)
      modifies this
      ensures Of(d) == Step(cfg, old(Of(d)), Op.Recovered)
      ensures up <==> d in old(state) && (old(state)[d].retryInterval != 0 || old(state)[d].retryLastTS != 0) &&
                      d !in old(refused)
      ensures up ==> Of(d).timings == Some(Timings(0, 0, 0)) && Of(d).row == Timings(0, 0, 0)
      ensures d in old(refused) && d in old(state) && old(state)[d].retryInterval > 3_600_000 ==>
                Of(d).timings == Some(old(state)[d].(retryInterval := 3_600_000)) && Of(d).row == state[d]
      ensures forall other :: other != d ==> Of(other) == old(Of(other))
    {
      var t := if d in state then state[d] else CLEAR;
      if t.retryInterval == 0 && t.retryLastTS == 0 {
        return false;
      }
      if d in refused {
        if t.retryInterval > REFUSED_MAX {
          t := t.(retryInterval := REFUSED_MAX);
          state := state[d := t];
          rows := rows[d := t];
        }
        return false;
      }
      state := state[d := CLEAR];
      loaded := loaded + {d};
      rows := rows[d := CLEAR];
      return true;
    }

    method RateLimited(d: string, after: int, now: int) returns (wait: int)
      modifies this`cooldown, this`cooldownFor
      ensures Of(d) == Step(cfg, old(Of(d)), Op.RateLimited(after, now)) && wait == Wait(old(Of(d)), after)
      ensures forall other :: other != d ==> Of(other) == old(Of(other))
    {
      wait := after;
      if wait <= 0 {
        wait := if d in cooldownFor then cooldownFor[d] * 2 else 0;
        if wait <= 0 {
          wait := BASE_COOLDOWN;
        }
      }
      if wait > MAX_COOLDOWN {
        wait := MAX_COOLDOWN;
      }
      cooldownFor := cooldownFor[d := wait];
      cooldown := cooldown[d := now + wait];
    }

    /** The second half of a seed: what the read found, if it did not fail. */
    method Seed(d: string, read: Option<Timings>) returns (t: Timings)
      modifies this`state, this`loaded
      ensures Of(d) == Step(cfg, old(Of(d)), Op.Seed(read)) && Of(d).timings == Some(t)
      ensures forall other :: other != d ==> Of(other) == old(Of(other))
    {
      t := if read.Some? then read.value else CLEAR;
      if d !in state {
        state := state[d := t];
      } else {
        t := state[d];
      }
      loaded := loaded + {d};
    }

    method OffCooldown(d: string, now: int) returns (off: bool)
      ensures off == (Of(d).cooldown.Some? ==> now >= Of(d).cooldown.value)
    {
      return d !in cooldown || now >= cooldown[d];
    }

    /** The row is read at most once. The slack stretches the backoff, never a cooldown. */
    method DueWithin(d: string, within: int, now: int, readFails: bool) returns (due: bool)
      modifies this`state, this`loaded
      ensures var read := if readFails then None else Some(old(Of(d)).row);
              Of(d) == if d in old(loaded) then old(Of(d)) else Step(cfg, old(Of(d)), Op.Seed(read))
      ensures var t := Known(Of(d));
              due <==> (t.retryLastTS == 0 || t.retryLastTS + t.retryInterval <= now / 1_000_000 + within / 1_000_000) &&
                       (d in cooldown ==> now >= cooldown[d])
      ensures forall other :: other != d ==> Of(other) == old(Of(other))
    {
      var t := if d in state then state[d] else CLEAR;
      if d !in loaded {
        t := Seed(d, if readFails then None else Some(if d in rows then rows[d] else CLEAR));
      } else if d !in state {
        due := OffCooldown(d, now);
        return;
      }
      if !Due(t, now / 1_000_000 + within / 1_000_000) {
        return false;
      }
      due := OffCooldown(d, now);
    }
  }
}
