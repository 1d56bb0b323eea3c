/** Reads of a server's outbox: what a read takes, where the next one starts, and the
    units a read of to-device messages becomes. */
module ToDevice {
  import opened Units

  datatype Row = Row(id: int, msg: Json)

  /** Rows of the table above last and up to current, oldest first. */
  function InRange(outbox: seq<Row>, last: int, current: int): (rows: seq<Row>)
    ensures |rows| <= |outbox|
    ensures forall k :: 0 <= k < |rows| ==> rows[k] in outbox && last < rows[k].id <= current
    ensures forall r <- outbox :: last < r.id <= current ==> r in rows
  {
    if outbox == [] then []
    else (if last < outbox[0].id <= current then [outbox[0]] else []) + InRange(outbox[1..], last, current)
  }

  lemma Assoc(a: seq<Row>, b: seq<Row>, c: seq<Row>)
    ensures (a + b) + c == a + (b + c)
  {
  }

  lemma {:induction false} InRangeNext(rows: seq<Row>, r: Row, last: int, current: int)
    ensures InRange(rows + [r], last, current) == InRange(rows, last, current) + InRange([r], last, current)
    ensures InRange([r], last, current) == if last < r.id <= current then [r] else []
  {
    assert [r][1..] == [];
    if rows == [] {
      assert rows + [r] == [r];
    } else {
      InRangeNext(rows[1..], r, last, current);
      assert (rows + [r])[1..] == rows[1..] + [r];
      Assoc(if last < rows[0].id <= current then [rows[0]] else [], InRange(rows[1..], last, current), InRange([r], last, current));
    }
  }

  ghost predicate Ascending(rows: seq<Row>) {
    forall i, j :: 0 <= i < j < |rows| ==> rows[i].id < rows[j].id
  }

  lemma {:induction false} InRangeAscending(outbox: seq<Row>, last: int, current: int)
    requires Ascending(outbox)
    ensures Ascending(InRange(outbox, last, current))
  {
    if outbox != [] {
      var rest := InRange(outbox[1..], last, current);
      InRangeAscending(outbox[1..], last, current);
      forall k | 0 <= k < |rest| ensures outbox[0].id < rest[k].id {
        assert rest[k] in outbox[1..];
      }
    }
  }

  /** GetNewDeviceMsgsForRemote: at most limit rows, and where to resume from. */
  function Read(outbox: seq<Row>, last: int, current: int, limit: nat): (seq<Row>, int)
    requires limit > 0
  {
    if last >= current then ([], current)
    else
      var rows := InRange(outbox, last, current);
      if |rows| < limit then (rows, current) else (rows[..limit], rows[limit - 1].id)
  }

  /** One unit a row; only the last carries the mark. */
  function UnitFor(rows: seq<Row>, next: int, i: nat): EDU
    requires i < |rows|
  {
    EDU(Unit(DirectToDevice, Raw(rows[i].msg)), if i == |rows| - 1 then next else 0, 0, "", None, None)
  }

  function UnitsFor(rows: seq<Row>, next: int): seq<EDU> {
    seq(|rows|, i requires 0 <= i < |rows| => UnitFor(rows, next, i))
  }

  /** GetDeviceUpdatesByRemote, and where deviceListsFor leaves the cursor: at the last
      row of the page, or at the current id when there is none. */
  function ReadLists(outbox: seq<Row>, last: int, current: int, limit: nat): (seq<Row>, int)
    requires limit > 0
  {
    var all := InRange(outbox, last, current);
    var rows := if |all| > limit then all[..limit] else all;
    if rows == [] then ([], current) else (rows, rows[|rows| - 1].id)
  }

  /** A read takes the oldest rows of its range, as many as the limit allows, and says to
      resume after them; short of the limit it has taken them all. */
  lemma ReadIsAWindow(outbox: seq<Row>, last: int, current: int, limit: nat)
    requires Ascending(outbox) && limit > 0 && last <= current
    ensures var (rows, next) := Read(outbox, last, current, limit);
            && last <= next <= current && rows == InRange(outbox, last, next)
            && |rows| <= limit && (|rows| == limit || next == current)
  {
    var all := InRange(outbox, last, current);
    if last < current && |all| >= limit { RangePrefix(outbox, last, current, limit); }
    if last == current { NoRange(outbox, last); }
  }

  lemma ReadListsIsAWindow(outbox: seq<Row>, last: int, current: int, limit: nat)
    requires Ascending(outbox) && limit > 0 && last <= current
    ensures var (rows, next) := ReadLists(outbox, last, current, limit);
            && last <= next <= current && rows == InRange(outbox, last, next)
            && |rows| <= limit && (|rows| == limit || rows == InRange(outbox, last, current))
  {
    var all := InRange(outbox, last, current);
    if |all| > limit {
      RangePrefix(outbox, last, current, limit);
      assert ReadLists(outbox, last, current, limit) == (all[..limit], all[limit - 1].id);
    } else if all != [] {
      RangePrefix(outbox, last, current, |all|);
      assert all[..|all|] == all;
      assert ReadLists(outbox, last, current, limit) == (all, all[|all| - 1].id);
    }
  }

  lemma {:induction false} NoRange(outbox: seq<Row>, last: int)
    ensures InRange(outbox, last, last) == []
  {
    if outbox != [] { NoRange(outbox[1..], last); }
  }

  /** Of ascending rows, the first so many of a range are the range up to the last of them. */
  lemma RangePrefix(outbox: seq<Row>, last: int, current: int, n: nat)
    requires Ascending(outbox) && 0 < n <= |InRange(outbox, last, current)|
    ensures var all := InRange(outbox, last, current);
            last < all[n - 1].id <= current && InRange(outbox, last, all[n - 1].id) == all[..n]
  {
    var all := InRange(outbox, last, current);
    var mid := all[n - 1].id;
    InRangeAscending(outbox, last, current);
    assert last < mid <= current;
    RangesJoin(outbox, last, mid, current);
    CutAt(all, InRange(outbox, last, mid), InRange(outbox, mid, current), n);
  }

  lemma CutAt(all: seq<Row>, low: seq<Row>, high: seq<Row>, n: nat)
    requires all == low + high && 0 < n <= |all| && Ascending(all)
    requires forall j :: 0 <= j < |low| ==> low[j].id <= all[n - 1].id
    requires forall j :: 0 <= j < |high| ==> high[j].id > all[n - 1].id
    ensures low == all[..n]
  {
    assert forall j :: |low| <= j < |all| ==> all[j] == high[j - |low|] && all[j].id > all[n - 1].id;
    assert forall j :: 0 <= j < |low| ==> all[j] == low[j] && all[j].id <= all[n - 1].id;
    assert n < |all| ==> all[n].id > all[n - 1].id;
  }

  lemma JoinHead(x: Row, inLow: bool, inHigh: bool, low: seq<Row>, high: seq<Row>)
    requires !(inLow && inHigh) && (inHigh ==> low == [])
    ensures (if inLow || inHigh then [x] else []) + (low + high) ==
            ((if inLow then [x] else []) + low) + ((if inHigh then [x] else []) + high)
  {
  }

  /** Ranges that meet have the rows of both, each once. */
  lemma {:induction false} RangesJoin(outbox: seq<Row>, a: int, b: int, c: int)
    requires Ascending(outbox) && a <= b <= c
    ensures InRange(outbox, a, c) == InRange(outbox, a, b) + InRange(outbox, b, c)
  {
    if outbox != [] {
      var rest := outbox[1..];
      RangesJoin(rest, a, b, c);
      var x := outbox[0];
      if b < x.id <= c { NoneUpTo(rest, a, b); }
      JoinHead(x, a < x.id <= b, b < x.id <= c, InRange(rest, a, b), InRange(rest, b, c));
    }
  }

  lemma {:induction false} NoneUpTo(outbox: seq<Row>, a: int, b: int)
    requires forall i :: 0 <= i < |outbox| ==> outbox[i].id > b
    ensures InRange(outbox, a, b) == []
  {
    if outbox != [] { NoneUpTo(outbox[1..], a, b); }
  }

  // ---------- one read after another ----------

  /** Successful reads of one server's outbox, each up to what is current then and each
      from the cursor the last one left. */
  function ReadAll(lists: bool, outbox: seq<Row>, cursor: int, currents: seq<int>, limit: nat): (seq<Row>, int)
    requires limit > 0
  {
    if currents == [] then ([], cursor)
    else
      var n := |currents| - 1;
      var (before, last) := ReadAll(lists, outbox, cursor, currents[..n], limit);
      var (rows, next) :=
        if lists then ReadLists(outbox, last, currents[n], limit) else Read(outbox, last, currents[n], limit);
      (before + rows, Max(last, next))
  }

  /** Between them they take every row that the cursor passes, in order and once. */
  lemma {:induction false} ReadsTakeEachOnce(lists: bool, outbox: seq<Row>, cursor: int, currents: seq<int>, limit: nat)
    requires Ascending(outbox) && limit > 0
    ensures var (rows, last) := ReadAll(lists, outbox, cursor, currents, limit);
            cursor <= last && rows == InRange(outbox, cursor, last) && Ascending(rows)
  {
    if currents == [] {
      NoRange(outbox, cursor);
    } else {
      var n := |currents| - 1;
      ReadsTakeEachOnce(lists, outbox, cursor, currents[..n], limit);
      var last := ReadAll(lists, outbox, cursor, currents[..n], limit).1;
      NextRead(lists, outbox, last, currents[n], limit);
      var next := ReadAll(lists, outbox, cursor, currents, limit).1;
      RangesJoin(outbox, cursor, last, next);
      InRangeAscending(outbox, cursor, next);
    }
  }

  lemma NextRead(lists: bool, outbox: seq<Row>, last: int, current: int, limit: nat)
    requires Ascending(outbox) && limit > 0
    ensures var (rows, next) := if lists then ReadLists(outbox, last, current, limit) else Read(outbox, last, current, limit);
            rows == InRange(outbox, last, Max(last, next))
  {
    if last <= current {
      if lists { ReadListsIsAWindow(outbox, last, current, limit); }
      else { ReadIsAWindow(outbox, last, current, limit); }
    } else {
      NoRange(outbox, last);
      assert forall r :: r !in InRange(outbox, last, current);
    }
  }
}
