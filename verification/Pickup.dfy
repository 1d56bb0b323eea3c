/** The event pickup loop: pages through the events table from a saved cursor up to
    the newest position a poke has named. Events are their stream orderings here. */
module Pickup {
  import opened Units

  ghost predicate Sorted(table: seq<int>) {
    table == [] ||
    (Sorted(table[..|table| - 1]) && forall j :: 0 <= j < |table| - 1 ==> table[j] < table[|table| - 1])
  }

  /** The rows in (from, upto]. */
  function Window(table: seq<int>, from: int, upto: int): (rows: seq<int>)
    ensures |rows| <= |table|
  {
    if table == [] then []
    else
      var n := |table| - 1;
      Window(table[..n], from, upto) + if from < table[n] <= upto then [table[n]] else []
  }

  /** GetAllNewEventIDsStream: the oldest rows of the window, as many as the limit allows. */
  function Page(table: seq<int>, from: int, upto: int, limit: nat): seq<int> {
    var rows := Window(table, from, upto);
    if |rows| > limit then rows[..limit] else rows
  }

  /** Where to resume: a truncated page must not be stepped past. */
  function Next(rows: seq<int>, upto: int, limit: nat): int {
    if |rows| == limit && limit > 0 then rows[limit - 1] else upto
  }

  /** GetEvents: what is still there of some rows, in their order. */
  function Held(rows: seq<int>, gone: set<int>): seq<int> {
    if rows == [] then []
    else
      var n := |rows| - 1;
      Held(rows[..n], gone) + if rows[n] in gone then [] else [rows[n]]
  }

  lemma {:induction false} HeldMembers(rows: seq<int>, gone: set<int>)
    ensures forall e :: e in Held(rows, gone) <==> e in rows && e !in gone
  {
    if rows != [] {
      HeldMembers(rows[..|rows| - 1], gone);
      assert rows == rows[..|rows| - 1] + [rows[|rows| - 1]];
    }
  }

  lemma {:induction false} WindowMembers(table: seq<int>, from: int, upto: int)
    ensures forall e :: e in Window(table, from, upto) <==> e in table && from < e <= upto
  {
    if table != [] {
      WindowMembers(table[..|table| - 1], from, upto);
      assert table == table[..|table| - 1] + [table[|table| - 1]];
    }
  }

  lemma {:induction false} WindowEmpty(table: seq<int>, from: int)
    ensures Window(table, from, from) == []
  {
    if table != [] {
      WindowEmpty(table[..|table| - 1], from);
    }
  }

  lemma {:induction false} WindowOfSmaller(table: seq<int>, from: int, upto: int, also: int)
    requires forall j :: 0 <= j < |table| ==> table[j] <= upto && table[j] <= also
    ensures Window(table, from, upto) == Window(table, from, also)
    ensures Window(table, upto, also) == []
  {
    if table != [] {
      WindowOfSmaller(table[..|table| - 1], from, upto, also);
    }
  }

  lemma {:induction false} WindowSorted(table: seq<int>, from: int, upto: int)
    requires Sorted(table)
    ensures Sorted(Window(table, from, upto))
  {
    if table != [] {
      var n := |table| - 1;
      WindowSorted(table[..n], from, upto);
      WindowMembers(table[..n], from, upto);
      var front := Window(table[..n], from, upto);
      assert (front + [table[n]])[..|front|] == front;
      assert Window(table, from, upto) == if from < table[n] <= upto then front + [table[n]] else front;
      assert forall e :: e in table[..n] ==> e < table[n];
      forall j | 0 <= j < |front| ensures front[j] < table[n] {
        assert front[j] in front;
      }
    }
  }

  lemma {:induction false} HeldOnce(rows: seq<int>, gone: set<int>)
    requires Sorted(rows)
    ensures forall e :: multiset(Held(rows, gone))[e] <= 1
  {
    if rows != [] {
      var n := |rows| - 1;
      HeldOnce(rows[..n], gone);
      HeldMembers(rows[..n], gone);
      assert rows[n] !in rows[..n];
    }
  }

  /** What an account adds, short of a failure, it adds once. */
  lemma AccountOnce(table: seq<int>, gone: set<int>, from: int, upto: int, before: multiset<int>, after: multiset<int>)
    requires Sorted(table) && Account(table, gone, from, upto, before, after, multiset{})
    ensures forall e :: after[e] <= before[e] + 1
  {
    WindowSorted(table, from, upto);
    HeldOnce(Window(table, from, upto), gone);
  }

  /** What an account runs up to has been handled, if it is held. */
  lemma AccountCovers(table: seq<int>, gone: set<int>, from: int, upto: int,
                      before: multiset<int>, after: multiset<int>, partial: multiset<int>)
    requires Account(table, gone, from, upto, before, after, partial)
    ensures forall e :: e in table && from < e <= upto && e !in gone ==> e in after
  {
    WindowMembers(table, from, upto);
    HeldMembers(Window(table, from, upto), gone);
    forall e | e in table && from < e <= upto && e !in gone ensures e in after {
      assert e in multiset(Held(Window(table, from, upto), gone));
    }
  }

  lemma {:induction false} WindowSplits(table: seq<int>, from: int, mid: int, upto: int)
    requires Sorted(table) && from <= mid <= upto
    ensures Window(table, from, upto) == Window(table, from, mid) + Window(table, mid, upto)
  {
    if table != [] {
      var n := |table| - 1;
      WindowSplits(table[..n], from, mid, upto);
      var low, high := Window(table[..n], from, mid), Window(table[..n], mid, upto);
      assert (low + high) + [table[n]] == low + (high + [table[n]]);
      if from < table[n] <= mid {
        WindowOfSmaller(table[..n], from, mid, upto);
      }
    }
  }

  lemma {:induction false} WindowPrefix(table: seq<int>, from: int, upto: int, k: nat)
    requires Sorted(table) && k < |Window(table, from, upto)|
    ensures var row := Window(table, from, upto)[k];
            from < row <= upto && Window(table, from, row) == Window(table, from, upto)[..k + 1]
  {
    var n := |table| - 1;
    var front := Window(table[..n], from, upto);
    if k < |front| {
      WindowPrefix(table[..n], from, upto, k);
      WindowMembers(table[..n], from, upto);
      assert front[k] in table[..n];
    } else {
      WindowOfSmaller(table[..n], from, upto, table[n]);
    }
  }

  /** A page is exactly the window up to where the next one resumes. */
  lemma PageIsAWindow(table: seq<int>, from: int, upto: int, limit: nat)
    requires Sorted(table) && from < upto && limit > 0
    ensures var rows := Page(table, from, upto, limit);
            var next := Next(rows, upto, limit);
            from < next <= upto && rows == Window(table, from, next) &&
            |rows| <= limit && (|rows| == limit || next == upto)
  {
    if |Window(table, from, upto)| >= limit {
      WindowPrefix(table, from, upto, limit - 1);
    }
  }

  lemma {:induction false} HeldJoins(rows: seq<int>, more: seq<int>, gone: set<int>)
    ensures Held(rows + more, gone) == Held(rows, gone) + Held(more, gone)
  {
    if more == [] {
      assert rows + more == rows;
    } else {
      var n := |more| - 1;
      HeldJoins(rows, more[..n], gone);
      assert (rows + more)[..|rows| + n] == rows + more[..n];
    }
  }

  /** What was handled grew by the rows of (from, upto] still held, and by partial. */
  ghost predicate Account(table: seq<int>, gone: set<int>, from: int, upto: int,
                          before: multiset<int>, after: multiset<int>, partial: multiset<int>) {
    from <= upto && after == before + multiset(Held(Window(table, from, upto), gone)) + partial
  }

  lemma NothingHandled(table: seq<int>, gone: set<int>, from: int, handled: multiset<int>)
    ensures Account(table, gone, from, from, handled, handled, multiset{})
  {
    WindowEmpty(table, from);
  }

  lemma AccountJoins(table: seq<int>, gone: set<int>, a: int, b: int, c: int,
                     h0: multiset<int>, h1: multiset<int>, h2: multiset<int>, partial: multiset<int>)
    requires Sorted(table)
    requires Account(table, gone, a, b, h0, h1, multiset{}) && Account(table, gone, b, c, h1, h2, partial)
    ensures Account(table, gone, a, c, h0, h2, partial)
  {
    WindowSplits(table, a, b, c);
    HeldJoins(Window(table, a, b), Window(table, b, c), gone);
  }

  lemma AccountPartial(table: seq<int>, gone: set<int>, a: int, h0: multiset<int>, partial: multiset<int>)
    ensures Account(table, gone, a, a, h0, h0 + partial, partial)
  {
    WindowEmpty(table, a);
  }

  lemma PageAccount(table: seq<int>, gone: set<int>, from: int, upto: int, limit: nat, handled: multiset<int>)
    requires Sorted(table) && from < upto && limit > 0
    ensures var rows := Page(table, from, upto, limit);
            var next := Next(rows, upto, limit);
            from < next <= upto &&
            Account(table, gone, from, next, handled, handled + multiset(Held(rows, gone)), multiset{})
  {
    PageIsAWindow(table, from, upto, limit);
  }

  lemma NoRowsHeld(table: seq<int>, gone: set<int>, from: int, next: int, handled: multiset<int>, rows: seq<int>)
    requires rows == [] && Account(table, gone, from, next, handled, handled + multiset(Held(rows, gone)), multiset{})
    ensures Account(table, gone, from, next, handled, handled, multiset{})
  {
    assert handled + multiset(Held(rows, gone)) == handled;
  }

  /** Where a pass goes wrong, if it does. A failed batch has handled some of its events. */
  datatype Fault = NoFault | CursorRead | FirstSet | Query | Load | Handle(reached: set<int>) | Save | Position

  /** Whether a batch gets to the call that fails. With no cursor there is nothing to page
      through; with an empty page, nothing to load, handle or record. */
  predicate Strikes(fault: Fault, cursor: Option<int>, poke: int, table: seq<int>, limit: nat) {
    match fault
    case NoFault => false
    case CursorRead => true
    case FirstSet => cursor.None?
    case Query => cursor.Some? && cursor.value < poke
    case Save => cursor.Some? && cursor.value < poke
    case _ => cursor.Some? && cursor.value < poke && Page(table, cursor.value, poke, limit) != []
  }

  class Sender {
    const limit: nat
    var lastPoked: int
    var processing: bool
    var wake: bool                // the one-slot channel
    var cursor: Option<int>       // the saved events cursor
    var position: Option<int>     // what RecordPosition last wrote
    var table: seq<int>
    var handled: multiset<int>

    ghost predicate Valid()
      reads this
    {
      Sorted(table) && limit > 0
    }

    constructor (limit: int, cursor: Option<int>, table: seq<int>)
      requires Sorted(table)
      ensures Valid() && this.cursor == cursor && this.table == table && handled == multiset{}
      ensures !processing && !wake && lastPoked == 0
    {
      this.limit := if limit <= 0 then 100 else limit;
      lastPoked, processing, wake := 0, false, false;
      this.cursor, this.table, position, handled := cursor, table, None, multiset{};
    }

    method NotifyNewEvents(max: int)
      modifies this`lastPoked, this`wake
      ensures lastPoked == Max(old(lastPoked), max) && wake
    {
      if max > lastPoked {
        lastPoked := max;
      }
      if !wake {
        wake := true;
      }
    }

    /** Cursors.Set: never backwards. */
    method SetCursor(pos: int)
      modifies this`cursor
      ensures cursor == Some(if old(cursor).Some? then Max(old(cursor).value, pos) else pos)
    {
      if cursor.None? || cursor.value < pos {
        cursor := Some(pos);
      }
    }

    method GetEvents(rows: seq<int>, gone: set<int>) returns (events: seq<int>)
      ensures events == Held(rows, gone)
    {
      events := [];
      for i := 0 to |rows|
        invariant events == Held(rows[..i], gone)
      {
        assert rows[..i + 1][..i] == rows[..i];
        if rows[i] !in gone {
          events := events + [rows[i]];
        }
      }
      assert rows[..|rows|] == rows;
    }

    /** What a batch that fails while handling gets through. */
    function Reached(fault: Fault, events: seq<int>): multiset<int> {
      if fault.Handle? then multiset(Held(events, set e | e in events && e !in fault.reached)) else multiset(events)
    }

    /** One batch from a saved cursor. Handles exactly the events still held up to the
        cursor it leaves, and a failed batch, beyond that, some that it will meet again. */
    method ProcessBatch(fault: Fault, gone: set<int>) returns (more: bool, ok: bool, ghost partial: multiset<int>)
      requires Valid()
      modifies this`cursor, this`position, this`handled
      ensures Valid()
      ensures old(cursor).None? ==> !more && handled == old(handled) && partial == multiset{}
      ensures old(cursor).None? ==> cursor == if ok then Some(lastPoked) else None
      ensures old(cursor).Some? ==> cursor.Some? && cursor.value <= Max(old(cursor.value), lastPoked)
      ensures old(cursor).Some? ==>
                Account(table, gone, old(cursor.value), cursor.value, old(handled), handled, partial)
      ensures if ok then partial == multiset{} else !fault.NoFault?
      ensures ok <==> !Strikes(fault, old(cursor), lastPoked, table, limit)
      ensures old(cursor).Some? && more ==> ok && old(cursor.value) < cursor.value < lastPoked
      ensures ok && !more ==> cursor.value >= lastPoked
      ensures position == if ok && old(cursor).Some? && old(cursor.value) < lastPoked &&
                             Page(table, old(cursor.value), lastPoked, limit) != [] then cursor
                          else old(position)
    {
      more, ok, partial := false, false, multiset{};
      if cursor.Some? {
        NothingHandled(table, gone, cursor.value, handled);
      }
      if fault.CursorRead? {
        return;
      }
      var from := lastPoked;
      if cursor.Some? {
        from := cursor.value;
      } else {
        if fault.FirstSet? {
          return;
        }
        SetCursor(from);
      }
      var upto := lastPoked;
      if from >= upto {
        NothingHandled(table, gone, from, handled);
        return false, true, multiset{};
      }
      more, ok, partial := Batch(fault, gone, from, upto);
    }

    /** The rest of a batch, once its window is known. */
    method Batch(fault: Fault, gone: set<int>, from: int, upto: int)
      returns (more: bool, ok: bool, ghost partial: multiset<int>)
      requires Valid() && cursor == Some(from) && from < upto
      modifies this`cursor, this`position, this`handled
      ensures Valid() && cursor.Some? && cursor.value <= upto
      ensures Account(table, gone, from, cursor.value, old(handled), handled, partial)
      ensures ok ==> partial == multiset{} && from < cursor.value && more == (cursor.value < upto)
      ensures !ok ==> !more && !fault.NoFault?
      ensures ok <==> fault.CursorRead? || fault.FirstSet? || !Strikes(fault, Some(from), upto, table, limit)
      ensures position == if ok && Page(table, from, upto, limit) != [] then cursor else old(position)
    {
      more, ok, partial := false, false, multiset{};
      if fault.Query? {
        NothingHandled(table, gone, from, handled);
        return;
      }
      var rows := Page(table, from, upto, limit);
      var next := Next(rows, upto, limit);
      PageAccount(table, gone, from, upto, limit, handled);
      if |rows| == 0 {
        NoRowsHeld(table, gone, from, next, handled, rows);
        ok := SaveEmpty(fault, gone, from, next);
      } else {
        ok, partial := HandleRows(fault, gone, from, rows, next);
      }
      more := ok && next < upto;
    }

    /** A page with no rows: the cursor goes past them. */
    method SaveEmpty(fault: Fault, ghost gone: set<int>, ghost from: int, next: int) returns (ok: bool)
      requires cursor == Some(from) && from < next && Account(table, gone, from, next, handled, handled, multiset{})
      modifies this`cursor
      ensures ok <==> !fault.Save?
      ensures cursor == Some(if ok then next else from)
      ensures Account(table, gone, from, cursor.value, handled, handled, multiset{})
    {
      if fault.Save? {
        NothingHandled(table, gone, from, handled);
        return false;
      }
      SetCursor(next);
      return true;
    }

    /** The rows of a page that has some: loaded, handled, and the cursor saved after them. */
    method HandleRows(fault: Fault, gone: set<int>, ghost from: int, rows: seq<int>, next: int)
      returns (ok: bool, ghost partial: multiset<int>)
      requires cursor == Some(from) && from < next
      requires Account(table, gone, from, next, handled, handled + multiset(Held(rows, gone)), multiset{})
      modifies this`cursor, this`position, this`handled
      ensures cursor == Some(from) || cursor == Some(next)
      ensures Account(table, gone, from, cursor.value, old(handled), handled, partial)
      ensures ok ==> partial == multiset{} && cursor == Some(next)
      ensures !ok ==> !fault.NoFault?
      ensures ok <==> !fault.Load? && !fault.Handle? && !fault.Save? && !fault.Position?
      ensures position == if ok then cursor else old(position)
    {
      ok, partial := false, multiset{};
      NothingHandled(table, gone, from, handled);
      if fault.Load? {
        return;
      }
      var events := GetEvents(rows, gone);
      if fault.Handle? || fault.Save? {
        var some := Reached(fault, events);
        AccountPartial(table, gone, from, handled, some);
        handled, partial := handled + some, some;
        return;
      }
      handled := handled + multiset(events);
      SetCursor(next);
      if fault.Position? {
        return;
      }
      position := Some(next);
      return true, multiset{};
    }

    /** processAll: batches until nothing is left below the poke, or one fails. */
    method ProcessAll(faults: nat -> Fault, gone: set<int>) returns (ok: bool, ghost partial: multiset<int>)
      requires Valid()
      modifies this`cursor, this`position, this`handled, this`processing
      ensures Valid() && processing == old(processing)
      ensures old(processing) ==> ok && cursor == old(cursor) && handled == old(handled)
      ensures ok ==> partial == multiset{}
      ensures ok && !old(processing) ==> cursor.Some? && cursor.value >= lastPoked
      ensures !ok ==> exists i: nat :: !faults(i).NoFault?
      ensures old(cursor).Some? ==> cursor.Some?
      ensures old(cursor).Some? ==>
                Account(table, gone, old(cursor.value), cursor.value, old(handled), handled, partial)
      ensures old(cursor).None? ==> handled == old(handled)
      ensures ok ==> forall e :: handled[e] <= old(handled)[e] + 1
      ensures position != old(position) ==>
                old(cursor).Some? && cursor.Some? && position.Some? && old(cursor.value) < position.value <= cursor.value &&
                forall e :: e in table && old(cursor.value) < e <= position.value && e !in gone ==> e in handled
    {
      partial := multiset{};
      if processing {
        if cursor.Some? {
          NothingHandled(table, gone, cursor.value, handled);
        }
        return true, partial;
      }
      processing := true;
      var more, i := true, 0;
      if cursor.Some? {
        NothingHandled(table, gone, cursor.value, handled);
      }
      ok := true;
      while more
        invariant Valid() && processing
        invariant ok ==> partial == multiset{}
        invariant !more && ok ==> cursor.Some? && cursor.value >= lastPoked
        invariant !ok ==> !more && exists i: nat :: !faults(i).NoFault?
        invariant old(cursor).Some? ==> cursor.Some?
        invariant old(cursor).Some? ==>
                    Account(table, gone, old(cursor.value), cursor.value, old(handled), handled, partial)
        invariant old(cursor).None? ==> handled == old(handled) && (i > 0 ==> !more) && (i == 0 ==> cursor.None?)
        invariant old(cursor).None? ==> position == old(position)
        invariant position != old(position) ==>
                    old(cursor).Some? && position.Some? && old(cursor.value) < position.value <= cursor.value
        decreases more, if cursor.Some? then lastPoked - cursor.value else 0
      {
        ghost var from, before := cursor, handled;
        more, ok, partial := ProcessBatch(faults(i), gone);
        if from.Some? && old(cursor).Some? {
          AccountJoins(table, gone, old(cursor.value), from.value, cursor.value,
                       old(handled), before, handled, partial);
        }
        i := i + 1;
      }
      processing := false;
      if ok && old(cursor).Some? {
        AccountOnce(table, gone, old(cursor.value), cursor.value, old(handled), handled);
      }
      if position != old(position) {
        AccountCovers(table, gone, old(cursor.value), cursor.value, old(handled), handled, partial);
      }
    }

  }
}
