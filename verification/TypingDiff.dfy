/** Typing rows are whole sets; the difference from the remembered set is what starts
    and stops come from. */
module TypingDiff {
  import opened Sorting

  datatype Member = Member(room: string, user: string)
  datatype Row = Row(room: string, users: seq<string>)
  datatype Work = Work(member: Member, typing: bool)

  type Rooms = map<string, set<string>>

  /** What follows the last colon. */
  function AfterLastColon(user: string): string
    requires ':' in user
  {
    if user[|user| - 1] == ':' then "" else AfterLastColon(user[..|user| - 1]) + [user[|user| - 1]]
  }

  predicate Mine(server: string, user: string) {
    ':' in user && AfterLastColon(user) == server
  }

  lemma {:induction false} LastColonSplits(user: string)
    requires ':' in user
    ensures ':' !in AfterLastColon(user) && |AfterLastColon(user)| < |user|
    ensures var k := |user| - |AfterLastColon(user)| - 1;
            user[k] == ':' && user[k + 1..] == AfterLastColon(user)
  {
    var n := |user| - 1;
    if user[n] != ':' {
      LastColonSplits(user[..n]);
    }
  }

  lemma {:induction false} AfterColon(local: string, server: string)
    requires ':' !in server
    ensures ':' in local + ":" + server && AfterLastColon(local + ":" + server) == server
  {
    var user, n := local + ":" + server, |server| - 1;
    assert user[|local|] == ':';
    if server != "" {
      AfterColon(local, server[..n]);
      assert user[..|user| - 1] == local + ":" + server[..n];
    }
  }

  /** A user is ours exactly when the server name ends the id and holds no colon of its
      own: with a port in the server name nobody is ever ours. */
  lemma MineIff(server: string, user: string)
    ensures Mine(server, user) <==> ':' !in server && exists local :: user == local + ":" + server
  {
    if Mine(server, user) {
      LastColonSplits(user);
      var k := |user| - |server| - 1;
      assert user == user[..k] + ":" + server;
    }
    if ':' !in server && exists local :: user == local + ":" + server {
      var local :| user == local + ":" + server;
      AfterColon(local, server);
    }
  }

  // ---------- the difference ----------

  function Users(rooms: Rooms, room: string): set<string> {
    if room in rooms then rooms[room] else {}
  }

  function SetOf(users: seq<string>): set<string> {
    set u | u in users
  }

  /** An empty set is not kept. */
  function AfterRow(rooms: Rooms, row: Row): Rooms {
    if SetOf(row.users) == {} then rooms - {row.room} else rooms[row.room := SetOf(row.users)]
  }

  function RowStarts(server: string, rooms: Rooms, row: Row): set<Member> {
    set u | u in SetOf(row.users) - Users(rooms, row.room) && Mine(server, u) :: Member(row.room, u)
  }

  function RowStops(server: string, rooms: Rooms, row: Row): set<Member> {
    set u | u in Users(rooms, row.room) - SetOf(row.users) && Mine(server, u) :: Member(row.room, u)
  }

  function AfterRows(rooms: Rooms, rows: seq<Row>): Rooms {
    if rows == [] then rooms else AfterRow(AfterRows(rooms, rows[..|rows| - 1]), rows[|rows| - 1])
  }

  function Starts(server: string, rooms: Rooms, rows: seq<Row>): multiset<Member> {
    if rows == [] then multiset{}
    else
      var n := |rows| - 1;
      Starts(server, rooms, rows[..n]) + multiset(RowStarts(server, AfterRows(rooms, rows[..n]), rows[n]))
  }

  function Stops(server: string, rooms: Rooms, rows: seq<Row>): multiset<Member> {
    if rows == [] then multiset{}
    else
      var n := |rows| - 1;
      Stops(server, rooms, rows[..n]) + multiset(RowStops(server, AfterRows(rooms, rows[..n]), rows[n]))
  }

  /** A local user typing in a room. */
  predicate Local(server: string, rooms: Rooms, m: Member) {
    m.user in Users(rooms, m.room) && Mine(server, m.user)
  }

  ghost predicate OneRowPerRoom(rows: seq<Row>) {
    forall i, j :: 0 <= i < j < |rows| ==> rows[i].room != rows[j].room
  }

  lemma {:induction false} OtherRoomsUntouched(rooms: Rooms, rows: seq<Row>, room: string)
    requires forall i :: 0 <= i < |rows| ==> rows[i].room != room
    ensures Users(AfterRows(rooms, rows), room) == Users(rooms, room)
  {
    if rows != [] {
      OtherRoomsUntouched(rooms, rows[..|rows| - 1], room);
    }
  }

  lemma {:induction false} NotNamed(server: string, rooms: Rooms, rows: seq<Row>, m: Member)
    requires forall i :: 0 <= i < |rows| ==> rows[i].room != m.room
    ensures Starts(server, rooms, rows)[m] == 0 && Stops(server, rooms, rows)[m] == 0
  {
    if rows != [] {
      NotNamed(server, rooms, rows[..|rows| - 1], m);
    }
  }

  lemma OneRow(server: string, rooms: Rooms, row: Row, m: Member)
    ensures var before, after := Local(server, rooms, m), Local(server, AfterRow(rooms, row), m);
            multiset(RowStarts(server, rooms, row))[m] == (if after && !before then 1 else 0) &&
            multiset(RowStops(server, rooms, row))[m] == (if before && !after then 1 else 0)
    ensures row.room != m.room ==> Users(AfterRow(rooms, row), m.room) == Users(rooms, m.room)
  {
  }

  /** With a row a room, a member starts when typing now and not before, stops the other
      way about, and never twice. */
  lemma {:induction false} OneChangeEach(server: string, rooms: Rooms, rows: seq<Row>, m: Member)
    requires OneRowPerRoom(rows)
    ensures var before, after := Local(server, rooms, m), Local(server, AfterRows(rooms, rows), m);
            Starts(server, rooms, rows)[m] == (if after && !before then 1 else 0) &&
            Stops(server, rooms, rows)[m] == (if before && !after then 1 else 0)
  {
    if rows != [] {
      var n := |rows| - 1;
      OneRow(server, AfterRows(rooms, rows[..n]), rows[n], m);
      if rows[n].room == m.room {
        NotNamed(server, rooms, rows[..n], m);
        OtherRoomsUntouched(rooms, rows[..n], m.room);
      } else {
        OneChangeEach(server, rooms, rows[..n], m);
      }
    }
  }

  // ---------- replaying what was sent ----------

  function Works(members: seq<Member>, typing: bool): seq<Work> {
    seq(|members|, i requires 0 <= i < |members| => Work(members[i], typing))
  }

  /** What a member was said to be doing, in order. */
  function History(log: seq<Work>, m: Member): seq<bool> {
    if log == [] then []
    else
      var w := log[|log| - 1];
      History(log[..|log| - 1], m) + if w.member == m then [w.typing] else []
  }

  /** Who a receiver of these would show as typing. */
  predicate Shown(log: seq<Work>, m: Member) {
    var h := History(log, m);
    h != [] && h[|h| - 1]
  }

  ghost predicate Alternates(h: seq<bool>) {
    forall i :: 0 <= i < |h| ==> h[i] == (i % 2 == 0)
  }

  lemma {:induction false} HistoryJoins(a: seq<Work>, b: seq<Work>, m: Member)
    ensures History(a + b, m) == History(a, m) + History(b, m)
  {
    if b == [] {
      assert a + b == a;
    } else {
      HistoryJoins(a, b[..|b| - 1], m);
      assert (a + b)[..|a| + |b| - 1] == a + b[..|b| - 1];
    }
  }

  lemma {:induction false} HistoryOfWorks(members: seq<Member>, typing: bool, m: Member)
    ensures History(Works(members, typing), m) == seq(multiset(members)[m], _ => typing)
  {
    if members != [] {
      var n := |members| - 1;
      HistoryOfWorks(members[..n], typing, m);
      var log := Works(members, typing);
      assert log[..n] == Works(members[..n], typing) && log[n] == Work(members[n], typing);
      assert History(log, m) == History(log[..n], m) + if members[n] == m then [typing] else [];
      OneMoreCounted(members[..n], members[n], m);
      assert members == members[..n] + [members[n]];
    }
  }

  lemma OneMoreCounted(members: seq<Member>, x: Member, m: Member)
    ensures multiset(members + [x])[m] == multiset(members)[m] + if x == m then 1 else 0
  {
  }

  /** What one batch puts out: its starts, then its stops. */
  ghost predicate PutOut(server: string, rooms: Rooms, rows: seq<Row>, log: seq<Work>) {
    exists starts: seq<Member>, stops: seq<Member> :: PutOutAs(server, rooms, rows, log, starts, stops)
  }

  ghost predicate PutOutAs(server: string, rooms: Rooms, rows: seq<Row>, log: seq<Work>,
                           starts: seq<Member>, stops: seq<Member>) {
    multiset(starts) == Starts(server, rooms, rows) && multiset(stops) == Stops(server, rooms, rows) &&
    log == Works(starts, true) + Works(stops, false)
  }

  lemma BatchHistory(server: string, rooms: Rooms, rows: seq<Row>, log: seq<Work>, m: Member)
    requires PutOut(server, rooms, rows, log)
    ensures History(log, m) ==
            seq(Starts(server, rooms, rows)[m], _ => true) + seq(Stops(server, rooms, rows)[m], _ => false)
  {
    var starts: seq<Member>, stops: seq<Member> :| PutOutAs(server, rooms, rows, log, starts, stops);
    HistoryJoins(Works(starts, true), Works(stops, false), m);
    HistoryOfWorks(starts, true, m);
    HistoryOfWorks(stops, false, m);
  }

  /** A batch as it happened: what came, and what was put out. */
  datatype Batch = Batch(token: int, rows: seq<Row>, log: seq<Work>)

  function Serial(run: seq<Batch>): int {
    if run == [] then 0 else run[|run| - 1].token
  }

  /** What a batch starts from: nothing, when its token goes backwards. */
  function Base(run: seq<Batch>, token: int): Rooms
    decreases |run|, 1
  {
    if token < Serial(run) then map[] else RoomsAfter(run)
  }

  function RoomsAfter(run: seq<Batch>): Rooms
    decreases |run|, 0
  {
    if run == [] then map[]
    else
      var b := run[|run| - 1];
      AfterRows(Base(run[..|run| - 1], b.token), b.rows)
  }

  /** Everything put out since the writer last went backwards. */
  function LogSince(run: seq<Batch>): seq<Work> {
    if run == [] then []
    else
      var before, b := run[..|run| - 1], run[|run| - 1];
      (if b.token < Serial(before) then [] else LogSince(before)) + b.log
  }

  ghost predicate Ran(server: string, run: seq<Batch>) {
    run == [] ||
    (Ran(server, run[..|run| - 1]) && OneRowPerRoom(run[|run| - 1].rows) &&
     PutOut(server, Base(run[..|run| - 1], run[|run| - 1].token), run[|run| - 1].rows, run[|run| - 1].log))
  }

  lemma ChangeKeepsAlternation(h: seq<bool>, before: bool, after: bool)
    requires Alternates(h) && (|h| % 2 == 1) == before
    ensures var more := h + ((if after && !before then [true] else []) + if before && !after then [false] else []);
            Alternates(more) && (|more| % 2 == 1) == after
  {
  }

  lemma ShownIsOdd(log: seq<Work>, m: Member)
    requires Alternates(History(log, m))
    ensures Shown(log, m) <==> |History(log, m)| % 2 == 1
  {
  }

  lemma BatchIsAChange(server: string, base: Rooms, rows: seq<Row>, log: seq<Work>, m: Member)
    requires OneRowPerRoom(rows) && PutOut(server, base, rows, log)
    ensures var before, after := Local(server, base, m), Local(server, AfterRows(base, rows), m);
            History(log, m) == (if after && !before then [true] else []) + if before && !after then [false] else []
  {
    OneChangeEach(server, base, rows, m);
    BatchHistory(server, base, rows, log, m);
  }

  lemma BatchKeepsAlternation(server: string, base: Rooms, rows: seq<Row>, log: seq<Work>, more: seq<Work>, m: Member)
    requires OneRowPerRoom(rows) && PutOut(server, base, rows, more)
    requires Alternates(History(log, m)) && (|History(log, m)| % 2 == 1) == Local(server, base, m)
    ensures Alternates(History(log + more, m))
    ensures (|History(log + more, m)| % 2 == 1) == Local(server, AfterRows(base, rows), m)
  {
    BatchIsAChange(server, base, rows, more, m);
    HistoryJoins(log, more, m);
    ChangeKeepsAlternation(History(log, m), Local(server, base, m), Local(server, AfterRows(base, rows), m));
  }

  /** Main: for each member, starts and stops alternate, beginning with a start; and the
      member is shown as typing exactly when the room's remembered set has the user. */
  lemma {:induction false} ReplayIsTyping(server: string, run: seq<Batch>, m: Member)
    requires Ran(server, run)
    ensures Alternates(History(LogSince(run), m))
    ensures (|History(LogSince(run), m)| % 2 == 1) == Local(server, RoomsAfter(run), m)
    ensures Shown(LogSince(run), m) <==> Local(server, RoomsAfter(run), m)
  {
    if run != [] {
      var before, b := run[..|run| - 1], run[|run| - 1];
      var log := if b.token < Serial(before) then [] else LogSince(before);
      ReplayIsTyping(server, before, m);
      BatchKeepsAlternation(server, Base(before, b.token), b.rows, log, b.log, m);
    }
    ShownIsOdd(LogSince(run), m);
  }

  /** Every row since the writer last went backwards. */
  function RowsSince(run: seq<Batch>): seq<Row> {
    if run == [] then []
    else
      var before, b := run[..|run| - 1], run[|run| - 1];
      (if b.token < Serial(before) then [] else RowsSince(before)) + b.rows
  }

  lemma {:induction false} RowsJoin(rooms: Rooms, a: seq<Row>, b: seq<Row>)
    ensures AfterRows(AfterRows(rooms, a), b) == AfterRows(rooms, a + b)
  {
    if b == [] {
      assert a + b == a;
    } else {
      RowsJoin(rooms, a, b[..|b| - 1]);
      assert (a + b)[..|a| + |b| - 1] == a + b[..|b| - 1];
    }
  }

  lemma {:induction false} RoomsOfRows(run: seq<Batch>)
    ensures RoomsAfter(run) == AfterRows(map[], RowsSince(run))
  {
    if run != [] {
      var before, b := run[..|run| - 1], run[|run| - 1];
      RoomsOfRows(before);
      RowsJoin(map[], if b.token < Serial(before) then [] else RowsSince(before), b.rows);
    }
  }

  lemma {:induction false} LastRowWins(rooms: Rooms, rows: seq<Row>, i: nat)
    requires i < |rows| && forall j :: i < j < |rows| ==> rows[j].room != rows[i].room
    ensures Users(AfterRows(rooms, rows), rows[i].room) == SetOf(rows[i].users)
  {
    var n := |rows| - 1;
    if i < n {
      LastRowWins(rooms, rows[..n], i);
    }
  }

  /** The remembered set of a room is that of its latest row since the writer last went
      backwards; rooms nobody types in are not remembered. */
  lemma RoomsAreLatest(run: seq<Batch>, room: string)
    ensures var rows := RowsSince(run);
            (forall i :: 0 <= i < |rows| && rows[i].room == room && (forall j :: i < j < |rows| ==> rows[j].room != room)
                         ==> Users(RoomsAfter(run), room) == SetOf(rows[i].users)) &&
            ((forall i :: 0 <= i < |rows| ==> rows[i].room != room) ==> room !in RoomsAfter(run))
    ensures room in RoomsAfter(run) ==> RoomsAfter(run)[room] != {}
  {
    var rows := RowsSince(run);
    RoomsOfRows(run);
    NoEmptySets(map[], rows);
    forall i | 0 <= i < |rows| && rows[i].room == room && (forall j :: i < j < |rows| ==> rows[j].room != room)
      ensures Users(RoomsAfter(run), room) == SetOf(rows[i].users)
    {
      LastRowWins(map[], rows, i);
    }
    if forall i :: 0 <= i < |rows| ==> rows[i].room != room {
      OtherRoomsUntouched(map[], rows, room);
    }
  }

  lemma {:induction false} NoEmptySets(rooms: Rooms, rows: seq<Row>)
    requires forall r :: r in rooms ==> rooms[r] != {}
    ensures forall r :: r in AfterRows(rooms, rows) ==> AfterRows(rooms, rows)[r] != {}
  {
    if rows != [] {
      NoEmptySets(rooms, rows[..|rows| - 1]);
    }
  }

  lemma {:induction false} StartedOrStopped(server: string, rooms: Rooms, rows: seq<Row>, m: Member)
    ensures var before, after := Local(server, rooms, m), Local(server, AfterRows(rooms, rows), m);
            var started, stopped := m in Starts(server, rooms, rows), m in Stops(server, rooms, rows);
            (after ==> before || started) && (!after && (before || started) ==> stopped)
  {
    if rows != [] {
      var n := |rows| - 1;
      StartedOrStopped(server, rooms, rows[..n], m);
      OneRow(server, AfterRows(rooms, rows[..n]), rows[n], m);
    }
  }

  /** With several rows for a room in one batch, what is shown is right for a member if and
      only if the member is not one who stops in the batch and is typing at its end: all
      starts go out before all stops. */
  lemma BatchReplaysIff(server: string, base: Rooms, rows: seq<Row>, log: seq<Work>, more: seq<Work>, m: Member)
    requires PutOut(server, base, rows, more) && (Shown(log, m) <==> Local(server, base, m))
    ensures (Shown(log + more, m) <==> Local(server, AfterRows(base, rows), m)) <==>
            !(m in Stops(server, base, rows) && Local(server, AfterRows(base, rows), m))
  {
    var starts, stops := Starts(server, base, rows)[m], Stops(server, base, rows)[m];
    StartedOrStopped(server, base, rows, m);
    BatchHistory(server, base, rows, more, m);
    HistoryJoins(log, more, m);
    LastOfBatch(History(log, m), starts, stops);
  }

  /** A history ends with the batch's stops if it has any, else with its starts. */
  lemma LastOfBatch(h: seq<bool>, starts: nat, stops: nat)
    ensures var all := h + (seq(starts, _ => true) + seq(stops, _ => false));
            if stops > 0 then all != [] && !all[|all| - 1]
            else if starts > 0 then all != [] && all[|all| - 1]
            else all == h
  {
  }

  /** Who stops in a batch, from its rows: one of ours whom some row of the room leaves out
      while the rows before it had left the user typing there. */
  lemma {:induction false} StopsIff(server: string, base: Rooms, rows: seq<Row>, m: Member)
    ensures m in Stops(server, base, rows) <==>
            Mine(server, m.user) && exists i :: 0 <= i < |rows| && LeavesOut(base, rows, i, m)
  {
    if rows != [] {
      var n := |rows| - 1;
      StopsIff(server, base, rows[..n], m);
      OneRowStops(server, AfterRows(base, rows[..n]), rows[n], m);
      if m in Stops(server, base, rows[..n]) {
        var i :| 0 <= i < n && LeavesOut(base, rows[..n], i, m);
        SameBefore(base, rows, n, i, m);
      }
      if i :| 0 <= i < n && LeavesOut(base, rows, i, m) { SameBefore(base, rows, n, i, m); }
      assert LeavesOut(base, rows, n, m) && Mine(server, m.user) <==> m in RowStops(server, AfterRows(base, rows[..n]), rows[n]);
    }
  }

  lemma SameBefore(base: Rooms, rows: seq<Row>, n: nat, i: nat, m: Member)
    requires i < n <= |rows|
    ensures LeavesOut(base, rows[..n], i, m) <==> LeavesOut(base, rows, i, m)
  {
    assert rows[..n][..i] == rows[..i];
  }

  predicate LeavesOut(base: Rooms, rows: seq<Row>, i: nat, m: Member)
    requires i < |rows|
  {
    rows[i].room == m.room && m.user !in rows[i].users && m.user in Users(AfterRows(base, rows[..i]), m.room)
  }

  lemma OneRowStops(server: string, rooms: Rooms, row: Row, m: Member)
    ensures m in RowStops(server, rooms, row) <==>
            Mine(server, m.user) && row.room == m.room && m.user !in row.users && m.user in Users(rooms, m.room)
  {
  }

  lemma StopsOfTwo(server: string, base: Rooms, a: Row, b: Row)
    ensures Stops(server, base, [a, b]) ==
            multiset(RowStops(server, base, a)) + multiset(RowStops(server, AfterRow(base, a), b))
    ensures AfterRows(base, [a, b]) == AfterRow(AfterRow(base, a), b)
  {
    assert [a, b][..1] == [a] && [a][..0] == [];
    assert AfterRows(base, [a]) == AfterRow(base, a);
    assert Stops(server, base, [a]) == multiset(RowStops(server, base, a));
  }

  /** The failing batch: a user stops and starts again within it, and is left switched off. */
  lemma TwoRowsLoseAStart(server: string, base: Rooms, room: string, user: string)
    requires user in Users(base, room) && Mine(server, user)
    ensures var rows := [Row(room, []), Row(room, [user])];
            var m := Member(room, user);
            m in Stops(server, base, rows) && Local(server, AfterRows(base, rows), m)
  {
    var off, on := Row(room, []), Row(room, [user]);
    StopsOfTwo(server, base, off, on);
    assert Member(room, user) in RowStops(server, base, off);
    assert user in SetOf(on.users);
  }

  // ---------- the router ----------

  predicate MemberBefore(a: Member, b: Member) {
    if a.room != b.room then Before(a.room, b.room) else a.user == b.user || Before(a.user, b.user)
  }

  /** By room, and within a room by user. */
  lemma MembersAreOrdered(members: seq<Member>, i: nat, j: nat)
    requires InOrder(members) && i < j < |members|
    ensures Before(members[i].room, members[j].room) ||
            (members[i].room == members[j].room &&
             (members[i].user == members[j].user || Before(members[i].user, members[j].user)))
  {
  }

  ghost predicate InOrder(members: seq<Member>) {
    forall i, j :: 0 <= i < j < |members| ==> MemberBefore(members[i], members[j])
  }

  function InsertMember(members: seq<Member>, m: Member): seq<Member> {
    if members == [] || MemberBefore(m, members[0]) then [m] + members
    else [members[0]] + InsertMember(members[1..], m)
  }

  lemma MemberOrder(a: Member, b: Member, c: Member)
    ensures MemberBefore(a, b) || MemberBefore(b, a)
    ensures MemberBefore(a, b) && MemberBefore(b, c) ==> MemberBefore(a, c)
  {
    BeforeIsTotal(a.room, b.room);
    BeforeIsTotal(a.user, b.user);
    BeforeIsTotal(a.room, c.room);
    if Before(a.room, b.room) && Before(b.room, c.room) {
      BeforeIsTransitive(a.room, b.room, c.room);
    }
    if Before(a.user, b.user) && Before(b.user, c.user) {
      BeforeIsTransitive(a.user, b.user, c.user);
    }
  }

  lemma {:induction false} InsertedMember(members: seq<Member>, m: Member)
    ensures multiset(InsertMember(members, m)) == multiset(members) + multiset{m}
    ensures forall x :: x in InsertMember(members, m) ==> x in members || x == m
  {
    if members != [] {
      assert members == [members[0]] + members[1..];
      InsertedMember(members[1..], m);
    }
  }

  lemma FirstKeepsOrder(m: Member, rest: seq<Member>)
    requires InOrder(rest) && forall x :: x in rest ==> MemberBefore(m, x)
    ensures InOrder([m] + rest)
  {
  }

  lemma {:induction false} InsertKeepsOrder(members: seq<Member>, m: Member)
    requires InOrder(members)
    ensures InOrder(InsertMember(members, m))
  {
    if members == [] {
    } else if MemberBefore(m, members[0]) {
      forall x | x in members ensures MemberBefore(m, x) {
        var j :| 0 <= j < |members| && members[j] == x;
        MemberOrder(m, members[0], x);
      }
      FirstKeepsOrder(m, members);
    } else {
      MemberOrder(m, members[0], m);
      InsertKeepsOrder(members[1..], m);
      InsertedMember(members[1..], m);
      FirstKeepsOrder(members[0], InsertMember(members[1..], m));
    }
  }

  method SortMembers(members: seq<Member>) returns (sorted: seq<Member>)
    ensures InOrder(sorted) && multiset(sorted) == multiset(members)
  {
    sorted := [];
    for i := 0 to |members|
      invariant InOrder(sorted) && multiset(sorted) == multiset(members[..i])
    {
      assert members[..i + 1] == members[..i] + [members[i]];
      InsertKeepsOrder(sorted, members[i]);
      InsertedMember(sorted, members[i]);
      sorted := InsertMember(sorted, members[i]);
    }
    assert members[..|members|] == members;
  }

  /** From the last colon back. */
  method IsMine(server: string, user: string) returns (mine: bool)
    ensures mine == Mine(server, user)
  {
    var i := |user|;
    while i > 0
      invariant 0 <= i <= |user| && ':' !in user[i..]
    {
      i := i - 1;
      if user[i] == ':' {
        FoundLast(user, i);
        return user[i + 1..] == server;
      }
    }
    return false;
  }

  lemma {:induction false} FoundLast(user: string, i: nat)
    requires i < |user| && user[i] == ':' && ':' !in user[i + 1..]
    ensures ':' in user && AfterLastColon(user) == user[i + 1..]
  {
    var n := |user| - 1;
    if i < n {
      assert user[n] == user[i + 1..][n - i - 1];
      assert user[..n][i + 1..] == user[i + 1..][..n - i - 1];
      FoundLast(user[..n], i);
    }
  }

  function MineIn(server: string, room: string, users: set<string>): set<Member> {
    set u | u in users && Mine(server, u) :: Member(room, u)
  }

  lemma MineInMore(server: string, room: string, users: set<string>, u: string)
    requires u !in users
    ensures multiset(MineIn(server, room, users + {u})) ==
            multiset(MineIn(server, room, users)) + if Mine(server, u) then multiset{Member(room, u)} else multiset{}
  {
    var before, after := MineIn(server, room, users), MineIn(server, room, users + {u});
    if Mine(server, u) {
      assert after == before + {Member(room, u)} && Member(room, u) !in before;
    } else {
      assert after == before;
    }
  }

  lemma FewerLeft(users: set<string>, done: set<string>, u: string)
    requires u in users - done
    ensures |users - (done + {u})| < |users - done|
  {
    assert users - (done + {u}) == (users - done) - {u};
  }

  /** The members of one room that changed, in whatever order the set gives them. */
  method Changed(server: string, room: string, users: set<string>) returns (members: seq<Member>)
    ensures multiset(members) == multiset(MineIn(server, room, users))
  {
    members := [];
    var done := {};
    while done != users
      invariant done <= users && multiset(members) == multiset(MineIn(server, room, done))
      decreases |users - done|
    {
      assert users - done != {};
      var u :| u in users - done;
      MineInMore(server, room, done, u);
      FewerLeft(users, done, u);
      var mine := IsMine(server, u);
      if mine {
        members := members + [Member(room, u)];
      }
      done := done + {u};
    }
  }

  method CollectUsers(users: seq<string>) returns (now: set<string>)
    ensures now == SetOf(users)
  {
    now := {};
    for i := 0 to |users|
      invariant now == SetOf(users[..i])
    {
      now := now + {users[i]};
      assert users[..i + 1] == users[..i] + [users[i]];
    }
    assert users[..|users|] == users;
  }

  lemma SameMembers(a: seq<Member>, b: seq<Member>)
    requires multiset(a) == multiset(b)
    ensures (set m | m in a) == (set m | m in b)
  {
    forall m ensures m in a <==> m in b {
      assert m in a <==> m in multiset(a);
      assert m in b <==> m in multiset(b);
    }
  }

  class Typing {
    const serverName: string
    const buffer: nat
    var serial: int
    var rooms: Rooms
    var lastPoke: map<Member, int>
    var work: seq<Work>               // waiting for the consumer

    constructor (serverName: string, buffer: nat)
      ensures this.serverName == serverName && this.buffer == buffer
      ensures serial == 0 && rooms == map[] && lastPoke == map[] && work == []
    {
      this.serverName, this.buffer := serverName, buffer;
      serial, rooms, lastPoke, work := 0, map[], map[], [];
    }

    /** A full queue drops the push. */
    method Submit(w: Work)
      modifies this`work
      ensures work == if old(|work|) < buffer then old(work) + [w] else old(work)
    {
      if |work| < buffer {
        work := work + [w];
      }
    }

    ghost function BaseFor(token: int): Rooms
      reads this
    {
      if token < serial then map[] else rooms
    }

    method Diff(token: int, rows: seq<Row>) returns (starts: seq<Member>, stops: seq<Member>)
      modifies this`serial, this`rooms, this`lastPoke
      ensures serial == token && rooms == AfterRows(old(BaseFor(token)), rows)
      ensures multiset(starts) == Starts(serverName, old(BaseFor(token)), rows) && InOrder(starts)
      ensures multiset(stops) == Stops(serverName, old(BaseFor(token)), rows) && InOrder(stops)
      ensures lastPoke == (if token < old(serial) then map[] else old(lastPoke)) - set m | m in stops
    {
      ghost var base := BaseFor(token);
      if token < serial {
        rooms, lastPoke := map[], map[];
      }
      serial := token;
      starts, stops := [], [];
      ghost var poked := lastPoke;
      for i := 0 to |rows|
        invariant serial == token && rooms == AfterRows(base, rows[..i])
        invariant multiset(starts) == Starts(serverName, base, rows[..i])
        invariant multiset(stops) == Stops(serverName, base, rows[..i])
        invariant lastPoke == poked - set m | m in stops
      {
        assert rows[..i + 1][..i] == rows[..i];
        var on, off := DiffRow(rows[i]);
        starts, stops := starts + on, stops + off;
      }
      assert rows[..|rows|] == rows;
      starts := SortMembers(starts);
      ghost var unsorted := stops;
      stops := SortMembers(stops);
      SameMembers(stops, unsorted);
    }

    method DiffRow(row: Row) returns (starts: seq<Member>, stops: seq<Member>)
      modifies this`rooms, this`lastPoke
      ensures rooms == AfterRow(old(rooms), row)
      ensures multiset(starts) == multiset(RowStarts(serverName, old(rooms), row))
      ensures multiset(stops) == multiset(RowStops(serverName, old(rooms), row))
      ensures lastPoke == old(lastPoke) - set m | m in stops
    {
      var prev := if row.room in rooms then rooms[row.room] else {};
      var now := CollectUsers(row.users);
      rooms := rooms[row.room := now];
      if now == {} {
        rooms := rooms - {row.room};
      }
      starts := Changed(serverName, row.room, now - prev);
      stops := Changed(serverName, row.room, prev - now);
      lastPoke := lastPoke - set m | m in stops;
    }

    /** Every start is offered to the queue before every stop. */
    method HandleRows(token: int, rows: seq<Row>) returns (ghost starts: seq<Member>, ghost stops: seq<Member>)
      requires |work| <= buffer
      modifies this
      ensures serial == token && rooms == AfterRows(old(BaseFor(token)), rows)
      ensures InOrder(starts) && InOrder(stops)
      ensures lastPoke == (if token < old(serial) then map[] else old(lastPoke)) - set m | m in stops
      ensures PutOutAs(serverName, old(BaseFor(token)), rows, Works(starts, true) + Works(stops, false), starts, stops)
      ensures var all := old(work) + Works(starts, true) + Works(stops, false);
              work == if |all| <= buffer then all else all[..buffer]
    {
      var on, off := Diff(token, rows);
      starts, stops := on, off;
      SubmitAll(on, true);
      SubmitAll(off, false);
    }

    method SubmitAll(members: seq<Member>, typing: bool)
      requires |work| <= buffer
      modifies this`work
      ensures var all := old(work) + Works(members, typing);
              work == if |all| <= buffer then all else all[..buffer]
    {
      ghost var was := work;
      for i := 0 to |members|
        invariant var all := was + Works(members[..i], typing);
                  work == if |all| <= buffer then all else all[..buffer]
      {
        assert Works(members[..i + 1], typing) == Works(members[..i], typing) + [Work(members[i], typing)];
        Submit(Work(members[i], typing));
      }
      assert members[..|members|] == members;
    }
  }
}
