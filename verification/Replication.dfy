/** The replication subscriber: rows of a stream are buffered until the row that carries
    their token, and handed over with it as one batch. */
module Replication {
  import opened Units

  // ---------- lines ----------

  predicate IsSpace(c: char) {
    c == ' ' || '\t' <= c <= '\r' || c == '\U{0085}' || c == '\U{00A0}'
  }

  /** strings.Cut at the first space. */
  function Cut(s: string): Option<(string, string)> {
    if s == "" then None
    else if s[0] == ' ' then Some(("", s[1..]))
    else
      var rest := Cut(s[1..]);
      if rest.None? then None else Some(([s[0]] + rest.value.0, rest.value.1))
  }

  /** strings.Fields, with the word that has begun. */
  function Fields(s: string, word: string): seq<string> {
    if s == "" then (if word == "" then [] else [word])
    else if IsSpace(s[0]) then (if word == "" then [] else [word]) + Fields(s[1..], "")
    else Fields(s[1..], word + [s[0]])
  }

  function TrimLeft(s: string): string {
    if s != "" && IsSpace(s[0]) then TrimLeft(s[1..]) else s
  }

  function TrimSpace(s: string): string {
    TrimRight(TrimLeft(s))
  }

  function TrimRight(s: string): string {
    if s != "" && IsSpace(s[|s| - 1]) then TrimRight(s[..|s| - 1]) else s
  }

  function Digits(s: string): (n: Option<nat>) {
    if s == "" then Some(0)
    else
      var front, c := Digits(s[..|s| - 1]), s[|s| - 1];
      if front.None? || c < '0' || c > '9' then None else Some(10 * front.value + (c - '0') as nat)
  }

  function Negated(n: nat): int {
    -(n as int)
  }

  const INT64_MAX := 0x7fff_ffff_ffff_ffff

  /** strconv.ParseInt(s, 10, 64). */
  function ParseInt(s: string): Option<int> {
    if s == "" then None
    else
      var signed := s[0] == '-' || s[0] == '+';
      var digits := if signed then s[1..] else s;
      var n := Digits(digits);
      if digits == "" || n.None? then None
      else if s[0] == '-' then (if n.value > INT64_MAX + 1 then None else Some(Negated(n.value)))
      else (if n.value > INT64_MAX then None else Some(n.value))
  }

  datatype Line =
    | RData(stream: string, instance: string, token: string, json: string)
    | PositionLine(stream: string, instance: string, pos: int)
    | ServerUp(server: string)
    | Ignored

  function ParseRData(rest: string): Line {
    var a := Cut(rest);
    if a.None? then Ignored
    else
      var b := Cut(a.value.1);
      if b.None? then Ignored
      else
        var c := Cut(b.value.1);
        if c.None? then Ignored else RData(a.value.0, b.value.0, c.value.0, c.value.1)
  }

  function ParsePosition(rest: string): Line {
    var fields := Fields(rest, "");
    if |fields| < 4 || ParseInt(fields[3]).None? then Ignored
    else PositionLine(fields[0], fields[1], ParseInt(fields[3]).value)
  }

  function Parse(line: string): Line {
    var cut := Cut(line);
    if cut.None? then Ignored
    else if cut.value.0 == "RDATA" then ParseRData(cut.value.1)
    else if cut.value.0 == "POSITION" then ParsePosition(cut.value.1)
    else if cut.value.0 == "REMOTE_SERVER_UP" then ServerUp(TrimSpace(cut.value.1))
    else Ignored
  }

  lemma {:induction false} CutJoined(a: string, b: string)
    requires ' ' !in a
    ensures Cut(a + " " + b) == Some((a, b))
  {
    if a == "" {
      assert a + " " + b == " " + b;
    } else {
      assert a == [a[0]] + a[1..];
      CutJoined(a[1..], b);
      assert (a + " " + b)[1..] == a[1..] + " " + b;
    }
  }

  /** What a sender writes is read back: only the JSON may hold spaces. */
  lemma RDataRoundTrip(stream: string, instance: string, token: string, json: string)
    requires ' ' !in stream && ' ' !in instance && ' ' !in token
    ensures Parse("RDATA " + (stream + " " + (instance + " " + (token + " " + json))))
         == RData(stream, instance, token, json)
  {
    CutJoined("RDATA", stream + " " + (instance + " " + (token + " " + json)));
    assert "RDATA " == "RDATA" + " ";
    CutJoined(stream, instance + " " + (token + " " + json));
    CutJoined(instance, token + " " + json);
    CutJoined(token, json);
  }

  // ---------- numbers and words ----------

  /** strconv.FormatInt, for what is not negative. */
  function Decimal(n: nat): (s: string)
    ensures s != ""
  {
    if n < 10 then [Digit(n)] else Decimal(n / 10) + [Digit(n % 10)]
  }

  function Digit(d: nat): char
    requires d < 10
  {
    '0' + d as char
  }

  lemma {:induction false} DigitsOfDecimal(n: nat)
    ensures Digits(Decimal(n)) == Some(n)
    ensures forall i :: 0 <= i < |Decimal(n)| ==> '0' <= Decimal(n)[i] <= '9'
  {
    if n < 10 {
      assert Decimal(n)[..0] == "";
    } else {
      DigitsOfDecimal(n / 10);
      assert Decimal(n)[..|Decimal(n)| - 1] == Decimal(n / 10);
    }
  }

  /** Every position that fits is read back as it was written, and no other number is taken. */
  lemma IntRoundTrip(n: nat)
    ensures ParseInt(Decimal(n)) == if n <= 0x7fff_ffff_ffff_ffff then Some(n) else None
    ensures ParseInt("-" + Decimal(n)) == if n <= 0x8000_0000_0000_0000 then Some(-(n as int)) else None
  {
    DigitsOfDecimal(n);
    assert ("-" + Decimal(n))[1..] == Decimal(n);
  }

  ghost predicate Word(s: string) {
    s != "" && forall i :: 0 <= i < |s| ==> !IsSpace(s[i])
  }

  lemma {:induction false} FieldsOfWord(w: string, s: string, begun: string)
    requires forall i :: 0 <= i < |w| ==> !IsSpace(w[i])
    ensures Fields(w + s, begun) == Fields(s, begun + w)
  {
    if w == "" {
      assert w + s == s && begun + w == begun;
    } else {
      FieldsOfWord(w[1..], s, begun + [w[0]]);
      assert (w + s)[1..] == w[1..] + s && begun + [w[0]] + w[1..] == begun + w;
    }
  }

  lemma NextField(w: string, s: string)
    requires Word(w)
    ensures Fields(w + " " + s, "") == [w] + Fields(s, "")
    ensures Fields(w, "") == [w]
  {
    FieldsOfWord(w, " " + s, "");
    assert w + " " + s == w + (" " + s) && "" + w == w;
    assert (" " + s)[1..] == s;
    FieldsOfWord(w, "", "");
    assert w + "" == w;
  }

  /** A position line is read for its stream, its writer and its new position; the position
      before it is not looked at. */
  lemma PositionRoundTrip(stream: string, instance: string, prev: string, pos: nat)
    requires Word(stream) && Word(instance) && Word(prev) && pos <= 0x7fff_ffff_ffff_ffff
    ensures Parse("POSITION " + (stream + " " + (instance + " " + (prev + " " + Decimal(pos)))))
         == PositionLine(stream, instance, pos)
  {
    var rest := stream + " " + (instance + " " + (prev + " " + Decimal(pos)));
    CutJoined("POSITION", rest);
    assert "POSITION " == "POSITION" + " ";
    IntRoundTrip(pos);
    DigitsOfDecimal(pos);
    FourFields(stream, instance, prev, Decimal(pos));
    assert ParsePosition(rest) == PositionLine(stream, instance, pos);
  }

  lemma FourFields(a: string, b: string, c: string, d: string)
    requires Word(a) && Word(b) && Word(c) && Word(d)
    ensures Fields(a + " " + (b + " " + (c + " " + d)), "") == [a, b, c, d]
  {
    NextField(a, b + " " + (c + " " + d));
    NextField(b, c + " " + d);
    NextField(c, d);
    NextField(d, "");
  }

  /** A server that is up again is announced by its name. */
  lemma ServerUpRoundTrip(server: string)
    requires Word(server)
    ensures Parse("REMOTE_SERVER_UP " + server) == ServerUp(server)
  {
    CutJoined("REMOTE_SERVER_UP", server);
    assert "REMOTE_SERVER_UP " == "REMOTE_SERVER_UP" + " ";
  }

  // ---------- the subscriber as a value ----------

  datatype Row = Row(stream: string, instance: string, position: int, json: string)

  /** live is what the callback finds if it asks. */
  datatype Call =
    | OnRows(stream: string, pos: int, rows: seq<Row>)
    | OnPosition(stream: string, instance: string, pos: int)
    | OnServerUp(server: string)
    | OnConnect(live: bool)
    | OnDrop(live: bool)

  datatype Sub = Sub(
    live: bool,
    positions: map<string, int>,
    pending: map<string, seq<Row>>,
    calls: seq<Call>)

  datatype Event =
    | Received(line: string)
    | Subscribed
    | Dropped
    | Seeded(positions: map<string, int>)

  const BATCH := "batch"

  function Position(positions: map<string, int>, stream: string): int {
    if stream in positions then positions[stream] else 0
  }

  function Raised(positions: map<string, int>, stream: string, pos: int): map<string, int> {
    if pos > Position(positions, stream) then positions[stream := pos] else positions
  }

  function RaisedAll(positions: map<string, int>, seeds: map<string, int>): map<string, int> {
    map k | k in positions.Keys + seeds.Keys && (k in positions || seeds[k] > 0) ::
      if k in seeds && seeds[k] > Position(positions, k) then seeds[k] else positions[k]
  }

  function Buffered(pending: map<string, seq<Row>>, stream: string): seq<Row> {
    if stream in pending then pending[stream] else []
  }

  function Stamped(rows: seq<Row>, pos: int): seq<Row> {
    seq(|rows|, i requires 0 <= i < |rows| => rows[i].(position := pos))
  }

  function Handle(me: string, s: Sub, line: Line): Sub {
    match line
    case RData(stream, instance, token, json) =>
      var row := Row(stream, instance, 0, json);
      if instance == me then s
      else if token == BATCH then s.(pending := s.pending[stream := Buffered(s.pending, stream) + [row]])
      else if ParseInt(token).None? then s
      else
        var pos := ParseInt(token).value;
        s.(pending := s.pending - {stream}, positions := Raised(s.positions, stream, pos),
           calls := s.calls + [OnRows(stream, pos, Stamped(Buffered(s.pending, stream) + [row], pos))])
    case PositionLine(stream, instance, pos) =>
      if instance == me then s
      else s.(positions := Raised(s.positions, stream, pos), calls := s.calls + [OnPosition(stream, instance, pos)])
    case ServerUp(server) => s.(calls := s.calls + [OnServerUp(server)])
    case Ignored => s
  }

  function Step(me: string, s: Sub, e: Event): Sub {
    match e
    case Received(line) => Handle(me, s, Parse(line))
    case Subscribed => s.(live := true, calls := s.calls + [OnConnect(true)])
    case Dropped => s.(live := false, pending := map[], calls := s.calls + if s.live then [OnDrop(false)] else [])
    case Seeded(positions) => s.(positions := RaisedAll(s.positions, positions))
  }

  const NEW := Sub(false, map[], map[], [])

  function Run(me: string, run: seq<Event>): Sub {
    if run == [] then NEW else Step(me, Run(me, run[..|run| - 1]), run[|run| - 1])
  }

  // ---------- what it guarantees ----------

  /** The row of a stream that a line brings, when it is somebody else's and its token is good. */
  function RowOf(me: string, l: Line, k: string): Option<Row> {
    if l.RData? && l.stream == k && l.instance != me && (l.token == BATCH || ParseInt(l.token).Some?) then
      Some(Row(k, l.instance, 0, l.json))
    else None
  }

  /** The numeric token a line brings. */
  function TokenOf(me: string, l: Line, k: string): Option<int> {
    if RowOf(me, l, k).Some? && l.token != BATCH then ParseInt(l.token) else None
  }

  function LineOf(e: Event): Line {
    if e.Received? then Parse(e.line) else Ignored
  }

  function OptSeq<T>(o: Option<T>): seq<T> {
    if o.Some? then [o.value] else []
  }

  /** Rows accepted since the subscription was last lost, in arrival order. */
  function Accepted(me: string, run: seq<Event>, k: string): seq<Row> {
    if run == [] || run[|run| - 1].Dropped? then []
    else Accepted(me, run[..|run| - 1], k) + OptSeq(RowOf(me, LineOf(run[|run| - 1]), k))
  }

  function RowsIn(calls: seq<Call>, k: string): seq<Row> {
    if calls == [] then []
    else
      var c := calls[|calls| - 1];
      RowsIn(calls[..|calls| - 1], k) + if c.OnRows? && c.stream == k then c.rows else []
  }

  /** The calls one event makes. */
  function NewCalls(me: string, s: Sub, e: Event): (calls: seq<Call>)
    ensures Step(me, s, e).calls == s.calls + calls
  {
    Step(me, s, e).calls[|s.calls|..]
  }

  /** What each event calls, and whether the subscription is live after it: a token hands
      its batch over, a position or a server that is somebody else's news is passed on, and
      a subscription is announced when it comes and when it goes. */
  lemma EventsAreAnnounced(me: string, s: Sub, e: Event)
    ensures var t, calls := Step(me, s, e), NewCalls(me, s, e);
            match e
            case Subscribed => t.live && calls == [OnConnect(true)]
            case Dropped => !t.live && calls == (if s.live then [OnDrop(false)] else [])
            case Seeded(_) => t.live == s.live && calls == []
            case Received(line) =>
              && t.live == s.live && |calls| <= 1
              && match Parse(line)
                 case PositionLine(stream, instance, pos) =>
                   calls == if instance == me then [] else [OnPosition(stream, instance, pos)]
                 case ServerUp(server) => calls == [OnServerUp(server)]
                 case Ignored => calls == []
                 case RData(stream, instance, token, _) =>
                   && (calls == [] <==> instance == me || token == "batch" || ParseInt(token).None?)
                   && (calls != [] ==> calls[0].OnRows? && calls[0].stream == stream && Some(calls[0].pos) == ParseInt(token))
  {
  }

  /** Rows handed over since the subscription was last lost. */
  function Handed(me: string, run: seq<Event>, k: string): seq<Row> {
    if run == [] || run[|run| - 1].Dropped? then []
    else
      var n := |run| - 1;
      Handed(me, run[..n], k) + RowsIn(NewCalls(me, Run(me, run[..n]), run[n]), k)
  }

  lemma StampedJoins(a: seq<Row>, b: seq<Row>, pos: int)
    ensures Stamped(a + b, pos) == Stamped(a, pos) + Stamped(b, pos)
  {
  }

  lemma StampedTwice(a: seq<Row>, pos: int, again: int)
    ensures Stamped(Stamped(a, pos), again) == Stamped(a, again)
  {
  }

  lemma RowsInOne(c: Call, k: string)
    ensures RowsIn([c], k) == if c.OnRows? && c.stream == k then c.rows else []
    ensures RowsIn([], k) == []
  {
    assert [c][..0] == [];
  }

  function NewFromLine(me: string, s: Sub, l: Line): seq<Call> {
    Handle(me, s, l).calls[|s.calls|..]
  }

  /** A line: what it hands over of a stream, then what waits, is what waited, then its row. */
  lemma LineBatches(me: string, s: Sub, l: Line, k: string)
    ensures Stamped(RowsIn(NewFromLine(me, s, l), k), 0) + Stamped(Buffered(Handle(me, s, l).pending, k), 0) ==
            Stamped(Buffered(s.pending, k), 0) + OptSeq(RowOf(me, l, k))
  {
    var t, made := Handle(me, s, l), NewFromLine(me, s, l);
    if l.RData? && l.instance != me && l.token != BATCH && ParseInt(l.token).Some? {
      TokenBatches(me, s, l, k);
    } else {
      if |t.calls| > |s.calls| {
        assert made == [t.calls[|s.calls|]];
        RowsInOne(t.calls[|s.calls|], k);
      }
      assert RowsIn(made, k) == [] && Stamped([], 0) == [];
      if l.RData? && l.instance != me && l.token == BATCH && l.stream == k {
        StampedJoins(Buffered(s.pending, k), [Row(k, l.instance, 0, l.json)], 0);
      }
    }
  }

  lemma TokenBatches(me: string, s: Sub, l: Line, k: string)
    requires l.RData? && l.instance != me && l.token != BATCH && ParseInt(l.token).Some?
    ensures Stamped(RowsIn(NewFromLine(me, s, l), k), 0) + Stamped(Buffered(Handle(me, s, l).pending, k), 0) ==
            Stamped(Buffered(s.pending, k), 0) + OptSeq(RowOf(me, l, k))
  {
    var row, waiting := Row(l.stream, l.instance, 0, l.json), Buffered(s.pending, l.stream);
    var c := OnRows(l.stream, ParseInt(l.token).value, Stamped(waiting + [row], ParseInt(l.token).value));
    assert NewFromLine(me, s, l) == [c];
    RowsInOne(c, k);
    StampedJoins(waiting, [row], 0);
    StampedTwice(waiting + [row], c.pos, 0);
    assert Stamped([row], 0) == [row] && Stamped([], 0) == [];
  }

  lemma OtherBatches(me: string, s: Sub, e: Event, k: string)
    requires e.Subscribed? || e.Seeded?
    ensures RowsIn(NewCalls(me, s, e), k) == [] && Step(me, s, e).pending == s.pending
  {
    if e.Subscribed? {
      assert NewCalls(me, s, e) == [OnConnect(true)];
      RowsInOne(OnConnect(true), k);
    } else {
      assert NewCalls(me, s, e) == [];
    }
  }

  lemma StepBatches(me: string, s: Sub, e: Event, k: string)
    requires !e.Dropped?
    ensures Stamped(RowsIn(NewCalls(me, s, e), k), 0) + Stamped(Buffered(Step(me, s, e).pending, k), 0) ==
            Stamped(Buffered(s.pending, k), 0) + OptSeq(RowOf(me, LineOf(e), k))
  {
    if e.Received? {
      LineBatches(me, s, LineOf(e), k);
      assert NewCalls(me, s, e) == NewFromLine(me, s, LineOf(e));
    } else {
      OtherBatches(me, s, e, k);
      assert Stamped([], 0) == [];
    }
  }

  /** Main: between losses of the subscription, for every interleaving of streams, what
      was handed over for a stream followed by what waits is what was accepted. */
  lemma {:induction false} NothingLostInBatching(me: string, run: seq<Event>, k: string)
    ensures Stamped(Handed(me, run, k), 0) + Stamped(Buffered(Run(me, run).pending, k), 0) == Accepted(me, run, k)
  {
    if run != [] && !run[|run| - 1].Dropped? {
      var n := |run| - 1;
      var s, e := Run(me, run[..n]), run[n];
      var handed, made := Handed(me, run[..n], k), RowsIn(NewCalls(me, s, e), k);
      NothingLostInBatching(me, run[..n], k);
      StepBatches(me, s, e, k);
      StampedJoins(handed, made, 0);
      Regroup(Stamped(handed, 0), Stamped(made, 0), Stamped(Buffered(Run(me, run).pending, k), 0),
              Stamped(Buffered(s.pending, k), 0), OptSeq(RowOf(me, LineOf(e), k)));
    }
  }

  lemma Regroup(a: seq<Row>, b: seq<Row>, c: seq<Row>, d: seq<Row>, e: seq<Row>)
    requires b + c == d + e
    ensures (a + b) + c == (a + d) + e
  {
    assert (a + b) + c == a + (b + c);
    assert (a + d) + e == a + (d + e);
  }

  function TokensIn(calls: seq<Call>, k: string): seq<int> {
    if calls == [] then []
    else
      var c := calls[|calls| - 1];
      TokensIn(calls[..|calls| - 1], k) + if c.OnRows? && c.stream == k then [c.pos] else []
  }

  function Tokens(me: string, run: seq<Event>, k: string): seq<int> {
    if run == [] then []
    else Tokens(me, run[..|run| - 1], k) + OptSeq(TokenOf(me, LineOf(run[|run| - 1]), k))
  }

  /** A batch carries its stream and position on every row, and has one. */
  ghost predicate WellFormed(c: Call) {
    c.OnRows? ==> c.rows != [] && forall r :: r in c.rows ==> r.stream == c.stream && r.position == c.pos
  }

  ghost predicate PendingOK(pending: map<string, seq<Row>>) {
    forall k :: k in pending ==> forall r :: r in pending[k] ==> r.stream == k
  }

  lemma StepKeepsForm(me: string, s: Sub, e: Event)
    requires PendingOK(s.pending) && forall c :: c in s.calls ==> WellFormed(c)
    ensures PendingOK(Step(me, s, e).pending) && forall c :: c in Step(me, s, e).calls ==> WellFormed(c)
  {
    if e.Received? { LineKeepsForm(me, s, Parse(e.line)); }
  }

  lemma LineKeepsForm(me: string, s: Sub, l: Line)
    requires PendingOK(s.pending) && forall c :: c in s.calls ==> WellFormed(c)
    ensures PendingOK(Handle(me, s, l).pending) && forall c :: c in Handle(me, s, l).calls ==> WellFormed(c)
  {
    if l.RData? && l.instance != me && l.token != BATCH && ParseInt(l.token).Some? {
      TokenKeepsForm(me, s, l, ParseInt(l.token).value);
    }
  }

  /** A token flushes the buffer of its stream, which has only rows of that stream. */
  lemma TokenKeepsForm(me: string, s: Sub, l: Line, pos: int)
    requires PendingOK(s.pending) && forall c :: c in s.calls ==> WellFormed(c)
    requires l.RData? && l.instance != me && l.token != BATCH && ParseInt(l.token) == Some(pos)
    ensures PendingOK(Handle(me, s, l).pending) && forall c :: c in Handle(me, s, l).calls ==> WellFormed(c)
  {
    var rows := Buffered(s.pending, l.stream) + [Row(l.stream, l.instance, 0, l.json)];
    assert forall r :: r in rows ==> r.stream == l.stream;
    assert WellFormed(OnRows(l.stream, pos, Stamped(rows, pos))) by {
      forall r | r in Stamped(rows, pos) ensures r.stream == l.stream && r.position == pos {
        var i :| 0 <= i < |rows| && Stamped(rows, pos)[i] == r;
        assert rows[i] in rows;
      }
    }
  }

  lemma TokensInNext(calls: seq<Call>, c: Call, k: string)
    ensures TokensIn(calls + [c], k) == TokensIn(calls, k) + if c.OnRows? && c.stream == k then [c.pos] else []
  {
    assert (calls + [c])[..|calls|] == calls;
  }

  lemma LineMakesOneBatch(me: string, s: Sub, l: Line, k: string)
    ensures TokensIn(Handle(me, s, l).calls, k) == TokensIn(s.calls, k) + OptSeq(TokenOf(me, l, k))
  {
    var t := Handle(me, s, l);
    if |t.calls| > |s.calls| {
      TokensInNext(s.calls, t.calls[|s.calls|], k);
      assert t.calls == s.calls + [t.calls[|s.calls|]];
    }
  }

  lemma StepMakesOneBatch(me: string, s: Sub, e: Event, k: string)
    ensures TokensIn(Step(me, s, e).calls, k) == TokensIn(s.calls, k) + OptSeq(TokenOf(me, LineOf(e), k))
  {
    match e
    case Received(line) => LineMakesOneBatch(me, s, LineOf(e), k);
    case Subscribed => TokensInNext(s.calls, OnConnect(true), k);
    case Dropped => DropMakesNone(me, s, k);
    case Seeded(_) => assert TokensIn(s.calls, k) + [] == TokensIn(s.calls, k);
  }

  lemma DropMakesNone(me: string, s: Sub, k: string)
    ensures TokensIn(Step(me, s, Dropped).calls, k) == TokensIn(s.calls, k)
  {
    TokensInNext(s.calls, OnDrop(false), k);
    assert s.calls + [] == s.calls;
  }

  /** Main: each numeric token makes exactly one batch, in order, all of whose rows carry
      it; nothing else makes one. */
  lemma {:induction false} OneBatchPerToken(me: string, run: seq<Event>, k: string)
    ensures TokensIn(Run(me, run).calls, k) == Tokens(me, run, k)
    ensures forall c :: c in Run(me, run).calls ==> WellFormed(c)
    ensures PendingOK(Run(me, run).pending)
  {
    if run != [] {
      var n := |run| - 1;
      OneBatchPerToken(me, run[..n], k);
      StepKeepsForm(me, Run(me, run[..n]), run[n]);
      StepMakesOneBatch(me, Run(me, run[..n]), run[n], k);
    }
  }

  /** What an event says of a stream's position. */
  function MarkOf(me: string, e: Event, k: string): Option<int> {
    match e
    case Received(line) =>
      var l := Parse(line);
      if l.PositionLine? && l.stream == k && l.instance != me then Some(l.pos) else TokenOf(me, l, k)
    case Seeded(seeds) => if k in seeds then Some(seeds[k]) else None
    case _ => None
  }

  lemma StepRaises(me: string, s: Sub, e: Event, k: string)
    ensures var m := MarkOf(me, e, k);
            Position(Step(me, s, e).positions, k) ==
            if m.Some? then Max(Position(s.positions, k), m.value) else Position(s.positions, k)
  {
  }

  /** Main: a stream's position is the greatest of every seed, token and position it was
      ever given, or zero; losing the subscription does not lower it. */
  lemma {:induction false} PositionIsTheGreatest(me: string, run: seq<Event>, k: string)
    ensures var p := Position(Run(me, run).positions, k);
            p >= 0 &&
            (forall i :: 0 <= i < |run| && MarkOf(me, run[i], k).Some? ==> MarkOf(me, run[i], k).value <= p) &&
            (p > 0 ==> exists i :: 0 <= i < |run| && MarkOf(me, run[i], k) == Some(p))
    ensures run != [] ==> Position(Run(me, run[..|run| - 1]).positions, k) <= Position(Run(me, run).positions, k)
  {
    if run != [] {
      var n := |run| - 1;
      PositionIsTheGreatest(me, run[..n], k);
      StepRaises(me, Run(me, run[..n]), run[n], k);
      var p, q := Position(Run(me, run[..n]).positions, k), Position(Run(me, run).positions, k);
      if p > 0 && p == q {
        var i :| 0 <= i < n && MarkOf(me, run[..n][i], k) == Some(p);
        assert run[i] == run[..n][i];
      }
      forall i | 0 <= i < |run| && MarkOf(me, run[i], k).Some? ensures MarkOf(me, run[i], k).value <= q {
        assert i < n ==> run[i] == run[..n][i];
      }
    }
  }

  // ---------- the subscriber ----------

  ghost predicate SeededUpTo(before: map<string, int>, now: map<string, int>, seeds: map<string, int>, done: set<string>) {
    && (forall k :: k in now <==> k in before || (k in done && k in seeds && seeds[k] > 0))
    && forall k :: k in now ==>
                     now[k] == if k in done && k in seeds && seeds[k] > Position(before, k) then seeds[k]
                               else Position(before, k)
  }

  lemma SeedOne(before: map<string, int>, now: map<string, int>, seeds: map<string, int>, done: set<string>, k: string)
    requires SeededUpTo(before, now, seeds, done) && k in seeds && k !in done
    ensures SeededUpTo(before, Raised(now, k, seeds[k]), seeds, done + {k})
  {
  }

  lemma SomeLeft(keys: set<string>, done: set<string>)
    requires done <= keys && done != keys
    ensures exists k :: k in keys - done
  {
    assert !(keys <= done);
    var k :| k in keys && k !in done;
    assert k in keys - done;
  }

  lemma FewerLeft(keys: set<string>, done: set<string>, k: string)
    requires k in keys - done
    ensures |keys - (done + {k})| < |keys - done|
  {
    assert keys - (done + {k}) == (keys - done) - {k};
  }

  lemma SeedAll(before: map<string, int>, now: map<string, int>, seeds: map<string, int>)
    requires SeededUpTo(before, now, seeds, seeds.Keys)
    ensures now == RaisedAll(before, seeds)
  {
  }

  lemma StampedOver(waiting: seq<Row>, row: Row, pos: int)
    ensures Stamped(waiting + [row.(position := pos)], pos) == Stamped(waiting + [row], pos)
  {
  }

  class Subscriber {
    const instanceName: string
    var live: bool
    var positions: map<string, int>
    var pending: map<string, seq<Row>>
    var calls: seq<Call>

    ghost function Value(): Sub
      reads this
    {
      Sub(live, positions, pending, calls)
    }

    constructor (instanceName: string)
      ensures Value() == NEW && this.instanceName == instanceName
    {
      this.instanceName := instanceName;
      live, positions, pending, calls := false, map[], map[], [];
    }

    /** A stream's position only moves up. */
    method Raise(stream: string, pos: int)
      modifies this`positions
      ensures positions == Raised(old(positions), stream, pos)
    {
      if pos > (if stream in positions then positions[stream] else 0) {
        positions := positions[stream := pos];
      }
    }

    method Seed(seeds: map<string, int>)
      modifies this`positions
      ensures Value() == Step(instanceName, old(Value()), Seeded(seeds))
    {
      RaiseAll(seeds);
    }

    /** Each stream's seed in whatever order the map gives them. */
    method RaiseAll(seeds: map<string, int>)
      modifies this`positions
      ensures positions == RaisedAll(old(positions), seeds)
    {
      ghost var was := positions;
      var done := {};
      while done != seeds.Keys
        invariant done <= seeds.Keys && SeededUpTo(was, positions, seeds, done)
        decreases |seeds.Keys - done|
      {
        SomeLeft(seeds.Keys, done);
        var stream :| stream in seeds.Keys - done;
        SeedOne(was, positions, seeds, done, stream);
        FewerLeft(seeds.Keys, done, stream);
        Raise(stream, seeds[stream]);
        done := done + {stream};
      }
      SeedAll(was, positions, seeds);
    }

    method SetLive(up: bool)
      modifies this
      ensures Value() == if up then old(Value()).(live := true) else Step(instanceName, old(Value()), Dropped)
    {
      var was := live;
      live := up;
      if !up {
        pending := map[];
      }
      if was && !up {
        calls := calls + [OnDrop(live)];
      }
    }

    /** The start of a session, once subscribed. */
    method Connected()
      modifies this
      ensures Value() == Step(instanceName, old(Value()), Subscribed)
    {
      SetLive(true);
      calls := calls + [OnConnect(live)];
    }

    method HandleLine(line: string)
      modifies this
      ensures Value() == Step(instanceName, old(Value()), Received(line))
    {
      var cut := Cut(line);
      if cut.None? {
        return;
      }
      var (name, rest) := cut.value;
      if name == "RDATA" {
        HandleRData(rest);
      } else if name == "POSITION" {
        HandlePosition(rest);
      } else if name == "REMOTE_SERVER_UP" {
        calls := calls + [OnServerUp(TrimSpace(rest))];
      }
    }

    /** Every row of a batch takes the batch's position. */
    method Stamp(rows: seq<Row>, pos: int) returns (batch: seq<Row>)
      ensures batch == Stamped(rows, pos)
    {
      batch := rows;
      for i := 0 to |rows|
        invariant |batch| == |rows|
        invariant forall j :: 0 <= j < i ==> batch[j] == rows[j].(position := pos)
        invariant forall j :: i <= j < |rows| ==> batch[j] == rows[j]
      {
        batch := batch[i := batch[i].(position := pos)];
      }
    }

    method HandleRData(rest: string)
      modifies this
      ensures Value() == Handle(instanceName, old(Value()), ParseRData(rest))
    {
      var l := ParseRData(rest);
      if l.Ignored? || l.instance == instanceName {
        return;
      }
      var row := Row(l.stream, l.instance, 0, l.json);
      var waiting := if l.stream in pending then pending[l.stream] else [];
      if l.token == BATCH {
        pending := pending[l.stream := waiting + [row]];
        return;
      }
      var parsed := ParseInt(l.token);
      if parsed.None? {
        return;
      }
      var pos := parsed.value;
      var batch := Stamp(waiting + [row.(position := pos)], pos);
      StampedOver(waiting, row, pos);
      pending := pending - {l.stream};
      Raise(l.stream, pos);
      calls := calls + [OnRows(l.stream, pos, batch)];
    }

    method HandlePosition(rest: string)
      modifies this
      ensures Value() == Handle(instanceName, old(Value()), ParsePosition(rest))
    {
      var fields := Fields(rest, "");
      if |fields| < 4 {
        return;
      }
      var pos := ParseInt(fields[3]);
      if pos.None? || fields[1] == instanceName {
        return;
      }
      Raise(fields[0], pos.value);
      calls := calls + [OnPosition(fields[0], fields[1], pos.value)];
    }
  }
}
