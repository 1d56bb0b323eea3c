/** Device pokes turned into m.device_list_update units: chained by prev_id within a
    user, with cross-signing key changes folded into one pair of units a user. */
module DeviceList {
  import opened Mentions
  import opened Units
  import opened Sorting

  datatype Poke = Poke(user: string, device: string, stream: int)
  datatype CrossKey = CrossKey(keyType: string, data: Json)
  datatype Detail = Detail(exist: bool, keys: Option<Json>, name: string)

  /** What the store answers for one read. */
  datatype Tables = Tables(
    crossKeys: map<(string, string), CrossKey>,   // by user and pseudo device
    details: map<(string, string), Detail>,
    delivered: string -> int)                     // last stream id delivered for a user, or zero

  datatype Signing = Signing(master: Option<Json>, selfSigning: Option<Json>)

  datatype Body =
    | Update(user: string, device: string, stream: int, prev: seq<int>,
             deleted: bool, keys: Option<Json>, name: Option<string>)
    | SigningKey(user: string, signing: Signing)
    | UnstableSigningKey(user: string, signing: Signing)

  function PrevIDs(prev: int): seq<int> {
    if prev == 0 then [] else [prev]
  }

  predicate IsKey(t: Tables, p: Poke) {
    (p.user, p.device) in t.crossKeys
  }

  function UpdateFor(t: Tables, allowName: bool, p: Poke, prev: int): Body {
    var at := (p.user, p.device);
    if at !in t.details || !t.details[at].exist then
      Update(p.user, p.device, p.stream, PrevIDs(prev), true, None, None)
    else
      var name := if allowName && t.details[at].name != "" then Some(t.details[at].name) else None;
      Update(p.user, p.device, p.stream, PrevIDs(prev), false, t.details[at].keys, name)
  }

  predicate Encodes(b: Body) {
    match b
    case Update(_, _, _, _, _, keys, _) => keys.Some? ==> keys.value.valid
    case SigningKey(_, s) => (s.master.Some? ==> s.master.value.valid) && (s.selfSigning.Some? ==> s.selfSigning.value.valid)
    case UnstableSigningKey(_, s) =>
      (s.master.Some? ==> s.master.value.valid) && (s.selfSigning.Some? ==> s.selfSigning.value.valid)
  }

  function Merge(into: Option<Signing>, k: CrossKey): Option<Signing> {
    var s := if into.Some? then into.value else Signing(None, None);
    Some(if k.keyType == "master" then s.(master := Some(k.data))
         else if k.keyType == "self_signing" then s.(selfSigning := Some(k.data))
         else s)
  }

  // ---------- one user's pokes, in stream order ----------

  function OfUser(pokes: seq<Poke>, user: string): seq<Poke> {
    if pokes == [] then []
    else OfUser(pokes[..|pokes| - 1], user) + if pokes[|pokes| - 1].user == user then [pokes[|pokes| - 1]] else []
  }

  /** The pokes that become updates. */
  function Plain(t: Tables, pokes: seq<Poke>): seq<Poke> {
    if pokes == [] then []
    else Plain(t, pokes[..|pokes| - 1]) + if IsKey(t, pokes[|pokes| - 1]) then [] else [pokes[|pokes| - 1]]
  }

  function Updates(t: Tables, allowName: bool, ups: seq<Poke>, prev: int): seq<Body> {
    if ups == [] then []
    else
      var n := |ups| - 1;
      Updates(t, allowName, ups[..n], prev) +
      if IsKey(t, ups[n]) then [] else [UpdateFor(t, allowName, ups[n], Preceding(Plain(t, ups[..n]), |Plain(t, ups[..n])|, prev))]
  }

  function Signed(t: Tables, ups: seq<Poke>): Option<Signing> {
    if ups == [] then None
    else
      var n := |ups| - 1;
      if IsKey(t, ups[n]) then Merge(Signed(t, ups[..n]), t.crossKeys[(ups[n].user, ups[n].device)])
      else Signed(t, ups[..n])
  }

  function Highest(ups: seq<Poke>, from: int): int {
    if ups == [] then from else Max(Highest(ups[..|ups| - 1], from), ups[|ups| - 1].stream)
  }

  ghost predicate InStreamOrder(ups: seq<Poke>) {
    forall i, j :: 0 <= i < j < |ups| ==> ups[i].stream <= ups[j].stream
  }

  function Preceding(plain: seq<Poke>, k: nat, prev: int): int
    requires k <= |plain|
  {
    if k == 0 then prev else plain[k - 1].stream
  }

  /** A chain: update k is poke k, and names the one before it, the first the last delivered. */
  ghost predicate Chained(t: Tables, allowName: bool, chain: seq<Body>, plain: seq<Poke>, prev: int) {
    InStreamOrder(plain) && Linked(t, allowName, chain, plain, prev)
  }

  ghost predicate Linked(t: Tables, allowName: bool, chain: seq<Body>, plain: seq<Poke>, prev: int) {
    |chain| == |plain| && forall k :: 0 <= k < |chain| ==> IsLink(t, allowName, chain, plain, prev, k)
  }

  ghost predicate IsLink(t: Tables, allowName: bool, chain: seq<Body>, plain: seq<Poke>, prev: int, k: nat)
    requires k < |chain| == |plain|
  {
    IsUpdate(t, allowName, chain[k], plain[k], if k == 0 then prev else plain[k - 1].stream)
  }

  /** What an update says: which device, at which id, after which id if there was one; of a
      device that is gone only that, else its keys, and its name where that is allowed. */
  ghost predicate IsUpdate(t: Tables, allowName: bool, b: Body, p: Poke, prev: int) {
    var at := (p.user, p.device);
    var there := at in t.details && t.details[at].exist;
    && b.Update? && b.user == p.user && b.device == p.device && b.stream == p.stream
    && (if prev == 0 then b.prev == [] else b.prev == [prev])
    && b.deleted == !there
    && b.keys == (if there then t.details[at].keys else None)
    && b.name == (if there && allowName && t.details[at].name != "" then Some(t.details[at].name) else None)
  }

  lemma {:induction false} PlainMembers(t: Tables, ups: seq<Poke>)
    ensures forall p :: p in Plain(t, ups) <==> p in ups && !IsKey(t, p)
  {
    if ups != [] {
      var n := |ups| - 1;
      PlainMembers(t, ups[..n]);
      assert ups == ups[..n] + [ups[n]];
    }
  }

  lemma {:induction false} UpdatesAreChained(t: Tables, allowName: bool, ups: seq<Poke>, prev: int)
    requires InStreamOrder(ups)
    ensures Chained(t, allowName, Updates(t, allowName, ups, prev), Plain(t, ups), prev)
  {
    if ups != [] {
      var n := |ups| - 1;
      UpdatesAreChained(t, allowName, ups[..n], prev);
      var front := Plain(t, ups[..n]);
      PlainMembers(t, ups[..n]);
      forall k | 0 <= k < |front| ensures front[k].stream <= ups[n].stream {
        assert front[k] in ups[..n];
      }
      if !IsKey(t, ups[n]) {
        LinksExtend(t, allowName, Updates(t, allowName, ups[..n], prev), front, prev, ups[n]);
        OrderExtends(front, ups[n]);
      } else {
        assert Updates(t, allowName, ups, prev) == Updates(t, allowName, ups[..n], prev);
        assert Plain(t, ups) == front;
      }
    }
  }

  lemma OrderExtends(plain: seq<Poke>, p: Poke)
    requires InStreamOrder(plain) && forall k :: 0 <= k < |plain| ==> plain[k].stream <= p.stream
    ensures InStreamOrder(plain + [p])
  {
  }

  lemma LinksExtend(t: Tables, allowName: bool, chain: seq<Body>, plain: seq<Poke>, prev: int, p: Poke)
    requires Linked(t, allowName, chain, plain, prev)
    ensures Linked(t, allowName, chain + [UpdateFor(t, allowName, p, Preceding(plain, |plain|, prev))], plain + [p], prev)
  {
    var longer, more := plain + [p], chain + [UpdateFor(t, allowName, p, Preceding(plain, |plain|, prev))];
    assert |more| == |longer|;
    forall k | 0 <= k < |more| ensures IsLink(t, allowName, more, longer, prev, k) {
      assert k > 0 ==> longer[k - 1] == plain[k - 1];
      if k < |plain| {
        assert IsLink(t, allowName, chain, plain, prev, k);
        assert more[k] == chain[k] && longer[k] == plain[k];
      } else {
        assert more[k] == UpdateFor(t, allowName, p, Preceding(plain, |plain|, prev)) && longer[k] == p;
      }
    }
  }

  /** What a user's key pokes come to: no pair without one, and each field from the last
      of its type. */
  lemma {:induction false} SignedIsFolded(t: Tables, ups: seq<Poke>)
    requires InStreamOrder(ups)
    ensures Signed(t, ups).Some? <==> exists p :: p in ups && IsKey(t, p)
    ensures Field(t, ups, "master", Chosen(Signed(t, ups), true))
    ensures Field(t, ups, "self_signing", Chosen(Signed(t, ups), false))
  {
    if ups != [] {
      var n := |ups| - 1;
      SignedIsFolded(t, ups[..n]);
      assert ups == ups[..n] + [ups[n]];
      FieldNext(t, ups[..n], ups[n], "master", Chosen(Signed(t, ups[..n]), true));
      FieldNext(t, ups[..n], ups[n], "self_signing", Chosen(Signed(t, ups[..n]), false));
    }
  }

  predicate KeyOf(t: Tables, p: Poke, keyType: string) {
    IsKey(t, p) && t.crossKeys[(p.user, p.device)].keyType == keyType
  }

  ghost predicate Field(t: Tables, ups: seq<Poke>, keyType: string, field: Option<Json>) {
    if field.None? then forall p :: p in ups ==> !KeyOf(t, p, keyType)
    else exists p :: LastKey(t, ups, keyType, p) && t.crossKeys[(p.user, p.device)].data == field.value
  }

  /** A key of this type that no later poke replaces. */
  ghost predicate LastKey(t: Tables, ups: seq<Poke>, keyType: string, p: Poke) {
    p in ups && KeyOf(t, p, keyType) && forall q :: q in ups && KeyOf(t, q, keyType) ==> q.stream <= p.stream
  }

  function Chosen(s: Option<Signing>, master: bool): Option<Json> {
    if s.None? then None else if master then s.value.master else s.value.selfSigning
  }

  /** The newest poke of a type takes its field over; any other leaves it. */
  lemma FieldNext(t: Tables, front: seq<Poke>, p: Poke, keyType: string, field: Option<Json>)
    requires Field(t, front, keyType, field) && forall q :: q in front ==> q.stream <= p.stream
    ensures Field(t, front + [p], keyType, if KeyOf(t, p, keyType) then Some(t.crossKeys[(p.user, p.device)].data) else field)
  {
    var more := front + [p];
    if KeyOf(t, p, keyType) {
      assert LastKey(t, more, keyType, p);
    } else if field.Some? {
      var q :| LastKey(t, front, keyType, q) && t.crossKeys[(q.user, q.device)].data == field.value;
      assert LastKey(t, more, keyType, q);
    }
  }

  lemma {:induction false} HighestIsMax(ups: seq<Poke>, from: int)
    ensures Highest(ups, from) >= from
    ensures forall p :: p in ups ==> p.stream <= Highest(ups, from)
    ensures Highest(ups, from) > from ==> exists p :: p in ups && p.stream == Highest(ups, from)
  {
    if ups != [] {
      var n := |ups| - 1;
      HighestIsMax(ups[..n], from);
      assert ups == ups[..n] + [ups[n]];
      assert forall p :: p in ups <==> p in ups[..n] || p == ups[n];
    }
  }

  lemma {:induction false} PlainCounts(t: Tables, ups: seq<Poke>, p: Poke)
    ensures multiset(Plain(t, ups))[p] == if IsKey(t, p) then 0 else multiset(ups)[p]
  {
    if ups != [] {
      PlainCounts(t, ups[..|ups| - 1], p);
      assert ups == ups[..|ups| - 1] + [ups[|ups| - 1]];
    }
  }

  lemma {:induction false} OfUserCounts(pokes: seq<Poke>, user: string, p: Poke)
    ensures multiset(OfUser(pokes, user))[p] == if p.user == user then multiset(pokes)[p] else 0
    ensures p in OfUser(pokes, user) <==> p in pokes && p.user == user
  {
    if pokes != [] {
      OfUserCounts(pokes[..|pokes| - 1], user, p);
      assert pokes == pokes[..|pokes| - 1] + [pokes[|pokes| - 1]];
    }
  }

  // ---------- the units of several users ----------

  function UpdatesOf(bodies: seq<Body>, user: string): seq<Body> {
    if bodies == [] then []
    else
      var b := bodies[|bodies| - 1];
      UpdatesOf(bodies[..|bodies| - 1], user) + if b.Update? && b.user == user then [b] else []
  }

  lemma {:induction false} UpdatesOfJoin(a: seq<Body>, b: seq<Body>, user: string)
    ensures UpdatesOf(a + b, user) == UpdatesOf(a, user) + UpdatesOf(b, user)
  {
    if b == [] {
      assert a + b == a;
    } else {
      UpdatesOfJoin(a, b[..|b| - 1], user);
      assert (a + b)[..|a| + |b| - 1] == a + b[..|b| - 1];
    }
  }

  lemma {:induction false} UpdatesOfChain(t: Tables, allowName: bool, ups: seq<Poke>, prev: int, of: string, user: string)
    requires forall p :: p in ups ==> p.user == of
    ensures UpdatesOf(Updates(t, allowName, ups, prev), user) ==
            if user == of then Updates(t, allowName, ups, prev) else []
    ensures forall b :: b in Updates(t, allowName, ups, prev) ==> b.Update?
  {
    if ups != [] {
      var n := |ups| - 1;
      UpdatesOfChain(t, allowName, ups[..n], prev, of, user);
      UpdatesOfJoin(Updates(t, allowName, ups[..n], prev),
                    Updates(t, allowName, ups, prev)[|Updates(t, allowName, ups[..n], prev)|..], user);
    }
  }

  lemma {:induction false} NoUpdatesIn(bodies: seq<Body>, user: string)
    requires forall b :: b in bodies ==> !b.Update?
    ensures UpdatesOf(bodies, user) == []
  {
    if bodies != [] {
      NoUpdatesIn(bodies[..|bodies| - 1], user);
    }
  }

  /** A user's updates are a chain in stream order of exactly the user's plain pokes, each
      as often as it was read, from the last update the destination had. */
  ghost predicate Served(t: Tables, allowName: bool, pokes: seq<Poke>, chain: seq<Body>, user: string) {
    exists plain: seq<Poke> :: ChainOf(t, allowName, pokes, chain, user, plain)
  }

  ghost predicate ChainOf(t: Tables, allowName: bool, pokes: seq<Poke>, chain: seq<Body>, user: string, plain: seq<Poke>) {
    Chained(t, allowName, chain, plain, t.delivered(user)) &&
    multiset(plain) == multiset(Plain(t, OfUser(pokes, user)))
  }

  /** A user's signing keys: there is something to send exactly when a key poke says so. */
  ghost predicate Folded(t: Tables, pokes: seq<Poke>, user: string, signing: Option<Signing>) {
    (signing.Some? <==> exists p :: p in OfUser(pokes, user) && IsKey(t, p)) &&
    (signing.Some? ==> Field(t, OfUser(pokes, user), "master", signing.value.master) &&
                       Field(t, OfUser(pokes, user), "self_signing", signing.value.selfSigning))
  }

  lemma SortedIsSame(pokes: seq<Poke>, ups: seq<Poke>, user: string)
    requires multiset(ups) == multiset(OfUser(pokes, user))
    ensures forall p :: p in ups <==> p in OfUser(pokes, user)
    ensures forall p :: p in ups <==> p in pokes && p.user == user
  {
    var own := OfUser(pokes, user);
    forall p ensures (p in ups <==> p in own) && (p in own <==> p in pokes && p.user == user) {
      assert p in ups <==> p in multiset(ups);
      assert p in own <==> p in multiset(own);
      OfUserCounts(pokes, user, p);
    }
  }

  lemma PlainOfSorted(t: Tables, a: seq<Poke>, b: seq<Poke>)
    requires multiset(a) == multiset(b)
    ensures multiset(Plain(t, a)) == multiset(Plain(t, b))
  {
    forall p ensures multiset(Plain(t, a))[p] == multiset(Plain(t, b))[p] {
      PlainCounts(t, a, p);
      PlainCounts(t, b, p);
    }
  }

  lemma OneUserServed(t: Tables, allowName: bool, pokes: seq<Poke>, ups: seq<Poke>, user: string)
    requires InStreamOrder(ups) && multiset(ups) == multiset(OfUser(pokes, user))
    ensures Served(t, allowName, pokes, Updates(t, allowName, ups, t.delivered(user)), user)
  {
    UpdatesAreChained(t, allowName, ups, t.delivered(user));
    PlainOfSorted(t, ups, OfUser(pokes, user));
    assert ChainOf(t, allowName, pokes, Updates(t, allowName, ups, t.delivered(user)), user, Plain(t, ups));
  }

  lemma FieldOfSame(t: Tables, a: seq<Poke>, b: seq<Poke>, keyType: string, field: Option<Json>)
    requires Field(t, a, keyType, field) && forall p :: p in a <==> p in b
    ensures Field(t, b, keyType, field)
  {
    if field.Some? {
      var p :| LastKey(t, a, keyType, p) && t.crossKeys[(p.user, p.device)].data == field.value;
      assert LastKey(t, b, keyType, p);
    }
  }

  lemma OneUserFolded(t: Tables, pokes: seq<Poke>, ups: seq<Poke>, user: string)
    requires InStreamOrder(ups) && multiset(ups) == multiset(OfUser(pokes, user))
    ensures Folded(t, pokes, user, Signed(t, ups))
  {
    var own := OfUser(pokes, user);
    SortedIsSame(pokes, ups, user);
    SignedIsFolded(t, ups);
    if Signed(t, ups).Some? {
      FieldOfSame(t, ups, own, "master", Signed(t, ups).value.master);
      FieldOfSame(t, ups, own, "self_signing", Signed(t, ups).value.selfSigning);
    }
  }

  // ---------- building the units ----------

  lemma FirstKeepsOrder(p: Poke, rest: seq<Poke>)
    requires InStreamOrder(rest) && forall q :: q in rest ==> p.stream <= q.stream
    ensures InStreamOrder([p] + rest)
  {
  }

  lemma {:induction false} InsertKeepsStreamOrder(s: seq<Poke>, p: Poke)
    requires InStreamOrder(s)
    ensures InStreamOrder(InsertPoke(s, p))
  {
    InsertedIsThere(s, p);
    if s == [] {
    } else if p.stream < s[0].stream {
      FirstKeepsOrder(p, s);
    } else {
      InsertedIsThere(s[1..], p);
      InsertKeepsStreamOrder(s[1..], p);
      FirstKeepsOrder(s[0], InsertPoke(s[1..], p));
    }
  }

  lemma {:induction false} InsertedIsThere(s: seq<Poke>, p: Poke)
    ensures multiset(InsertPoke(s, p)) == multiset(s) + multiset{p}
    ensures forall q :: q in InsertPoke(s, p) ==> q in s || q == p
  {
    if s != [] {
      assert s == [s[0]] + s[1..];
      InsertedIsThere(s[1..], p);
    }
  }

  function InsertPoke(s: seq<Poke>, p: Poke): seq<Poke> {
    if s == [] || p.stream < s[0].stream then [p] + s else [s[0]] + InsertPoke(s[1..], p)
  }

  /** sort.Slice by stream id; which of two equal ids comes first is not promised. */
  method SortByStream(pokes: seq<Poke>) returns (ups: seq<Poke>)
    ensures InStreamOrder(ups) && multiset(ups) == multiset(pokes)
  {
    ups := [];
    for i := 0 to |pokes|
      invariant InStreamOrder(ups) && multiset(ups) == multiset(pokes[..i])
    {
      assert pokes[..i + 1] == pokes[..i] + [pokes[i]];
      InsertKeepsStreamOrder(ups, pokes[i]);
      InsertedIsThere(ups, pokes[i]);
      ups := InsertPoke(ups, pokes[i]);
    }
    assert pokes[..|pokes|] == pokes;
  }

  function UsersOf(pokes: seq<Poke>): (users: seq<string>)
    ensures |users| == |pokes| && forall i :: 0 <= i < |pokes| ==> users[i] == pokes[i].user
  {
    seq(|pokes|, i requires 0 <= i < |pokes| => pokes[i].user)
  }

  /** One poke under its user, who is appended to the order if new. */
  method AddTo(byUser: map<string, seq<Poke>>, order: seq<string>, p: Poke)
    returns (after: map<string, seq<Poke>>, named: seq<string>)
    requires forall u :: u in order <==> u in byUser
    ensures forall u :: u in named <==> u in after
    ensures named == if p.user in order then order else order + [p.user]
    ensures after == byUser[p.user := (if p.user in byUser then byUser[p.user] else []) + [p]]
  {
    after, named := byUser, order;
    if p.user !in after {
      named := named + [p.user];
      after := after[p.user := []];
    }
    after := after[p.user := after[p.user] + [p]];
  }

  /** Each user once, in the order the read first names them, with all of their pokes. */
  method ByUser(pokes: seq<Poke>) returns (byUser: map<string, seq<Poke>>, order: seq<string>)
    ensures forall u :: u in byUser ==> byUser[u] == OfUser(pokes, u)
    ensures forall u :: u in order <==> u in byUser
    ensures forall p :: p in pokes ==> p.user in byUser
    ensures forall u :: u !in byUser ==> OfUser(pokes, u) == []
    ensures order == FirstNamed(UsersOf(pokes))
  {
    byUser, order := map[], [];
    for n := 0 to |pokes|
      invariant Grouped(byUser, pokes[..n])
      invariant forall u :: u in order <==> u in byUser
      invariant order == FirstNamed(UsersOf(pokes[..n]))
    {
      GroupedNext(byUser, pokes, n);
      NextUser(pokes, n);
      byUser, order := AddTo(byUser, order, pokes[n]);
    }
    assert pokes[..|pokes|] == pokes;
    GroupedAll(byUser, pokes);
  }

  ghost predicate Grouped(byUser: map<string, seq<Poke>>, pokes: seq<Poke>) {
    forall u :: HasOwn(byUser, pokes, u)
  }

  ghost predicate HasOwn(byUser: map<string, seq<Poke>>, pokes: seq<Poke>, u: string) {
    && OfUser(pokes, u) == (if u in byUser then byUser[u] else [])
    && (u in byUser ==> byUser[u] != [])
  }

  lemma GroupedNext(byUser: map<string, seq<Poke>>, pokes: seq<Poke>, n: nat)
    requires n < |pokes| && Grouped(byUser, pokes[..n])
    ensures var p := pokes[n];
            Grouped(byUser[p.user := (if p.user in byUser then byUser[p.user] else []) + [p]], pokes[..n + 1])
  {
    var p := pokes[n];
    var after := byUser[p.user := (if p.user in byUser then byUser[p.user] else []) + [p]];
    var front, upTo := pokes[..n], pokes[..n + 1];
    assert upTo == front + [p];
    forall u ensures HasOwn(after, upTo, u) {
      OfUserNext(front, p, u);
      assert HasOwn(byUser, front, u);
    }
  }

  lemma OfUserNext(front: seq<Poke>, p: Poke, user: string)
    ensures OfUser(front + [p], user) == OfUser(front, user) + if p.user == user then [p] else []
    ensures p.user != user ==> OfUser(front + [p], user) == OfUser(front, user)
  {
    assert (front + [p])[..|front|] == front;
  }

  lemma GroupedAll(byUser: map<string, seq<Poke>>, pokes: seq<Poke>)
    requires Grouped(byUser, pokes)
    ensures forall u :: u in byUser ==> byUser[u] == OfUser(pokes, u)
    ensures forall u :: u !in byUser ==> OfUser(pokes, u) == []
    ensures forall p :: p in pokes ==> p.user in byUser
  {
    forall u ensures u in byUser ==> byUser[u] == OfUser(pokes, u) {
      assert HasOwn(byUser, pokes, u);
    }
    forall u | u !in byUser ensures OfUser(pokes, u) == [] {
      assert HasOwn(byUser, pokes, u);
    }
    forall p | p in pokes ensures p.user in byUser {
      assert HasOwn(byUser, pokes, p.user);
      OfUserCounts(pokes, p.user, p);
    }
  }

  lemma NextUser(pokes: seq<Poke>, n: nat)
    requires n < |pokes|
    ensures var first := FirstNamed(UsersOf(pokes[..n]));
            FirstNamed(UsersOf(pokes[..n + 1])) == if pokes[n].user in first then first else first + [pokes[n].user]
  {
    assert UsersOf(pokes[..n + 1]) == UsersOf(pokes[..n]) + [pokes[n].user];
    NextName(UsersOf(pokes[..n]), pokes[n].user);
  }

  predicate Unencodable(t: Tables, allowName: bool, p: Poke) {
    if IsKey(t, p) then !t.crossKeys[(p.user, p.device)].data.valid
    else !Encodes(UpdateFor(t, allowName, p, 0))
  }

  /** One user's pokes, already in stream order. */
  method ForUser(t: Tables, allowName: bool, ups: seq<Poke>, delivered: int, from: int)
    returns (ok: bool, chain: seq<Body>, signing: Option<Signing>, highest: int)
    ensures ok ==> chain == Updates(t, allowName, ups, delivered) && signing == Signed(t, ups)
    ensures ok ==> highest == Highest(ups, from) && forall b :: b in chain ==> Encodes(b)
    ensures !ok ==> exists p :: p in ups && Unencodable(t, allowName, p)
  {
    ok, chain, signing, highest := true, [], None, from;
    var prev := delivered;
    for i := 0 to |ups|
      invariant ok && chain == Updates(t, allowName, ups[..i], delivered) && signing == Signed(t, ups[..i])
      invariant prev == Preceding(Plain(t, ups[..i]), |Plain(t, ups[..i])|, delivered)
      invariant highest == Highest(ups[..i], from) && forall b :: b in chain ==> Encodes(b)
    {
      var p := ups[i];
      assert ups[..i + 1][..i] == ups[..i];
      if IsKey(t, p) {
        signing := Merge(signing, t.crossKeys[(p.user, p.device)]);
      } else {
        var body := UpdateFor(t, allowName, p, prev);
        if !Encodes(body) {
          assert p in ups;
          return false, [], None, from;
        }
        chain := chain + [body];
        prev := p.stream;
      }
      if p.stream > highest {
        highest := p.stream;
      }
    }
    assert ups[..|ups|] == ups;
  }

  function SigningOf(signing: map<string, Signing>, user: string): Option<Signing> {
    if user in signing then Some(signing[user]) else None
  }

  /** What has been built so far of one user's units, if the user's turn has come. */
  ghost predicate UserDone(t: Tables, allowName: bool, pokes: seq<Poke>, done: bool, user: string,
                           chain: seq<Body>, signing: Option<Signing>) {
    if done then Served(t, allowName, pokes, chain, user) && Folded(t, pokes, user, signing)
    else chain == [] && signing.None?
  }

  ghost predicate Progress(t: Tables, allowName: bool, pokes: seq<Poke>, done: seq<string>,
                           updates: seq<Body>, signing: map<string, Signing>) {
    forall u :: UserDone(t, allowName, pokes, u in done, u, UpdatesOf(updates, u), SigningOf(signing, u))
  }

  ghost predicate AllUpdates(bodies: seq<Body>) {
    forall b :: b in bodies ==> b.Update? && Encodes(b)
  }

  ghost predicate HighestSoFar(pokes: seq<Poke>, done: seq<string>, from: int, highest: int) {
    && from <= highest
    && (forall p :: p in pokes && p.user in done ==> p.stream <= highest)
    && (highest > from ==> exists p :: p in pokes && p.stream == highest)
  }

  lemma HighestAfterUser(pokes: seq<Poke>, ups: seq<Poke>, done: seq<string>, user: string, from: int, highest: int)
    requires HighestSoFar(pokes, done, from, highest)
    requires forall p :: p in ups <==> p in pokes && p.user == user
    ensures HighestSoFar(pokes, done + [user], from, Highest(ups, highest))
  {
    HighestIsMax(ups, highest);
  }

  lemma UpdatesAfterUser(t: Tables, allowName: bool, updates: seq<Body>, ups: seq<Poke>, prev: int, of: string, user: string)
    requires forall p :: p in ups ==> p.user == of
    ensures UpdatesOf(updates + Updates(t, allowName, ups, prev), user) ==
            if user == of then UpdatesOf(updates, user) + Updates(t, allowName, ups, prev) else UpdatesOf(updates, user)
  {
    UpdatesOfJoin(updates, Updates(t, allowName, ups, prev), user);
    UpdatesOfChain(t, allowName, ups, prev, of, user);
  }

  function WithSigning(signing: map<string, Signing>, user: string, signed: Option<Signing>): map<string, Signing> {
    if signed.Some? then signing[user := signed.value] else signing
  }

  lemma NothingBefore(a: seq<Body>, b: seq<Body>)
    requires a == []
    ensures a + b == b
  {
  }

  /** One user's turn: the user is done, and everybody else stands where they did. */
  lemma UserAfterUser(t: Tables, allowName: bool, pokes: seq<Poke>, done: bool, user: string, u: string,
                      updates: seq<Body>, signing: map<string, Signing>, ups: seq<Poke>)
    requires UserDone(t, allowName, pokes, done, u, UpdatesOf(updates, u), SigningOf(signing, u))
    requires InStreamOrder(ups) && multiset(ups) == multiset(OfUser(pokes, user))
    requires u == user ==> !done
    ensures UserDone(t, allowName, pokes, done || u == user, u,
                     UpdatesOf(updates + Updates(t, allowName, ups, t.delivered(user)), u),
                     SigningOf(WithSigning(signing, user, Signed(t, ups)), u))
  {
    var chain := Updates(t, allowName, ups, t.delivered(user));
    var signed := SigningOf(WithSigning(signing, user, Signed(t, ups)), u);
    assert forall p :: p in ups ==> p.user == user by {
      SortedIsSame(pokes, ups, user);
    }
    UpdatesAfterUser(t, allowName, updates, ups, t.delivered(user), user, u);
    if u == user {
      NothingBefore(UpdatesOf(updates, u), chain);
      assert signed == Signed(t, ups);
      OneUserServed(t, allowName, pokes, ups, user);
      OneUserFolded(t, pokes, ups, user);
      assert UserDone(t, allowName, pokes, true, u, chain, signed);
    } else {
      assert signed == SigningOf(signing, u);
      assert UpdatesOf(updates + chain, u) == UpdatesOf(updates, u);
    }
  }

  lemma ProgressAfterUser(t: Tables, allowName: bool, pokes: seq<Poke>, done: seq<string>, user: string,
                          updates: seq<Body>, signing: map<string, Signing>, ups: seq<Poke>)
    requires Progress(t, allowName, pokes, done, updates, signing) && user !in done
    requires InStreamOrder(ups) && multiset(ups) == multiset(OfUser(pokes, user))
    ensures Progress(t, allowName, pokes, done + [user], updates + Updates(t, allowName, ups, t.delivered(user)),
                     WithSigning(signing, user, Signed(t, ups)))
  {
    var chain := Updates(t, allowName, ups, t.delivered(user));
    var after := WithSigning(signing, user, Signed(t, ups));
    forall u
      ensures UserDone(t, allowName, pokes, u in done + [user], u, UpdatesOf(updates + chain, u), SigningOf(after, u))
    {
      assert UserDone(t, allowName, pokes, u in done, u, UpdatesOf(updates, u), SigningOf(signing, u));
      UserAfterUser(t, allowName, pokes, u in done, user, u, updates, signing, ups);
    }
  }

  /** The units that follow the updates: for each user with key changes, in user order, the
      stable unit and the legacy one with the same content. */
  ghost predicate PairsFor(users: seq<string>, signing: map<string, Signing>, pairs: seq<Body>) {
    |pairs| == 2 * |users| &&
    forall i :: 0 <= i < |users| ==>
                  users[i] in signing &&
                  pairs[2 * i] == SigningKey(users[i], signing[users[i]]) &&
                  pairs[2 * i + 1] == UnstableSigningKey(users[i], signing[users[i]])
  }

  /** What a read's units are, all told. */
  ghost predicate Built(t: Tables, allowName: bool, from: int, pokes: seq<Poke>, edus: seq<Body>, highest: int) {
    && (forall u :: Served(t, allowName, pokes, UpdatesOf(edus, u), u))
    && (exists users, signing, n: nat :: n <= |edus| && KeysAnnounced(t, pokes, edus, users, signing, n))
    && from <= highest && (forall p :: p in pokes ==> p.stream <= highest)
    && (highest > from ==> exists p :: p in pokes && p.stream == highest)
  }

  ghost predicate KeysAnnounced(t: Tables, pokes: seq<Poke>, edus: seq<Body>,
                                users: seq<string>, signing: map<string, Signing>, n: nat)
    requires n <= |edus|
  {
    && Ascending(users) && (forall k :: 0 <= k < n ==> edus[k].Update?)
    && PairsFor(users, signing, edus[n..])
    && (forall u :: u in users <==> u in signing)
    && (forall u :: Folded(t, pokes, u, SigningOf(signing, u)))
  }

  lemma NoUpdatesInPairs(users: seq<string>, signing: map<string, Signing>, pairs: seq<Body>)
    requires PairsFor(users, signing, pairs)
    ensures forall b :: b in pairs ==> !b.Update?
  {
    forall k | 0 <= k < |pairs| ensures !pairs[k].Update? {
      var i := k / 2;
      assert users[i] in signing && (k == 2 * i || k == 2 * i + 1);
    }
  }

  /** A user nobody poked has nothing to say. */
  lemma NotPoked(t: Tables, allowName: bool, pokes: seq<Poke>, user: string)
    requires OfUser(pokes, user) == []
    ensures Served(t, allowName, pokes, [], user) && Folded(t, pokes, user, None)
  {
    assert ChainOf(t, allowName, pokes, [], user, []);
  }

  lemma EveryoneServed(t: Tables, allowName: bool, pokes: seq<Poke>, order: seq<string>, updates: seq<Body>,
                       signing: map<string, Signing>, pairs: seq<Body>, user: string)
    requires Progress(t, allowName, pokes, order, updates, signing)
    requires user !in order ==> OfUser(pokes, user) == []
    requires forall b :: b in pairs ==> !b.Update?
    ensures Served(t, allowName, pokes, UpdatesOf(updates + pairs, user), user)
    ensures Folded(t, pokes, user, SigningOf(signing, user))
  {
    assert UserDone(t, allowName, pokes, user in order, user, UpdatesOf(updates, user), SigningOf(signing, user));
    UpdatesOfJoin(updates, pairs, user);
    NoUpdatesIn(pairs, user);
    assert UpdatesOf(updates + pairs, user) == UpdatesOf(updates, user);
    if user !in order {
      NotPoked(t, allowName, pokes, user);
    }
  }

  lemma AllBuilt(t: Tables, allowName: bool, from: int, pokes: seq<Poke>, order: seq<string>, updates: seq<Body>,
                 users: seq<string>, signing: map<string, Signing>, pairs: seq<Body>, highest: int)
    requires Progress(t, allowName, pokes, order, updates, signing) && HighestSoFar(pokes, order, from, highest)
    requires AllNamed(pokes, order) && AllUpdates(updates)
    requires Ascending(users) && (forall u :: u in users <==> u in signing) && PairsFor(users, signing, pairs)
    ensures Built(t, allowName, from, pokes, updates + pairs, highest)
  {
    var edus, n := updates + pairs, |updates|;
    NoUpdatesInPairs(users, signing, pairs);
    forall u
      ensures Served(t, allowName, pokes, UpdatesOf(edus, u), u) && Folded(t, pokes, u, SigningOf(signing, u))
    {
      EveryoneServed(t, allowName, pokes, order, updates, signing, pairs, u);
    }
    assert forall k :: 0 <= k < n ==> edus[k] == updates[k] && updates[k] in updates;
    assert edus[n..] == pairs;
    assert KeysAnnounced(t, pokes, edus, users, signing, n);
  }

  lemma StillCounted(t: Tables, pokes: seq<Poke>, plain: seq<Poke>, p: Poke)
    requires p in pokes && !IsKey(t, p) && multiset(plain) == multiset(Plain(t, OfUser(pokes, p.user)))
    ensures p in plain
  {
    var own := OfUser(pokes, p.user);
    OfUserCounts(pokes, p.user, p);
    PlainCounts(t, own, p);
    assert p in multiset(own) && p in multiset(plain);
  }

  lemma PlainPokeIsSent(t: Tables, allowName: bool, pokes: seq<Poke>, chain: seq<Body>, p: Poke)
    requires p in pokes && !IsKey(t, p) && Served(t, allowName, pokes, chain, p.user)
    ensures exists k :: 0 <= k < |chain| && chain[k].Update? && chain[k].device == p.device && chain[k].stream == p.stream
  {
    var plain: seq<Poke> :| ChainOf(t, allowName, pokes, chain, p.user, plain);
    StillCounted(t, pokes, plain, p);
    var k :| 0 <= k < |plain| && plain[k] == p;
    assert IsLink(t, allowName, chain, plain, t.delivered(p.user), k);
  }

  lemma KeyPokeIsSent(t: Tables, pokes: seq<Poke>, edus: seq<Body>, users: seq<string>, signing: map<string, Signing>,
                      n: nat, p: Poke)
    requires n <= |edus| && KeysAnnounced(t, pokes, edus, users, signing, n) && p in pokes && IsKey(t, p)
    ensures edus != []
  {
    OfUserCounts(pokes, p.user, p);
    assert Folded(t, pokes, p.user, SigningOf(signing, p.user));
    assert p.user in users && |edus[n..]| == 2 * |users|;
  }

  /** Any poke leaves a unit to carry the mark. */
  lemma SomethingToCarryTheMark(t: Tables, allowName: bool, from: int, pokes: seq<Poke>, edus: seq<Body>, highest: int)
    requires Built(t, allowName, from, pokes, edus, highest) && pokes != []
    ensures edus != []
  {
    var p := pokes[0];
    if IsKey(t, p) {
      var users, signing, n: nat :| n <= |edus| && KeysAnnounced(t, pokes, edus, users, signing, n);
      KeyPokeIsSent(t, pokes, edus, users, signing, n, p);
    } else {
      PlainPokeIsSent(t, allowName, pokes, UpdatesOf(edus, p.user), p);
    }
  }

  /** A pair that does not encode comes from a key that does not. */
  lemma BadPairHasBadKey(t: Tables, allowName: bool, pokes: seq<Poke>, user: string, s: Signing)
    requires Folded(t, pokes, user, Some(s)) && !Encodes(SigningKey(user, s))
    ensures exists p :: p in pokes && Unencodable(t, allowName, p)
  {
    var own := OfUser(pokes, user);
    var p :| p in own && IsKey(t, p) && !t.crossKeys[(p.user, p.device)].data.valid;
    OfUserCounts(pokes, user, p);
  }

  ghost predicate AllNamed(pokes: seq<Poke>, order: seq<string>) {
    (forall p :: p in pokes ==> p.user in order) && forall u :: u !in order ==> OfUser(pokes, u) == []
  }

  lemma AllAreNamed(pokes: seq<Poke>, byUser: map<string, seq<Poke>>, order: seq<string>)
    requires forall u :: u in order <==> u in byUser
    requires forall p :: p in pokes ==> p.user in byUser
    requires forall u :: u !in byUser ==> OfUser(pokes, u) == []
    requires order == FirstNamed(UsersOf(pokes))
    ensures AllNamed(pokes, order) && OnceEach(order)
  {
    FirstNamedOnce(UsersOf(pokes));
  }

  lemma NextOnce(order: seq<string>, i: nat)
    requires OnceEach(order) && i < |order|
    ensures order[..i + 1] == order[..i] + [order[i]] && order[i] !in order[..i]
  {
  }

  lemma NoneYet(t: Tables, allowName: bool, pokes: seq<Poke>, from: int)
    ensures Progress(t, allowName, pokes, [], [], map[]) && HighestSoFar(pokes, [], from, from)
  {
  }

  /** One user's turn. */
  method AddUser(t: Tables, allowName: bool, ghost pokes: seq<Poke>, own: seq<Poke>, ghost done: seq<string>, user: string,
                 ghost from: int, updates: seq<Body>, signing: map<string, Signing>, highest: int)
    returns (ok: bool, longer: seq<Body>, signed: map<string, Signing>, mark: int)
    requires own == OfUser(pokes, user) && user !in done
    requires Progress(t, allowName, pokes, done, updates, signing) && AllUpdates(updates)
    requires HighestSoFar(pokes, done, from, highest)
    ensures !ok ==> exists p :: p in pokes && Unencodable(t, allowName, p)
    ensures ok ==> Progress(t, allowName, pokes, done + [user], longer, signed) && AllUpdates(longer)
    ensures ok ==> HighestSoFar(pokes, done + [user], from, mark)
  {
    var ups := SortByStream(own);
    SortedIsSame(pokes, ups, user);
    var chain, keys;
    ok, chain, keys, mark := ForUser(t, allowName, ups, t.delivered(user), highest);
    longer, signed := updates + chain, WithSigning(signing, user, keys);
    if ok {
      HighestAfterUser(pokes, ups, done, user, from, highest);
      ProgressAfterUser(t, allowName, pokes, done, user, updates, signing, ups);
      UpdatesOfChain(t, allowName, ups, t.delivered(user), user, user);
    }
  }

  /** The updates, user by user, and the key changes met on the way. */
  method BuildUpdates(t: Tables, allowName: bool, from: int, pokes: seq<Poke>)
    returns (ok: bool, updates: seq<Body>, signing: map<string, Signing>, highest: int, order: seq<string>)
    ensures !ok ==> exists p :: p in pokes && Unencodable(t, allowName, p)
    ensures ok ==> Progress(t, allowName, pokes, order, updates, signing) && AllUpdates(updates)
    ensures ok ==> HighestSoFar(pokes, order, from, highest)
    ensures ok ==> AllNamed(pokes, order)
  {
    var byUser;
    byUser, order := ByUser(pokes);
    AllAreNamed(pokes, byUser, order);
    ok, updates, signing, highest := true, [], map[], from;
    ghost var done := [];
    NoneYet(t, allowName, pokes, from);
    for i := 0 to |order|
      invariant done == order[..i]
      invariant Progress(t, allowName, pokes, done, updates, signing) && AllUpdates(updates)
      invariant HighestSoFar(pokes, done, from, highest)
    {
      NextOnce(order, i);
      ok, updates, signing, highest :=
        AddUser(t, allowName, pokes, byUser[order[i]], done, order[i], from, updates, signing, highest);
      if !ok {
        return false, [], map[], from, order;
      }
      done := done + [order[i]];
    }
    return true, updates, signing, highest, order;
  }

  /** The pairs, in user order; none when one of them does not encode. */
  method BuildPairs(signing: map<string, Signing>) returns (ok: bool, pairs: seq<Body>, users: seq<string>)
    ensures Ascending(users) && forall u :: u in users <==> u in signing
    ensures ok ==> PairsFor(users, signing, pairs) && forall b :: b in pairs ==> Encodes(b)
    ensures !ok ==> exists u :: u in signing && !Encodes(SigningKey(u, signing[u]))
  {
    users := SortedKeys(signing.Keys);
    ok, pairs := true, [];
    for i := 0 to |users|
      invariant PairsFor(users[..i], signing, pairs) && forall b :: b in pairs ==> Encodes(b)
    {
      var key := SigningKey(users[i], signing[users[i]]);
      if !Encodes(key) {
        return false, [], users;
      }
      pairs := pairs + [key, UnstableSigningKey(users[i], signing[users[i]])];
    }
    assert users[..|users|] == users;
  }

  /** buildDeviceListEDUs. It fails as a whole, with the cursor where it was. */
  method BuildDeviceListEDUs(t: Tables, allowName: bool, from: int, pokes: seq<Poke>, readFails: bool)
    returns (ok: bool, edus: seq<Body>, highest: int)
    ensures pokes == [] ==> ok && edus == [] && highest == from
    ensures !ok ==> edus == [] && highest == from && pokes != []
    ensures !ok ==> readFails || exists p :: p in pokes && Unencodable(t, allowName, p)
    ensures ok && pokes != [] ==> Built(t, allowName, from, pokes, edus, highest) && edus != [] && !readFails
    ensures ok ==> forall b :: b in edus ==> Encodes(b)
    ensures ok ==> forall b :: b in edus ==>
                     if b.Update? then b.keys.Some? ==> b.keys.value.valid
                     else (b.signing.master.Some? ==> b.signing.master.value.valid) &&
                          (b.signing.selfSigning.Some? ==> b.signing.selfSigning.value.valid)
  {
    if pokes == [] {
      return true, [], from;
    }
    if readFails {
      return false, [], from;
    }
    var updates, signing, order, pairs, users;
    ok, updates, signing, highest, order := BuildUpdates(t, allowName, from, pokes);
    if !ok {
      return false, [], from;
    }
    ok, pairs, users := BuildPairs(signing);
    if !ok {
      ghost var u :| u in signing && !Encodes(SigningKey(u, signing[u]));
      EveryoneServed(t, allowName, pokes, order, updates, signing, [], u);
      BadPairHasBadKey(t, allowName, pokes, u, signing[u]);
      return false, [], from;
    }
    AllBuilt(t, allowName, from, pokes, order, updates, users, signing, pairs, highest);
    SomethingToCarryTheMark(t, allowName, from, pokes, updates + pairs, highest);
    return true, updates + pairs, highest;
  }
}
