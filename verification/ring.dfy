/** The ring elector (dbnode/elector/ring.go): a token gathers the ids of the nodes
    it passes, three digits each, and the highest id in it is the leader. */
module Rings {
  import opened Wrappers
  import opened Decimal

  const ID_BYTES: nat := 3

  // ---------- ids ----------

  /** None where the process stops because the id is too big. */
  function IdAsBytes(id: int): Option<string> {
    var b := Itoa(id);
    if |b| == 1 then Some("00" + b) else if |b| == 2 then Some("0" + b) else if |b| == 3 then Some(b) else None
  }

  function BytesAsId(b: string): Option<nat> { Atoi(b) }

  lemma NumeralDigits(n: nat)
    ensures n < 10 ==> Numeral(n) == [Digit(n)]
    ensures 10 <= n < 100 ==> Numeral(n) == [Digit(n / 10), Digit(n % 10)]
    ensures 100 <= n < 1000 ==> Numeral(n) == [Digit(n / 10 / 10), Digit(n / 10 % 10), Digit(n % 10)]
    ensures n >= 1000 ==> |Numeral(n)| > 3
  {
    if n >= 1000 {
      assert |Numeral(n / 10 / 10)| >= 2;
    }
  }

  lemma ThreeDigits(a: nat, b: nat, c: nat)
    requires a < 10 && b < 10 && c < 10
    ensures var s := [Digit(a), Digit(b), Digit(c)];
            Atoi(s) == Some(100 * a + 10 * b + c)
  {
    var s := [Digit(a), Digit(b), Digit(c)];
    assert s[..2][..1] == [Digit(a)] && s[..2] == [Digit(a), Digit(b)];
    assert s[..1][..0] == [];
    assert Value(s[..1]) == a && Value(s[..2]) == 10 * a + b && Value(s) == 10 * Value(s[..2]) + c;
  }

  /** Exactly the ids below 1000 are written as three bytes that read back as the id. */
  lemma IdRoundTrip(id: int)
    ensures (&& IdAsBytes(id).Some? && |IdAsBytes(id).value| == ID_BYTES
             && BytesAsId(IdAsBytes(id).value) == Some(id as int))
            <==> 0 <= id < 1000
  {
    if 0 <= id {
      NumeralDigits(id);
      if id < 10 {
        ThreeDigits(0, 0, id);
        assert IdAsBytes(id).value == [Digit(0), Digit(0), Digit(id)];
      } else if id < 100 {
        ThreeDigits(0, id / 10, id % 10);
        assert IdAsBytes(id).value == [Digit(0), Digit(id / 10), Digit(id % 10)];
      } else if id < 1000 {
        ThreeDigits(id / 10 / 10, id / 10 % 10, id % 10);
      }
    }
  }

  predicate IsId(id: int) { 0 <= id < 1000 }

  /** The bytes of an id that has three digits. */
  function Bytes(id: int): (b: string)
    requires IsId(id)
    ensures |b| == ID_BYTES && BytesAsId(b) == Some(id)
  {
    IdRoundTrip(id);
    IdAsBytes(id).value
  }

  // ---------- tokens ----------

  function Token(ids: seq<int>): string
    requires forall i :: 0 <= i < |ids| ==> IsId(ids[i])
  {
    if ids == [] then "" else Token(ids[..|ids| - 1]) + Bytes(ids[|ids| - 1])
  }

  function Max(a: int, b: int): int { if a < b then b else a }

  function Highest(ids: seq<int>): int {
    if ids == [] then -1 else Max(Highest(ids[..|ids| - 1]), ids[|ids| - 1])
  }

  lemma {:induction false} HighestIsLast(ids: seq<int>)
    ensures forall i :: 0 <= i < |ids| ==> ids[i] <= Highest(ids)
    ensures Highest(ids) == -1 || Highest(ids) in ids
  {
    if ids != [] { HighestIsLast(ids[..|ids| - 1]); }
  }

  function Without(ids: seq<int>, id: int): seq<int> {
    if ids == [] then [] else if ids[0] == id then ids[1..] else [ids[0]] + Without(ids[1..], id)
  }

  predicate AllIds(ids: seq<int>) { forall i :: 0 <= i < |ids| ==> IsId(ids[i]) }

  lemma {:induction false} TokenAt(ids: seq<int>, i: nat)
    requires AllIds(ids) && i <= |ids|
    ensures |Token(ids)| == ID_BYTES * |ids|
    ensures Token(ids)[..ID_BYTES * i] == Token(ids[..i])
    ensures i < |ids| ==> Token(ids)[ID_BYTES * i..ID_BYTES * i + ID_BYTES] == Bytes(ids[i])
  {
    hide Bytes;
    if ids == [] {
    } else if i == |ids| {
      TokenAt(ids[..|ids| - 1], |ids| - 1);
      assert ids[..i] == ids;
    } else {
      var rest := ids[..|ids| - 1];
      TokenAt(rest, i);
      assert rest[..i] == ids[..i];
      if i == |rest| { assert rest[..i] == rest; }
    }
  }

  lemma {:induction false} TokenJoin(a: seq<int>, b: seq<int>)
    requires AllIds(a) && AllIds(b)
    ensures Token(a + b) == Token(a) + Token(b)
  {
    hide Bytes;
    if b == [] {
      assert a + b == a;
    } else {
      var rest := b[..|b| - 1];
      TokenJoin(a, rest);
      assert (a + b)[..|a + b| - 1] == a + rest && (a + b)[|a + b| - 1] == b[|b| - 1];
      assert Token(a) + (Token(rest) + Bytes(b[|b| - 1])) == (Token(a) + Token(rest)) + Bytes(b[|b| - 1]);
    }
  }

  /** Reading the k-th id of a token. */
  lemma ReadId(ids: seq<int>, k: nat)
    requires AllIds(ids) && k <= |ids|
    ensures |Token(ids)| == ID_BYTES * |ids|
    ensures k < |ids| ==> BytesAsId(Token(ids)[ID_BYTES * k..ID_BYTES * k + ID_BYTES]) == Some(ids[k])
  {
    TokenAt(ids, k);
  }

  method AddId(b: string, id: int) returns (r: string, fatal: bool)
    ensures fatal <==> IdAsBytes(id).None?
    ensures !fatal ==> r == b + IdAsBytes(id).value
  {
    match IdAsBytes(id) {
      case None => return b, true;
      case Some(end) => return b + end, false;
    }
  }

  lemma AddIdToken(ids: seq<int>, id: int)
    requires AllIds(ids) && IsId(id)
    ensures IdAsBytes(id) == Some(Bytes(id)) && Token(ids) + Bytes(id) == Token(ids + [id])
    ensures Highest(ids + [id]) == Max(Highest(ids), id)
  {
    IdRoundTrip(id);
    assert (ids + [id])[..|ids + [id]| - 1] == ids;
  }

  lemma HighestNext(ids: seq<int>, k: nat)
    requires k < |ids|
    ensures Highest(ids[..k + 1]) == Max(Highest(ids[..k]), ids[k])
  {
    assert ids[..k + 1][..k] == ids[..k];
  }

  /** The greatest id in a token, or -1; stops on a token that is not whole ids. */
  method HighestId(b: string, ghost ids: seq<int>) returns (max: int, fatal: bool)
    requires AllIds(ids) && b == Token(ids)
    ensures !fatal && max == Highest(ids)
  {
    ReadId(ids, 0);
    assert Highest(ids[..0]) == -1;
    hide BytesAsId, Token, Highest, AllIds, Max;
    if |b| % ID_BYTES > 0 { return -1, true; }
    max, fatal := -1, false;
    var i := 0;
    ghost var k := 0;
    while i < |b|
      invariant i == ID_BYTES * k <= |b| && k <= |ids| && max == Highest(ids[..k])
    {
      var id := ParseId(b, i, ids, k);
      HighestNext(ids, k);
      max := Max(max, id);
      i := i + ID_BYTES;
      k := k + 1;
    }
    assert ids[..k] == ids;
  }

  method ParseId(b: string, i: nat, ghost ids: seq<int>, ghost k: nat) returns (id: int)
    requires AllIds(ids) && b == Token(ids) && k < |ids| && i == ID_BYTES * k
    ensures id == ids[k]
  {
    ReadId(ids, k);
    hide Token, BytesAsId;
    id := BytesAsId(b[i..i + ID_BYTES]).value;
  }

  lemma NotYet(ids: seq<int>, k: nat, id: int)
    requires k < |ids| && id !in ids[..k] && ids[k] != id
    ensures id !in ids[..k + 1]
  {
    assert ids[..k + 1] == ids[..k] + [ids[k]];
  }

  /** Removes one occurrence of an id; a token that passed a node twice still names it. */
  method RemoveId(b: string, id: int, ghost ids: seq<int>) returns (r: string)
    requires AllIds(ids) && b == Token(ids)
    ensures AllIds(Without(ids, id)) && r == Token(Without(ids, id))
  {
    var i := 0;
    ghost var k := 0;
    ReadId(ids, 0);
    WithoutNone(ids, id);
    hide BytesAsId, Token, Without, AllIds, Bytes, Highest;
    while i < |b|
      invariant i == ID_BYTES * k <= |b| && k <= |ids| && id !in ids[..k]
    {
      ReadId(ids, k);
      var found := BytesAsId(b[i..i + ID_BYTES]) == Some(id);
      assert found <==> ids[k] == id;
      if found {
        CutOut(ids, k, id);
        return b[..i] + b[i + ID_BYTES..];
      }
      NotYet(ids, k, id);
      i := i + ID_BYTES;
      k := k + 1;
    }
    assert ids[..k] == ids;
    return b;
  }

  lemma {:induction false} WithoutAt(ids: seq<int>, k: nat, id: int)
    requires k < |ids| && ids[k] == id && id !in ids[..k]
    ensures Without(ids, id) == ids[..k] + ids[k + 1..]
  {
    if k > 0 {
      assert ids[0] in ids[..k];
      assert forall i :: 0 <= i < k - 1 ==> ids[1..][i] == ids[..k][i + 1];
      WithoutAt(ids[1..], k - 1, id);
      assert ids[1..][..k - 1] == ids[1..k] && ids[1..][k..] == ids[k + 1..];
    }
  }

  lemma {:induction false} WithoutNone(ids: seq<int>, id: int)
    ensures id !in ids ==> Without(ids, id) == ids
  {
    if ids != [] { WithoutNone(ids[1..], id); }
  }

  lemma TokenTail(ids: seq<int>, k: nat)
    requires AllIds(ids) && k <= |ids|
    ensures |Token(ids)| == ID_BYTES * |ids| && Token(ids)[ID_BYTES * k..] == Token(ids[k..])
  {
    assert ids == ids[..k] + ids[k..];
    TokenJoin(ids[..k], ids[k..]);
    TokenAt(ids, k);
    TokenAt(ids[..k], k);
  }

  lemma CutOut(ids: seq<int>, k: nat, id: int)
    requires AllIds(ids) && k < |ids| && ids[k] == id && id !in ids[..k]
    ensures |Token(ids)| == ID_BYTES * |ids| && AllIds(Without(ids, id))
    ensures Token(Without(ids, id)) == Token(ids)[..ID_BYTES * k] + Token(ids)[ID_BYTES * k + ID_BYTES..]
  {
    hide Bytes;
    TokenAt(ids, k);
    WithoutAt(ids, k, id);
    TokenTail(ids, k + 1);
    TokenJoin(ids[..k], ids[k + 1..]);
  }

  // ---------- one node ----------

  class Ring {
    const id: nat
    const n: nat
    var leader: int
    var nextInRing: nat
    var token: string

    constructor (id: nat, n: nat)
      requires id < n
      ensures this.id == id && this.n == n && leader == -1 && nextInRing == NextNode(id, n) && token == ""
    {
      this.id, this.n, leader, token := id, n, -1, "";
      nextInRing := if id + 1 == n then 0 else id + 1;
    }

    /** The token arrives; it is passed on to the node returned. */
    method Elect(value: string, ghost ids: seq<int>) returns (dest: nat)
      requires AllIds(ids) && value == Token(ids) && id < n <= 1000
      modifies this
      ensures token == Token(ids + [id]) && leader == Highest(ids + [id])
      ensures dest == old(nextInRing) && nextInRing == NextNode(id, n)
    {
      AddIdToken(ids, id);
      var fatal;
      token, fatal := AddId(value, id);
      leader, fatal := HighestId(token, ids + [id]);
      dest := nextInRing;
      nextInRing := id + 1;
      if nextInRing == n { nextInRing := 0; }
    }
  }

  // ---------- the token on its way ----------

  function NextNode(id: nat, n: nat): nat { if id + 1 == n then 0 else id + 1 }

  /** Every node's leader, the ids gathered so far, and the node the token reaches next. */
  datatype Election = Election(n: nat, leaders: seq<int>, ids: seq<int>, at: nat)

  ghost predicate Valid(e: Election) {
    0 < e.n <= 1000 && |e.leaders| == e.n && e.at < e.n && forall i :: 0 <= i < |e.ids| ==> 0 <= e.ids[i] < e.n
  }

  /** One node does what Ring.Elect does. */
  function Visit(e: Election): Election
    requires e.at < |e.leaders|
  {
    var ids := e.ids + [e.at as int];
    e.(leaders := e.leaders[e.at := Highest(ids)], ids := ids, at := NextNode(e.at, e.n))
  }

  function Visits(e: Election, k: nat): (r: Election)
    requires Valid(e)
    ensures Valid(r) && r.n == e.n
  {
    if k == 0 then e else Visit(Visits(e, k - 1))
  }

  lemma {:induction false} VisitsAdd(e: Election, j: nat, k: nat)
    requires Valid(e)
    ensures Visits(e, j + k) == Visits(Visits(e, j), k)
  {
    hide Visit;
    if k > 0 {
      VisitsAdd(e, j, k - 1);
      assert Visits(e, j + k) == Visit(Visits(e, j + k - 1));
    }
  }

  lemma HighestBelow(e: Election)
    requires Valid(e)
    ensures Highest(e.ids) < e.n
  {
    HighestIsLast(e.ids);
  }

  /** A walk that does not pass the end of the ring: each node passed takes the
      highest of the ids in the token and its own. */
  lemma {:induction false} Walk(e: Election, k: nat)
    requires Valid(e) && e.at + k <= e.n
    ensures var r := Visits(e, k);
            && r.at == (if e.at + k == e.n && k > 0 then 0 else e.at + k)
            && (forall i :: 0 <= i < e.n && !(e.at <= i < e.at + k) ==> r.leaders[i] == e.leaders[i])
            && (forall i :: e.at <= i < e.at + k ==> r.leaders[i] == Max(Highest(e.ids), i))
            && Highest(r.ids) == if k == 0 then Highest(e.ids) else Max(Highest(e.ids), e.at + k - 1)
  {
    if k > 0 {
      Walk(e, k - 1);
      var p := Visits(e, k - 1);
      assert (p.ids + [p.at as int])[..|p.ids|] == p.ids;
    }
  }

  /** The token passes every node once and is back where it was. */
  function Trip(e: Election): (r: Election)
    requires Valid(e)
    ensures Valid(r) && r.n == e.n
  {
    Visits(e, e.n)
  }

  /** One trip, from anywhere: the token then names the highest node, and if it did
      before, every node has taken that node for its leader. */
  lemma OneTrip(e: Election)
    requires Valid(e)
    ensures Trip(e).at == e.at && Highest(Trip(e).ids) == e.n - 1
    ensures Highest(e.ids) == e.n - 1 ==> forall i :: 0 <= i < e.n ==> Trip(e).leaders[i] == e.n - 1
  {
    hide Visits, Highest;
    var upper := e.n - e.at;
    VisitsAdd(e, upper, e.at);
    HighestBelow(e);
    Walk(e, upper);
    var middle := Visits(e, upper);
    assert middle.at == 0 && middle.n == e.n && Highest(middle.ids) == e.n - 1;
    Walk(middle, e.at);
    assert Trip(e) == Visits(middle, e.at);
  }

  function Trips(e: Election, trips: nat): (r: Election)
    requires Valid(e)
    ensures Valid(r) && r.n == e.n
  {
    if trips == 0 then e else Trip(Trips(e, trips - 1))
  }

  /** A single token that starts empty at any node, is never lost and never overtaken,
      makes every node agree on the node with the highest id after two trips, and for good. */
  lemma {:induction false} AllAgree(e: Election, trips: nat)
    requires Valid(e) && trips > 0
    ensures Trips(e, trips).at == e.at && Highest(Trips(e, trips).ids) == e.n - 1
    ensures trips >= 2 ==> forall i :: 0 <= i < e.n ==> Trips(e, trips).leaders[i] == e.n - 1
  {
    hide Trip;
    if trips > 1 { AllAgree(e, trips - 1); }
    OneTrip(Trips(e, trips - 1));
  }
}
