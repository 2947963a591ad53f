/** Background propagation over any sequence of events: who is known to store a
    write, when it stops being sent, and what merging leaves at a node. */
module Background {
  import opened Packet
  import opened Sets
  import opened Node
  import opened Propagation

  // ---------- bookkeeping ----------

  datatype Event =
    | Decided(id: int, quorum: set<int>, key: Key, value: Value, timestamp: nat)
    | Replied(msg: Message)
    | Round

  function Step(b: Book, e: Event): Book {
    match e
    case Decided(id, quorum, key, value, timestamp) => Propagate(b, id, quorum, key, value, timestamp)
    case Replied(m) => Response(b, m)
    case Round => Retire(b)
  }

  function After(b: Book, events: seq<Event>): Book {
    if events == [] then b else Step(After(b, events[..|events| - 1]), events[|events| - 1])
  }

  /** No reply made the process stop. */
  ghost predicate Sound(b: Book, events: seq<Event>) {
    forall i :: 0 <= i < |events| && events[i].Replied? ==> !Conflict(After(b, events[..i]), events[i].msg)
  }

  predicate Known(events: seq<Event>, id: int) {
    exists i :: 0 <= i < |events| && events[i].Decided? && events[i].id == id
  }

  /** The timestamp of the write under this id. */
  function StampOf(events: seq<Event>, id: int): nat {
    if events == [] then 0
    else if events[|events| - 1].Decided? && events[|events| - 1].id == id then events[|events| - 1].timestamp
    else StampOf(events[..|events| - 1], id)
  }

  /** The nodes that took part in the write or have acknowledged it since. */
  function Confirmers(events: seq<Event>, id: int): set<int> {
    if events == [] then {} else
      var e, rest := events[|events| - 1], events[..|events| - 1];
      if e.Decided? && e.id == id then e.quorum
      else if e.Replied? && e.msg.id == id && e.msg.ok && Known(rest, id) then Confirmers(rest, id) + {e.msg.src}
      else Confirmers(rest, id)
  }

  /** Someone has answered the write with a strictly newer value. */
  predicate Overtaken(events: seq<Event>, id: int) {
    if events == [] then false else
      var e, rest := events[|events| - 1], events[..|events| - 1];
      if e.Decided? && e.id == id then false
      else
        || Overtaken(rest, id)
        || (e.Replied? && e.msg.id == id && !e.msg.ok && Known(rest, id) && e.msg.timestamp > StampOf(rest, id))
  }

  lemma KnownGrows(events: seq<Event>, id: int)
    requires events != [] && Known(events[..|events| - 1], id)
    ensures Known(events, id)
  {
    var i :| 0 <= i < |events| - 1 && events[..|events| - 1][i].Decided? && events[..|events| - 1][i].id == id;
    assert events[i].Decided? && events[i].id == id;
  }

  lemma KnownBefore(events: seq<Event>, id: int)
    requires Known(events, id) && !(events[|events| - 1].Decided? && events[|events| - 1].id == id)
    ensures Known(events[..|events| - 1], id)
  {
    var i :| 0 <= i < |events| && events[i].Decided? && events[i].id == id;
    assert events[..|events| - 1][i] == events[i];
  }

  ghost predicate Booked(b: Book, events: seq<Event>, id: int) {
    && (id in b.transactions ==>
          && Known(events, id) && !Overtaken(events, id)
          && b.transactions[id].timestamp == StampOf(events, id)
          && b.transactions[id].nodes == Confirmers(events, id)
          && b.transactions[id].numConfirmedNodes == |b.transactions[id].nodes|)
    && (id !in b.transactions && Known(events, id) ==>
          Overtaken(events, id) || |Confirmers(events, id)| >= b.criticalSize)
  }

  lemma Recording(b: Book, events: seq<Event>, id: int)
    requires events != [] && Booked(b, events[..|events| - 1], id)
    requires events[|events| - 1].Replied? ==> !Conflict(b, events[|events| - 1].msg)
    ensures Booked(Step(b, events[|events| - 1]), events, id)
  {
    var e, rest := events[|events| - 1], events[..|events| - 1];
    if Known(rest, id) {
      KnownGrows(events, id);
    } else if Known(events, id) && !(e.Decided? && e.id == id) {
      KnownBefore(events, id);
    }
    assert Confirmers(rest, id) <= Confirmers(events, id) || (e.Decided? && e.id == id);
    if e.Replied? && e.msg.id == id && e.msg.ok { Larger(Confirmers(rest, id), e.msg.src); }
  }

  lemma Larger(s: set<int>, x: int)
    ensures |s + {x}| == if x in s then |s| else |s| + 1
  {
    if x in s { assert s + {x} == s; }
  }

  /** An entry still kept lists exactly the nodes known to store the write, and
      counts them; one given up was confirmed by n - R + 1 nodes or overtaken. */
  lemma {:induction false} Bookkeeping(id: int, n: nat, r: nat, events: seq<Event>, t: int)
    requires Sound(NewBook(id, n, r), events)
    ensures Booked(After(NewBook(id, n, r), events), events, t)
    ensures After(NewBook(id, n, r), events).criticalSize == n - r + 1 && After(NewBook(id, n, r), events).n == n
  {
    if events != [] {
      var rest := events[..|events| - 1];
      forall i | 0 <= i < |rest| && rest[i].Replied?
        ensures !Conflict(After(NewBook(id, n, r), rest[..i]), rest[i].msg)
      {
        assert rest[..i] == events[..i];
      }
      Bookkeeping(id, n, r, rest, t);
      assert events[..|events| - 1] == rest;
      Recording(After(NewBook(id, n, r), rest), events, t);
    }
  }

  /** Once a write is given up without being overtaken, every read quorum contains a node of
      the write's quorum or one that has acknowledged it. Module Confirmed says what that
      means for the nodes of a run. */
  lemma GivenUpMeetsReaders(id: int, n: nat, r: nat, events: seq<Event>, t: int, readers: set<int>) returns (q: int)
    requires Sound(NewBook(id, n, r), events) && Known(events, t) && !Overtaken(events, t)
    requires t !in After(NewBook(id, n, r), events).transactions
    requires InRange(readers, n) && |readers| >= r && InRange(Confirmers(events, t), n)
    ensures q in readers && q in Confirmers(events, t)
  {
    Bookkeeping(id, n, r, events, t);
    q := Overlap(readers, Confirmers(events, t), n);
  }

  /** After a round, only writes that need more nodes are kept, and each of them is
      sent again to exactly the nodes not known to store it. */
  lemma RoundAsksTheRest(id: int, n: nat, r: nat, events: seq<Event>, t: int, node: int)
    requires Sound(NewBook(id, n, r), events) && 0 <= node < n
    ensures var b := After(NewBook(id, n, r), events);
            && (t in Retire(b).transactions <==> t in b.transactions && |Confirmers(events, t)| < n - r + 1)
            && ((exists m :: m in Requests(b) && m.id == t && m.dest == node) <==>
                t in Retire(b).transactions && node !in Confirmers(events, t))
  {
    Bookkeeping(id, n, r, events, t);
    var b := After(NewBook(id, n, r), events);
    if t in Retire(b).transactions && node !in Confirmers(events, t) {
      assert WriteRequest(b, t, node) in Requests(b);
    }
  }

  // ---------- merging ----------

  /** What a background message does to the store. */
  lemma HandlersAbsorb(n: Node, m: Message)
    requires !Inconsistent(n, m)
    ensures HandleBackgroundWriteReq(n, m).node == Absorb(n, m)
    ensures n.background.Some? && !Conflict(n.background.value, m) && !m.ok ==>
              HandleBackgroundWriteRes(n, m).node.store == Absorb(n, m).store
  {}

  function Merged(n: Node, messages: seq<Message>): Node {
    if messages == [] then n else Absorb(Merged(n, messages[..|messages| - 1]), messages[|messages| - 1])
  }

  function ValueOf(m: Message): Stamped { Stamped(m.timestamp, m.value) }

  /** v is the newest of what the node stored and what it received for the key. */
  ghost predicate NewestOf(n: Node, messages: seq<Message>, key: Key, v: Stamped) {
    && (v == Read(n, key) || exists m :: m in messages && m.key == key && v == ValueOf(m))
    && Read(n, key).timestamp <= v.timestamp
    && forall m :: m in messages && m.key == key ==> m.timestamp <= v.timestamp
  }

  lemma {:induction false} MergeKeepsNewest(n: Node, messages: seq<Message>, key: Key)
    ensures NewestOf(n, messages, key, Read(Merged(n, messages), key))
  {
    if messages != [] {
      var rest, m := messages[..|messages| - 1], messages[|messages| - 1];
      MergeKeepsNewest(n, rest, key);
      assert messages == rest + [m];
      var before, after := Read(Merged(n, rest), key), Read(Merged(n, messages), key);
      assert after == if m.key == key && m.timestamp > before.timestamp then ValueOf(m) else before;
      assert m in messages;
    }
  }

  /** Equal timestamps mean equal values. */
  ghost predicate Agreeing(n: Node, messages: seq<Message>) {
    && (forall m :: m in messages ==> !Inconsistent(n, m))
    && (forall m, u :: m in messages && u in messages && m.key == u.key && m.timestamp == u.timestamp ==>
         m.value == u.value)
  }

  /** In whatever order and how often the same messages arrive, the node ends with the same values. */
  lemma MergeConverges(n: Node, a: seq<Message>, b: seq<Message>, key: Key)
    requires Agreeing(n, a) && Elements(a) == Elements(b)
    ensures Read(Merged(n, a), key) == Read(Merged(n, b), key)
  {
    MergeKeepsNewest(n, a, key);
    MergeKeepsNewest(n, b, key);
    assert forall m :: m in a <==> m in Elements(a);
    assert forall m :: m in b <==> m in Elements(b);
  }
}
