/** The node as the program runs it: fields updated in place by handler methods,
    each proved to implement the handler function of the same name in module Node.
    What the program leaves to chance is returned as a ghost Choice. */
module Dbnode {
  import opened Packet
  import opened Wrappers
  import opened Sets
  import opened StagedStore
  import opened N = Node
  import opened Propagation
  import Boundaries

  /** What was put on the outgoing channel between two contents of it. */
  function Between(before: seq<Message>, after: seq<Message>): set<Message>
    requires before <= after
  {
    Elements(after[|before|..])
  }

  ghost predicate Performs(before: seq<Message>, after: seq<Message>, e: Effect) {
    before <= after && Between(before, after) == Messages(e)
  }

  lemma SentMore(before: seq<Message>, middle: seq<Message>, after: seq<Message>)
    requires before <= middle <= after
    ensures before <= after
    ensures Between(before, after) == Between(before, middle) + Between(middle, after)
  {
    assert after[|before|..] == middle[|before|..] + after[|middle|..];
    ElementsAppend(middle[|before|..], after[|middle|..]);
  }

  lemma SentOne(before: seq<Message>, m: Message)
    ensures Between(before, before) == {}
    ensures before <= before + [m] && Between(before, before + [m]) == {m}
  {
    assert (before + [m])[|before|..] == [m];
  }

  ghost predicate QuorumOk(n: Node, size: int, peers: set<int>) {
    (forall q :: q in peers ==> 0 <= q < n.config.n && q != n.id) && |peers| == size - 1
  }

  ghost predicate ContinueChoice(n: Node, c: Choice) {
    && (n.mode.CoordinatingFastRead? ==> QuorumOk(n, n.config.r, c.peers))
    && (n.mode.AssemblingQuorum? ==> QuorumOk(n, n.config.w, c.peers))
    && (n.mode.CoordinatingFastRead? && n.quorumMembers.Some? ==>
          IsLatest(Read(n, n.clientRequest.key), n.quorumMembers.value, c.latest))
  }

  lemma SomeLatest(local: Stamped, replies: map<int, Message>) returns (best: Stamped)
    ensures IsLatest(local, replies, best)
  {
    var t := LatestTimestamp(local.timestamp, replies, replies.Keys);
    if t == local.timestamp {
      best := local;
    } else {
      var q :| q in replies.Keys && replies[q].timestamp == t;
      best := Stamped(replies[q].timestamp, replies[q].value);
    }
  }

  /** A random order of the numbers below n. */
  method Perm(n: nat) returns (p: seq<int>)
    ensures |p| == n && Permutation(p)
  {
    p := [];
    var rest := Below(n);
    while rest != {}
      invariant |p| + |rest| == n
      invariant forall x :: x in rest ==> 0 <= x < n && x !in p
      invariant forall i :: 0 <= i < |p| ==> 0 <= p[i] < n
      invariant forall i, j :: 0 <= i < j < |p| ==> p[i] != p[j]
    {
      ghost var some := Member(rest);
      var x :| x in rest;
      p := p + [x];
      rest := rest - {x};
    }
  }

  ghost function CastTo(txid: int, id: int, peers: set<int>, kind: Kind, key: Key, value: Value, timestamp: nat,
      ok: bool): set<Message> {
    set q | q in peers :: Message(txid, id, q, kind, key, value, timestamp, ok)
  }

  lemma CastMore(txid: int, id: int, peers: set<int>, kind: Kind, key: Key, value: Value, timestamp: nat, ok: bool,
      q: int)
    ensures CastTo(txid, id, peers + {q}, kind, key, value, timestamp, ok) ==
            CastTo(txid, id, peers, kind, key, value, timestamp, ok) +
                {Message(txid, id, q, kind, key, value, timestamp, ok)}
  {}

  lemma UnlocksCast(n: Node, txid: int, ok: bool)
    requires n.quorumMembers.Some?
    ensures Unlocks(n, txid, ok) ==
            CastTo(txid, n.id, n.quorumMembers.value.Keys - {n.id}, UnlockRequest, [], [], 0, ok)
  {
    var cast := CastTo(txid, n.id, n.quorumMembers.value.Keys - {n.id}, UnlockRequest, [], [], 0, ok);
    forall m ensures m in Unlocks(n, txid, ok) <==> m in cast {
      if m in cast { assert m == Signal(txid, n.id, m.dest, UnlockRequest, ok) && m.dest in Peers(n); }
    }
  }

  lemma AbortParts(n: Node)
    ensures N.Abort(n).node == Reset(RolledBack(n))
    ensures AbortUnlocks(RolledBack(n)) == AbortUnlocks(n) && Messages(N.Abort(RolledBack(n))) == Messages(N.Abort(n))
  {}

  /** The i-th node drawn; the node itself is replaced by the last one. */
  function Pick(drawn: seq<int>, i: nat, id: int): int
    requires i < |drawn|
  {
    if drawn[i] == id then |drawn| else drawn[i]
  }

  ghost function Picked(drawn: seq<int>, i: nat, id: int): set<int>
    requires i <= |drawn|
  {
    if i == 0 then {} else Picked(drawn, i - 1, id) + {Pick(drawn, i - 1, id)}
  }

  ghost predicate Permutation(p: seq<int>) {
    (forall i :: 0 <= i < |p| ==> 0 <= p[i] < |p|) && forall i, j :: 0 <= i < j < |p| ==> p[i] != p[j]
  }

  /** The first i draws are i distinct nodes, none of them the node itself. */
  lemma {:induction false} PicksAreDistinct(drawn: seq<int>, i: nat, id: int)
    requires Permutation(drawn) && i <= |drawn| && 0 <= id <= |drawn|
    ensures |Picked(drawn, i, id)| == i
    ensures forall q :: q in Picked(drawn, i, id) ==>
            0 <= q <= |drawn| && q != id && exists j :: 0 <= j < i && q == Pick(drawn, j, id)
  {
    if i > 0 {
      PicksAreDistinct(drawn, i - 1, id);
      assert Pick(drawn, i - 1, id) !in Picked(drawn, i - 1, id);
    }
  }

  lemma DrawnQuorum(n: Node, drawn: seq<int>, size: nat)
    requires Permutation(drawn) && 1 <= size <= |drawn| + 1 == n.config.n && 0 <= n.id < n.config.n
    ensures QuorumOk(n, size, Picked(drawn, size - 1, n.id))
  {
    PicksAreDistinct(drawn, size - 1, n.id);
  }

  /** Whether a quorum is one depends on nothing that a node changes. */
  lemma SameQuorum(n: Node, size: int, peers: set<int>)
    requires QuorumOk(n, size, peers)
    ensures forall n': Node :: n'.id == n.id && n'.config == n.config ==> QuorumOk(n', size, peers)
  {}

  lemma AskedMore(n: Node, peers: set<int>, kind: Kind, q: int)
    ensures AskedOf(n, peers + {q}, kind) == AskedOf(n, peers, kind)[q := QuorumRequest(n, q, kind)]
    ensures QuorumRequests(n, peers + {q}, kind) == QuorumRequests(n, peers, kind) + {QuorumRequest(n, q, kind)}
  {}

  lemma Assembled(n: Node, size: nat, kind: Kind, peers: set<int>)
    ensures var e := N.AssembleQuorum(n, size, kind, peers);
            var asked := AskedOf(n, peers, kind);
            var all := if kind.LockRequestNoTimeout? then asked[n.id := Marker(TimestampRequest, 0)] else asked;
            && Messages(e) == QuorumRequests(n, peers, kind)
            && e.node == n.(quorumMembers := Some(all), numWaitingNodes := size as int - 1)
  {}

  lemma TimestampsCast(n: Node)
    requires n.quorumMembers.Some?
    ensures Messages(N.RequestTimestamps(n)) ==
            CastTo(n.clientRequest.id, n.id, n.quorumMembers.value.Keys - {n.id}, TimestampRequest,
                n.clientRequest.key, [], 0, true)
  {}

  lemma StagingCast(n: Node, next: nat)
    requires n.quorumMembers.Some?
    ensures PutRequestsTo(n, next) == CastTo(n.clientRequest.id, n.id, n.quorumMembers.value.Keys - {n.id}, PutRequest,
                                             n.clientRequest.key, n.clientRequest.value, next, true)
  {}

  /** Choosing a timestamp either gives up a strong write or stages the write. */
  lemma StagingCases(n: Node, next: nat)
    requires n.quorumMembers.Some?
    requires next == Successor(LatestTimestamp(Read(n, n.clientRequest.key).timestamp, n.quorumMembers.value, Peers(n)))
    ensures N.StageWrite(n) ==
            if n.clientRequest.kind.ClientStrongWriteRequest? && n.clientRequest.timestamp != next
            then Abort(n.(clientRequest := n.clientRequest.(timestamp := next)))
            else Effect(Staged(n, next), PutRequestsTo(n, next), None)
  {}

  lemma NothingAsked(n: Node, before: seq<Message>, kind: Kind)
    ensures AskedOf(n, {}, kind) == map[] && QuorumRequests(n, {}, kind) == {} == Between(before, before)
  {}

  lemma SentNothing(before: seq<Message>)
    ensures before <= before && Between(before, before) == {}
  {}

  ghost function AnyChoice(n: Node, m: Message): (c: Choice)
    ensures ChoiceOk(n, m, c)
  {
    if n.quorumMembers.None? then Choice({}, ABSENT, 0, 0) else
      var local, replies := Read(n, n.clientRequest.key), n.quorumMembers.value[m.src := m];
      assert exists best :: IsLatest(local, replies, best) by { var best := SomeLatest(local, replies); }
      var best :| IsLatest(local, replies, best);
      Choice({}, best, 0, 0)
  }

  lemma QueuedLast(n: Node, m: Message, c: Choice)
    requires Queues(n, m, c)
    ensures N.Dispatch(n, m, c).node == n.(lockRequests := n.lockRequests + [m], timers := n.timers + {m})
  {}

  /** The head of the queue, and so the quorum it needs, is the same either way. */
  lemma SamePeers(n: Node, m: Message, c: Choice, d: Choice)
    requires Overwrites(n, m, c)
    ensures PeersOk(Overwritten(n), d) <==> PeersOk(N.Dispatch(n, m, c).node, d)
  {
    QueuedLast(n, m, c);
  }

  /** The elector's answers matter only to writes sent by clients. */
  lemma ElectorsChoice(n: Node, m: Message, c: Choice, leader: int, target: int)
    requires ChoiceOk(n, m, c)
    ensures ChoiceOk(n, m, c.(leader := leader, target := target))
    ensures N.HandleLockRes(n, m, c) == N.HandleLockRes(n, m, c.(leader := leader, target := target))
    ensures N.HandleGetRes(n, m, c) == N.HandleGetRes(n, m, c.(leader := leader, target := target))
    ensures N.HandlePutRes(n, m, c) == N.HandlePutRes(n, m, c.(leader := leader, target := target))
  {
    hide IsLatest, CoordinateWrite, Abort, N.AssembleQuorum, N.FinishRead;
  }

  function Started(n: Node, m: Message): Node {
    n.(currentTxid := m.id, clientRequest := m,
       mode := if IsRead(m) then CoordinatingFastRead else if IsWrite(m) then AssemblingQuorum else n.mode)
  }

  lemma StartCases(n: Node, m: Message)
    ensures IsClientRequest(m) ==> forall c :: N.Start(n, m, c) == Continue(Started(n, m), c)
    ensures m.kind.LockRequestNoTimeout? ==>
              var r := Signal(m.id, n.id, m.src, LockResponse, true);
              forall c :: N.Start(n, m, c) == Effect(Started(n, m).(mode := ProcessingWrite), {r}, None)
    ensures !IsClientRequest(m) && !m.kind.LockRequestNoTimeout? ==> forall c :: N.Start(n, m, c) == Exit(Started(n, m))
    ensures forall r :: Messages(Effect(Started(n, m).(mode := ProcessingWrite), {r}, None)) == {r}
    ensures Messages(Exit(Started(n, m))) == {}
  {
    hide Continue;
  }

  lemma TimeoutCases(n: Node, m: Message)
    ensures m in n.lockRequests ==>
              && N.RequestTimeout(n, m).node == n.(lockRequests := Without(n.lockRequests, m))
              && Messages(N.RequestTimeout(n, m)) == {Refusal(n, m)}
    ensures m !in n.lockRequests ==>
              N.RequestTimeout(n, m) == if m.id == n.currentTxid && IsClientRequest(m) then Abort(n) else Silent(n)
    ensures Messages(Silent(n)) == {}
  {
    hide Abort, Without;
  }

  ghost function AnyPeers(n: Node, size: nat): (peers: set<int>)
    requires 0 <= n.id < n.config.n && 1 <= size <= n.config.n
    ensures QuorumOk(n, size, peers)
  {
    var drawn := seq(n.config.n - 1, i => i);
    assert Permutation(drawn);
    DrawnQuorum(n, drawn, size);
    Picked(drawn, size - 1, n.id)
  }

  function QuorumSize(n: Node): nat {
    if n.lockRequests != [] && IsRead(n.lockRequests[0]) then n.config.r else n.config.w
  }

  class Dbnode {
    const id: int
    const config: Config
    const numPeers: nat
    const background: Propagater?

    var currentMode: Mode
    var currentTxid: int
    var lockRequests: seq<Message>
    var timers: set<Message>
    var clientRequest: Message
    var quorumMembers: Option<map<int, Message>>
    var numWaitingNodes: int
    var uncommittedTxid: int
    var uncommittedKey: Option<Key>
    var unlockTxids: set<int>
    var disabled: bool
    var exited: bool
    var store: Store<Key, Stamped>
    var outgoing: seq<Message>

    ghost predicate Valid() {
      0 <= id < config.n == numPeers + 1 && 1 <= config.r <= config.n && 2 <= config.w <= config.n
    }

    ghost function State(): Node
      reads this, background
    {
      Node(id, config, currentMode, currentTxid, lockRequests, timers, clientRequest, quorumMembers, numWaitingNodes,
           uncommittedTxid, uncommittedKey, unlockTxids, disabled, exited, store,
           if background == null then None else Some(background.State()))
    }

    ghost predicate Did(before: seq<Message>, e: Effect)
      reads this, background
    {
      State() == e.node && Performs(before, outgoing, e)
    }

    constructor (id: int, config: Config)
      requires 0 <= id < config.n && 1 <= config.r <= config.n && 2 <= config.w <= config.n
      ensures Valid() && State() == New(id, config) && outgoing == []
      ensures background == null || fresh(background)
    {
      this.id, this.config, numPeers := id, config, config.n - 1;
      currentMode, currentTxid, lockRequests, timers := Idle, -1, [], {};
      clientRequest, quorumMembers, numWaitingNodes := ZERO_MESSAGE, None, 0;
      uncommittedTxid, uncommittedKey, unlockTxids := 0, None, {};
      disabled, exited, store, outgoing := false, false, StagedStore.Empty(), [];
      var p: Propagater? := null;
      if config.sloppy { p := new Propagater(id, config.n, config.r); }
      background := p;
    }

    method Send(m: Message)
      modifies this`outgoing
      ensures old(outgoing) <= outgoing && Between(old(outgoing), outgoing) == {m}
    {
      SentOne(outgoing, m);
      outgoing := outgoing + [m];
    }

    /** Sends to every other member of the quorum. */
    method Broadcast(kind: Kind, key: Key, value: Value, timestamp: nat, ok: bool)
      requires quorumMembers.Some?
      modifies this`outgoing
      ensures old(outgoing) <= outgoing
      ensures Between(old(outgoing), outgoing) ==
              CastTo(clientRequest.id, id, quorumMembers.value.Keys - {id}, kind, key, value, timestamp, ok)
    {
      ghost var before, txid, done := outgoing, clientRequest.id, {};
      var rest := quorumMembers.value.Keys;
      assert Between(before, outgoing) == CastTo(txid, id, done, kind, key, value, timestamp, ok);
      hide Between;
      while rest != {}
        invariant rest <= quorumMembers.value.Keys && done == quorumMembers.value.Keys - rest - {id}
        invariant before <= outgoing
        invariant Between(before, outgoing) == CastTo(txid, id, done, kind, key, value, timestamp, ok)
      {
        ghost var some := Member(rest);
        ghost var middle := outgoing;
        var node :| node in rest;
        if node != id {
          CastMore(txid, id, done, kind, key, value, timestamp, ok, node);
          Send(Message(clientRequest.id, id, node, kind, key, value, timestamp, ok));
          SentMore(before, middle, outgoing);
          done := done + {node};
        }
        rest := rest - {node};
      }
      assert done == quorumMembers.value.Keys - {id};
    }

    method RollBackStaged()
      modifies this`store, this`uncommittedTxid, this`uncommittedKey
      ensures State() == RolledBack(old(State()))
    {
      if uncommittedTxid > 0 {
        store := Rollback(store, uncommittedTxid);
        uncommittedTxid, uncommittedKey := 0, None;
      }
    }

    method UnlockMembers()
      modifies this`outgoing
      ensures old(outgoing) <= outgoing && Between(old(outgoing), outgoing) == AbortUnlocks(State())
    {
      if quorumMembers.Some? {
        UnlocksCast(State(), clientRequest.id, false);
        Broadcast(UnlockRequest, [], [], 0, false);
      }
    }

    method AnswerAbort()
      modifies this`outgoing
      ensures old(outgoing) <= outgoing
      ensures AbortUnlocks(State()) + Between(old(outgoing), outgoing) == Messages(N.Abort(State()))
    {
      SentNothing(outgoing);
      match currentMode {
        case AssemblingQuorum | CoordinatingWrite =>
          Send(Message(clientRequest.id, id, clientRequest.src, ClientWriteResponse,
                       clientRequest.key, clientRequest.value, clientRequest.timestamp, false));
        case ProcessingWrite =>
          Send(Signal(clientRequest.id, id, clientRequest.src, UnlockAck, false));
        case _ =>
      }
    }

    method AbortProcessing()
      modifies this
      ensures Did(old(outgoing), N.Abort(old(State())))
    {
      ghost var n, before := State(), outgoing;
      AbortParts(n);
      hide Abort, AbortUnlocks, RolledBack, Between, Messages;
      RollBackStaged();
      UnlockMembers();
      ghost var middle := outgoing;
      AnswerAbort();
      SentMore(before, middle, outgoing);
      currentMode, currentTxid, quorumMembers, numWaitingNodes := Idle, -1, None, 0;
    }

    method Ask(node: int, requestType: Kind) returns (m: Message)
      modifies this`outgoing
      ensures m == QuorumRequest(State(), node, requestType)
      ensures old(outgoing) <= outgoing && Between(old(outgoing), outgoing) == {m}
    {
      var key, value := [], [];
      if requestType.GetRequest? { key, value := clientRequest.key, clientRequest.value; }
      m := Message(clientRequest.id, id, node, requestType, key, value, 0, true);
      Send(m);
    }

    /** Asks the first `count` nodes drawn, with the last node in place of this one. */
    method AskDrawn(drawn: seq<int>, count: nat, requestType: Kind) returns (members: map<int, Message>)
      requires count <= |drawn| == numPeers
      modifies this`outgoing
      ensures members == AskedOf(State(), Picked(drawn, count, id), requestType)
      ensures old(outgoing) <= outgoing
      ensures Between(old(outgoing), outgoing) == QuorumRequests(State(), Picked(drawn, count, id), requestType)
    {
      ghost var n, before := State(), outgoing;
      members := map[];
      NothingAsked(n, before, requestType);
      hide Between, AskedOf, QuorumRequests, QuorumRequest;
      for i := 0 to count
        invariant State() == n && members == AskedOf(n, Picked(drawn, i, id), requestType)
        invariant before <= outgoing
        invariant Between(before, outgoing) == QuorumRequests(n, Picked(drawn, i, id), requestType)
      {
        var node := drawn[i];
        if node == id { node := numPeers; }
        AskedMore(n, Picked(drawn, i, id), requestType, node);
        ghost var middle := outgoing;
        var m := Ask(node, requestType);
        members := members[node := m];
        SentMore(before, middle, outgoing);
      }
    }

    /** Draws quorumSize - 1 distinct other nodes and asks each of them. */
    method AssembleQuorum(quorumSize: nat, requestType: Kind) returns (ghost peers: set<int>)
      requires Valid() && 1 <= quorumSize <= config.n
      modifies this`outgoing, this`quorumMembers, this`numWaitingNodes
      ensures QuorumOk(State(), quorumSize, peers)
      ensures Did(old(outgoing), N.AssembleQuorum(old(State()), quorumSize, requestType, peers))
    {
      ghost var n := State();
      var drawn := Perm(numPeers);
      DrawnQuorum(n, drawn, quorumSize);
      peers := Picked(drawn, quorumSize - 1, id);
      Assembled(n, quorumSize, requestType, peers);
      SameQuorum(n, quorumSize, peers);
      hide Between, Permutation, AskedOf, QuorumRequests, Messages, N.AssembleQuorum, Picked, QuorumOk;
      var members := AskDrawn(drawn, quorumSize - 1, requestType);
      if requestType.LockRequestNoTimeout? { members := members[id := Marker(TimestampRequest, 0)]; }
      quorumMembers, numWaitingNodes := Some(members), quorumSize - 1;
    }

    function Stored(key: Key): Stamped
      reads this
    {
      OrAbsent(Get(store, key))
    }

    // ---------- continueProcessing ----------

    method NewestReply() returns (best: Stamped)
      requires quorumMembers.Some?
      ensures IsLatest(Stored(clientRequest.key), quorumMembers.value, best)
    {
      best := Stored(clientRequest.key);
      var replies := quorumMembers.value;
      var rest := replies.Keys;
      while rest != {}
        invariant rest <= replies.Keys && Stored(clientRequest.key).timestamp <= best.timestamp
        invariant forall q :: q in replies && q !in rest ==> replies[q].timestamp <= best.timestamp
        invariant best == Stored(clientRequest.key) ||
                  exists q :: q in replies && best == Stamped(replies[q].timestamp, replies[q].value)
      {
        ghost var some := Member(rest);
        var q :| q in rest;
        if replies[q].timestamp > best.timestamp { best := Stamped(replies[q].timestamp, replies[q].value); }
        rest := rest - {q};
      }
    }

    method FinishRead() returns (ghost latest: Stamped)
      requires quorumMembers.Some?
      modifies this
      ensures IsLatest(Read(old(State()), old(clientRequest.key)), old(quorumMembers).value, latest)
      ensures Did(old(outgoing), N.FinishRead(old(State()), latest))
    {
      var best := NewestReply();
      latest := best;
      Send(Message(clientRequest.id, id, clientRequest.src, ClientReadResponse,
                   clientRequest.key, best.value, best.timestamp, true));
      BackToIdle();
    }

    method BackToIdle()
      modifies this`currentMode, this`currentTxid, this`quorumMembers, this`numWaitingNodes
      ensures State() == Reset(old(State()))
    {
      currentMode, currentTxid, quorumMembers, numWaitingNodes := Idle, -1, None, 0;
    }

    /** The write has all its locks: ask for timestamps. */
    method RequestTimestamps()
      requires quorumMembers.Some?
      modifies this
      ensures Did(old(outgoing), N.RequestTimestamps(old(State())))
    {
      TimestampsCast(State());
      hide Between, CastTo, Messages;
      Broadcast(TimestampRequest, clientRequest.key, [], 0, true);
      quorumMembers := Some(quorumMembers.value[id := Marker(PutRequest, 0)]);
      numWaitingNodes := config.w - 1;
    }

    method NewestTimestamp() returns (latest: nat)
      requires quorumMembers.Some?
      ensures latest == LatestTimestamp(Stored(clientRequest.key).timestamp, quorumMembers.value,
              quorumMembers.value.Keys - {id})
    {
      latest := Stored(clientRequest.key).timestamp;
      var replies := quorumMembers.value;
      ghost var peers := replies.Keys - {id};
      var rest := replies.Keys;
      while rest != {}
        invariant rest <= replies.Keys && Stored(clientRequest.key).timestamp <= latest
        invariant forall q :: q in peers && q !in rest ==> replies[q].timestamp <= latest
        invariant latest == Stored(clientRequest.key).timestamp || exists q ::
            q in peers && replies[q].timestamp == latest
      {
        ghost var some := Member(rest);
        var q :| q in rest;
        if q != id && replies[q].timestamp > latest { latest := replies[q].timestamp; }
        rest := rest - {q};
      }
    }

    method Stage(next: nat)
      requires quorumMembers.Some?
      modifies this
      ensures Did(old(outgoing), Effect(Staged(old(State()), next), PutRequestsTo(old(State()), next), None))
    {
      StagingCast(State(), next);
      hide Between, CastTo, PutRequestsTo;
      store := Put(store, clientRequest.key, Stamped(next, clientRequest.value));
      uncommittedTxid, uncommittedKey := store.txid, Some(clientRequest.key);
      Broadcast(PutRequest, clientRequest.key, clientRequest.value, next, true);
      quorumMembers := Some(quorumMembers.value[id := Marker(UnlockRequest, next)]);
      numWaitingNodes := config.w - 1;
    }

    /** The timestamps are known: choose the next one, and stage the write everywhere. */
    method StageWrite()
      requires quorumMembers.Some?
      modifies this
      ensures Did(old(outgoing), N.StageWrite(old(State())))
    {
      hide Between, Messages, Abort, LatestTimestamp, Staged, PutRequestsTo;
      var latest := NewestTimestamp();
      var next := Successor(latest);
      StagingCases(State(), next);
      hide N.StageWrite;
      if clientRequest.kind.ClientStrongWriteRequest? && clientRequest.timestamp != next {
        clientRequest := clientRequest.(timestamp := next);
        AbortProcessing();
      } else {
        Stage(next);
      }
    }

    method Announce(timestamp: nat)
      requires quorumMembers.Some?
      modifies background
      ensures State() == Announced(old(State()), timestamp)
    {
      if background != null {
        background.PropagateTransaction(clientRequest.id, quorumMembers.value, clientRequest.key, clientRequest.value,
            timestamp);
      }
    }

    /** The write is committed here: tell the members, the client and the propagater. */
    method Conclude()
      requires quorumMembers.Some?
      modifies this, background
      ensures Did(old(outgoing), Concluded(old(State())))
    {
      ghost var n, before := State(), outgoing;
      UnlocksCast(n, n.clientRequest.id, true);
      hide Between, CastTo, Unlocks, Announced;
      Broadcast(UnlockRequest, [], [], 0, true);
      ghost var middle := outgoing;
      var timestamp := Lookup(quorumMembers, id).timestamp;
      Send(Message(clientRequest.id, id, clientRequest.src, ClientWriteResponse,
                   clientRequest.key, clientRequest.value, timestamp, true));
      SentMore(before, middle, outgoing);
      Announce(timestamp);
      BackToIdle();
    }

    /** Every member has staged the write: commit. */
    method CommitWrite()
      requires quorumMembers.Some?
      modifies this, background
      ensures Did(old(outgoing), N.CommitWrite(old(State())))
    {
      hide Concluded, Between, Abort, Messages;
      if uncommittedKey.None? || !CanCommit(store, uncommittedKey.value, uncommittedTxid) {
        AbortProcessing();
      } else {
        store := Commit(store, uncommittedKey.value, uncommittedTxid);
        uncommittedTxid, uncommittedKey := 0, None;
        Conclude();
      }
    }

    method CoordinateWrite()
      modifies this, background
      ensures Did(old(outgoing), N.CoordinateWrite(old(State())))
    {
      hide N.RequestTimestamps, N.StageWrite, N.CommitWrite, Between;
      SentNothing(outgoing);
      match Lookup(quorumMembers, id).kind {
        case TimestampRequest => RequestTimestamps();
        case PutRequest => StageWrite();
        case UnlockRequest => CommitWrite();
        case _ =>
      }
    }

    method ContinueProcessing() returns (ghost c: Choice)
      requires Valid()
      modifies this, background
      ensures ContinueChoice(old(State()), c) && Did(old(outgoing), N.Continue(old(State()), c))
    {
      hide N.CoordinateWrite, N.FinishRead, N.AssembleQuorum, IsLatest, Between;
      SentNothing(outgoing);
      c := Choice(AnyPeers(State(), if currentMode.CoordinatingFastRead? then config.r else config.w), ABSENT, 0, 0);
      match currentMode {
        case CoordinatingFastRead =>
          if quorumMembers.None? {
            ghost var peers := AssembleQuorum(config.r, GetRequest);
            c := c.(peers := peers);
          } else {
            ghost var latest := FinishRead();
            c := c.(latest := latest);
          }
        case CoordinatingWrite => CoordinateWrite();
        case AssemblingQuorum =>
          if quorumMembers.None? {
            ghost var peers := AssembleQuorum(config.w, LockRequestNoTimeout);
            c := c.(peers := peers);
          } else {
            currentMode := CoordinatingWrite;
            CoordinateWrite();
          }
        case _ =>
      }
    }

    /** Counts the first reply of each member; with the last one the transaction goes on. */
    method CountReply(m: Message) returns (ghost c: Choice)
      requires Valid()
      modifies this, background
      ensures ChoiceOk(old(State()), m, c) && Did(old(outgoing), N.CountReply(old(State()), m, c))
    {
      SentNothing(outgoing);
      c := AnyChoice(State(), m);
      hide N.Continue, Abort, IsLatest, Between;
      if !m.ok {
        AbortProcessing();
      } else if Lookup(quorumMembers, m.src).kind != m.kind {
        if quorumMembers.None? {
          exited := true;
        } else {
          quorumMembers := Some(quorumMembers.value[m.src := m]);
          numWaitingNodes := numWaitingNodes - 1;
          if numWaitingNodes == 0 { c := ContinueProcessing(); }
        }
      }
    }

    // ---------- the handlers ----------

    method Enqueue(m: Message)
      modifies this
      ensures Did(old(outgoing), N.Enqueue(old(State()), m))
    {
      SentNothing(outgoing);
      lockRequests, timers := lockRequests + [m], timers + {m};
    }

    method ProcessLocalRead(m: Message)
      modifies this
      ensures Did(old(outgoing), N.ProcessLocalRead(old(State()), m))
    {
      if uncommittedKey.Some? && |uncommittedKey.value| > 0 {
        Send(m);
      } else {
        var v := Stored(m.key);
        Send(Message(m.id, id, m.src, ClientReadResponse, m.key, v.value, v.timestamp, true));
      }
    }

    method HandleLockRes(m: Message) returns (ghost c: Choice)
      requires Valid() && m.kind.LockResponse?
      modifies this, background
      ensures ChoiceOk(old(State()), m, c) && Did(old(outgoing), N.HandleLockRes(old(State()), m, c))
    {
      hide N.CountReply, Between;
      SentNothing(outgoing);
      c := Choice({}, ABSENT, 0, 0);
      if currentTxid == m.id && currentMode.AssemblingQuorum? {
        c := CountReply(m);
      } else if m.ok {
        Send(Signal(m.id, id, m.src, UnlockRequest, false));
      }
    }

    method CommitStaged(m: Message)
      modifies this`store, this`uncommittedKey, this`uncommittedTxid
      ensures State() == N.CommitStaged(old(State()), m)
    {
      if currentTxid == m.id && uncommittedTxid > 0 && m.ok {
        if uncommittedKey.Some? { store := Commit(store, uncommittedKey.value, uncommittedTxid); }
        uncommittedKey, uncommittedTxid := None, 0;
      }
    }

    method HandleUnlockReq(m: Message)
      modifies this
      ensures Did(old(outgoing), N.HandleUnlockReq(old(State()), m))
    {
      CommitStaged(m);
      hide N.CommitStaged, Between;
      if currentTxid == m.id { currentMode, currentTxid := Idle, -1; }
      unlockTxids := unlockTxids + {m.id};
      Send(Signal(m.id, id, m.src, UnlockAck, true));
    }

    method HandleGetReq(m: Message)
      modifies this
      ensures Did(old(outgoing), N.HandleGetReq(old(State()), m))
    {
      var value, timestamp, ok := [], 0, false;
      if uncommittedKey.None? {
        var v := Stored(m.key);
        value, timestamp, ok := v.value, v.timestamp, true;
      }
      Send(Message(m.id, id, m.src, GetResponse, m.key, value, timestamp, ok));
    }

    method HandleGetRes(m: Message) returns (ghost c: Choice)
      requires Valid()
      modifies this, background
      ensures ChoiceOk(old(State()), m, c) && Did(old(outgoing), N.HandleGetRes(old(State()), m, c))
    {
      hide N.CountReply, Between;
      SentNothing(outgoing);
      c := AnyChoice(State(), m);
      if currentTxid == m.id && (currentMode.CoordinatingWrite? || currentMode.CoordinatingFastRead?) {
        c := CountReply(m);
      }
    }

    method HandlePutReq(m: Message)
      modifies this
      ensures Did(old(outgoing), N.HandlePutReq(old(State()), m))
    {
      var ok := false;
      if currentMode.ProcessingWrite? && currentTxid == m.id {
        store := Put(store, m.key, Stamped(m.timestamp, m.value));
        uncommittedTxid := store.txid;
        if uncommittedTxid > 0 {
          uncommittedKey := Some(m.key);
          ok := true;
        }
      }
      Send(Message(m.id, id, m.src, PutResponse, m.key, m.value, m.timestamp, ok));
    }

    method HandlePutRes(m: Message) returns (ghost c: Choice)
      requires Valid() && m.kind.PutResponse?
      modifies this, background
      ensures ChoiceOk(old(State()), m, c) && Did(old(outgoing), N.HandlePutRes(old(State()), m, c))
    {
      hide N.CountReply, Between;
      SentNothing(outgoing);
      c := Choice({}, ABSENT, 0, 0);
      if currentTxid == m.id && currentMode.CoordinatingWrite? { c := CountReply(m); }
    }

    method HandleTimestampReq(m: Message)
      modifies this
      ensures Did(old(outgoing), N.HandleTimestampReq(old(State()), m))
    {
      var timestamp := 0;
      if currentMode.ProcessingWrite? && currentTxid == m.id { timestamp := Stored(m.key).timestamp; }
      Send(Message(m.id, id, m.src, GetResponse, m.key, [], timestamp, true));
    }

    method Absorb(m: Message)
      modifies this`store
      ensures State() == N.Absorb(old(State()), m)
    {
      if m.timestamp > Stored(m.key).timestamp {
        store := Put(store, m.key, Stamped(m.timestamp, m.value));
        store := Commit(store, m.key, store.txid);
      }
    }

    method HandleBackgroundWriteReq(m: Message)
      modifies this
      ensures Did(old(outgoing), N.HandleBackgroundWriteReq(old(State()), m))
    {
      SentNothing(outgoing);
      var current := Stored(m.key);
      if m.timestamp == current.timestamp && m.value != current.value {
        exited := true;
        return;
      }
      hide N.Absorb, Between;
      if m.timestamp >= current.timestamp {
        Absorb(m);
        Send(Message(m.id, id, m.src, BackgroundWriteResponse, m.key, m.value, m.timestamp, true));
      } else {
        Send(Message(m.id, id, m.src, BackgroundWriteResponse, m.key, current.value, current.timestamp, false));
      }
    }

    method HandleBackgroundWriteRes(m: Message)
      requires m.kind.BackgroundWriteResponse?
      modifies this, background
      ensures Did(old(outgoing), N.HandleBackgroundWriteRes(old(State()), m))
    {
      SentNothing(outgoing);
      hide N.Absorb, Propagation.Response, Propagation.Conflict, Between;
      if background == null {
        exited := true;
        return;
      }
      var fatal := background.HandleResponse(m);
      if fatal {
        exited := true;
        return;
      }
      if !m.ok {
        var current := Stored(m.key);
        if m.timestamp == current.timestamp && m.value != current.value {
          exited := true;
        } else {
          Absorb(m);
        }
      }
    }

    // ---------- the main loop ----------

    /** What one message makes the node do, before it looks at its queue. Who is
        leader, and where the elector forwards a write, is up to the elector. */
    method Dispatch(m: Message, leader: int, target: int) returns (ghost c: Choice)
      requires Valid()
      modifies this, background
      ensures c.leader == leader && c.target == target
      ensures ChoiceOk(old(State()), m, c) && Did(old(outgoing), N.Dispatch(old(State()), m, c))
    {
      ghost var n := State();
      SentNothing(outgoing);
      c := AnyChoice(n, m);
      ElectorsChoice(n, m, c, leader, target);
      c := c.(leader := leader, target := target);
      hide N.Enqueue, N.ProcessLocalRead, N.HandleLockRes, N.HandleUnlockReq;
      hide N.HandleGetReq, N.HandleGetRes, N.HandlePutReq;
      hide N.HandlePutRes, N.HandleTimestampReq, N.HandleBackgroundWriteReq;
      hide N.HandleBackgroundWriteRes, Between, ChoiceOk;
      match m.kind {
        case ClientWriteRequest | ClientStrongWriteRequest =>
          if leader == id { Enqueue(m); } else { Send(m.(dest := target)); }
        case ClientReadRequest =>
          if config.r == 1 { ProcessLocalRead(m); } else { Enqueue(m); }
        case LockRequestNoTimeout => Enqueue(m);
        case LockResponse =>
          c := HandleLockRes(m);
          ElectorsChoice(n, m, c, leader, target);
        case UnlockRequest => HandleUnlockReq(m);
        case UnlockAck =>
        case GetRequest => HandleGetReq(m);
        case GetResponse =>
          c := HandleGetRes(m);
          ElectorsChoice(n, m, c, leader, target);
        case PutRequest => HandlePutReq(m);
        case PutResponse =>
          c := HandlePutRes(m);
          ElectorsChoice(n, m, c, leader, target);
        case TimestampRequest => HandleTimestampReq(m);
        case BackgroundWriteRequest => HandleBackgroundWriteReq(m);
        case BackgroundWriteResponse => HandleBackgroundWriteRes(m);
        case _ => exited := true;
      }
      c := c.(leader := leader, target := target);
    }

    method StartRequest(m: Message) returns (ghost c: Choice)
      requires Valid() && IsClientRequest(m)
      modifies this, background
      ensures QuorumOk(old(State()), if IsRead(m) then config.r else config.w, c.peers)
      ensures Did(old(outgoing), N.Continue(Started(old(State()), m), c))
    {
      hide N.Continue, Between, IsLatest;
      currentTxid, clientRequest := m.id, m;
      currentMode := if IsRead(m) then CoordinatingFastRead else AssemblingQuorum;
      c := ContinueProcessing();
    }

    method Start(m: Message) returns (ghost c: Choice)
      requires Valid()
      modifies this, background
      ensures QuorumOk(old(State()), if IsRead(m) then config.r else config.w, c.peers)
      ensures Did(old(outgoing), N.Start(old(State()), m, c))
    {
      SentNothing(outgoing);
      StartCases(State(), m);
      hide N.Start, N.Continue, Between, Messages;
      if IsClientRequest(m) {
        c := StartRequest(m);
      } else {
        c := Choice(AnyPeers(State(), config.w), ABSENT, 0, 0);
        currentTxid, clientRequest := m.id, m;
        if m.kind.LockRequestNoTimeout? {
          currentMode := ProcessingWrite;
          Send(Signal(m.id, id, m.src, LockResponse, true));
        } else {
          exited := true;
        }
      }
    }

    /** An idle node takes the oldest request waiting for it. */
    method TakeNext() returns (ghost c: Choice)
      requires Valid()
      modifies this, background
      ensures PeersOk(old(State()), c) && Did(old(outgoing), N.TakeNext(old(State()), c))
    {
      SentNothing(outgoing);
      c := Choice(AnyPeers(State(), QuorumSize(State())), ABSENT, 0, 0);
      hide N.Start, Between;
      if currentMode.Idle? && lockRequests != [] {
        var m := lockRequests[0];
        lockRequests := lockRequests[1..];
        if m.id !in unlockTxids { c := Start(m); }
      }
    }

    /** The last entry of the queue and its timer are the variable m; the head is assigned to it. */
    method Overwrite(timersBefore: set<Message>)
      requires |lockRequests| >= 2
      modifies this`lockRequests, this`timers
      ensures var rest := old(lockRequests)[..|old(lockRequests)| - 1];
              && State() == old(State()).(lockRequests := rest + [rest[0]], timers := timersBefore + {rest[0]})
    {
      var msg := lockRequests[0];
      lockRequests := lockRequests[..|lockRequests| - 1] + [msg];
      timers := timersBefore + {msg};
    }

    /** One message: handle it, then see whether a queued request can start. If the
        message was itself queued, and the node is idle, taking the head overwrites it. */
    method Receive(m: Message, leader: int, target: int)
      returns (ghost c: Choice, ghost d: Choice, ghost middle: seq<Message>)
      requires Valid() && !exited
      modifies this, background
      ensures old(disabled) ==> State() == old(State()) && outgoing == old(outgoing)
      ensures !old(disabled) ==>
                var e := N.Dispatch(old(State()), m, c);
                && ChoiceOk(old(State()), m, c) && c.leader == leader && c.target == target
                && Performs(old(outgoing), middle, e)
                && if e.node.exited then Did(middle, Silent(e.node))
                   else PeersOk(e.node, d) && Did(middle, TakeNextShared(old(State()), m, c, d))
    {
      ghost var n := State();
      hide N.Dispatch, N.TakeNext, Between, ChoiceOk, PeersOk;
      c, d, middle := Choice({}, ABSENT, 0, 0), Choice({}, ABSENT, 0, 0), outgoing;
      if !disabled {
        var timersBefore := timers;
        var queued := (IsWrite(m) && leader == id) || (IsRead(m) && config.r != 1) || m.kind.LockRequestNoTimeout?;
        c := Dispatch(m, leader, target);
        middle := outgoing;
        SentNothing(middle);
        assert queued <==> Queues(n, m, c);
        if queued { QueuedLast(n, m, c); }
        if !exited {
          if queued && currentMode.Idle? && |lockRequests| > 1 { Overwrite(timersBefore); }
          d := TakeNext();
          if Overwrites(n, m, c) { SamePeers(n, m, c, d); }
        }
      }
    }

    /** The clock has seen no other message since it last fired. */
    method Tick() returns (ghost d: Choice, ghost middle: seq<Message>)
      requires Valid()
      modifies this, background
      ensures Performs(old(outgoing), middle, N.Timeout(old(State())))
      ensures PeersOk(N.Timeout(old(State())).node, d) && Did(middle, N.TakeNext(N.Timeout(old(State())).node, d))
    {
      hide N.Abort, N.TakeNext, Between, PeersOk;
      SentNothing(outgoing);
      if currentMode.CoordinatingWrite? || currentMode.AssemblingQuorum? { AbortProcessing(); }
      middle := outgoing;
      d := TakeNext();
    }

    /** A request has been waiting for too long. */
    method RequestTimeout(m: Message)
      requires Valid() && !disabled
      modifies this
      ensures Did(old(outgoing), N.RequestTimeout(old(State()), m))
    {
      SentNothing(outgoing);
      TimeoutCases(State(), m);
      hide N.RequestTimeout, N.Abort, Between, Without, Messages;
      if m in lockRequests {
        lockRequests := Without(lockRequests, m);
        var kind := if IsRead(m) then ClientReadResponse else if IsWrite(m) then ClientWriteResponse else LockResponse;
        Send(Message(m.id, id, m.src, kind, m.key, m.value, 0, false));
      } else if m.id == currentTxid && IsClientRequest(m) {
        AbortProcessing();
      }
    }

    method ControlFail()
      modifies this
      ensures outgoing == old(outgoing)
      ensures State() == if old(disabled) then old(State()) else N.Fail(old(State()))
    {
      if !disabled {
        disabled := true;
        if !currentMode.CoordinatingWrite? && !currentMode.AssemblingQuorum? {
          currentMode, currentTxid, clientRequest, quorumMembers := Idle, -1, ZERO_MESSAGE, None;
        }
      }
    }

    method ControlRecover()
      modifies this
      ensures outgoing == old(outgoing) && State() == N.Recover(old(State()))
    {
      disabled := false;
    }

    /** The propagater's round: its requests leave through this node's channel. */
    method StreamWrites()
      modifies this`outgoing, background
      ensures Did(old(outgoing), N.StreamWrites(old(State())))
    {
      SentNothing(outgoing);
      if background != null {
        var sent := background.StreamWrites();
        assert (outgoing + sent)[|outgoing|..] == sent;
        outgoing := outgoing + sent;
      }
    }

    /** Forgets finished transactions whose ids trail the newest by more than 50. */
    method CleanUnlockTxids()
      modifies this`unlockTxids
      ensures State() == Boundaries.Pruned(old(State()))
    {
      var threshold := 0;
      var rest := unlockTxids;
      while rest != {}
        invariant rest <= unlockTxids == old(unlockTxids) && threshold >= 0
        invariant threshold == 0 || threshold in unlockTxids
        invariant forall x :: x in unlockTxids && x !in rest ==> x <= threshold
      {
        ghost var some := Member(rest);
        var x :| x in rest;
        if x > threshold { threshold := x; }
        rest := rest - {x};
      }
      assert threshold == Boundaries.NewestId(unlockTxids);
      threshold := threshold - 50;
      rest := unlockTxids;
      while rest != {}
        invariant rest <= old(unlockTxids)
        invariant unlockTxids == set x | x in old(unlockTxids) && (x in rest || x >= threshold)
      {
        ghost var some := Member(rest);
        var x :| x in rest;
        if x < threshold { unlockTxids := unlockTxids - {x}; }
        rest := rest - {x};
      }
    }
  }
}
