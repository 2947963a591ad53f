/** Where a client's request is: from the moment it is made, in every run, it is on its way,
    waiting at a node, being worked on, or over; or else one of two things has lost it. */
module Requests {
  import opened Packet
  import opened Wrappers
  import opened Sets
  import opened StagedStore
  import opened Node
  import opened Ledgers
  import opened Invariants
  import opened Handlers
  import opened Coordination
  import opened Clusters
  import opened Runs
  import opened Theorems
  import opened Locking
  import opened Timestamps
  import opened FailedWrites
  import Propagation

  // ---------- at one node ----------

  predicate Waiting(n: Node, id: int) {
    exists m :: m in n.lockRequests && IsClientRequest(m) && m.id == id
  }

  predicate WorkedOn(n: Node, id: int) { Coordinates(n) && n.currentTxid == id }

  predicate Coordinates(n: Node) { !n.mode.Idle? && !n.mode.ProcessingWrite? }

  predicate HeldBy(n: Node, id: int) { Waiting(n, id) || WorkedOn(n, id) }

  predicate IsAnswer(x: Message) { x.kind.ClientReadResponse? || x.kind.ClientWriteResponse? }

  /** A request under this id is passed on, answered, or given up by telling its members. */
  predicate Parts(e: Effect, id: int) {
    || (e.reply.Some? && IsAnswer(e.reply.value) && e.reply.value.id == id)
    || (exists x :: x in e.out && x.id == id && (IsClientRequest(x) || (x.kind.UnlockRequest? && !x.ok)))
  }

  /** The node still holds the request, or has parted with it as it may. */
  predicate Keeps(n: Node, e: Effect, id: int) { HeldBy(n, id) ==> HeldBy(e.node, id) || Parts(e, id) }

  /** What every coordinator satisfies. */
  predicate InOrder(n: Node) {
    Coordinates(n) ==> n.quorumMembers.Some? && Peers(n) != {} && n.clientRequest.id == n.currentTxid
  }

  lemma AbortParts(n: Node, q: int)
    requires Coordinates(n) && n.quorumMembers.Some? && q in Peers(n) && n.clientRequest.id == n.currentTxid
    ensures Parts(Abort(n), n.currentTxid) && Abort(n).node.lockRequests == n.lockRequests
  {
    assert Signal(n.clientRequest.id, n.id, q, UnlockRequest, false) in Abort(n).out;
  }

  lemma AbortKeeps(n: Node, n1: Node, id: int)
    requires InOrder(n) && Coordinates(n) && Coordinates(n1) && n1.quorumMembers.Some? && Peers(n1) == Peers(n)
    requires n1.lockRequests == n.lockRequests && n1.currentTxid == n.currentTxid
    requires n1.clientRequest.id == n.clientRequest.id
    ensures Keeps(n, Abort(n1), id)
  {
    var q := Member(Peers(n));
    AbortParts(n1, q);
    hide Abort, Parts;
  }

  lemma CommitKeeps(n: Node, id: int)
    requires InOrder(n) && n.mode.CoordinatingWrite?
    ensures Keeps(n, CommitWrite(n), id)
  {
    hide Abort;
    AbortKeeps(n, n, id);
    var e := CommitWrite(n);
    if e != Abort(n) {
      assert e.reply.Some? && IsAnswer(e.reply.value) && e.reply.value.id == n.currentTxid;
      assert e.node.lockRequests == n.lockRequests;
    }
  }

  lemma StageKeeps(n: Node, id: int)
    requires InOrder(n) && n.mode.CoordinatingWrite?
    ensures Keeps(n, StageWrite(n), id)
  {
    hide Abort, LatestTimestamp, Parts;
    var next := Successor(LatestTimestamp(Read(n, n.clientRequest.key).timestamp, n.quorumMembers.value, Peers(n)));
    AbortKeeps(n, n.(clientRequest := n.clientRequest.(timestamp := next)), id);
  }

  lemma CoordinateKeeps(n: Node, id: int)
    requires InOrder(n) && n.mode.CoordinatingWrite?
    ensures Keeps(n, CoordinateWrite(n), id)
  {
    CommitKeeps(n, id);
    StageKeeps(n, id);
    hide CommitWrite, StageWrite, Parts;
  }

  predicate SameJob(n: Node, n1: Node) {
    && Coordinates(n) && Coordinates(n1) && n1.quorumMembers.Some? && Peers(n1) != {}
    && n1.lockRequests == n.lockRequests && n1.currentTxid == n.currentTxid
    && n1.clientRequest.id == n.clientRequest.id
  }

  lemma SameJobKeeps(n: Node, n1: Node, e: Effect, id: int)
    requires SameJob(n, n1) && Keeps(n1, e, id)
    ensures Keeps(n, e, id)
  {
    hide Parts;
  }

  /** A vote counted by the coordinator it is for. */
  lemma CountKeeps(n: Node, m: Message, c: Choice, id: int)
    requires InOrder(n) && Coordinates(n) && m.src in Peers(n)
    ensures Keeps(n, CountReply(n, m, c), id)
  {
    var n1 := Counted(n, m);
    AbortKeeps(n, n, id);
    CountedJob(n, m);
    if m.ok && Lookup(n.quorumMembers, m.src).kind != m.kind {
      Counts(n, m, c);
      Continues(n1, c);
      hide CountReply, Continue, Abort, CoordinateWrite, Parts;
      if n1.numWaitingNodes == 0 {
        if n.mode.CoordinatingFastRead? {
          FinishKeeps(n1, c, id);
          SameJobKeeps(n, n1, FinishRead(n1, c.latest), id);
        } else {
          var n2 := n1.(mode := CoordinatingWrite);
          CoordinateKeeps(n2, id);
          SameJobKeeps(n, n2, CoordinateWrite(n2), id);
        }
      }
    } else {
      hide Abort, Continue, Parts;
    }
  }

  lemma CountedJob(n: Node, m: Message)
    requires InOrder(n) && Coordinates(n) && m.src in Peers(n)
    ensures SameJob(n, Counted(n, m)) && InOrder(Counted(n, m))
    ensures !n.mode.CoordinatingFastRead? ==>
              SameJob(n, Counted(n, m).(mode := CoordinatingWrite)) && InOrder(Counted(n, m).(mode := CoordinatingWrite))
  {
    assert Peers(Counted(n, m)) == Peers(n) == Peers(Counted(n, m).(mode := CoordinatingWrite));
  }

  lemma FinishKeeps(n: Node, c: Choice, id: int)
    requires InOrder(n) && n.mode.CoordinatingFastRead?
    ensures Keeps(n, FinishRead(n, c.latest), id)
  {}

  /** An unlock, or a reply, that concerns the transaction of the node that gets it. */
  predicate Concerns(n: Node, m: Message) {
    && (m.kind.UnlockRequest? && m.id == n.currentTxid ==> !Coordinates(n))
    && (IsVote(m) && m.ok && m.id == n.currentTxid && Coordinates(n) ==>
          n.quorumMembers.Some? && m.src in Peers(n))
  }

  lemma VoteKeeps(n: Node, m: Message, c: Choice, id: int)
    requires InOrder(n) && Concerns(n, m) && IsVote(m)
    ensures Keeps(n, Dispatch(n, m, c), id)
  {
    if m.id == n.currentTxid && Coordinates(n) {
      if m.ok { CountKeeps(n, m, c, id); } else { AbortKeeps(n, n, id); }
    }
    hide Continue, Abort, Parts;
  }

  /** The queue grows at most, and a coordinator goes on. */
  predicate GoesOn(n: Node, n': Node) {
    n.lockRequests <= n'.lockRequests && (Coordinates(n) ==> Coordinates(n') && n'.currentTxid == n.currentTxid)
  }

  lemma GoingOnKeeps(n: Node, e: Effect, id: int)
    requires GoesOn(n, e.node)
    ensures Keeps(n, e, id)
  {
    hide Parts;
    if Waiting(n, id) {
      var m :| m in n.lockRequests && IsClientRequest(m) && m.id == id;
      assert m in e.node.lockRequests;
    }
  }

  lemma OtherGoesOn(n: Node, m: Message, c: Choice)
    requires Concerns(n, m) && !IsVote(m)
    ensures GoesOn(n, Dispatch(n, m, c).node)
  {
    hide Propagation.Response, StagedStore.Put, StagedStore.Commit, Read;
  }

  lemma DispatchKeeps(n: Node, m: Message, c: Choice, id: int)
    requires InOrder(n) && Concerns(n, m)
    ensures Keeps(n, Dispatch(n, m, c), id)
  {
    hide Dispatch, Keeps, GoesOn;
    if IsVote(m) {
      VoteKeeps(n, m, c, id);
    } else {
      OtherGoesOn(n, m, c);
      GoingOnKeeps(n, Dispatch(n, m, c), id);
    }
  }

  /** A client request that is handled is then held, passed on or answered. */
  lemma RequestTaken(n: Node, m: Message, c: Choice)
    requires IsClientRequest(m)
    ensures HeldBy(Dispatch(n, m, c).node, m.id) || Parts(Dispatch(n, m, c), m.id)
  {
    var e := Dispatch(n, m, c);
    if m in e.node.lockRequests {
      assert Waiting(e.node, m.id);
    } else if m in e.out {
    } else if m.(dest := c.target) in e.out {
      assert IsClientRequest(m.(dest := c.target));
    }
  }

  lemma TakeNextHolds(n: Node, c: Choice, id: int)
    requires n.mode.Idle? ==> n.quorumMembers.None?
    requires n.lockRequests != [] && IsClientRequest(n.lockRequests[0]) ==> n.lockRequests[0].id !in n.unlockTxids
    requires HeldBy(n, id)
    ensures HeldBy(TakeNext(n, c).node, id)
  {
    if n.mode.Idle? {
      var m :| m in n.lockRequests && IsClientRequest(m) && m.id == id;
      assert n.lockRequests == [n.lockRequests[0]] + n.lockRequests[1..];
      TakeNextQueue(n, c);
      if m == n.lockRequests[0] {
        assert WorkedOn(TakeNext(n, c).node, id);
      } else {
        hide TakeNext;
        assert m in TakeNext(n, c).node.lockRequests;
      }
    }
  }

  lemma TimersKeep(n: Node, m: Message, id: int)
    requires InOrder(n)
    ensures Keeps(n, Timeout(n), id)
    ensures (m.id == n.currentTxid && IsClientRequest(m) ==> Coordinates(n)) ==> Keeps(n, RequestTimeout(n, m), id)
  {
    if Coordinates(n) { AbortKeeps(n, n, id); }
    if m in n.lockRequests && Waiting(n, id) { RemovalKeeps(n, m, id); }
    hide Abort, Without, Parts;
  }

  lemma RemovalKeeps(n: Node, m: Message, id: int)
    requires m in n.lockRequests && Waiting(n, id)
    ensures Keeps(n, RequestTimeout(n, m), id)
  {
    var x :| x in n.lockRequests && IsClientRequest(x) && x.id == id;
    var rest := Without(n.lockRequests, m);
    if x != m {
      assert multiset(rest)[x] == multiset(n.lockRequests)[x] > 0;
      assert x in rest;
    }
    hide Without;
  }

  lemma FailKeeps(n: Node, id: int)
    requires !n.mode.ProcessingWrite? && HeldBy(n, id)
    ensures HeldBy(Fail(n), id) || (n.mode.CoordinatingFastRead? && n.currentTxid == id)
  {}

  // ---------- in the whole system ----------

  ghost predicate OnItsWay(s: Cluster, id: int) { exists m :: m in s.once && IsClientRequest(m) && m.id == id }

  ghost predicate HeldIn(s: Cluster, id: int) { exists p :: 0 <= p < |s.nodes| && HeldBy(s.nodes[p], id) }

  ghost predicate HasAnswer(s: Cluster, id: int) { exists x :: x in s.net && IsAnswer(x) && x.id == id }

  /** Its coordinator has told the members to forget it. */
  ghost predicate GivenUp(s: Cluster, id: int) { exists x :: x in s.net && x.kind.UnlockRequest? && !x.ok && x.id == id }

  ghost predicate Accounted(s: Cluster, id: int) {
    OnItsWay(s, id) || HeldIn(s, id) || HasAnswer(s, id) || GivenUp(s, id)
  }

  /** The step loses a request: it reaches a node that is down, or a node crashes while it
      coordinates the read. */
  ghost predicate Loses(s: Cluster, s': Cluster, id: int) {
    || (exists m, c, d ::
          Deliver(s, s', m, c, d) && IsClientRequest(m) && m.id == id && s.nodes[m.dest].disabled)
    || (exists p :: Crash(s, s', p) && s.nodes[p].mode.CoordinatingFastRead? && s.nodes[p].currentTxid == id)
  }

  /** All that an effect sends is there afterwards. */
  ghost predicate Contains(s: Cluster, e: Effect) {
    && (forall x :: x in e.out ==> if OneShot(x) then x in s.once else x in s.net)
    && (e.reply.Some? ==> e.reply.value in s.net)
  }

  lemma PartsAccounted(s: Cluster, e: Effect, id: int)
    requires Contains(s, e) && Parts(e, id)
    ensures Accounted(s, id)
  {
    if e.reply.Some? && IsAnswer(e.reply.value) && e.reply.value.id == id {
      assert HasAnswer(s, id);
    } else {
      var x :| x in e.out && x.id == id && (IsClientRequest(x) || (x.kind.UnlockRequest? && !x.ok));
      if IsClientRequest(x) { assert OnItsWay(s, id); } else { assert GivenUp(s, id); }
    }
  }

  lemma AppliedContains(s: Cluster, p: int, e: Effect)
    requires 0 <= p < |s.nodes|
    ensures Contains(Apply(s, p, e), e)
  {
    forall x | x in e.out && OneShot(x) ensures x in Apply(s, p, e).once {
      assert x in Once(e.out);
    }
  }

  lemma StillContains(s: Cluster, p: int, e: Effect, f: Effect)
    requires 0 <= p < |s.nodes| && Contains(s, e)
    ensures Contains(Apply(s, p, f), e)
  {}

  lemma AppliedOnce(s: Cluster, p: int, e: Effect)
    requires 0 <= p < |s.nodes|
    ensures forall m :: m in s.once ==> m in Apply(s, p, e).once
    ensures s.net <= Apply(s, p, e).net
  {}

  /** What is on its way, answered or given up, other than the request m, stays so. */
  lemma Stays(s: Cluster, s': Cluster, id: int)
    requires s.net <= s'.net && forall m :: m in s.once && IsClientRequest(m) && m.id == id ==> m in s'.once
    requires Accounted(s, id) && !HeldIn(s, id)
    ensures Accounted(s', id)
  {
    if OnItsWay(s, id) {
      var m :| m in s.once && IsClientRequest(m) && m.id == id;
      assert m in s'.once;
    } else if HasAnswer(s, id) {
      var x :| x in s.net && IsAnswer(x) && x.id == id;
      assert x in s'.net;
    } else {
      var x :| x in s.net && x.kind.UnlockRequest? && !x.ok && x.id == id;
      assert x in s'.net;
    }
  }

  lemma OthersHold(s: Cluster, s': Cluster, p: int, q: int, id: int)
    requires 0 <= q < |s.nodes| == |s'.nodes| && q != p && s'.nodes[q] == s.nodes[q] && HeldBy(s.nodes[q], id)
    ensures Accounted(s', id)
  {
    assert HeldIn(s', id);
  }

  // ---------- what the invariant says of a node that acts ----------

  lemma NodeInOrder(cfg: Config, L: Ledger, p: int, n: Node)
    requires LedgerOk(cfg, L) && NodeOk(cfg, L, p, n)
    ensures InOrder(n)
  {
    hide NodeOk, LedgerOk;
    if Coordinates(n) {
      JobUnderway(cfg, L, p, n);
      JobVotes(cfg, L, p, n);
      SomeoneAwaited(n);
    }
  }

  lemma SomeoneAwaited(n: Node)
    requires VotesCounted(n)
    ensures n.quorumMembers.Some? && Peers(n) != {}
  {
    var q := Member(Awaiting(n.quorumMembers.value, Peers(n), Awaited(n)));
    assert q in Peers(n);
  }

  lemma MessageConcerns(cfg: Config, L: Ledger, p: int, n: Node, m: Message)
    requires LedgerOk(cfg, L) && NodeOk(cfg, L, p, n) && Deliverable(cfg, L, m) && m.dest == p
    ensures Concerns(n, m)
  {
    hide NodeOk;
    if Coordinates(n) && m.id == n.currentTxid {
      JobUnderway(cfg, L, p, n);
      assert TxOk(cfg, L.history, m.id, L.txs[m.id]);
    }
    hide LedgerOk;
  }

  lemma TakesInOrder(cfg: Config, L: Ledger, p: int, n: Node)
    requires LedgerOk(cfg, L) && NodeOk(cfg, L, p, n)
    ensures n.mode.Idle? ==> n.quorumMembers.None?
    ensures n.lockRequests != [] && IsClientRequest(n.lockRequests[0]) ==> n.lockRequests[0].id !in n.unlockTxids
  {
    hide NodeOk, LedgerOk;
    IdleHasNoQuorum(cfg, L, p, n);
    if n.lockRequests != [] && IsClientRequest(n.lockRequests[0]) { HeadNotUnlocked(cfg, L, p, n); }
  }

  // ---------- one step ----------

  /** A node has acted, with effects e and f, and still holds the request or has parted with it. */
  lemma ActorAccounts(s1: Cluster, s': Cluster, p: int, e: Effect, f: Effect, id: int)
    requires 0 <= p < |s1.nodes| && s' == Apply(Apply(s1, p, e), p, f)
    requires Parts(e, id) || HeldBy(f.node, id)
    ensures Accounted(s', id)
  {
    hide Accounted, Parts, HeldBy;
    if Parts(e, id) {
      AppliedContains(s1, p, e);
      StillContains(Apply(s1, p, e), p, e, f);
      hide Contains, Apply;
      PartsAccounted(s', e, id);
    } else {
      HolderAccounts(s', p, id);
    }
  }

  lemma HolderAccounts(s: Cluster, p: int, id: int)
    requires 0 <= p < |s.nodes| && HeldBy(s.nodes[p], id)
    ensures Accounted(s, id)
  {
    assert HeldIn(s, id);
  }

  lemma TwiceOnce(s1: Cluster, s': Cluster, p: int, e: Effect, f: Effect)
    requires 0 <= p < |s1.nodes| && s' == Apply(Apply(s1, p, e), p, f)
    ensures s1.net <= s'.net && |s'.nodes| == |s1.nodes|
    ensures forall m :: m in s1.once ==> m in s'.once
    ensures forall q :: 0 <= q < |s1.nodes| && q != p ==> s'.nodes[q] == s1.nodes[q]
    ensures s'.nodes[p] == f.node
  {
    AppliedOnce(s1, p, e);
    AppliedOnce(Apply(s1, p, e), p, f);
  }

  /** What a node does to a request: two effects, the second of which is to take the next request. */
  lemma Acts(s: Cluster, s1: Cluster, s': Cluster, p: int, e: Effect, f: Effect, id: int)
    requires 0 <= p < |s.nodes| && s1 == s.(once := s1.once) && s' == Apply(Apply(s1, p, e), p, f)
    requires Keeps(s.nodes[p], e, id) && (HeldBy(e.node, id) ==> HeldBy(f.node, id))
    requires (forall m :: m in s.once && IsClientRequest(m) && m.id == id ==> m in s1.once)
      || HeldBy(e.node, id) || Parts(e, id)
    requires Accounted(s, id)
    ensures Accounted(s', id)
  {
    hide Accounted, HeldBy, Parts;
    TwiceOnce(s1, s', p, e, f);
    if Parts(e, id) || HeldBy(e.node, id) {
      ActorAccounts(s1, s', p, e, f, id);
    } else if HeldIn(s, id) {
      var q :| 0 <= q < |s.nodes| && HeldBy(s.nodes[q], id);
      if q != p { OthersHold(s, s', p, q, id); }
    } else {
      Stays(s, s', id);
    }
  }

  lemma Lost(s: Cluster, s': Cluster, m: Message, c: Choice, d: Choice)
    requires Deliver(s, s', m, c, d) && IsClientRequest(m) && s.nodes[m.dest].disabled
    ensures Loses(s, s', m.id)
  {
    hide Deliver, Crash;
  }

  lemma NothingMoves(s: Cluster, s': Cluster, id: int)
    requires s'.nodes == s.nodes && s.net <= s'.net
    requires forall m :: m in s.once && IsClientRequest(m) && m.id == id ==> m in s'.once
    requires Accounted(s, id)
    ensures Accounted(s', id)
  {
    if HeldIn(s, id) {
      var q :| 0 <= q < |s.nodes| && HeldBy(s.nodes[q], id);
      HolderAccounts(s', q, id);
    } else {
      Stays(s, s', id);
    }
  }

  /** What delivering m takes out of the net of requests: at most the request m itself. */
  lemma OthersWait(s: Cluster, m: Message, id: int)
    requires IsClientRequest(m) ==> m.id != id
    ensures forall x :: x in s.once && x.id == id && IsClientRequest(x) ==> x in Consume(s, m).once
  {}

  lemma DeliverAccounts(s: Cluster, s': Cluster, L: Ledger, m: Message, c: Choice, d: Choice, id: int)
    requires Inv(s, L) && Deliver(s, s', m, c, d) && |s.trace| + 1 < TIMESTAMPS && Accounted(s, id)
    ensures Accounted(s', id) || Loses(s, s', id)
  {
    hide Inv, NodeOk, LedgerOk, EffectOk, Dispatch, TakeNext, Deliverable, ChoiceOk, LateStamp, OnceOk, PeersOk;
    hide Accounted, Loses, HeldBy, Parts, Concerns, InOrder;
    ConsumeOk(s, L, m);
    var p, s1 := m.dest, Consume(s, m);
    if !IsClientRequest(m) || m.id != id { OthersWait(s, m, id); }
    if s.nodes[p].disabled {
      if IsClientRequest(m) && m.id == id { Lost(s, s', m, c, d); } else { NothingMoves(s, s', id); }
    } else {
      var n, e := s.nodes[p], Dispatch(s.nodes[p], m, c);
      NodeAt(s1, L, p);
      NodeInOrder(s.cfg, L, p, n);
      MessageConcerns(s.cfg, L, p, n, m);
      DispatchKeeps(n, m, c, id);
      if IsClientRequest(m) && m.id == id { RequestTaken(n, m, c); }
      var L1 := DispatchOk(s.cfg, L, p, n, m, c);
      EffectNode(s.cfg, L, L1, p, m, e);
      EffectParts(s.cfg, L, L1, p, m, e);
      hide Consume;
      TakesHeld(s.cfg, L1, p, e.node, d, id);
      Acts(s, s1, s', p, e, TakeNext(e.node, d), id);
    }
  }

  lemma TakesHeld(cfg: Config, L: Ledger, p: int, n: Node, d: Choice, id: int)
    requires LedgerOk(cfg, L) && NodeOk(cfg, L, p, n)
    ensures HeldBy(n, id) ==> HeldBy(TakeNext(n, d).node, id)
  {
    hide NodeOk, LedgerOk, TakeNext, HeldBy;
    TakesInOrder(cfg, L, p, n);
    if HeldBy(n, id) { TakeNextHolds(n, d, id); }
  }

  lemma TickAccounts(s: Cluster, s': Cluster, L: Ledger, p: int, d: Choice, id: int)
    requires Inv(s, L) && Tick(s, s', p, d) && Accounted(s, id)
    ensures Accounted(s', id)
  {
    hide Inv, NodeOk, LedgerOk, EffectOk, TakeNext, PeersOk, Timeout, Accounted, HeldBy, Parts, InOrder;
    NodeAt(s, L, p);
    var n, e := s.nodes[p], Timeout(s.nodes[p]);
    NodeInOrder(s.cfg, L, p, n);
    TimersKeep(n, ZERO_MESSAGE, id);
    var L1 := TimeoutOk(s.cfg, L, p, n);
    EffectNode(s.cfg, L, L1, p, ZERO_MESSAGE, e);
    EffectParts(s.cfg, L, L1, p, ZERO_MESSAGE, e);
    TakesHeld(s.cfg, L1, p, e.node, d, id);
    Acts(s, s, s', p, e, TakeNext(e.node, d), id);
  }

  /** One effect alone. */
  lemma ActsOnce(s: Cluster, p: int, e: Effect, id: int)
    requires 0 <= p < |s.nodes| && Keeps(s.nodes[p], e, id) && Accounted(s, id)
    ensures Accounted(Apply(s, p, e), id)
  {
    hide Accounted, HeldBy, Parts;
    var s' := Apply(s, p, e);
    AppliedOnce(s, p, e);
    if HeldBy(e.node, id) {
      HolderAccounts(s', p, id);
    } else if Parts(e, id) {
      AppliedContains(s, p, e);
      PartsAccounted(s', e, id);
    } else if HeldIn(s, id) {
      var q :| 0 <= q < |s.nodes| && HeldBy(s.nodes[q], id);
      OthersHold(s, s', p, q, id);
    } else {
      Stays(s, s', id);
    }
  }

  lemma ExpireAccounts(s: Cluster, s': Cluster, L: Ledger, p: int, m: Message, id: int)
    requires Inv(s, L) && Expire(s, s', p, m) && Accounted(s, id)
    ensures Accounted(s', id)
  {
    hide Inv, NodeOk, LedgerOk, RequestTimeout, Accounted, HeldBy, Parts, InOrder;
    NodeAt(s, L, p);
    var n := s.nodes[p];
    NodeInOrder(s.cfg, L, p, n);
    if m.id == n.currentTxid && IsClientRequest(m) { TimedCurrent(s.cfg, L, p, n, m); }
    TimersKeep(n, m, id);
    ActsOnce(s, p, RequestTimeout(n, m), id);
  }

  lemma CrashAccounts(s: Cluster, s': Cluster, p: int, id: int)
    requires Crash(s, s', p) && Accounted(s, id)
    ensures Accounted(s', id) || Loses(s, s', id)
  {
    var n := s.nodes[p];
    if n.mode.CoordinatingFastRead? && n.currentTxid == id {
      hide Deliver;
      assert Loses(s, s', id);
    } else {
      if HeldBy(n, id) { FailKeeps(n, id); }
      hide Fail, Accounted, HeldBy, Parts, Loses;
      ActsOnce(s, p, Silent(Fail(n)), id);
    }
  }

  lemma QuietAccounts(s: Cluster, p: int, e: Effect, id: int)
    requires 0 <= p < |s.nodes| && Accounted(s, id)
    requires e == Silent(Recover(s.nodes[p])) || e == StreamWrites(s.nodes[p])
    ensures Accounted(Apply(s, p, e), id)
  {
    var n := s.nodes[p];
    hide Recover, StreamWrites, Accounted, HeldBy, Parts;
    assert HeldBy(n, id) ==> HeldBy(e.node, id) by {
      if HeldBy(n, id) { QuietKeeps(n, id); }
    }
    ActsOnce(s, p, e, id);
  }

  lemma QuietKeeps(n: Node, id: int)
    requires HeldBy(n, id)
    ensures HeldBy(Recover(n), id) && HeldBy(StreamWrites(n).node, id)
  {
    hide Propagation.Retire, Propagation.Requests;
  }

  lemma StepAccounts(s: Cluster, s': Cluster, L: Ledger, id: int)
    requires Inv(s, L) && Next(s, s') && Accounted(s, id)
    ensures Accounted(s', id) || Loses(s, s', id)
  {
    hide Inv, Deliver, Tick, Expire, Fail, Recover, StreamWrites, Accounted, Loses;
    if m :| Invoke(s, s', m) {
      NothingMoves(s, s', id);
    } else if m, c, d :| Deliver(s, s', m, c, d) {
      DeliverAccounts(s, s', L, m, c, d, id);
    } else if p, d :| Tick(s, s', p, d) {
      TickAccounts(s, s', L, p, d, id);
    } else if p, m :| Expire(s, s', p, m) {
      ExpireAccounts(s, s', L, p, m, id);
    } else if p :| Crash(s, s', p) {
      CrashAccounts(s, s', p, id);
    } else if p :| Restart(s, s', p) {
      QuietAccounts(s, p, Silent(Recover(s.nodes[p])), id);
    } else {
      var p :| Clusters.Propagate(s, s', p);
      QuietAccounts(s, p, StreamWrites(s.nodes[p]), id);
    }
  }

  lemma InvokeAccounts(s: Cluster, s': Cluster, m: Message)
    requires Invoke(s, s', m)
    ensures Accounted(s', m.id)
  {
    assert OnItsWay(s', m.id);
  }

  // ---------- whole runs ----------

  ghost predicate LosesAt(run: seq<Cluster>, k: nat, id: int) { k + 1 < |run| && Loses(run[k], run[k + 1], id) }

  lemma LostBefore(run: seq<Cluster>, k: nat, id: int)
    requires |run| > 0 && LosesAt(run[..|run| - 1], k, id)
    ensures LosesAt(run, k, id)
  {
    hide Loses;
    assert run[..|run| - 1][k] == run[k] && run[..|run| - 1][k + 1] == run[k + 1];
  }

  lemma LostNow(run: seq<Cluster>, id: int)
    requires |run| > 1 && Loses(run[|run| - 2], run[|run| - 1], id)
    ensures LosesAt(run, |run| - 2, id)
  {
    hide Loses;
  }

  /** What a step adds to the trace, if anything, are answers. */
  ghost predicate OnlyAnswers(s: Cluster, s': Cluster) {
    s.trace <= s'.trace && forall i :: |s.trace| <= i < |s'.trace| ==> s'.trace[i].Returned?
  }

  lemma EffectAnswers(s: Cluster, p: int, e: Effect)
    requires 0 <= p < |s.nodes|
    ensures OnlyAnswers(s, Apply(s, p, e))
  {}

  lemma TwoEffectsAnswer(s: Cluster, p: int, e: Effect, f: Effect)
    requires 0 <= p < |s.nodes|
    ensures OnlyAnswers(s, Apply(Apply(s, p, e), p, f))
  {
    EffectAnswers(s, p, e);
    EffectAnswers(Apply(s, p, e), p, f);
  }

  lemma DeliverAnswers(s: Cluster, s': Cluster, m: Message, c: Choice, d: Choice)
    requires Deliver(s, s', m, c, d)
    ensures OnlyAnswers(s, s')
  {
    hide Dispatch, TakeNext, ChoiceOk, LateStamp, PeersOk, Apply, OnlyAnswers;
    var n, s1 := s.nodes[m.dest], Consume(s, m);
    if n.disabled {
      assert s'.trace == s.trace;
      NoAnswers(s, s');
    } else {
      var e := Dispatch(n, m, c);
      TwoEffectsAnswer(s1, m.dest, e, TakeNext(e.node, d));
      SameTrace(s, s1, s');
    }
  }

  lemma NoAnswers(s: Cluster, s': Cluster)
    requires s'.trace == s.trace
    ensures OnlyAnswers(s, s')
  {}

  lemma SameTrace(s: Cluster, s1: Cluster, s': Cluster)
    requires s1.trace == s.trace && OnlyAnswers(s1, s')
    ensures OnlyAnswers(s, s')
  {}

  /** Only a client's request adds a request to the trace. */
  lemma NewEvent(s: Cluster, s': Cluster, i: nat)
    requires Next(s, s') && |s.trace| <= i < |s'.trace| && s'.trace[i].Invoked?
    ensures Invoke(s, s', s'.trace[i].request)
  {
    hide Invoke, Deliver, Tick, Expire, Fail, Recover, StreamWrites, TakeNext, Timeout, RequestTimeout, PeersOk, Apply;
    if m :| Invoke(s, s', m) {
      Invoking(s, s', m, i);
    } else if m, c, d :| Deliver(s, s', m, c, d) {
      DeliverAnswers(s, s', m, c, d);
    } else if p, d :| Tick(s, s', p, d) {
      TickAnswers(s, s', p, d);
    } else if p, m :| Expire(s, s', p, m) {
      ExpireAnswers(s, s', p, m);
    } else if p :| Crash(s, s', p) {
      EffectAnswers(s, p, Silent(Fail(s.nodes[p])));
    } else if p :| Restart(s, s', p) {
      EffectAnswers(s, p, Silent(Recover(s.nodes[p])));
    } else {
      var p :| Clusters.Propagate(s, s', p);
      EffectAnswers(s, p, StreamWrites(s.nodes[p]));
    }
  }

  lemma Invoking(s: Cluster, s': Cluster, m: Message, i: nat)
    requires Invoke(s, s', m) && |s.trace| <= i < |s'.trace|
    ensures s'.trace[i] == Invoked(m)
  {}

  lemma TickAnswers(s: Cluster, s': Cluster, p: int, d: Choice)
    requires Tick(s, s', p, d)
    ensures OnlyAnswers(s, s')
  {
    hide TakeNext, Timeout, PeersOk, OnlyAnswers;
    TwoEffectsAnswer(s, p, Timeout(s.nodes[p]), TakeNext(Timeout(s.nodes[p]).node, d));
  }

  lemma ExpireAnswers(s: Cluster, s': Cluster, p: int, m: Message)
    requires Expire(s, s', p, m)
    ensures OnlyAnswers(s, s')
  {
    hide RequestTimeout, OnlyAnswers;
    EffectAnswers(s, p, RequestTimeout(s.nodes[p], m));
  }

  /** In every run, every request ever made is on its way, waiting or being worked on at a node,
      answered, or given up; or a step of the run has lost it. */
  lemma {:induction false} NothingIsForgotten(run: seq<Cluster>, i: nat)
    requires IsRun(run) && i < |Last(run).trace| && Last(run).trace[i].Invoked?
    ensures var id := Last(run).trace[i].request.id;
            Accounted(Last(run), id) || exists k :: LosesAt(run, k, id)
  {
    hide Inv, Next, Accounted, Loses, Invoke;
    var shorter, s' := run[..|run| - 1], Last(run);
    if |run| == 1 {
      assert false;
    }
    PrefixRun(run, |run| - 2);
    assert run[..|run| - 2 + 1] == shorter;
    assert Next(run[|run| - 2], run[|run| - 2 + 1]);
    hide IsRun;
    var s, id := Last(shorter), s'.trace[i].request.id;
    TraceGrows(s, s');
    if i < |s.trace| {
      assert s.trace[i] == s'.trace[i];
      NothingIsForgotten(shorter, i);
      if k :| LosesAt(shorter, k, id) {
        LostBefore(run, k, id);
      } else {
        var L := RunOk(shorter);
        StepAccounts(s, s', L, id);
        if Loses(s, s', id) { LostNow(run, id); }
      }
    } else {
      NewEvent(s, s', i);
      InvokeAccounts(s, s', s'.trace[i].request);
    }
  }

  lemma AnsweredWrite(s: Cluster, L: Ledger, id: int)
    requires Inv(s, L) && id in L.txs && IsWrite(L.txs[id].request) && (HasAnswer(s, id) || GivenUp(s, id))
    ensures Succeeded(s.trace, id) || ToldOfFailure(s, id)
  {
    WriteOver(s, L, id);
    hide Inv, Succeeded, ToldOfFailure;
    if L.txs[id].stage.Finished? { FailureReachesClient(s, L, id); } else { SuccessIsSeen(s, L, id); }
  }

  lemma WriteOver(s: Cluster, L: Ledger, id: int)
    requires Inv(s, L) && id in L.txs && IsWrite(L.txs[id].request) && (HasAnswer(s, id) || GivenUp(s, id))
    ensures L.txs[id].stage.Finished? || L.txs[id].stage.Committed?
  {
    if HasAnswer(s, id) {
      var x :| x in s.net && IsAnswer(x) && x.id == id;
      NetMessage(s, L, x);
    } else {
      var x :| x in s.net && x.kind.UnlockRequest? && !x.ok && x.id == id;
      NetMessage(s, L, x);
    }
    hide Inv;
  }

  lemma SuccessIsSeen(s: Cluster, L: Ledger, id: int)
    requires Inv(s, L) && id in L.txs && L.txs[id].stage.Committed?
    ensures Succeeded(s.trace, id)
  {
    assert DecidedAcked(L, s.trace) && LedgerOk(s.cfg, L);
    hide Inv;
    assert TxOk(s.cfg, L.history, id, L.txs[id]);
    var d := L.history[L.txs[id].index];
    assert Acknowledged(s.trace, d);
    var j :| 0 <= j < |s.trace| && Acknowledges(s.trace[j], d);
    assert WriteDone(s.trace[j]) && s.trace[j].answer.id == id;
    hide LedgerOk;
  }

  /** In every run, every write ever asked for is on its way, waiting or being worked on at a
      node, acknowledged, or answered with a failure; or it reached a node that was down. */
  lemma WritesAreAccounted(run: seq<Cluster>, i: nat)
    requires IsRun(run) && i < |Last(run).trace| && Last(run).trace[i].Invoked? && IsWrite(Last(run).trace[i].request)
    ensures var s, id := Last(run), Last(run).trace[i].request.id;
            || OnItsWay(s, id) || HeldIn(s, id) || Succeeded(s.trace, id) || ToldOfFailure(s, id)
            || exists k :: LosesAt(run, k, id)
  {
    NothingIsForgotten(run, i);
    var L := RunOk(run);
    var s, id := Last(run), Last(run).trace[i].request.id;
    assert RequestsKnown(L, s.trace);
    hide Inv, IsRun, OnItsWay, HeldIn, HasAnswer, GivenUp, Succeeded, ToldOfFailure;
    if HasAnswer(s, id) || GivenUp(s, id) { AnsweredWrite(s, L, id); }
  }
}
