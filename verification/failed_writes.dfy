/** How writes that do not succeed end: each is answered with a failure, a strong write
    with the timestamp it should have asked for. */
module FailedWrites {
  import opened Packet
  import opened Wrappers
  import opened Sets
  import opened StagedStore
  import opened Node
  import opened Ledgers
  import opened Invariants
  import opened Handlers
  import opened Coordination
  import opened Clusters
  import opened Runs
  import opened Theorems
  import opened Timestamps

  /** A write under this id has been asked for. */
  ghost predicate WriteAsked(trace: seq<Event>, id: int) {
    exists i :: 0 <= i < |trace| && trace[i].Invoked? && IsWrite(trace[i].request) && trace[i].request.id == id
  }

  /** The client of this write has been told that it failed. */
  ghost predicate ToldOfFailure(s: Cluster, id: int) {
    exists m :: m in s.net && m.dest == s.cfg.n && IsFailure(m, id)
  }

  lemma WriteKnown(L: Ledger, trace: seq<Event>, id: int)
    requires RequestsKnown(L, trace)
    ensures WriteAsked(trace, id) <==> id in L.txs && IsWrite(L.txs[id].request)
  {
    if id in L.txs {
      assert Asked(trace, id);
      var i :| 0 <= i < |trace| && trace[i].Invoked? && trace[i].request.id == id;
    }
  }

  lemma FailureReachesClient(s: Cluster, L: Ledger, id: int)
    requires Inv(s, L) && id in L.txs && WriteFailed(L.txs[id])
    ensures ToldOfFailure(s, id)
  {
    assert FailureSent(s.net, id);
    var m :| m in s.net && IsFailure(m, id);
    NetMessage(s, L, m);
    hide Inv;
  }

  lemma FailureIsFor(s: Cluster, L: Ledger, id: int)
    requires Inv(s, L) && ToldOfFailure(s, id)
    ensures id in L.txs && L.txs[id].stage.Finished?
  {
    var m :| m in s.net && IsFailure(m, id);
    NetMessage(s, L, m);
    hide Inv;
  }

  /** When a member of a write is told to abort, the client has been told of the failure. */
  lemma AbortedWritesAreAnswered(run: seq<Cluster>, a: Message)
    requires IsRun(run) && a in Last(run).net && a.kind.UnlockRequest? && WriteAsked(Last(run).trace, a.id)
    ensures !a.ok <==> ToldOfFailure(Last(run), a.id)
  {
    var L := RunOk(run);
    var s := Last(run);
    NetMessage(s, L, a);
    assert RequestsKnown(L, s.trace);
    hide IsRun;
    WriteKnown(L, s.trace, a.id);
    hide Inv, ToldOfFailure;
    if ToldOfFailure(s, a.id) { FailureIsFor(s, L, a.id); }
    if !a.ok { FailureReachesClient(s, L, a.id); }
  }

  // ---------- strong writes ----------

  /** m brings the coordinator n of a write the last timestamp it waits for. */
  predicate LastTimestamp(n: Node, m: Message) {
    && n.mode.CoordinatingWrite? && n.quorumMembers.Some? && n.currentTxid == m.id && m.kind.GetResponse?
    && Lookup(n.quorumMembers, n.id).kind.PutRequest?
    && var members := n.quorumMembers.value;
       && m.src in members && m.src != n.id && members[m.src].kind != GetResponse
       && forall q :: q in members && q != m.src && q != n.id ==> members[q].kind.GetResponse?
  }

  /** The client is told that its write failed, and at what timestamp it might have succeeded. */
  predicate Refused(s: Cluster, p: int, r: Message, next: nat) {
    Message(r.id, p, s.cfg.n, ClientWriteResponse, r.key, r.value, next, false) in s.net
  }

  /** The write is staged at its coordinator, and every member is asked to stage it. */
  ghost predicate Proposed(s: Cluster, p: int, r: Message, next: nat) {
    && 0 <= p < |s.nodes| && s.nodes[p].quorumMembers.Some? && s.nodes[p].currentTxid == r.id
    && HasStaged(s.nodes[p], r.key, Stamped(next, r.value))
    && forall q :: q in Peers(s.nodes[p]) ==> Message(r.id, p, q, PutRequest, r.key, r.value, next, true) in s.net
  }

  /** What arrives is counted, and nothing is awaited any more. */
  lemma NoneAwaited(L: Ledger, p: int, n: Node, m: Message)
    requires StampingJob(L, p, n) && LastTimestamp(n, m) && n.id == p && p !in L.txs[n.currentTxid].members
    ensures Counted(n, m).numWaitingNodes == 0
  {
    hide StampOk;
    var members, awaited := n.quorumMembers.value, Awaiting(n.quorumMembers.value, Peers(n), GetResponse);
    assert Peers(n) == L.txs[n.currentTxid].members;
    forall q ensures q in awaited <==> q == m.src {
      if q in members { assert Lookup(n.quorumMembers, q) == members[q]; }
    }
    assert awaited == {m.src};
  }

  /** A strong write that asked for another timestamp is refused, and any other write proposed. */
  ghost predicate Judged(s: Cluster, p: int, r: Message, next: nat) {
    if r.kind.ClientStrongWriteRequest? && r.timestamp != next then Refused(s, p, r, next) else Proposed(s, p, r, next)
  }

  lemma LastTimestampFor(s: Cluster, L: Ledger, p: int, n: Node, m: Message)
    requires Inv(s, L) && 0 <= p < |s.nodes| && n == s.nodes[p] && n.quorumMembers.Some?
    requires Available(s, m) && m.dest == p && !LateStamp(n, m) && LastTimestamp(n, m)
    ensures StampFor(s.cfg, L, p, n, m) && Counted(n, m).numWaitingNodes == 0 && m.ok
    ensures n.id == p && n.clientRequest.src == s.cfg.n
  {
    NodeAt(s, L, p);
    NetMessage(s, L, m);
    hide Inv, Available;
    StampIsNew(s.cfg, L, p, n, m);
    StampForParts(s.cfg, L, p, n, m);
    NodeId(s.cfg, L, p, n);
    TxOf(s.cfg, L, m.id);
    hide NodeOk, LedgerOk, LateStamp, MessageOk;
    StampedRequest(L, p, n);
    NoneAwaited(L, p, n, m);
    hide StampingJob, LastTimestamp;
  }

  lemma TxOf(cfg: Config, L: Ledger, t: int)
    requires LedgerOk(cfg, L) && t in L.txs
    ensures L.txs[t].coord !in L.txs[t].members && L.txs[t].request.src == cfg.n && L.txs[t].request.id == t
  {
    assert TxOk(cfg, L.history, t, L.txs[t]);
    hide LedgerOk;
  }

  lemma StampedRequest(L: Ledger, p: int, n: Node)
    requires StampingJob(L, p, n)
    ensures n.currentTxid in L.txs && SameRequest(n.clientRequest, L.txs[n.currentTxid].request)
    ensures L.txs[n.currentTxid].coord == p
  {
    hide StampOk;
  }

  lemma CountedSoFar(s: Cluster, L: Ledger, key: Key)
    requires Inv(s, L)
    ensures Acks(s.trace, key) == Version(L.history, key) && |L.history| <= |s.trace|
  {
    assert DecidedAcked(L, s.trace);
    hide Inv;
  }

  /** The handler of the last timestamp, once it has chosen what to do. */
  lemma Judges(n: Node, m: Message, c: Choice)
    requires LastTimestamp(n, m) && m.ok && Counted(n, m).numWaitingNodes == 0
    ensures Dispatch(n, m, c) == StageWrite(Counted(n, m))
  {
    hide StageWrite;
  }

  lemma RefusedByAbort(n: Node, next: nat)
    requires n.mode.CoordinatingWrite?
    ensures var e := Abort(n.(clientRequest := n.clientRequest.(timestamp := next)));
            && e.reply == Some(Message(n.clientRequest.id, n.id, n.clientRequest.src, ClientWriteResponse,
                                       n.clientRequest.key, n.clientRequest.value, next, false))
  {}

  lemma ProposedByStaging(n: Node, p: int, next: nat)
    requires n.quorumMembers.Some? && StagingOk(n) && n.mode.CoordinatingWrite? && n.id == p
    ensures HasStaged(Staged(n, next), n.clientRequest.key, Stamped(next, n.clientRequest.value))
    ensures Staged(n, next).mode.CoordinatingWrite? && Staged(n, next).currentTxid == n.currentTxid
    ensures Peers(Staged(n, next)) == Peers(n)
  {}

  /** What the coordinator does with the last timestamp, `next` being the one the write should have. */
  ghost predicate DoesWith(n: Node, next: nat, e: Effect)
    requires n.quorumMembers.Some?
  {
    e == if n.clientRequest.kind.ClientStrongWriteRequest? && n.clientRequest.timestamp != next
         then Abort(n.(clientRequest := n.clientRequest.(timestamp := next)))
         else Effect(Staged(n, next), PutRequestsTo(n, next), None)
  }

  lemma JudgedAt(cfg: Config, L: Ledger, p: int, n: Node, m: Message, c: Choice)
    requires ValidConfig(cfg) && LedgerOk(cfg, L) && StampFor(cfg, L, p, n, m) && |L.history| + 1 < TIMESTAMPS
    requires n.quorumMembers.Some? && Counted(n, m).numWaitingNodes == 0 && m.ok && LastTimestamp(n, m)
    ensures n.clientRequest.id == n.currentTxid
    ensures DoesWith(Counted(n, m), Version(L.history, n.clientRequest.key) + 1, Dispatch(n, m, c))
  {
    hide LedgerOk, NodeOk, Dispatch, StageWrite, Abort, Staged, StampFor, LatestTimestamp, StampingJob;
    hide PutRequestsTo, Version;
    assert Lookup(n.quorumMembers, m.src).kind != GetResponse;
    Judges(n, m, c);
    hide LastTimestamp, Lookup;
    StampedCall(cfg, L, p, n, m);
    IdOfJob(cfg, L, p, n, m);
    ChosenTimestamp(cfg, L, p, n, m);
    StageWriteCases(Counted(n, m), Version(L.history, n.clientRequest.key) + 1);
  }

  lemma JudgedEffect(s: Cluster, L: Ledger, p: int, n: Node, m: Message, c: Choice)
    requires Inv(s, L) && 0 <= p < |s.nodes| && n == s.nodes[p] && |s.trace| + 1 < TIMESTAMPS
    requires Available(s, m) && m.dest == p && !LateStamp(n, m) && LastTimestamp(n, m) && n.quorumMembers.Some?
    ensures n.id == p && n.clientRequest.src == s.cfg.n && StagingOk(n) && n.clientRequest.id == n.currentTxid
    ensures DoesWith(Counted(n, m), Acks(s.trace, n.clientRequest.key) + 1, Dispatch(n, m, c))
  {
    hide Inv, NodeOk, LedgerOk, Dispatch, StampFor, LastTimestamp, LateStamp, StagingOk, Acks, Version, DoesWith;
    hide Available;
    NodeAt(s, L, p);
    NodeStaging(s.cfg, L, p, n);
    LastTimestampFor(s, L, p, n, m);
    CountedSoFar(s, L, n.clientRequest.key);
    JudgedAt(s.cfg, L, p, n, m, c);
  }

  lemma IdOfJob(cfg: Config, L: Ledger, p: int, n: Node, m: Message)
    requires StampFor(cfg, L, p, n, m)
    ensures n.currentTxid == m.id
  {
    hide NodeOk;
  }

  lemma RefusedThen(s: Cluster, s1: Cluster, s': Cluster, p: int, n: Node, r: Message, next: nat, e: Effect, f: Effect)
    requires s1.cfg == s.cfg && 0 <= p < |s1.nodes| && s' == Apply(Apply(s1, p, e), p, f)
    requires n.mode.CoordinatingWrite? && n.id == p && r == n.clientRequest && r.src == s.cfg.n
    requires e == Abort(n.(clientRequest := r.(timestamp := next)))
    ensures Refused(s', p, r, next)
  {
    RefusedByAbort(n, next);
    hide Abort;
  }

  lemma ProposedThen(s1: Cluster, s': Cluster, p: int, n: Node, r: Message, next: nat, e: Effect)
    requires 0 <= p < |s1.nodes| && s' == Apply(Apply(s1, p, e), p, Silent(e.node))
    requires n.mode.CoordinatingWrite? && n.id == p && r == n.clientRequest && n.currentTxid == r.id && StagingOk(n)
    requires n.quorumMembers.Some? && e == Effect(Staged(n, next), PutRequestsTo(n, next), None)
    ensures Proposed(s', p, r, next)
  {
    ProposedByStaging(n, p, next);
    hide Staged, HasStaged, StagingOk;
    assert s'.nodes[p] == e.node;
    forall q | q in Peers(n) ensures Message(r.id, p, q, PutRequest, r.key, r.value, next, true) in s'.net {
      var m := Message(r.id, p, q, PutRequest, r.key, r.value, next, true);
      assert m in e.out && !OneShot(m);
      SentInNet(s1, p, e, m);
    }
  }

  lemma SentInNet(s: Cluster, p: int, e: Effect, m: Message)
    requires 0 <= p < |s.nodes| && m in e.out && !OneShot(m)
    ensures m in Apply(s, p, e).net
  {}

  lemma TakesNothing(n: Node, d: Choice)
    requires !n.mode.Idle?
    ensures TakeNext(n, d) == Silent(n)
  {}

  lemma CountedStaging(n: Node, m: Message)
    requires n.quorumMembers.Some? && StagingOk(n)
    ensures StagingOk(Counted(n, m))
  {}

  lemma DeliverParts(s: Cluster, s': Cluster, m: Message, c: Choice, d: Choice)
    requires Deliver(s, s', m, c, d) && !s.nodes[m.dest].disabled
    ensures Available(s, m) && !LateStamp(s.nodes[m.dest], m)
    ensures var e := Dispatch(s.nodes[m.dest], m, c);
            s' == Apply(Apply(Consume(s, m), m.dest, e), m.dest, TakeNext(e.node, d))
  {
    hide Available, LateStamp, Dispatch, TakeNext, ChoiceOk, PeersOk;
  }

  lemma DeliverJudged(s: Cluster, s': Cluster, L: Ledger, p: int, n: Node, m: Message, c: Choice, d: Choice)
    requires Inv(s, L) && 0 <= p < |s.nodes| && n == s.nodes[p] && m.dest == p && |s.trace| + 1 < TIMESTAMPS
    requires Deliver(s, s', m, c, d) && !n.disabled
    requires LastTimestamp(n, m) && n.mode.CoordinatingWrite? && n.quorumMembers.Some?
    ensures Judged(s', p, n.clientRequest, Acks(s.trace, n.clientRequest.key) + 1)
  {
    hide Inv, Deliver, Dispatch, TakeNext, LateStamp, DoesWith, StagingOk, Judged, Apply, Acks, LastTimestamp;
    hide Available;
    DeliverParts(s, s', m, c, d);
    JudgedEffect(s, L, p, n, m, c);
    CountedStaging(n, m);
    JudgedThen(s, Consume(s, m), s', p, Counted(n, m), Acks(s.trace, n.clientRequest.key) + 1, Dispatch(n, m, c), d);
  }

  lemma JudgedThen(s: Cluster, s1: Cluster, s': Cluster, p: int, n: Node, next: nat, e: Effect, d: Choice)
    requires s1.cfg == s.cfg && 0 <= p < |s1.nodes| && s' == Apply(Apply(s1, p, e), p, TakeNext(e.node, d))
    requires n.mode.CoordinatingWrite? && n.id == p && n.clientRequest.src == s.cfg.n && n.quorumMembers.Some?
    requires n.clientRequest.id == n.currentTxid && StagingOk(n) && DoesWith(n, next, e)
    ensures Judged(s', p, n.clientRequest, next)
  {
    hide TakeNext, Abort, Staged, Refused, Proposed, StagingOk, Apply, PutRequestsTo;
    if n.clientRequest.kind.ClientStrongWriteRequest? && n.clientRequest.timestamp != next {
      RefusedThen(s, s1, s', p, n, n.clientRequest, next, e, TakeNext(e.node, d));
    } else {
      ProposedByStaging(n, p, next);
      TakesNothing(e.node, d);
      ProposedThen(s1, s', p, n, n.clientRequest, next, e);
    }
  }

  /** When its coordinator has all timestamps, a write is proposed under one more than the
      number of writes of the key acknowledged so far; a strong write that asked for another
      timestamp is refused instead, and told this one. */
  lemma StrongWriteJudged(run: seq<Cluster>, s': Cluster, p: nat, m: Message, c: Choice, d: Choice)
    requires |run| > 0 && IsRun(run) && |Last(run).trace| + 1 < TIMESTAMPS
    requires p < |Last(run).nodes| && m.dest == p && !Last(run).nodes[p].disabled
    requires LastTimestamp(Last(run).nodes[p], m) && Deliver(Last(run), s', m, c, d)
    ensures var r := Last(run).nodes[p].clientRequest;
            Judged(s', p, r, Acks(Last(run).trace, r.key) + 1)
  {
    hide Inv, Deliver, Judged, Acks, IsRun;
    var n := Last(run).nodes[p];
    assert n.mode.CoordinatingWrite? && n.quorumMembers.Some?;
    hide LastTimestamp;
    var L := RunOk(run);
    DeliverJudged(Last(run), s', L, p, n, m, c, d);
  }

  // ---------- writes given up on the timer ----------

  /** The node has let go of its write t: the client knows that it failed, and these members
      are told to unlock. */
  ghost predicate LetGo(s: Cluster, p: int, t: int, members: set<int>) {
    && 0 <= p < |s.nodes| && s.nodes[p].currentTxid != t
    && ToldOfFailure(s, t)
    && forall q :: q in members ==> Signal(t, p, q, UnlockRequest, false) in s.net
  }

  /** What is sent stays sent while the node takes its next request. */
  lemma FailureSends(s: Cluster, s': Cluster, p: int, n: Node, d: Choice)
    requires 0 <= p < |s.nodes| && (n.mode.AssemblingQuorum? || n.mode.CoordinatingWrite?) && n.quorumMembers.Some?
    requires n.id == p && n.clientRequest.id == n.currentTxid && n.clientRequest.src == s.cfg.n
    requires s' == Apply(Apply(s, p, Timeout(n)), p, TakeNext(Timeout(n).node, d))
    ensures ToldOfFailure(s', n.currentTxid)
    ensures forall q :: q in Peers(n) ==> Signal(n.currentTxid, p, q, UnlockRequest, false) in s'.net
  {
    var e := Timeout(n);
    hide TakeNext;
    assert e.reply.Some? && IsFailure(e.reply.value, n.currentTxid) && e.reply.value.dest == s.cfg.n;
    assert e.out == Unlocks(n, n.currentTxid, false);
    hide Timeout;
    assert e.reply.value in s'.net;
    forall q | q in Peers(n) ensures Signal(n.currentTxid, p, q, UnlockRequest, false) in s'.net {
      assert Signal(n.currentTxid, p, q, UnlockRequest, false) in e.out;
    }
  }

  /** A node works on no transaction of its own that is over. */
  lemma NotCurrent(cfg: Config, L: Ledger, p: int, n: Node, t: int)
    requires LedgerOk(cfg, L) && NodeOk(cfg, L, p, n) && t in L.txs && L.txs[t].stage.Finished? && L.txs[t].coord == p
    ensures n.currentTxid != t
  {
    assert JobOk(L, p, n) && TxOk(cfg, L.history, t, L.txs[t]);
    hide NodeOk, LedgerOk, ReplyOk, StampOk, HasStaged, Waits;
  }

  lemma TickParts(s: Cluster, s': Cluster, p: int, d: Choice)
    requires Tick(s, s', p, d)
    ensures s' == Apply(Apply(s, p, Timeout(s.nodes[p])), p, TakeNext(Timeout(s.nodes[p]).node, d))
  {
    hide TakeNext, PeersOk, Timeout;
  }

  lemma TimerLetsGo(s: Cluster, s': Cluster, L: Ledger, L': Ledger, p: int, n: Node, d: Choice)
    requires 0 <= p < |s.nodes| && n == s.nodes[p] && (n.mode.AssemblingQuorum? || n.mode.CoordinatingWrite?)
    requires Tick(s, s', p, d) && Inv(s, L) && Inv(s', L') && n.quorumMembers.Some?
    ensures LetGo(s', p, n.currentTxid, Peers(n))
  {
    hide Inv, NodeOk, LedgerOk, Tick, TakeNext, Timeout, ToldOfFailure;
    TickParts(s, s', p, d);
    NodeAt(s, L, p);
    NodeId(s.cfg, L, p, n);
    JobUnderway(s.cfg, L, p, n);
    PeersExist(s.cfg, L, p, n);
    FailureSends(s, s', p, n, d);
    var q := Member(Peers(n));
    NodeAt(s', L', p);
    UnlockedIsOver(s', L', Signal(n.currentTxid, p, q, UnlockRequest, false));
    NotCurrent(s'.cfg, L', p, s'.nodes[p], n.currentTxid);
  }

  lemma PeersExist(cfg: Config, L: Ledger, p: int, n: Node)
    requires ValidConfig(cfg) && LedgerOk(cfg, L) && NodeOk(cfg, L, p, n)
    requires (n.mode.AssemblingQuorum? || n.mode.CoordinatingWrite?) && n.quorumMembers.Some?
    ensures Peers(n) != {}
  {
    JobVotes(cfg, L, p, n);
    NodeId(cfg, L, p, n);
    hide NodeOk, LedgerOk;
  }

  lemma UnlockedIsOver(s: Cluster, L: Ledger, a: Message)
    requires Inv(s, L) && a in s.net && a.kind.UnlockRequest? && !a.ok
    ensures a.id in L.txs && L.txs[a.id].stage.Finished? && L.txs[a.id].coord == a.src
  {
    NetMessage(s, L, a);
    hide Inv;
  }

  /** When the timer of a node that coordinates a write fires, the node gives the write up. */
  lemma TimerGivesUp(run: seq<Cluster>, s': Cluster, p: nat, d: Choice)
    requires IsRun(run) && |Last(run).trace| + 1 < TIMESTAMPS && p < |Last(run).nodes|
    requires Last(run).nodes[p].mode.AssemblingQuorum? || Last(run).nodes[p].mode.CoordinatingWrite?
    requires Tick(Last(run), s', p, d)
    ensures Last(run).nodes[p].quorumMembers.Some?
    ensures LetGo(s', p, Last(run).nodes[p].currentTxid, Peers(Last(run).nodes[p]))
  {
    assert |run| > 0;
    hide Inv, Tick, LetGo, IsRun;
    var L := RunOk(run);
    var L' := TickOk(Last(run), s', L, p, d);
    NodeAt(Last(run), L, p);
    JobUnderway(Last(run).cfg, L, p, Last(run).nodes[p]);
    hide NodeOk, LedgerOk;
    TimerLetsGo(Last(run), s', L, L', p, Last(run).nodes[p], d);
  }
}
