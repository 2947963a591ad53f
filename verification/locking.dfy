/** A member's lock over a whole run: once given up it is never taken again for the
    same transaction, and what it commits is exactly the write that was acknowledged. */
module Locking {
  import opened Packet
  import opened Wrappers
  import opened Node
  import opened Ledgers
  import opened Invariants
  import opened Handlers
  import opened Coordination
  import opened Clusters
  import opened Runs
  import opened Theorems
  import StagedStore
  import Propagation

  predicate Locked(n: Node, t: int) { n.mode.ProcessingWrite? && n.currentTxid == t }

  /** A lock is kept, or its transaction is remembered as over; and that is never forgotten. */
  predicate LockKept(n: Node, n': Node) {
    && n.unlockTxids <= n'.unlockTxids
    && (n.mode.ProcessingWrite? ==> Locked(n', n.currentTxid) || n.currentTxid in n'.unlockTxids)
  }

  lemma AbortKept(n: Node)
    ensures Abort(n).node.unlockTxids == n.unlockTxids && Abort(n).node.lockRequests == n.lockRequests
  {}

  lemma CoordinateKept(n: Node)
    ensures CoordinateWrite(n).node.unlockTxids == n.unlockTxids
    ensures CoordinateWrite(n).node.lockRequests == n.lockRequests
  {
    hide Abort, LatestTimestamp;
    AbortKept(n);
    if n.quorumMembers.Some? {
      var next := Successor(LatestTimestamp(Read(n, n.clientRequest.key).timestamp, n.quorumMembers.value, Peers(n)));
      AbortKept(n.(clientRequest := n.clientRequest.(timestamp := next)));
    }
  }

  lemma ContinueKept(n: Node, c: Choice)
    ensures Continue(n, c).node.unlockTxids == n.unlockTxids && Continue(n, c).node.lockRequests == n.lockRequests
  {
    hide CoordinateWrite;
    CoordinateKept(n);
    CoordinateKept(n.(mode := CoordinatingWrite));
  }

  lemma CountKept(n: Node, m: Message, c: Choice)
    ensures CountReply(n, m, c).node.unlockTxids == n.unlockTxids
    ensures CountReply(n, m, c).node.lockRequests == n.lockRequests
  {
    hide Abort, Continue;
    AbortKept(n);
    if n.quorumMembers.Some? { ContinueKept(Counted(n, m), c); }
  }

  /** Messages that can take a node out of a lock carry its transaction's end. */
  lemma DispatchKept(n: Node, m: Message, c: Choice)
    ensures LockKept(n, Dispatch(n, m, c).node)
  {
    hide CountReply, Absorb, StagedStore.Put, StagedStore.Commit, Read;
    CountKept(n, m, c);
    AbsorbKept(n, m);
    if n.background.Some? { AbsorbKept(n.(background := Some(Propagation.Response(n.background.value, m))), m); }
  }

  lemma AbsorbKept(n: Node, m: Message)
    ensures Absorb(n, m) == n.(store := Absorb(n, m).store)
  {}

  /** Taking the next request shortens the queue of an idle node by its head, and does nothing else to it. */
  lemma TakeNextQueue(n: Node, c: Choice)
    ensures TakeNext(n, c).node.lockRequests ==
            if n.mode.Idle? && n.lockRequests != [] then n.lockRequests[1..] else n.lockRequests
  {
    hide Continue;
    if n.mode.Idle? && n.lockRequests != [] {
      var m := n.lockRequests[0];
      var n1 := n.(lockRequests := n.lockRequests[1..], currentTxid := m.id, clientRequest := m);
      ContinueKept(n1.(mode := CoordinatingFastRead), c);
      ContinueKept(n1.(mode := AssemblingQuorum), c);
    }
  }

  lemma TakeNextKept(n: Node, c: Choice)
    ensures LockKept(n, TakeNext(n, c).node)
  {
    hide Continue;
    if n.mode.Idle? && n.lockRequests != [] {
      var m := n.lockRequests[0];
      var n1 := n.(lockRequests := n.lockRequests[1..], currentTxid := m.id, clientRequest := m);
      ContinueKept(n1.(mode := CoordinatingFastRead), c);
      ContinueKept(n1.(mode := AssemblingQuorum), c);
    }
  }

  lemma TimersKept(cfg: Config, L: Ledger, p: int, n: Node, m: Message)
    requires LedgerOk(cfg, L) && NodeOk(cfg, L, p, n) && m in n.timers
    ensures LockKept(n, RequestTimeout(n, m).node)
  {
    if IsClientRequest(m) && m.id == n.currentTxid { TimedCurrent(cfg, L, p, n, m); }
    hide NodeOk, LedgerOk, Abort, Without;
    AbortKept(n);
  }

  lemma TickKept(n: Node)
    ensures LockKept(n, Timeout(n).node)
  {
    hide Abort;
    AbortKept(n);
  }

  lemma KeptTwice(a: Node, b: Node, c: Node)
    requires LockKept(a, b) && LockKept(b, c)
    ensures LockKept(a, c)
  {}

  lemma DeliverKept(s: Cluster, s': Cluster, m: Message, c: Choice, d: Choice, p: nat)
    requires Deliver(s, s', m, c, d) && p < |s.nodes|
    ensures |s'.nodes| == |s.nodes| && LockKept(s.nodes[p], s'.nodes[p])
  {
    hide Dispatch, TakeNext, LockKept, ChoiceOk, LateStamp, PeersOk;
    assert LockKept(s.nodes[p], s.nodes[p]) by { StillKept(s.nodes[p]); }
    var n := s.nodes[m.dest];
    DispatchKept(n, m, c);
    TakeNextKept(Dispatch(n, m, c).node, d);
    KeptTwice(n, Dispatch(n, m, c).node, TakeNext(Dispatch(n, m, c).node, d).node);
  }

  lemma StillKept(n: Node)
    ensures LockKept(n, n) && LockKept(n, Recover(n)) && LockKept(n, StreamWrites(n).node)
    ensures !n.mode.ProcessingWrite? ==> LockKept(n, Fail(n))
  {}

  lemma StepKept(s: Cluster, s': Cluster, L: Ledger, p: nat)
    requires Inv(s, L) && Next(s, s') && p < |s.nodes|
    ensures |s'.nodes| == |s.nodes| && LockKept(s.nodes[p], s'.nodes[p])
  {
    hide Inv, Deliver, NodeOk, LedgerOk, LockKept, TakeNext;
    hide Timeout, RequestTimeout, Fail, Recover, StreamWrites, PeersOk;
    NodeAt(s, L, p);
    StillKept(s.nodes[p]);
    if m :| Invoke(s, s', m) {
    } else if m, c, d :| Deliver(s, s', m, c, d) {
      DeliverKept(s, s', m, c, d, p);
    } else if q, d :| Tick(s, s', q, d) {
      TickKept(s.nodes[q]);
      TakeNextKept(Timeout(s.nodes[q]).node, d);
      KeptTwice(s.nodes[q], Timeout(s.nodes[q]).node, TakeNext(Timeout(s.nodes[q]).node, d).node);
    } else if q, m :| Expire(s, s', q, m) {
      NodeAt(s, L, q);
      TimersKept(s.cfg, L, q, s.nodes[q], m);
    } else if q :| Crash(s, s', q) {
    } else if q :| Restart(s, s', q) {
    } else if q :| Propagate(s, s', q) {
    }
  }

  lemma PrefixRun(run: seq<Cluster>, k: nat)
    requires IsRun(run) && k < |run|
    ensures IsRun(run[..k + 1])
  {
    var shorter := run[..k + 1];
    hide Next, Init;
    forall i | 0 <= i < |shorter| - 1 ensures Next(shorter[i], shorter[i + 1]) { assert Next(run[i], run[i + 1]); }
  }

  lemma {:induction false} RunKept(run: seq<Cluster>, i: nat, j: nat, p: nat)
    requires IsRun(run) && i <= j < |run| && p < |run[i].nodes|
    ensures |run[j].nodes| == |run[i].nodes| && LockKept(run[i].nodes[p], run[j].nodes[p])
  {
    hide Next, Init, Inv, LockKept;
    if i == j {
      StillKept(run[i].nodes[p]);
    } else {
      RunKept(run, i, j - 1, p);
      PrefixRun(run, j - 1);
      var L := RunOk(run[..j]);
      assert Next(run[j - 1], run[j - 1 + 1]);
      StepKept(run[j - 1], run[j], L, p);
      KeptTwice(run[i].nodes[p], run[j - 1].nodes[p], run[j].nodes[p]);
    }
  }

  lemma NotUnlocked(s: Cluster, L: Ledger, p: nat)
    requires Inv(s, L) && p < |s.nodes| && s.nodes[p].mode.ProcessingWrite?
    ensures s.nodes[p].currentTxid !in s.nodes[p].unlockTxids
  {
    NodeAt(s, L, p);
    hide Inv;
    var n := s.nodes[p];
    assert Busy(n, n.currentTxid) && n.currentTxid in L.txs && Holds(L.txs[n.currentTxid], p);
    assert TxOk(s.cfg, L.history, n.currentTxid, L.txs[n.currentTxid]);
  }

  /** However often a lock request is sent again, a node locks for a transaction at most
      once: locked at two moments, it was locked all the time between them. */
  lemma LockedOnce(run: seq<Cluster>, i: nat, k: nat, j: nat, p: nat, t: int)
    requires IsRun(run) && i <= k <= j < |run| && p < |run[i].nodes| == |run[j].nodes|
    requires Locked(run[i].nodes[p], t) && Locked(run[j].nodes[p], t)
    ensures p < |run[k].nodes| && Locked(run[k].nodes[p], t)
  {
    hide IsRun, Inv;
    RunKept(run, i, k, p);
    RunKept(run, k, j, p);
    PrefixRun(run, j);
    var L := RunOk(run[..j + 1]);
    NotUnlocked(run[j], L, p);
  }

  /** A member told to commit, and still locked, has exactly the acknowledged write staged. */
  lemma MembersCommitTheWrite(run: seq<Cluster>, m: Message)
    requires IsRun(run) && m in Last(run).net && m.kind.UnlockRequest? && m.ok
    requires 0 <= m.dest < |Last(run).nodes| && Last(run).nodes[m.dest].currentTxid == m.id
    ensures var n := Last(run).nodes[m.dest];
            && n.mode.ProcessingWrite?
            && exists j :: 0 <= j < |Last(run).trace| && WriteDone(Last(run).trace[j]) &&
                 Last(run).trace[j].answer.id == m.id
                 && HasStaged(n, Last(run).trace[j].answer.key,
                              Stamped(Last(run).trace[j].answer.timestamp, Last(run).trace[j].answer.value))
  {
    var L := RunOk(run);
    var s := Last(run);
    NodeAt(s, L, m.dest);
    assert MessageOk(s.cfg, L, m);
    VerdictMatchesAnswer(run, m);
    hide IsRun;
    var j :| 0 <= j < |s.trace| && WriteDone(s.trace[j]) && s.trace[j].answer.id == m.id;
    assert AnswerOk(s.cfg, L, s.trace[j].answer);
    hide Inv, AnswerOk;
    UnlockHolder(s.cfg, L, m.dest, s.nodes[m.dest], m);
    hide NodeOk, LedgerOk, HasStaged;
  }

  ghost predicate ToldToUnlock(s: Cluster, t: int, q: int) {
    exists m :: m in s.net && m.kind.UnlockRequest? && m.id == t && m.dest == q
  }

  /** No lock is ever left behind: while a member is locked, its coordinator still works on
      the transaction and counts it among its quorum, or the member has been told to unlock. */
  lemma NoLockIsLost(run: seq<Cluster>, q: nat)
    requires IsRun(run) && q < |Last(run).nodes| && Last(run).nodes[q].mode.ProcessingWrite?
    ensures var s := Last(run);
            var t := s.nodes[q].currentTxid;
            || ToldToUnlock(s, t, q)
            || exists p :: 0 <= p < |s.nodes| && Coordinator(s.nodes[p]) && s.nodes[p].currentTxid == t
                 && s.nodes[p].quorumMembers.Some? && q in Peers(s.nodes[p])
  {
    var L := RunOk(run);
    var s := Last(run);
    NodeAt(s, L, q);
    var t := s.nodes[q].currentTxid;
    LockedFor(s.cfg, L, q, s.nodes[q]);
    var p := L.txs[t].coord;
    if Over(L.txs[t]) {
      assert WriteOver(L.txs[t]) && Told(t, p, q, s.net);
      hide Inv;
      assert ToldToUnlock(s, t, q);
    } else {
      NodeAt(s, L, p);
      hide Inv, IsRun;
      WorksOn(s.cfg, L, t, p, s.nodes[p]);
    }
  }

  lemma LockedFor(cfg: Config, L: Ledger, q: int, n: Node)
    requires LedgerOk(cfg, L) && NodeOk(cfg, L, q, n) && n.mode.ProcessingWrite?
    ensures n.currentTxid in L.txs && q in L.txs[n.currentTxid].members && IsWrite(L.txs[n.currentTxid].request)
    ensures Begun(L.txs[n.currentTxid]) && 0 <= L.txs[n.currentTxid].coord < cfg.n
  {
    MemberHolds(cfg, L, q, n, n.currentTxid);
    assert TxOk(cfg, L.history, n.currentTxid, L.txs[n.currentTxid]);
    hide NodeOk, LedgerOk;
  }

  lemma WorksOn(cfg: Config, L: Ledger, t: int, p: int, n: Node)
    requires LedgerOk(cfg, L) && NodeOk(cfg, L, p, n) && t in L.txs && L.txs[t].coord == p
    requires Begun(L.txs[t]) && !Over(L.txs[t])
    ensures Coordinator(n) && n.currentTxid == t && n.quorumMembers.Some? && Peers(n) == L.txs[t].members
  {
    assert ActiveOk(L, p, n) && n.currentTxid == t;
    JobUnderway(cfg, L, p, n);
    hide NodeOk, LedgerOk;
  }
}
