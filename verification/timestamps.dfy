/** How far a node's timestamps can fall: they never do, but for a commit over something
    newer that the node has stored since it was locked. */
module Timestamps {
  import opened Packet
  import opened Wrappers
  import opened StagedStore
  import opened Node
  import opened Ledgers
  import opened Invariants
  import opened Handlers
  import opened Coordination
  import opened Clusters
  import opened Runs
  import opened Theorems
  import opened Locking
  import Propagation

  /** An order to commit, from the transaction that holds the node, finds something staged
      for the key that is older than this timestamp, which the node has reached. */
  predicate Sinks(n: Node, m: Message, key: Key, timestamp: nat) {
    && m.kind.UnlockRequest? && m.ok && m.id == n.currentTxid
    && n.uncommittedTxid > 0 && n.uncommittedKey == Some(key) && CanCommit(n.store, key, n.uncommittedTxid)
    && n.store.staged[n.uncommittedTxid].1.timestamp < timestamp <= Read(n, key).timestamp
  }

  // ---------- what handlers do to what is stored ----------

  lemma UnlockSinks(n: Node, m: Message, key: Key, timestamp: nat)
    requires m.kind.UnlockRequest?
    ensures Read(HandleUnlockReq(n, m).node, key).timestamp < timestamp <= Read(n, key).timestamp <==>
            Sinks(n, m, key, timestamp)
  {}

  /** A coordinator whose next step is to commit, and what that leaves stored. */
  predicate Commits(n: Node, n': Node) {
    && n.quorumMembers.Some? && Lookup(n.quorumMembers, n.id).kind.UnlockRequest?
    && n.uncommittedKey.Some? && CanCommit(n.store, n.uncommittedKey.value, n.uncommittedTxid)
    && n'.store.committed == n.store.committed[n.uncommittedKey.value := n.store.staged[n.uncommittedTxid].1]
  }

  predicate SameStored(n: Node, n': Node) { n'.store.committed == n.store.committed }

  lemma AbortStored(n: Node)
    ensures SameStored(n, Abort(n).node)
  {}

  lemma CoordinateStored(n: Node)
    ensures SameStored(n, CoordinateWrite(n).node) || Commits(n, CoordinateWrite(n).node)
  {
    hide Abort, LatestTimestamp;
    AbortStored(n);
    if n.quorumMembers.Some? {
      var next := Successor(LatestTimestamp(Read(n, n.clientRequest.key).timestamp, n.quorumMembers.value, Peers(n)));
      AbortStored(n.(clientRequest := n.clientRequest.(timestamp := next)));
    }
  }

  predicate IsVote(m: Message) { m.kind.LockResponse? || m.kind.GetResponse? || m.kind.PutResponse? }

  lemma CountStored(n: Node, m: Message, c: Choice)
    requires IsVote(m)
    ensures SameStored(n, CountReply(n, m, c).node) || Commits(n, CountReply(n, m, c).node)
  {
    hide Abort, CoordinateWrite;
    AbortStored(n);
    if n.quorumMembers.Some? {
      CoordinateStored(Counted(n, m));
      CoordinateStored(Counted(n, m).(mode := CoordinatingWrite));
    }
  }

  ghost predicate Grows(n: Node, n': Node) { forall key :: Read(n, key).timestamp <= Read(n', key).timestamp }

  lemma AbsorbGrows(n: Node, n1: Node, m: Message)
    requires n1.store == n.store
    ensures Grows(n, n1) && Grows(n, Absorb(n1, m))
  {}

  lemma SameGrows(n: Node, n': Node)
    requires SameStored(n, n')
    ensures Grows(n, n')
  {}

  lemma DispatchStored(n: Node, m: Message, c: Choice)
    requires !m.kind.UnlockRequest?
    ensures Grows(n, Dispatch(n, m, c).node) || Commits(n, Dispatch(n, m, c).node)
  {
    hide CountReply, Absorb, Commits, Grows, Read, Propagation.Response;
    if IsVote(m) { CountStored(n, m, c); }
    AbsorbGrows(n, n, m);
    if n.background.Some? { AbsorbGrows(n, n.(background := Some(Propagation.Response(n.background.value, m))), m); }
    var n' := Dispatch(n, m, c).node;
    if SameStored(n, n') { SameGrows(n, n'); }
  }

  /** Taking a request stores nothing. */
  lemma TakeNextStored(n: Node, c: Choice)
    requires n.mode.Idle? ==> n.quorumMembers.None?
    ensures TakeNext(n, c).node.store == n.store
  {}

  lemma GivesUpStored(n: Node, m: Message)
    ensures SameStored(n, Timeout(n).node) && SameStored(n, RequestTimeout(n, m).node)
  {
    hide Abort, Without;
    AbortStored(n);
  }

  // ---------- what a coordinator commits is the newest ----------

  lemma CommitGrows(cfg: Config, L: Ledger, p: int, n: Node, n': Node)
    requires LedgerOk(cfg, L) && NodeOk(cfg, L, p, n) && Commits(n, n')
    ensures Grows(n, n')
  {
    assert JobOk(L, p, n) && n.id == p;
    assert PuttingJob(L, p, n);
    var x := L.txs[n.currentTxid];
    assert TxOk(cfg, L.history, n.currentTxid, x);
    StoredBound(cfg, L, p, n, x.request.key);
    hide NodeOk, LedgerOk, Version;
    assert n.store.staged[n.uncommittedTxid] == (x.request.key, ValueOf(x));
    hide PuttingJob, JobOk;
  }

  // ---------- one step of the cluster ----------

  /** The step that makes node q fall below this timestamp for the key. */
  ghost predicate CommitsBelow(s: Cluster, s': Cluster, q: int, key: Key, timestamp: nat) {
    exists m, c, d ::
      Deliver(s, s', m, c, d) && m.dest == q && !s.nodes[q].disabled && Sinks(s.nodes[q], m, key, timestamp)
  }

  ghost predicate Falls(s: Cluster, s': Cluster, q: int, key: Key, timestamp: nat) {
    && 0 <= q < |s.nodes| && q < |s'.nodes|
    && Read(s'.nodes[q], key).timestamp < timestamp <= Read(s.nodes[q], key).timestamp
  }

  lemma StillThere(s: Cluster, s': Cluster, q: int, key: Key, timestamp: nat)
    requires 0 <= q < |s.nodes| && q < |s'.nodes| && Grows(s.nodes[q], s'.nodes[q])
    ensures !Falls(s, s', q, key, timestamp)
  {}

  /** What a delivery leaves stored at the node that handles it. */
  lemma DeliverStored(s: Cluster, s': Cluster, L: Ledger, m: Message, c: Choice, d: Choice)
    requires Inv(s, L) && Deliver(s, s', m, c, d) && |s.trace| + 1 < TIMESTAMPS && !s.nodes[m.dest].disabled
    ensures |s'.nodes| == |s.nodes| && s'.nodes[m.dest].store == Dispatch(s.nodes[m.dest], m, c).node.store
  {
    hide Inv, NodeOk, LedgerOk, EffectOk, Dispatch, TakeNext, Deliverable, ChoiceOk, LateStamp, OnceOk, PeersOk;
    ConsumeOk(s, L, m);
    var p, s1 := m.dest, Consume(s, m);
    NodeAt(s1, L, p);
    var e := Dispatch(s1.nodes[p], m, c);
    var L1 := DispatchOk(s.cfg, L, p, s1.nodes[p], m, c);
    EffectNode(s.cfg, L, L1, p, m, e);
    IdleHasNoQuorum(s.cfg, L1, p, e.node);
    TakeNextStored(e.node, d);
  }

  lemma DeliverFalls(s: Cluster, s': Cluster, L: Ledger, m: Message, c: Choice, d: Choice, q: int, key: Key,
                     timestamp: nat)
    requires Inv(s, L) && Deliver(s, s', m, c, d) && |s.trace| + 1 < TIMESTAMPS && 0 <= q < |s.nodes|
    ensures |s'.nodes| == |s.nodes|
    ensures Falls(s, s', q, key, timestamp) <==>
            m.dest == q && !s.nodes[q].disabled && Sinks(s.nodes[q], m, key, timestamp)
  {
    hide Inv, NodeOk, LedgerOk, TakeNext, ChoiceOk, LateStamp, PeersOk, Sinks;
    if m.dest == q && !s.nodes[q].disabled {
      DeliverStored(s, s', L, m, c, d);
      var n, n' := s.nodes[q], Dispatch(s.nodes[q], m, c).node;
      assert Read(s'.nodes[q], key) == Read(n', key);
      if m.kind.UnlockRequest? {
        UnlockSinks(n, m, key, timestamp);
      } else {
        NodeAt(s, L, q);
        DispatchStored(n, m, c);
        if Commits(n, n') { CommitGrows(s.cfg, L, q, n, n'); }
        hide Dispatch, Commits, Deliver;
        assert Grows(n, s'.nodes[q]);
        StillThere(s, s', q, key, timestamp);
        NotAnOrder(n, m, key, timestamp);
      }
    } else {
      hide Dispatch;
      assert s'.nodes[q] == s.nodes[q];
    }
  }

  lemma NotAnOrder(n: Node, m: Message, key: Key, timestamp: nat)
    requires !m.kind.UnlockRequest?
    ensures !Sinks(n, m, key, timestamp)
  {}

  lemma TickFalls(s: Cluster, s': Cluster, L: Ledger, p: int, d: Choice, q: int)
    requires Inv(s, L) && Tick(s, s', p, d) && 0 <= q < |s.nodes|
    ensures |s'.nodes| == |s.nodes| && SameStored(s.nodes[q], s'.nodes[q])
  {
    hide Inv, NodeOk, LedgerOk, EffectOk, TakeNext, PeersOk, Timeout;
    NodeAt(s, L, p);
    var e := Timeout(s.nodes[p]);
    GivesUpStored(s.nodes[p], ZERO_MESSAGE);
    var L1 := TimeoutOk(s.cfg, L, p, s.nodes[p]);
    EffectNode(s.cfg, L, L1, p, ZERO_MESSAGE, e);
    IdleHasNoQuorum(s.cfg, L1, p, e.node);
    TakeNextStored(e.node, d);
  }

  /** Steps other than deliveries change nothing that is stored. */
  lemma OtherFalls(s: Cluster, s': Cluster, L: Ledger, q: int)
    requires Inv(s, L) && Next(s, s') && 0 <= q < |s.nodes|
    ensures |s'.nodes| == |s.nodes|
    ensures (exists m, c, d :: Deliver(s, s', m, c, d)) || SameStored(s.nodes[q], s'.nodes[q])
  {
    hide Inv, Deliver, Timeout, TakeNext, RequestTimeout, StreamWrites, SameStored;
    assert SameStored(s.nodes[q], s.nodes[q]) by { Unmoved(s.nodes[q], ZERO_MESSAGE); }
    if m, c, d :| Deliver(s, s', m, c, d) {
      assert |s'.nodes| == |s.nodes| by { DeliverSize(s, s', m, c, d); }
    } else if m :| Invoke(s, s', m) {
    } else if p, d :| Tick(s, s', p, d) {
      TickFalls(s, s', L, p, d, q);
    } else if p, m :| Expire(s, s', p, m) {
      Unmoved(s.nodes[p], m);
    } else if p :| Crash(s, s', p) {
      Unmoved(s.nodes[p], ZERO_MESSAGE);
    } else if p :| Restart(s, s', p) {
      Unmoved(s.nodes[p], ZERO_MESSAGE);
    } else {
      var p :| Clusters.Propagate(s, s', p);
      Unmoved(s.nodes[p], ZERO_MESSAGE);
    }
  }

  lemma Unmoved(n: Node, m: Message)
    ensures SameStored(n, n) && SameStored(n, RequestTimeout(n, m).node) && SameStored(n, Fail(n))
    ensures SameStored(n, Recover(n)) && SameStored(n, StreamWrites(n).node)
  {
    hide Abort, Without, Propagation.Retire, Propagation.Requests;
    GivesUpStored(n, m);
  }

  lemma DeliverSize(s: Cluster, s': Cluster, m: Message, c: Choice, d: Choice)
    requires Deliver(s, s', m, c, d)
    ensures |s'.nodes| == |s.nodes|
  {
    hide Dispatch, TakeNext, ChoiceOk, LateStamp, PeersOk;
  }

  lemma StepFalls(s: Cluster, s': Cluster, L: Ledger, q: int, key: Key, timestamp: nat)
    requires Inv(s, L) && Next(s, s') && 0 <= q < |s.nodes|
    ensures |s'.nodes| == |s.nodes|
    ensures Falls(s, s', q, key, timestamp) <==> CommitsBelow(s, s', q, key, timestamp)
  {
    assert |s.trace| + 1 < TIMESTAMPS;
    OtherFalls(s, s', L, q);
    hide Inv, Next, Deliver, Sinks, SameStored, Falls;
    if CommitsBelow(s, s', q, key, timestamp) {
      var m, c, d :|
        Deliver(s, s', m, c, d) && m.dest == q && !s.nodes[q].disabled && Sinks(s.nodes[q], m, key, timestamp);
      DeliverFalls(s, s', L, m, c, d, q, key, timestamp);
    }
    if Falls(s, s', q, key, timestamp) {
      if SameStored(s.nodes[q], s'.nodes[q]) {
        NoFall(s, s', q, key, timestamp);
      } else {
        var m, c, d :| Deliver(s, s', m, c, d);
        DeliverFalls(s, s', L, m, c, d, q, key, timestamp);
      }
    }
  }

  lemma NoFall(s: Cluster, s': Cluster, q: int, key: Key, timestamp: nat)
    requires 0 <= q < |s.nodes| && q < |s'.nodes| && SameStored(s.nodes[q], s'.nodes[q])
    ensures !Falls(s, s', q, key, timestamp)
  {}

  // ---------- whole runs ----------

  /** A step makes a node fall below a timestamp exactly if it delivers the order to commit
      something older, from the transaction that holds the node. */
  lemma FallsByCommit(run: seq<Cluster>, k: nat, q: nat, key: Key, timestamp: nat)
    requires IsRun(run) && k + 1 < |run| && q < |run[k].nodes|
    ensures |run[k + 1].nodes| == |run[k].nodes|
    ensures Falls(run[k], run[k + 1], q, key, timestamp) <==> CommitsBelow(run[k], run[k + 1], q, key, timestamp)
  {
    hide Inv, Next, Falls, CommitsBelow;
    PrefixRun(run, k);
    var L := RunOk(run[..k + 1]);
    assert run[..k + 1][k] == run[k];
    StepFalls(run[k], run[k + 1], L, q, key, timestamp);
  }

  /** Such a step is the k-th of the run. */
  ghost predicate SinksAt(run: seq<Cluster>, k: nat, q: nat, key: Key, timestamp: nat) {
    k + 1 < |run| && q < |run[k].nodes| && CommitsBelow(run[k], run[k + 1], q, key, timestamp)
  }

  /** Between two moments of a run a node stays at a timestamp it has reached, unless such a
      step happens at it. */
  lemma {:induction false} StaysUnless(run: seq<Cluster>, i: nat, j: nat, q: nat, key: Key, timestamp: nat)
    returns (k: nat)
    requires IsRun(run) && i <= j < |run| && q < |run[i].nodes| && timestamp <= Read(run[i].nodes[q], key).timestamp
    ensures q < |run[j].nodes|
    ensures || timestamp <= Read(run[j].nodes[q], key).timestamp
            || (i <= k < j && SinksAt(run, k, q, key, timestamp))
  {
    k := i;
    hide IsRun, CommitsBelow, Read;
    if i < j {
      k := StaysUnless(run, i, j - 1, q, key, timestamp);
      FallsByCommit(run, j - 1, q, key, timestamp);
      if timestamp <= Read(run[j - 1].nodes[q], key).timestamp { k := j - 1; }
    }
  }

  ghost predicate Rises(run: seq<Cluster>, i: nat, j: nat, q: nat, key: Key)
    requires i <= j < |run|
  {
    forall k: nat :: i <= k < j && q < |run[k].nodes| && q < |run[k + 1].nodes| ==>
      Read(run[k].nodes[q], key).timestamp <= Read(run[k + 1].nodes[q], key).timestamp
  }

  /** A node's timestamps only grow from one moment to another exactly if no such step happens at it. */
  lemma OnlyGrow(run: seq<Cluster>, i: nat, j: nat, q: nat, key: Key)
    requires IsRun(run) && i <= j < |run|
    ensures Rises(run, i, j, q, key) <==>
            forall k: nat, timestamp: nat :: i <= k < j ==> !SinksAt(run, k, q, key, timestamp)
  {
    hide IsRun, CommitsBelow, Read;
    forall k: nat, timestamp: nat | i <= k < j && q < |run[k].nodes|
      ensures |run[k + 1].nodes| == |run[k].nodes|
      ensures Falls(run[k], run[k + 1], q, key, timestamp) <==> SinksAt(run, k, q, key, timestamp)
    {
      FallsByCommit(run, k, q, key, timestamp);
    }
    if forall k: nat, timestamp: nat :: i <= k < j ==> !SinksAt(run, k, q, key, timestamp) {
      forall k: nat | i <= k < j && q < |run[k].nodes| && q < |run[k + 1].nodes|
        ensures Read(run[k].nodes[q], key).timestamp <= Read(run[k + 1].nodes[q], key).timestamp
      {
        assert !SinksAt(run, k, q, key, Read(run[k].nodes[q], key).timestamp);
      }
    }
  }

  // ---------- an acknowledged write, once kept ----------

  lemma TraceGrows(s: Cluster, s': Cluster)
    requires Next(s, s')
    ensures s.trace <= s'.trace
  {
    hide Dispatch, TakeNext, Timeout, RequestTimeout, StreamWrites, Fail, Recover, ChoiceOk, LateStamp, PeersOk;
  }

  lemma {:induction false} TracesGrow(run: seq<Cluster>, i: nat, j: nat)
    requires IsRun(run) && i <= j < |run|
    ensures run[i].trace <= run[j].trace
  {
    hide Next, Init;
    if i < j {
      TracesGrow(run, i, j - 1);
      assert Next(run[j - 1], run[j - 1 + 1]);
      TraceGrows(run[j - 1], run[j]);
    }
  }

  /** A node that was locked for a transaction is in its quorum. */
  lemma LockedIsMember(run: seq<Cluster>, i: nat, q: nat, t: int, L: Ledger)
    requires IsRun(run) && i < |run| && q < |run[i].nodes| && Locked(run[i].nodes[q], t) && Inv(Last(run), L)
    ensures q < |Last(run).nodes| && t in L.txs && q in L.txs[t].members
  {
    var s := Last(run);
    RunKept(run, i, |run| - 1, q);
    NodeAt(s, L, q);
    hide IsRun, Inv;
    var n := s.nodes[q];
    if Locked(n, t) {
      LockedFor(s.cfg, L, q, n);
    } else {
      assert ReleasedOk(L, q, n) && t in n.unlockTxids;
      assert TxOk(s.cfg, L.history, t, L.txs[t]);
    }
  }

  /** A decided write is kept by its quorum. */
  lemma DecidedKept(s: Cluster, L: Ledger, t: int, q: int)
    requires Inv(s, L) && t in L.txs && L.txs[t].stage.Committed? && q in Quorum(L.txs[t])
    ensures 0 <= q < |s.nodes| && Keeps(s.nodes[q], t, L.txs[t].request.key, ValueOf(L.txs[t]))
  {
    var x := L.txs[t];
    assert TxOk(s.cfg, L.history, t, x) && L.history[x.index] == DecisionOf(t, x);
    QuorumSize(s.cfg, L.history, t, x);
    NodeAt(s, L, q);
    KeptBy(s.cfg, L, x.index, q, s.nodes[q]);
  }

  /** What a node keeps of an acknowledged write it keeps to the end of the run, unless a
      step makes it fall below the write's timestamp. */
  lemma KeptUnless(run: seq<Cluster>, b: nat, i: nat, q: nat)
    requires IsRun(run) && b < |Last(run).trace| && WriteDone(Last(run).trace[b]) && i < |run| && q < |run[i].nodes|
    requires var a := Last(run).trace[b].answer;
             Keeps(run[i].nodes[q], a.id, a.key, Stamped(a.timestamp, a.value))
    ensures var a := Last(run).trace[b].answer;
            && q < |Last(run).nodes|
            && (|| Keeps(Last(run).nodes[q], a.id, a.key, Stamped(a.timestamp, a.value))
                || exists k: nat :: i <= k && SinksAt(run, k, q, a.key, a.timestamp))
  {
    var a := Last(run).trace[b].answer;
    var v := Stamped(a.timestamp, a.value);
    if a.timestamp <= Read(run[i].nodes[q], a.key).timestamp {
      var k := StaysUnless(run, i, |run| - 1, q, a.key, a.timestamp);
    } else {
      var L := RunOk(run);
      assert AnswerOk(Last(run).cfg, L, a);
      LockedIsMember(run, i, q, a.id, L);
      DecidedKept(Last(run), L, a.id, q);
    }
  }
}
