/** Without sloppy mode a node stores no write but those of quorums it was in, and no
    timestamp it stores ever falls. */
module OwnWrites {
  import opened Packet
  import opened Wrappers
  import opened StagedStore
  import opened Node
  import opened Ledgers
  import opened Invariants
  import opened Handlers
  import opened Coordination
  import opened Clusters
  import opened Runs
  import opened Theorems
  import opened Locking
  import opened Timestamps

  /** The node was told to commit this transaction. */
  ghost predicate ToldToCommit(net: set<Message>, t: int, q: int) {
    exists m :: m in net && m.kind.UnlockRequest? && m.ok && m.id == t && m.dest == q
  }

  /** An acknowledged write of this timestamp that node q has coordinated or was told to commit. */
  predicate AcksAt(e: Event, key: Key, timestamp: nat) {
    WriteDone(e) && e.answer.key == key && e.answer.timestamp == timestamp
  }

  ghost predicate TookPart(s: Cluster, q: int, key: Key, timestamp: nat) {
    exists b :: 0 <= b < |s.trace| && AcksAt(s.trace[b], key, timestamp)
                && (s.trace[b].answer.src == q || ToldToCommit(s.net, s.trace[b].answer.id, q))
  }

  ghost predicate Owns(s: Cluster, q: int, n: Node) {
    forall key :: key in n.store.committed ==> TookPart(s, q, key, n.store.committed[key].timestamp)
  }

  ghost predicate AllOwn(s: Cluster) { forall q :: 0 <= q < |s.nodes| ==> Owns(s, q, s.nodes[q]) }

  lemma OwnsStays(s: Cluster, s': Cluster, q: int, n: Node, n': Node)
    requires Owns(s, q, n) && SameStored(n, n') && s.trace <= s'.trace && s.net <= s'.net
    ensures Owns(s', q, n')
  {
    forall key | key in n'.store.committed ensures TookPart(s', q, key, n'.store.committed[key].timestamp) {
      var timestamp := n.store.committed[key].timestamp;
      assert TookPart(s, q, key, timestamp);
      var b :| 0 <= b < |s.trace| && AcksAt(s.trace[b], key, timestamp)
               && (s.trace[b].answer.src == q || ToldToCommit(s.net, s.trace[b].answer.id, q));
      assert s'.trace[b] == s.trace[b];
    }
  }

  /** One more write is stored. */
  lemma OwnsOneMore(s: Cluster, s': Cluster, q: int, n: Node, n': Node, key: Key, v: Stamped)
    requires Owns(s, q, n) && n'.store.committed == n.store.committed[key := v]
    requires s.trace <= s'.trace && s.net <= s'.net && TookPart(s', q, key, v.timestamp)
    ensures Owns(s', q, n')
  {
    OwnsStays(s, s', q, n, n);
    hide TookPart;
  }

  // ---------- what a handler stores it also answers ----------

  /** The coordinator's commit comes with the answer to the client. */
  predicate CommitsFor(n: Node, e: Effect) {
    && Commits(n, e.node) && e.reply.Some? && e.reply.value.ok && e.reply.value.kind.ClientWriteResponse?
    && e.reply.value.src == n.id && e.reply.value.key == n.clientRequest.key
    && e.reply.value.timestamp == Lookup(n.quorumMembers, n.id).timestamp
  }

  lemma CoordinateAnswers(n: Node)
    ensures SameStored(n, CoordinateWrite(n).node) || CommitsFor(n, CoordinateWrite(n))
  {
    hide Abort, LatestTimestamp;
    AbortStored(n);
    if n.quorumMembers.Some? {
      var next := Successor(LatestTimestamp(Read(n, n.clientRequest.key).timestamp, n.quorumMembers.value, Peers(n)));
      AbortStored(n.(clientRequest := n.clientRequest.(timestamp := next)));
    }
  }

  lemma CountAnswers(n: Node, m: Message, c: Choice)
    requires IsVote(m)
    ensures SameStored(n, CountReply(n, m, c).node) || CommitsFor(n, CountReply(n, m, c))
  {
    hide Abort, CoordinateWrite;
    AbortStored(n);
    if n.quorumMembers.Some? {
      CoordinateAnswers(Counted(n, m));
      CoordinateAnswers(Counted(n, m).(mode := CoordinatingWrite));
    }
  }

  lemma DispatchAnswers(n: Node, m: Message, c: Choice)
    requires !m.kind.UnlockRequest? && !m.kind.BackgroundWriteRequest? && !m.kind.BackgroundWriteResponse?
    ensures SameStored(n, Dispatch(n, m, c).node) || CommitsFor(n, Dispatch(n, m, c))
  {
    hide CountReply, CommitsFor, Read;
    if IsVote(m) { CountAnswers(n, m, c); }
  }

  /** What it commits is what it answers. */
  lemma CommitsItsWrite(cfg: Config, L: Ledger, p: int, n: Node, e: Effect)
    requires LedgerOk(cfg, L) && NodeOk(cfg, L, p, n) && CommitsFor(n, e)
    ensures var a := e.reply.value;
            a.src == p && exists v: Stamped :: v.timestamp == a.timestamp
                                               && e.node.store.committed == n.store.committed[a.key := v]
  {
    assert JobOk(L, p, n) && n.id == p;
    assert PuttingJob(L, p, n);
    var x := L.txs[n.currentTxid];
    hide NodeOk, LedgerOk;
    assert n.store.staged[n.uncommittedTxid] == (x.request.key, ValueOf(x));
    assert e.node.store.committed == n.store.committed[e.reply.value.key := ValueOf(x)];
    hide PuttingJob, JobOk;
  }

  // ---------- one step of the cluster ----------

  lemma NetGrows(s: Cluster, s': Cluster)
    requires Next(s, s')
    ensures s.net <= s'.net
  {
    hide Dispatch, TakeNext, Timeout, RequestTimeout, StreamWrites, Fail, Recover, ChoiceOk, LateStamp, PeersOk;
  }

  /** What a handler answers is in the trace afterwards. */
  lemma AnswerIsSeen(s: Cluster, s': Cluster, m: Message, c: Choice, d: Choice)
    requires Deliver(s, s', m, c, d) && !s.nodes[m.dest].disabled
    ensures s.trace + Answers(Dispatch(s.nodes[m.dest], m, c)) <= s'.trace
  {
    hide Dispatch, TakeNext, ChoiceOk, LateStamp, PeersOk, Answers, Sent, Once;
  }

  /** A member that obeys an order to commit took part in the write it stores. */
  lemma ObeysOwns(s: Cluster, L: Ledger, m: Message, s': Cluster)
    requires Inv(s, L) && m in s.net && m.kind.UnlockRequest? && 0 <= m.dest < |s.nodes|
    requires Owns(s, m.dest, s.nodes[m.dest]) && s.trace <= s'.trace && s.net <= s'.net
    ensures Owns(s', m.dest, HandleUnlockReq(s.nodes[m.dest], m).node)
  {
    var p, n, x := m.dest, s.nodes[m.dest], L.txs[m.id];
    var n' := HandleUnlockReq(n, m).node;
    assert MessageOk(s.cfg, L, m) && DecidedAcked(L, s.trace) && ValidConfig(s.cfg);
    hide Inv, NodeOk, LedgerOk, HandleUnlockReq, Owns;
    NodeAt(s, L, p);
    UnlockedStore(s.cfg, L, p, n, m);
    if n.currentTxid == m.id && m.ok {
      DecisionAcked(s, L, m.id);
      hide DecidedAcked, MessageOk;
      var b :| 0 <= b < |s.trace| && Acknowledges(s.trace[b], L.history[x.index]);
      assert AcksAt(s'.trace[b], x.request.key, x.timestamp);
      assert ToldToCommit(s'.net, m.id, p);
      OwnsOneMore(s, s', p, n, n', x.request.key, ValueOf(x));
    } else {
      SameCommitted(n, n');
      OwnsStays(s, s', p, n, n');
    }
  }

  lemma SameCommitted(n: Node, n': Node)
    requires n'.store == n.store
    ensures SameStored(n, n')
  {}

  lemma DecisionAcked(s: Cluster, L: Ledger, t: int)
    requires LedgerOk(s.cfg, L) && DecidedAcked(L, s.trace) && t in L.txs && L.txs[t].stage.Committed?
    ensures L.txs[t].index < |L.history| && L.history[L.txs[t].index] == DecisionOf(t, L.txs[t])
    ensures Acknowledged(s.trace, L.history[L.txs[t].index])
  {
    assert TxOk(s.cfg, L.history, t, L.txs[t]);
    hide LedgerOk;
  }

  /** So did a coordinator that commits. */
  lemma CoordinatorOwns(s: Cluster, s': Cluster, L: Ledger, p: int, e: Effect)
    requires Inv(s, L) && 0 <= p < |s.nodes| && CommitsFor(s.nodes[p], e) && Owns(s, p, s.nodes[p])
    requires s.trace + Answers(e) <= s'.trace && s.net <= s'.net
    ensures Owns(s', p, e.node)
  {
    NodeAt(s, L, p);
    CommitsItsWrite(s.cfg, L, p, s.nodes[p], e);
    hide Inv, NodeOk, LedgerOk;
    var a := e.reply.value;
    var v: Stamped :| v.timestamp == a.timestamp
                      && e.node.store.committed == s.nodes[p].store.committed[a.key := v];
    assert Answers(e) == [Returned(a)];
    assert (s.trace + Answers(e))[|s.trace|] == Returned(a);
    assert AcksAt(s'.trace[|s.trace|], a.key, v.timestamp);
    hide Commits;
    OwnsOneMore(s, s', p, s.nodes[p], e.node, a.key, v);
  }

  /** Without sloppy mode no background message is ever delivered. */
  lemma NoBackground(s: Cluster, L: Ledger, m: Message)
    requires Inv(s, L) && !s.cfg.sloppy && Available(s, m)
    ensures !m.kind.BackgroundWriteRequest? && !m.kind.BackgroundWriteResponse?
  {
    if !OneShot(m) {
      assert m in s.net && MessageOk(s.cfg, L, m);
      hide Inv;
      NoneSent(s.cfg, L, m);
    }
  }

  lemma NoneSent(cfg: Config, L: Ledger, m: Message)
    requires MessageOk(cfg, L, m) && !cfg.sloppy
    ensures !m.kind.BackgroundWriteRequest? && !m.kind.BackgroundWriteResponse?
  {
    hide LockRequestOk, AnswerOk, GetResponseOk, Recorded;
  }

  lemma DispatchOrder(n: Node, m: Message, c: Choice)
    requires m.kind.UnlockRequest?
    ensures Dispatch(n, m, c) == HandleUnlockReq(n, m)
  {}

  lemma DeliverOwns(s: Cluster, s': Cluster, L: Ledger, m: Message, c: Choice, d: Choice)
    requires Inv(s, L) && Deliver(s, s', m, c, d) && |s.trace| + 1 < TIMESTAMPS && AllOwn(s) && !s.cfg.sloppy
    requires s.trace <= s'.trace && s.net <= s'.net && !s.nodes[m.dest].disabled
    ensures Owns(s', m.dest, s'.nodes[m.dest])
  {
    hide Inv, Dispatch, CommitsFor, HandleUnlockReq, Owns;
    NoBackground(s, L, m);
    DeliverStored(s, s', L, m, c, d);
    AnswerIsSeen(s, s', m, c, d);
    var p, n, e := m.dest, s.nodes[m.dest], Dispatch(s.nodes[m.dest], m, c);
    assert Available(s, m);
    hide Deliver;
    assert Owns(s, p, n);
    if m.kind.UnlockRequest? {
      DispatchOrder(n, m, c);
      ObeysOwns(s, L, m, s');
    } else {
      DispatchAnswers(n, m, c);
      if CommitsFor(n, e) { CoordinatorOwns(s, s', L, p, e); } else { OwnsStays(s, s', p, n, e.node); }
    }
    OwnsStays(s', s', p, e.node, s'.nodes[p]);
  }

  lemma DeliverElsewhere(s: Cluster, s': Cluster, m: Message, c: Choice, d: Choice, q: int)
    requires Deliver(s, s', m, c, d) && 0 <= q < |s.nodes| && (q != m.dest || s.nodes[q].disabled)
    ensures q < |s'.nodes| && s'.nodes[q] == s.nodes[q]
  {
    hide Dispatch, TakeNext, ChoiceOk, LateStamp, PeersOk;
  }

  lemma StepOwns(s: Cluster, s': Cluster, L: Ledger)
    requires Inv(s, L) && Next(s, s') && AllOwn(s) && !s.cfg.sloppy
    ensures AllOwn(s') && s'.cfg == s.cfg
  {
    NextConfig(s, s');
    NetGrows(s, s');
    TraceGrows(s, s');
    assert |s.trace| + 1 < TIMESTAMPS;
    hide Inv, Next, Owns, Deliver, SameStored;
    SameNumber(s, s', L);
    forall q | 0 <= q < |s'.nodes| ensures Owns(s', q, s'.nodes[q]) {
      assert Owns(s, q, s.nodes[q]);
      OtherFalls(s, s', L, q);
      if SameStored(s.nodes[q], s'.nodes[q]) {
        OwnsStays(s, s', q, s.nodes[q], s'.nodes[q]);
      } else {
        var m, c, d :| Deliver(s, s', m, c, d);
        if q != m.dest || s.nodes[q].disabled {
          DeliverElsewhere(s, s', m, c, d, q);
          NodeSame(s.nodes[q]);
          assert false;
        } else {
          DeliverOwns(s, s', L, m, c, d);
        }
      }
    }
  }

  lemma NodeSame(n: Node)
    ensures SameStored(n, n)
  {}

  lemma NextConfig(s: Cluster, s': Cluster)
    requires Next(s, s')
    ensures s'.cfg == s.cfg
  {
    hide Dispatch, TakeNext, Timeout, RequestTimeout, StreamWrites, Fail, Recover, ChoiceOk, LateStamp, PeersOk;
  }

  lemma SameNumber(s: Cluster, s': Cluster, L: Ledger)
    requires Inv(s, L) && Next(s, s')
    ensures |s'.nodes| == |s.nodes|
  {
    assert |s.nodes| == s.cfg.n >= 1;
    hide Inv, Next;
    OtherFalls(s, s', L, 0);
  }

  // ---------- whole runs ----------

  /** In every run without sloppy mode, what a node stores it has coordinated or was told to commit. */
  lemma {:induction false} StoresOwnWrites(run: seq<Cluster>)
    requires IsRun(run) && !Last(run).cfg.sloppy
    ensures AllOwn(Last(run))
  {
    hide Next, AllOwn;
    if |run| == 1 {
      NoneStored(run[0]);
    } else {
      var k := |run| - 2;
      PrefixRun(run, k);
      var shorter := run[..k + 1];
      assert Last(shorter) == run[k] && Next(run[k], run[k + 1]);
      NextConfig(run[k], run[k + 1]);
      StoresOwnWrites(shorter);
      var L := RunOk(shorter);
      StepOwns(run[k], run[k + 1], L);
    }
  }

  lemma NoneStored(s: Cluster)
    requires Init(s)
    ensures AllOwn(s)
  {}

  // ---------- no order to commit comes too late ----------

  lemma AnswerQuorum(s: Cluster, L: Ledger, q: int, b: nat) returns (j: nat)
    requires Inv(s, L) && b < |s.trace| && WriteDone(s.trace[b])
    requires s.trace[b].answer.src == q || ToldToCommit(s.net, s.trace[b].answer.id, q)
    ensures var a := s.trace[b].answer;
            j < |L.history| && L.history[j].key == a.key && L.history[j].timestamp == a.timestamp
            && q in L.history[j].quorum
  {
    var a := s.trace[b].answer;
    assert AnswerOk(s.cfg, L, a);
    var x := L.txs[a.id];
    assert TxOk(s.cfg, L.history, a.id, x);
    j := x.index;
    if a.src != q {
      var m :| m in s.net && m.kind.UnlockRequest? && m.ok && m.id == a.id && m.dest == q;
      assert MessageOk(s.cfg, L, m);
    }
    hide Inv;
  }

  /** The quorum of what it stores includes the node. */
  lemma OwnIsQuorum(s: Cluster, L: Ledger, q: int, key: Key) returns (j: nat)
    requires Inv(s, L) && 0 <= q < |s.nodes| && Owns(s, q, s.nodes[q]) && Read(s.nodes[q], key).timestamp > 0
    ensures j < |L.history| && L.history[j].key == key && L.history[j].timestamp == Read(s.nodes[q], key).timestamp
    ensures q in L.history[j].quorum
  {
    hide Inv, ToldToCommit;
    var timestamp := Read(s.nodes[q], key).timestamp;
    assert TookPart(s, q, key, timestamp);
    var b :| 0 <= b < |s.trace| && AcksAt(s.trace[b], key, timestamp)
             && (s.trace[b].answer.src == q || ToldToCommit(s.net, s.trace[b].answer.id, q));
    j := AnswerQuorum(s, L, q, b);
  }

  /** A write that still holds a node is the last decided write of the key in which it took part. */
  lemma HolderIsLast(cfg: Config, L: Ledger, q: int, t: int, j: nat)
    requires LedgerOk(cfg, L) && t in L.txs && L.txs[t].stage.Committed? && Holds(L.txs[t], q)
    requires j < |L.history| && L.history[j].key == L.txs[t].request.key && q in L.history[j].quorum
    ensures L.history[j].timestamp <= L.txs[t].timestamp
  {
    var x := L.txs[t];
    assert TxOk(cfg, L.history, t, x);
    assert Numbered(L.history) && Latest(L);
    hide LedgerOk, Numbered;
    if j < x.index { NumberedOrder(L.history, j, x.index); }
  }

  lemma SinksStaged(n: Node, m: Message, key: Key, timestamp: nat, k: Key, v: Stamped)
    requires Sinks(n, m, key, timestamp) && HasStaged(n, k, v)
    ensures k == key && v.timestamp < timestamp <= Read(n, key).timestamp
    ensures m.kind.UnlockRequest? && m.ok && m.id == n.currentTxid
  {}

  lemma OrderToCommit(cfg: Config, L: Ledger, m: Message)
    requires MessageOk(cfg, L, m) && m.kind.UnlockRequest? && m.ok
    ensures m.id in L.txs && L.txs[m.id].stage.Committed?
  {}

  lemma NeverSinks(s: Cluster, L: Ledger, q: int, m: Message, key: Key, timestamp: nat)
    requires Inv(s, L) && 0 <= q < |s.nodes| && Owns(s, q, s.nodes[q]) && Available(s, m) && m.dest == q
    ensures !Sinks(s.nodes[q], m, key, timestamp)
  {
    hide Inv;
    var n := s.nodes[q];
    if Sinks(n, m, key, timestamp) {
      assert Read(n, key).timestamp > 0 && m.ok && m.id == n.currentTxid;
      NetMessage(s, L, m);
      OrderToCommit(s.cfg, L, m);
      NodeAt(s, L, q);
      hide NodeOk, LedgerOk, Owns, Sinks, HasStaged, MessageOk, Read;
      var j := OwnIsQuorum(s, L, q, key);
      UnlockHolder(s.cfg, L, q, n, m);
      SinksStaged(n, m, key, timestamp, L.txs[m.id].request.key, ValueOf(L.txs[m.id]));
      HolderIsLast(s.cfg, L, q, m.id, j);
    }
  }

  /** Without sloppy mode no step of a run makes a node fall. */
  lemma NothingFalls(run: seq<Cluster>, k: nat, q: nat, key: Key, timestamp: nat)
    requires IsRun(run) && k + 1 < |run| && q < |run[k].nodes| && !run[k].cfg.sloppy
    ensures !SinksAt(run, k, q, key, timestamp)
  {
    PrefixRun(run, k);
    var shorter := run[..k + 1];
    assert Last(shorter) == run[k];
    hide IsRun;
    var L := RunOk(shorter);
    StoresOwnWrites(shorter);
    hide Inv, Sinks;
    if SinksAt(run, k, q, key, timestamp) {
      var m, c, d :| Deliver(run[k], run[k + 1], m, c, d) && m.dest == q && !run[k].nodes[q].disabled &&
                     Sinks(run[k].nodes[q], m, key, timestamp);
      NeverSinks(run[k], L, q, m, key, timestamp);
    }
  }

  lemma SinksInside(run: seq<Cluster>, k: nat, q: nat, key: Key, timestamp: nat)
    requires SinksAt(run, k, q, key, timestamp)
    ensures k + 1 < |run| && q < |run[k].nodes|
  {}

  lemma {:induction false} SameConfig(run: seq<Cluster>, i: nat, k: nat)
    requires IsRun(run) && i <= k < |run|
    ensures run[k].cfg == run[i].cfg
  {
    hide Next, Init;
    if i < k {
      SameConfig(run, i, k - 1);
      assert Next(run[k - 1], run[k - 1 + 1]);
      NextConfig(run[k - 1], run[k]);
    }
  }

  /** Without sloppy mode a node's timestamps only grow. */
  lemma OnlyGrowHere(run: seq<Cluster>, i: nat, j: nat, q: nat, key: Key)
    requires IsRun(run) && i <= j < |run| && q < |run[i].nodes| && !run[i].cfg.sloppy
    ensures q < |run[j].nodes| && Read(run[i].nodes[q], key).timestamp <= Read(run[j].nodes[q], key).timestamp
  {
    hide IsRun, SinksAt, Read;
    var k := StaysUnless(run, i, j, q, key, Read(run[i].nodes[q], key).timestamp);
    if i <= k < j && SinksAt(run, k, q, key, Read(run[i].nodes[q], key).timestamp) {
      SinksInside(run, k, q, key, Read(run[i].nodes[q], key).timestamp);
      SameConfig(run, i, k);
      NothingFalls(run, k, q, key, Read(run[i].nodes[q], key).timestamp);
    }
  }

  /** ... and what it keeps of an acknowledged write it keeps to the end of the run. */
  lemma KeptForGood(run: seq<Cluster>, b: nat, i: nat, q: nat)
    requires IsRun(run) && b < |Last(run).trace| && WriteDone(Last(run).trace[b]) && i < |run| && q < |run[i].nodes|
    requires !run[i].cfg.sloppy
    requires var a := Last(run).trace[b].answer;
             Keeps(run[i].nodes[q], a.id, a.key, Stamped(a.timestamp, a.value))
    ensures var a := Last(run).trace[b].answer;
            q < |Last(run).nodes| && Keeps(Last(run).nodes[q], a.id, a.key, Stamped(a.timestamp, a.value))
  {
    hide IsRun, SinksAt, Keeps;
    KeptUnless(run, b, i, q);
    var a := Last(run).trace[b].answer;
    forall k: nat | i <= k ensures !SinksAt(run, k, q, a.key, a.timestamp) {
      if SinksAt(run, k, q, a.key, a.timestamp) {
        SinksInside(run, k, q, a.key, a.timestamp);
        SameConfig(run, i, k);
        NothingFalls(run, k, q, a.key, a.timestamp);
      }
    }
  }
}
