/** What every run guarantees, in terms of the nodes, the messages ever sent and
    the requests and answers that clients see. */
module Theorems {
  import opened Packet
  import opened Sets
  import opened Node
  import opened Ledgers
  import opened Invariants
  import opened Handlers
  import opened Clusters
  import opened Runs

  function Last(run: seq<Cluster>): Cluster
    requires |run| > 0
  {
    run[|run| - 1]
  }

  // ---------- order of operations ----------

  /** The request at i is answered at b. */
  predicate AnsweredAt(trace: seq<Event>, i: nat, b: nat) {
    i < b < |trace| && trace[i].Invoked? && trace[b].Returned? && trace[b].answer.id == trace[i].request.id
  }

  /** The answer at a is given before the request at i, for the same key, is made. */
  predicate Precedes(trace: seq<Event>, a: nat, i: nat) {
    a < i < |trace| && trace[a].Returned? && trace[i].Invoked? && trace[a].answer.key == trace[i].request.key
  }

  lemma DecidedAfter(cfg: Config, L: Ledger, t: int)
    requires LedgerOk(cfg, L) && t in L.txs && L.txs[t].stage.Committed?
    ensures Version(L.history[..L.txs[t].since], L.txs[t].request.key) < L.txs[t].timestamp
  {
    var x := L.txs[t];
    assert TxOk(cfg, L.history, t, x) && DecisionOk(L, x.index);
    assert L.history[x.index].timestamp == Version(L.history[..x.index], x.request.key) + 1;
    assert L.history[..x.index][..x.since] == L.history[..x.since];
    VersionGrows(L.history[..x.index], x.request.key, x.since);
  }

  /** If one operation on a key finishes before another begins, the later one has
      no older timestamp, and a newer one if it is a write. */
  lemma RealTimeOrder(run: seq<Cluster>, a: nat, i: nat, b: nat)
    requires IsRun(run)
    requires Precedes(Last(run).trace, a, i) && AnsweredAt(Last(run).trace, i, b)
    ensures var trace := Last(run).trace;
            && trace[b].answer.key == trace[i].request.key
            && (WriteDone(trace[b]) ==> trace[a].answer.timestamp < trace[b].answer.timestamp)
            && (StrictConfig(Last(run).cfg) ==> trace[a].answer.timestamp <= trace[b].answer.timestamp)
  {
    var L := RunOk(run);
    var s := Last(run);
    var trace, x := s.trace, L.txs[s.trace[i].request.id];
    assert Before(L, trace[a].answer, trace[i].request);
    assert AnswerOk(s.cfg, L, trace[b].answer) && TxOk(s.cfg, L.history, trace[i].request.id, x);
    if WriteDone(trace[b]) { DecidedAfter(s.cfg, L, trace[i].request.id); }
  }

  /** A read or write is answered only after it was asked. */
  lemma AnswersFollowRequests(run: seq<Cluster>, b: nat) returns (i: nat)
    requires IsRun(run) && b < |Last(run).trace| && Last(run).trace[b].Returned?
    ensures AnsweredAt(Last(run).trace, i, b)
  {
    var L := RunOk(run);
    var trace := Last(run).trace;
    assert Asked(trace[..b], trace[b].answer.id);
    i :| 0 <= i < b && trace[..b][i].Invoked? && trace[..b][i].request.id == trace[b].answer.id;
  }

  // ---------- writes ----------

  /** The acknowledged writes of a key carry the timestamps 1, 2, 3, ... in order. */
  lemma WritesAreNumbered(run: seq<Cluster>, j: nat)
    requires IsRun(run) && j < |Last(run).trace| && WriteDone(Last(run).trace[j])
    ensures Last(run).trace[j].answer.timestamp == Acks(Last(run).trace[..j], Last(run).trace[j].answer.key) + 1
  {
    var L := RunOk(run);
  }

  lemma WritesConsecutive(run: seq<Cluster>)
    requires IsRun(run)
    ensures Consecutive(Last(run).trace)
  {
    hide Consecutive;
    var L := RunOk(run);
  }

  lemma AcksGrow(trace: seq<Event>, key: Key, i: nat)
    requires i <= |trace|
    ensures Acks(trace[..i], key) <= Acks(trace, key)
  {
    if i < |trace| {
      AcksGrow(trace[..|trace| - 1], key, i);
      assert trace[..|trace| - 1][..i] == trace[..i];
    } else {
      assert trace[..i] == trace;
    }
  }

  lemma NumberedWrites(trace: seq<Event>, i: nat, j: nat)
    requires Consecutive(trace) && i < j < |trace| && WriteDone(trace[i]) && WriteDone(trace[j])
    requires trace[i].answer.key == trace[j].answer.key
    ensures trace[i].answer.timestamp < trace[j].answer.timestamp
  {
    var key := trace[i].answer.key;
    var upto := trace[..i + 1];
    assert upto[..|upto| - 1] == trace[..i];
    assert Acks(upto, key) == Acks(trace[..i], key) + 1;
    assert trace[..j][..i + 1] == upto;
    AcksGrow(trace[..j], key, i + 1);
  }

  /** A write is acknowledged at most once; a strong write only at the timestamp it
      asked for, so of all strong writes asking for one timestamp at most one succeeds. */
  lemma StrongWrites(run: seq<Cluster>, i: nat, b: nat, c: nat)
    requires IsRun(run) && b < c < |Last(run).trace|
    requires AnsweredAt(Last(run).trace, i, b) && WriteDone(Last(run).trace[b]) && WriteDone(Last(run).trace[c])
    ensures var trace := Last(run).trace;
            && trace[c].answer.id != trace[b].answer.id
            && (trace[i].request.kind.ClientStrongWriteRequest? ==>
                 trace[b].answer.timestamp == trace[i].request.timestamp)
            && (trace[b].answer.key == trace[c].answer.key ==> trace[b].answer.timestamp != trace[c].answer.timestamp)
  {
    var L := RunOk(run);
    var s := Last(run);
    var trace := s.trace;
    assert AnswerOk(s.cfg, L, trace[b].answer) && AnswerOk(s.cfg, L, trace[c].answer);
    assert TxOk(s.cfg, L.history, trace[b].answer.id, L.txs[trace[b].answer.id]);
    if trace[b].answer.key == trace[c].answer.key { NumberedWrites(trace, b, c); }
  }

  /** A write that the nodes answered with a failure is never acknowledged. */
  lemma FailureIsFinal(run: seq<Cluster>, m: Message, j: nat)
    requires IsRun(run) && m in Last(run).net && m.kind.ClientWriteResponse? && !m.ok
    requires j < |Last(run).trace| && WriteDone(Last(run).trace[j])
    ensures Last(run).trace[j].answer.id != m.id
  {
    var L := RunOk(run);
    var s := Last(run);
    assert MessageOk(s.cfg, L, m) && AnswerOk(s.cfg, L, s.trace[j].answer);
  }

  // ---------- what is visible ----------

  /** An acknowledged write of this value at this timestamp. */
  ghost predicate WasWritten(trace: seq<Event>, key: Key, v: Stamped) {
    exists j :: 0 <= j < |trace| && WriteOf(trace[j], key) &&
        Stamped(trace[j].answer.timestamp, trace[j].answer.value) == v
  }

  lemma RecordedWasWritten(L: Ledger, trace: seq<Event>, key: Key, v: Stamped)
    requires DecidedAcked(L, trace) && Recorded(L.history, key, v)
    ensures WasWritten(trace, key, v)
  {
    var i :| 0 <= i < |L.history| && L.history[i].key == key && L.history[i].timestamp == v.timestamp &&
        L.history[i].value == v.value;
    assert Acknowledged(trace, L.history[i]);
    var j :| 0 <= j < |trace| && Acknowledges(trace[j], L.history[i]);
    assert WriteOf(trace[j], key);
  }

  /** What a node stores, and what a read returns, was acknowledged as written:
      an aborted write is never visible. */
  lemma OnlyWritesAreVisible(run: seq<Cluster>, p: nat, key: Key, b: nat)
    requires IsRun(run)
    ensures p < |Last(run).nodes| && key in Last(run).nodes[p].store.committed ==>
              WasWritten(Last(run).trace, key, Last(run).nodes[p].store.committed[key])
    ensures b < |Last(run).trace| && Last(run).trace[b].Returned? ==>
              var a := Last(run).trace[b].answer;
              var v := Stamped(a.timestamp, a.value);
              v == ABSENT || WasWritten(Last(run).trace, a.key, v)
  {
    var L := RunOk(run);
    var s := Last(run);
    if p < |s.nodes| && key in s.nodes[p].store.committed {
      NodeAt(s, L, p);
      assert StoreOk(L, s.nodes[p]);
      RecordedWasWritten(L, s.trace, key, s.nodes[p].store.committed[key]);
    }
    if b < |s.trace| && s.trace[b].Returned? {
      var a := s.trace[b].answer;
      AnswerBound(s.cfg, L, a);
      var v := Stamped(a.timestamp, a.value);
      if v != ABSENT { RecordedWasWritten(L, s.trace, a.key, v); }
    }
  }

  lemma WritesDiffer(trace: seq<Event>, key: Key, v: Stamped, u: Stamped)
    requires Consecutive(trace) && WasWritten(trace, key, v) && WasWritten(trace, key, u) && v.timestamp == u.timestamp
    ensures v == u
  {
    var i :| 0 <= i < |trace| && WriteOf(trace[i], key) &&
        Stamped(trace[i].answer.timestamp, trace[i].answer.value) == v;
    var j :| 0 <= j < |trace| && WriteOf(trace[j], key) &&
        Stamped(trace[j].answer.timestamp, trace[j].answer.value) == u;
    if i < j { NumberedWrites(trace, i, j); } else if j < i { NumberedWrites(trace, j, i); }
  }

  /** Stored at some node, or answered to a client, by a read or a write. */
  ghost predicate Visible(s: Cluster, key: Key, v: Stamped) {
    || (exists p: nat :: p < |s.nodes| && key in s.nodes[p].store.committed && s.nodes[p].store.committed[key] == v)
    || (exists b: nat :: b < |s.trace| && s.trace[b].Returned? && s.trace[b].answer.key == key
          && Stamped(s.trace[b].answer.timestamp, s.trace[b].answer.value) == v)
  }

  lemma VisibleWasWritten(run: seq<Cluster>, key: Key, v: Stamped)
    requires IsRun(run) && Visible(Last(run), key, v)
    ensures v == ABSENT || WasWritten(Last(run).trace, key, v)
  {
    var s := Last(run);
    if p: nat :| p < |s.nodes| && key in s.nodes[p].store.committed && s.nodes[p].store.committed[key] == v {
      OnlyWritesAreVisible(run, p, key, |s.trace|);
    } else {
      var b: nat :| b < |s.trace| && s.trace[b].Returned? && s.trace[b].answer.key == key
                    && Stamped(s.trace[b].answer.timestamp, s.trace[b].answer.value) == v;
      OnlyWritesAreVisible(run, |s.nodes|, key, b);
    }
    hide IsRun;
  }

  /** A key and a timestamp determine the value, at all nodes and in all answers. */
  lemma TimestampsIdentifyWrites(run: seq<Cluster>, key: Key, v: Stamped, u: Stamped)
    requires IsRun(run) && Visible(Last(run), key, v) && Visible(Last(run), key, u) && v.timestamp == u.timestamp
    ensures v == u
  {
    var trace := Last(run).trace;
    WritesConsecutive(run);
    VisibleWasWritten(run, key, v);
    VisibleWasWritten(run, key, u);
    hide IsRun, Visible;
    if v != ABSENT && u != ABSENT { WritesDiffer(trace, key, v, u); }
  }

  // ---------- where a write is stored ----------

  /** The node stores this or something newer, or is locked by the write with exactly this staged. */
  ghost predicate Keeps(n: Node, t: int, key: Key, v: Stamped) {
    || v.timestamp <= Read(n, key).timestamp
    || (n.mode.ProcessingWrite? && n.currentTxid == t && HasStaged(n, key, v))
  }

  lemma KeptBy(cfg: Config, L: Ledger, i: nat, p: int, n: Node)
    requires LedgerOk(cfg, L) && NodeOk(cfg, L, p, n) && i < |L.history| && p in L.history[i].quorum
    ensures Keeps(n, L.history[i].txid, L.history[i].key, Stamped(L.history[i].timestamp, L.history[i].value))
  {
    var d := L.history[i];
    assert DecisionOk(L, i) && HasCaughtUp(L, p, n, d) && TxOk(cfg, L.history, d.txid, L.txs[d.txid]);
    if Read(n, d.key).timestamp < d.timestamp {
      assert Holds(L.txs[d.txid], p) && Busy(n, d.txid);
      assert HasStaged(n, d.key, ValueOf(L.txs[d.txid]));
    }
  }

  /** Every acknowledged write is kept by the W nodes of its quorum. */
  lemma Coverage(run: seq<Cluster>, j: nat) returns (quorum: set<int>)
    requires IsRun(run) && j < |Last(run).trace| && WriteDone(Last(run).trace[j])
    ensures |quorum| == Last(run).cfg.w && InRange(quorum, |Last(run).nodes|)
    ensures var a := Last(run).trace[j].answer;
            forall q :: q in quorum ==> Keeps(Last(run).nodes[q], a.id, a.key, Stamped(a.timestamp, a.value))
  {
    var L := RunOk(run);
    var s := Last(run);
    var a := s.trace[j].answer;
    var x := L.txs[a.id];
    assert AnswerOk(s.cfg, L, a) && TxOk(s.cfg, L.history, a.id, x);
    QuorumSize(s.cfg, L.history, a.id, x);
    quorum := Quorum(x);
    assert L.history[x.index] == DecisionOf(a.id, x);
    forall q | q in quorum ensures Keeps(s.nodes[q], a.id, a.key, Stamped(a.timestamp, a.value)) {
      NodeAt(s, L, q);
      KeptBy(s.cfg, L, x.index, q, s.nodes[q]);
    }
  }

  /** In strict mode, among any R nodes with nothing staged, one stores the write or a newer one. */
  lemma EveryReadQuorumMeetsIt(run: seq<Cluster>, j: nat, readers: set<int>) returns (q: int)
    requires IsRun(run) && j < |Last(run).trace| && WriteDone(Last(run).trace[j]) && StrictConfig(Last(run).cfg)
    requires InRange(readers, |Last(run).nodes|) && |readers| >= Last(run).cfg.r
    requires forall p :: p in readers ==> Last(run).nodes[p].uncommittedKey.None?
    ensures q in readers
    ensures Last(run).trace[j].answer.timestamp <= Read(Last(run).nodes[q], Last(run).trace[j].answer.key).timestamp
  {
    var L := RunOk(run);
    var quorum := Coverage(run, j);
    q := Overlap(readers, quorum, |Last(run).nodes|);
  }

  // ---------- locks and two-phase commit ----------

  /** At most one node is past the locks of its write. */
  lemma OneWriter(run: seq<Cluster>, p: nat, q: nat)
    requires IsRun(run) && p < |Last(run).nodes| && q < |Last(run).nodes|
    requires Last(run).nodes[p].mode.CoordinatingWrite? && Last(run).nodes[q].mode.CoordinatingWrite?
    ensures p == q
  {
    var L := RunOk(run);
    var s := Last(run);
    NodeAt(s, L, p);
    NodeAt(s, L, q);
    var n, m := s.nodes[p], s.nodes[q];
    assert JobOk(L, p, n) && JobOk(L, q, m);
    MutualExclusion(s.cfg, L, n.currentTxid, m.currentTxid);
  }

  /** No two members are ever told different outcomes of one transaction. */
  lemma OneVerdict(run: seq<Cluster>, a: Message, b: Message)
    requires IsRun(run) && a in Last(run).net && b in Last(run).net
    requires a.kind.UnlockRequest? && b.kind.UnlockRequest? && a.id == b.id
    ensures a.ok == b.ok
  {
    var L := RunOk(run);
    assert MessageOk(Last(run).cfg, L, a) && MessageOk(Last(run).cfg, L, b);
  }

  predicate Succeeded(trace: seq<Event>, id: int) {
    exists j :: 0 <= j < |trace| && WriteDone(trace[j]) && trace[j].answer.id == id
  }

  /** Members are told to commit exactly when the client is told of success. */
  lemma VerdictMatchesAnswer(run: seq<Cluster>, a: Message)
    requires IsRun(run) && a in Last(run).net && a.kind.UnlockRequest?
    ensures a.ok <==> Succeeded(Last(run).trace, a.id)
  {
    var L := RunOk(run);
    var s := Last(run);
    assert MessageOk(s.cfg, L, a);
    if a.ok {
      var x := L.txs[a.id];
      assert TxOk(s.cfg, L.history, a.id, x);
      assert Acknowledged(s.trace, L.history[x.index]);
      var j :| 0 <= j < |s.trace| && Acknowledges(s.trace[j], L.history[x.index]);
      assert WriteDone(s.trace[j]) && s.trace[j].answer.id == a.id;
    }
    if Succeeded(s.trace, a.id) {
      var j :| 0 <= j < |s.trace| && WriteDone(s.trace[j]) && s.trace[j].answer.id == a.id;
      assert AnswerOk(s.cfg, L, s.trace[j].answer);
    }
  }

  /** No node ever stops on an inconsistency, an unknown message or a missing map. */
  lemma NobodyExits(run: seq<Cluster>, p: nat)
    requires IsRun(run) && p < |Last(run).nodes|
    ensures !Last(run).nodes[p].exited
  {
    var L := RunOk(run);
    NodeAt(Last(run), L, p);
  }

  // ---------- counting votes ----------

  /** The kind of reply a coordinator waits for. */
  function Awaited(n: Node): Kind {
    match n.mode
    case AssemblingQuorum => LockResponse
    case CoordinatingWrite => if Lookup(n.quorumMembers, n.id).kind.PutRequest? then GetResponse else PutResponse
    case _ => GetResponse
  }

  ghost predicate Coordinator(n: Node) { !n.mode.Idle? && !n.mode.ProcessingWrite? }

  ghost predicate VotesCounted(n: Node) {
    && n.quorumMembers.Some?
    && InRange(Peers(n), n.config.n)
    && |Peers(n)| == (if n.mode.CoordinatingFastRead? then n.config.r else n.config.w) - 1
    && n.numWaitingNodes == |Awaiting(n.quorumMembers.value, Peers(n), Awaited(n))| > 0
  }

  lemma JobVotes(cfg: Config, L: Ledger, p: int, n: Node)
    requires LedgerOk(cfg, L) && NodeOk(cfg, L, p, n) && Coordinator(n)
    ensures VotesCounted(n)
  {
    JobUnderway(cfg, L, p, n);
    assert JobOk(L, p, n) && n.id == p && n.config == cfg;
    assert TxOk(cfg, L.history, n.currentTxid, L.txs[n.currentTxid]);
    hide NodeOk, LedgerOk;
    JobCounts(cfg, L, p, n);
  }

  /** The mode says which stage the transaction is at, and whose replies are awaited. */
  lemma JobWaits(L: Ledger, p: int, n: Node)
    requires Coordinator(n) && JobOk(L, p, n) && n.id == p && Underway(L, p, n, n)
    ensures Waits(n, Peers(n), Awaited(n))
    ensures var stage := L.txs[n.currentTxid].stage;
            if n.mode.CoordinatingFastRead? then stage.Reading?
            else stage.Assembling? || stage.Stamping? || stage.Putting?
  {
    hide StampOk, ReplyOk, HasStaged, Awaiting;
  }

  lemma JobCounts(cfg: Config, L: Ledger, p: int, n: Node)
    requires Coordinator(n) && JobOk(L, p, n) && n.id == p && n.config == cfg && Underway(L, p, n, n)
    requires TxOk(cfg, L.history, n.currentTxid, L.txs[n.currentTxid])
    ensures VotesCounted(n)
  {
    hide JobOk, Awaited, Awaiting;
    JobWaits(L, p, n);
  }

  /** The vote counter is the number of members whose reply is missing, never zero
      between steps; a quorum has the size it needs, without the node itself. */
  lemma VotesAreCounted(run: seq<Cluster>, p: nat)
    requires IsRun(run) && p < |Last(run).nodes| && Coordinator(Last(run).nodes[p])
    ensures VotesCounted(Last(run).nodes[p])
  {
    hide VotesCounted, NodeOk, LedgerOk;
    var L := RunOk(run);
    NodeAt(Last(run), L, p);
    JobVotes(Last(run).cfg, L, p, Last(run).nodes[p]);
  }

  /** Every vote for a staged write is true: the member is locked by the same
      transaction, with the chosen value staged under the chosen timestamp. */
  lemma VotesAreTrue(run: seq<Cluster>, p: nat, q: int)
    requires IsRun(run) && p < |Last(run).nodes| && Last(run).nodes[p].mode.CoordinatingWrite?
    requires Last(run).nodes[p].quorumMembers.Some? && q in Peers(Last(run).nodes[p])
    requires Lookup(Last(run).nodes[p].quorumMembers, q).kind.PutResponse?
    ensures var n := Last(run).nodes[p];
            && 0 <= q < |Last(run).nodes|
            && Last(run).nodes[q].mode.ProcessingWrite? && Last(run).nodes[q].currentTxid == n.currentTxid
            && HasStaged(Last(run).nodes[q], n.clientRequest.key,
                         Stamped(Lookup(n.quorumMembers, p).timestamp, n.clientRequest.value))
  {
    var s := Last(run);
    assert |run| > 0;
    hide IsRun, Inv, HasStaged, Lookup, NodeOk, LedgerOk;
    var L := RunOk(run);
    NodesInConfig(s, L);
    NodeAt(s, L, p);
    VoteIsStaged(s.cfg, L, p, s.nodes[p], q);
    NodeAt(s, L, q);
    StagedIsHeld(s.cfg, L, q, s.nodes[q], s.nodes[p].currentTxid);
  }

  lemma NodesInConfig(s: Cluster, L: Ledger)
    requires Inv(s, L)
    ensures |s.nodes| == s.cfg.n
  {
    hide LedgerOk, NodeOk;
  }

  /** What a counted vote says of its write. */
  lemma VoteIsStaged(cfg: Config, L: Ledger, p: int, n: Node, q: int)
    requires LedgerOk(cfg, L) && NodeOk(cfg, L, p, n) && n.mode.CoordinatingWrite? && n.quorumMembers.Some?
    requires q in Peers(n) && Lookup(n.quorumMembers, q).kind.PutResponse?
    ensures n.currentTxid in L.txs
    ensures var x := L.txs[n.currentTxid];
            && 0 <= q < cfg.n && q != x.coord && x.stage.Putting? && q in x.staged
            && n.clientRequest.key == x.request.key
            && Stamped(Lookup(n.quorumMembers, p).timestamp, n.clientRequest.value) == ValueOf(x)
  {
    assert JobOk(L, p, n) && n.id == p;
    hide NodeOk;
    assert PuttingJob(L, p, n) && TxOk(cfg, L.history, n.currentTxid, L.txs[n.currentTxid]);
    hide LedgerOk;
  }

  /** A member that has staged a write is held by it until the write is decided. */
  lemma StagedIsHeld(cfg: Config, L: Ledger, q: int, n: Node, t: int)
    requires LedgerOk(cfg, L) && NodeOk(cfg, L, q, n) && t in L.txs
    requires L.txs[t].stage.Putting? && q in L.txs[t].staged && q != L.txs[t].coord
    ensures n.mode.ProcessingWrite? && n.currentTxid == t
    ensures HasStaged(n, L.txs[t].request.key, ValueOf(L.txs[t]))
  {
    assert TxOk(cfg, L.history, t, L.txs[t]);
    AllHold(cfg, L, t, q);
    hide LedgerOk;
    assert JobOk(L, q, n) && HoldsOk(L, q, n) && PromiseOk(L, q, n);
    hide NodeOk, HasStaged;
    assert Busy(n, t);
  }
}
