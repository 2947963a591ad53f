/** Where the protocol's guarantees end: for each assumption made about a run, the
    exact condition under which one handler keeps what the run relies on, and a
    node on which it does not. */
module Boundaries {
  import opened Packet
  import opened Wrappers
  import opened StagedStore
  import opened Node
  import opened Ledgers
  import opened Invariants
  import opened Clusters
  import opened Runs
  import opened Theorems
  import opened Locking

  // ---------- quorum sizes ----------

  /** The checks made before any node is started (net/manager.go). */
  predicate Accepted(cfg: Config) {
    cfg.r <= cfg.n && cfg.w <= cfg.n && !(cfg.w <= cfg.n / 2) && (cfg.sloppy || !(cfg.r + cfg.w <= cfg.n))
  }

  /** For at least two nodes and one reader, exactly the overlapping quorums are accepted. */
  lemma AcceptedQuorums(cfg: Config)
    requires cfg.n >= 2 && cfg.r >= 1
    ensures Accepted(cfg) <==> ValidConfig(cfg) && (cfg.sloppy || StrictConfig(cfg))
  {}

  // ---------- a timestamp answered twice ----------

  ghost predicate Tally(n: Node) {
    n.quorumMembers.Some? && n.numWaitingNodes == |Awaiting(n.quorumMembers.value, Peers(n), Awaited(n))|
  }

  /** A coordinator whose members have each answered the timestamp request, and some the write too. */
  ghost predicate Putting(n: Node) {
    && n.mode.CoordinatingWrite? && n.quorumMembers.Some? && Lookup(n.quorumMembers, n.id).kind.UnlockRequest?
    && forall q :: q in Peers(n) ==>
         n.quorumMembers.value[q].kind.GetResponse? || n.quorumMembers.value[q].kind.PutResponse?
  }

  /** The coordinator once the reply is counted, before it goes on. */
  function AfterCount(n: Node, m: Message): Node {
    if n.quorumMembers.None? || Lookup(n.quorumMembers, m.src).kind == m.kind then n
    else n.(quorumMembers := Some(n.quorumMembers.value[m.src := m]), numWaitingNodes := n.numWaitingNodes - 1)
  }

  /** While writes are staged, a timestamp reply leaves the vote count right exactly if it is not late. */
  lemma LateStampBreaksTally(n: Node, m: Message)
    requires Putting(n) && Tally(n) && m.kind.GetResponse? && m.ok && m.id == n.currentTxid && m.src in Peers(n)
    ensures Tally(AfterCount(n, m)) <==> !LateStamp(n, m)
  {
    var members, peers, n' := n.quorumMembers.value, Peers(n), AfterCount(n, m);
    if LateStamp(n, m) {
      assert Peers(n') == peers && Awaited(n') == PutResponse;
      assert Awaiting(n'.quorumMembers.value, peers, PutResponse) == Awaiting(members, peers, PutResponse) + {m.src};
    } else {
      assert n' == n;
    }
  }

  /** A coordinator waiting for the last of two staged writes, from member 2. */
  function TwoMembers(): Node {
    New(0, Config(3, 2, 3, false)).(
      mode := CoordinatingWrite,
      currentTxid := 7,
      clientRequest := Message(7, 3, 0, ClientWriteRequest, [1], [9], 0, true),
      quorumMembers := Some(map[0 := Marker(UnlockRequest, 1),
                                1 := Message(7, 1, 0, PutResponse, [1], [9], 1, true),
                                2 := Message(7, 2, 0, GetResponse, [1], [], 0, true)]),
      numWaitingNodes := 1,
      store := Put(Empty(), [1], Stamped(1, [9])),
      uncommittedTxid := 1,
      uncommittedKey := Some([1]))
  }

  /** One repeated timestamp makes it commit although member 2 has not staged the write. */
  lemma CommitsTooEarly(c: Choice)
    ensures var n := TwoMembers();
            var late := Message(7, 1, 0, GetResponse, [1], [], 0, true);
            && Putting(n) && Tally(n) && LateStamp(n, late) && Lookup(n.quorumMembers, 2).kind.GetResponse?
            && HandleGetRes(n, late, c).reply == Some(Message(7, 0, 3, ClientWriteResponse, [1], [9], 1, true))
            && Signal(7, 0, 2, UnlockRequest, true) in HandleGetRes(n, late, c).out
  {
    var n := TwoMembers();
    var late := Message(7, 1, 0, GetResponse, [1], [], 0, true);
    assert Peers(n) == {1, 2};
    assert Awaiting(n.quorumMembers.value, Peers(n), PutResponse) == {2};
    var n1 := AfterCount(n, late);
    assert HandleGetRes(n, late, c) == CommitWrite(n1);
    assert Peers(n1) == {1, 2};
  }

  // ---------- a locked member that crashes ----------

  /** Locked, with something newer staged than what is stored. */
  ghost predicate Bound(n: Node) {
    && n.mode.ProcessingWrite? && n.uncommittedTxid > 0 && n.uncommittedKey.Some?
    && CanCommit(n.store, n.uncommittedKey.value, n.uncommittedTxid)
    && Read(n, n.uncommittedKey.value).timestamp < n.store.staged[n.uncommittedTxid].1.timestamp
  }

  ghost predicate CrashKeeps(n: Node) {
    forall t, key, v :: Keeps(n, t, key, v) ==> Keeps(Fail(n), t, key, v)
  }

  /** A crash keeps what the node promised to keep exactly if it is not bound by a staged write. */
  lemma CrashKeepsPromises(n: Node)
    ensures CrashKeeps(n) <==> !Bound(n)
  {
    var n' := Fail(n);
    assert forall key :: Read(n', key) == Read(n, key);
    if Bound(n) {
      var key := n.uncommittedKey.value;
      var v := n.store.staged[n.uncommittedTxid].1;
      assert Keeps(n, n.currentTxid, key, v) && !Keeps(n', n.currentTxid, key, v);
    } else {
      forall t, key, v | Keeps(n, t, key, v) ensures Keeps(n', t, key, v) {
        if Read(n, key).timestamp < v.timestamp { assert HasStaged(n, key, v) && Bound(n); }
      }
    }
  }

  /** A crash keeps the node's memory of a lock exactly if it holds none, or the lock's
      transaction is remembered as over. */
  lemma CrashKeepsLock(n: Node)
    ensures LockKept(n, Fail(n)) <==> !n.mode.ProcessingWrite? || n.currentTxid in n.unlockTxids
  {}

  /** In a run, the crashes to be excluded are exactly those of locked nodes, whether or
      not they have staged anything: no other condition on the node keeps its lock. */
  lemma CrashesThatForget(run: seq<Cluster>, p: nat)
    requires IsRun(run) && p < |Last(run).nodes|
    ensures LockKept(Last(run).nodes[p], Fail(Last(run).nodes[p])) <==> !Last(run).nodes[p].mode.ProcessingWrite?
  {
    var L := RunOk(run);
    CrashKeepsLock(Last(run).nodes[p]);
    if Last(run).nodes[p].mode.ProcessingWrite? { NotUnlocked(Last(run), L, p); }
  }

  /** A lock that a crash has forgotten is granted again when its request is sent again. */
  lemma GrantedAgain(n: Node, m: Message, c: Choice)
    requires n.mode.ProcessingWrite? && n.currentTxid == m.id && m.id !in n.unlockTxids && n.lockRequests == []
    requires m.kind.LockRequestNoTimeout?
    ensures TakeNext(Enqueue(Recover(Fail(n)), m).node, c).out == {Signal(m.id, n.id, m.src, LockResponse, true)}
    ensures TakeNext(Enqueue(n, m).node, c).out == {}
  {}

  // ---------- forgetting finished transactions ----------

  ghost function NewestId(ids: set<int>): (t: nat)
    ensures (t == 0 || t in ids) && forall id :: id in ids ==> id <= t
  {
    var stamps: set<nat> := {0} + set id: nat | id in ids;
    assert forall id :: id in ids && id >= 0 ==> id in stamps;
    MaxOf(stamps)
  }

  /** Dropping the ids that trail the newest by more than 50 (cleanUnlockTxids). */
  ghost function Pruned(n: Node): Node {
    n.(unlockTxids := set id | id in n.unlockTxids && id >= NewestId(n.unlockTxids) - 50)
  }

  /** A lock request for a finished transaction is granted again exactly if its id was forgotten. */
  lemma ForgottenLocks(n: Node, c: Choice)
    requires n.mode.Idle? && n.lockRequests != [] && n.lockRequests[0].kind.LockRequestNoTimeout?
    requires n.lockRequests[0].id in n.unlockTxids && n.lockRequests[0].id >= 0
    ensures TakeNext(n, c).node.mode.Idle?
    ensures TakeNext(Pruned(n), c).node.mode.ProcessingWrite? <==>
            exists id :: id in n.unlockTxids && n.lockRequests[0].id < id - 50
  {
    var m, t := n.lockRequests[0], NewestId(n.unlockTxids);
    assert m.id !in Pruned(n).unlockTxids <==> m.id + 50 < t;
  }

  // ---------- the variable that a queued request shares ----------

  /** A queued request is taken and kept as the value it was received as exactly if no
      other request is waiting for the idle node. */
  lemma SharedVariable(n: Node, m: Message, c: Choice, d: Choice)
    requires Queues(n, m, c)
    ensures TakeNextShared(n, m, c, d) == TakeNext(Enqueue(n, m).node, d) <==>
              !(n.mode.Idle? && n.lockRequests != [] && n.lockRequests[0] != m)
  {
    hide TakeNext;
    if Overwrites(n, m, c) {
      TakeNextQueue(Overwritten(n), d);
      TakeNextQueue(Enqueue(n, m).node, d);
      assert Overwritten(n).lockRequests[1..] == n.lockRequests[1..] + [n.lockRequests[0]];
      assert Enqueue(n, m).node.lockRequests[1..] == n.lockRequests[1..] + [m];
      LastDiffers(n.lockRequests[1..], n.lockRequests[0], m);
      if n.lockRequests[0] == m { assert Overwritten(n) == Enqueue(n, m).node; }
    }
  }

  lemma LastDiffers(q: seq<Message>, a: Message, b: Message)
    ensures q + [a] == q + [b] <==> a == b
  {
    assert (q + [a])[|q|] == a && (q + [b])[|q|] == b;
  }
}
