/** The coordinator's handlers keep the invariant: counting grants, choosing a
    timestamp, deciding, and finishing a read. */
module Coordination {
  import opened Packet
  import opened Wrappers
  import opened Sets
  import opened StagedStore
  import opened Node
  import opened Ledgers
  import opened Invariants
  import opened Handlers
  import Propagation

  // ---------- counting replies ----------

  function Counted(n: Node, m: Message): Node
    requires n.quorumMembers.Some?
  {
    n.(quorumMembers := Some(n.quorumMembers.value[m.src := m]), numWaitingNodes := n.numWaitingNodes - 1)
  }

  lemma AwaitingStep(members: map<int, Message>, peers: set<int>, m: Message)
    requires peers <= members.Keys && m.src in peers && members[m.src].kind != m.kind
    ensures Awaiting(members[m.src := m], peers, m.kind) == Awaiting(members, peers, m.kind) - {m.src}
    ensures |Awaiting(members[m.src := m], peers, m.kind)| == |Awaiting(members, peers, m.kind)| - 1
  {
    assert m.src in Awaiting(members, peers, m.kind);
  }

  lemma NobodyAwaited(members: map<int, Message>, peers: set<int>, kind: Kind)
    requires peers <= members.Keys && |Awaiting(members, peers, kind)| == 0
    ensures forall q :: q in peers ==> members[q].kind == kind
  {
    forall q | q in peers ensures members[q].kind == kind {
      assert q in Awaiting(members, peers, kind) <==> members[q].kind != kind;
    }
  }

  lemma AllAwaited(members: map<int, Message>, peers: set<int>, kind: Kind)
    requires peers <= members.Keys && forall q :: q in peers ==> members[q].kind != kind
    ensures Awaiting(members, peers, kind) == peers
  {
    assert forall q :: q in Awaiting(members, peers, kind) <==> q in peers;
  }

  /** While a reply is counted, only the coordinator's own view changes. */
  lemma JobChange(cfg: Config, L: Ledger, p: int, n: Node, n': Node)
    requires NodeOk(cfg, L, p, n)
    requires n' == n.(quorumMembers := n'.quorumMembers, numWaitingNodes := n'.numWaitingNodes)
    requires JobOk(L, p, n')
    ensures NodeOk(cfg, L, p, n')
  {
    ActorCover(L, L, p, n, n');
    assert HoldsOk(L, p, n') && ActiveOk(L, p, n') && PromiseOk(L, p, n');
  }

  lemma CountedUnderway(cfg: Config, L: Ledger, p: int, n: Node, m: Message)
    requires LedgerOk(cfg, L) && NodeOk(cfg, L, p, n) && !n.mode.Idle? && !n.mode.ProcessingWrite?
    requires m.src in L.txs[n.currentTxid].members
    ensures Underway(L, p, n, Counted(n, m))
  {
    JobUnderway(cfg, L, p, n);
    var x := L.txs[n.currentTxid];
    assert TxOk(cfg, L.history, n.currentTxid, x);
    assert Peers(Counted(n, m)) == Peers(n);
  }

  /** What counting a reply comes to. */
  lemma Counts(n: Node, m: Message, c: Choice)
    requires m.ok && n.quorumMembers.Some? && Lookup(n.quorumMembers, m.src).kind != m.kind
    ensures CountReply(n, m, c) ==
            if Counted(n, m).numWaitingNodes == 0 then Continue(Counted(n, m), c) else Silent(Counted(n, m))
  {
    hide Continue;
  }

  lemma Continues(n: Node, c: Choice)
    requires n.quorumMembers.Some?
    ensures n.mode.CoordinatingFastRead? ==> Continue(n, c) == FinishRead(n, c.latest)
    ensures n.mode.AssemblingQuorum? ==> Continue(n, c) == CoordinateWrite(n.(mode := CoordinatingWrite))
    ensures n.mode.CoordinatingWrite? ==> Continue(n, c) == CoordinateWrite(n)
  {
    hide CoordinateWrite;
  }

  lemma Coordinating(n: Node)
    requires n.quorumMembers.Some?
    ensures Lookup(n.quorumMembers, n.id).kind.TimestampRequest? ==> CoordinateWrite(n) == RequestTimestamps(n)
    ensures Lookup(n.quorumMembers, n.id).kind.PutRequest? ==> CoordinateWrite(n) == StageWrite(n)
    ensures Lookup(n.quorumMembers, n.id).kind.UnlockRequest? ==> CoordinateWrite(n) == CommitWrite(n)
  {
    hide RequestTimestamps, StageWrite, CommitWrite;
  }

  // ---------- grants ----------

  /** A grant that arrives too late belongs to a transaction given up. */
  lemma LateGrant(cfg: Config, L: Ledger, p: int, n: Node, m: Message)
    requires LedgerOk(cfg, L) && NodeOk(cfg, L, p, n)
    requires IsGrant(m) && m.dest == p && OnceOk(cfg, L, m)
    requires !(n.currentTxid == m.id && n.mode.AssemblingQuorum?)
    ensures L.txs[m.id].stage.Finished? && m.src in L.txs[m.id].members && L.txs[m.id].coord == p
  {
    var x := L.txs[m.id];
    assert TxOk(cfg, L.history, m.id, x);
  }

  lemma LateUnlock(cfg: Config, L: Ledger, p: int, n: Node, m: Message)
    requires LedgerOk(cfg, L) && NodeOk(cfg, L, p, n)
    requires IsGrant(m) && m.dest == p && OnceOk(cfg, L, m)
    requires !(n.currentTxid == m.id && n.mode.AssemblingQuorum?)
    ensures n.id == p && MessageOk(cfg, L, Signal(m.id, p, m.src, UnlockRequest, false))
  {
    NodeId(cfg, L, p, n);
    LateGrant(cfg, L, p, n, m);
    hide NodeOk, LedgerOk;
  }

  lemma LateGrantOk(cfg: Config, L: Ledger, p: int, n: Node, m: Message) returns (L': Ledger)
    requires ValidConfig(cfg) && LedgerOk(cfg, L) && NodeOk(cfg, L, p, n)
    requires IsGrant(m) && m.dest == p && OnceOk(cfg, L, m)
    requires !(n.currentTxid == m.id && n.mode.AssemblingQuorum?)
    ensures EffectOk(cfg, L, L', p, m, Effect(n, {Signal(m.id, n.id, m.src, UnlockRequest, false)}, None))
  {
    hide NodeOk, LedgerOk, Evolves, OnceOk, MessageOk;
    L' := L;
    StutterEvolves(L, p, m);
    LateUnlock(cfg, L, p, n, m);
    QuietEffect(cfg, L, L', p, m, Effect(n, {Signal(m.id, n.id, m.src, UnlockRequest, false)}, None));
  }

  lemma GrantIsNew(cfg: Config, L: Ledger, p: int, n: Node, m: Message)
    requires LedgerOk(cfg, L) && NodeOk(cfg, L, p, n)
    requires IsGrant(m) && OnceOk(cfg, L, m) && n.currentTxid == m.id && n.mode.AssemblingQuorum?
    ensures AssemblingJob(L, p, n) && m.src in L.txs[m.id].members && m.src != p
    ensures Lookup(n.quorumMembers, m.src).kind.LockRequestNoTimeout?
    ensures forall u :: u in L.txs ==> !Holds(L.txs[u], p)
  {
    assert TxOk(cfg, L.history, m.id, L.txs[m.id]);
    forall u | u in L.txs ensures !Holds(L.txs[u], p) { assert Holds(L.txs[u], p) <==> Busy(n, u); }
    assert AssemblingJob(L, p, n) && m.src in L.txs[m.id].members && m.src != p;
    assert n.quorumMembers.value[m.src].kind.LockRequestNoTimeout?;
    hide NodeOk, LedgerOk;
  }

  /** The last grant is counted exactly when no member is awaited any more. */
  lemma GrantCount(cfg: Config, L: Ledger, p: int, n: Node, m: Message)
    requires LedgerOk(cfg, L) && NodeOk(cfg, L, p, n)
    requires IsGrant(m) && OnceOk(cfg, L, m) && n.currentTxid == m.id && n.mode.AssemblingQuorum?
    ensures Counted(n, m).numWaitingNodes ==
            |Awaiting(Counted(n, m).quorumMembers.value, L.txs[m.id].members, LockResponse)|
    ensures Counted(n, m).numWaitingNodes == 0 <==> L.txs[m.id].answered + {m.src} == L.txs[m.id].members
  {
    GrantIsNew(cfg, L, p, n, m);
    var x, members := L.txs[m.id], n.quorumMembers.value;
    assert TxOk(cfg, L.history, m.id, x);
    AwaitingStep(members, x.members, m);
    var rest := Awaiting(members[m.src := m], x.members, LockResponse);
    assert rest == x.members - (x.answered + {m.src}) by {
      assert forall q :: q in rest <==> q in x.members && q !in x.answered + {m.src};
    }
    assert |rest| == 0 <==> rest == {};
  }

  lemma GrantLinks(cfg: Config, L: Ledger, p: int, n: Node, m: Message, n': Node)
    requires LedgerOk(cfg, L) && NodeOk(cfg, L, p, n)
    requires IsGrant(m) && OnceOk(cfg, L, m) && n.currentTxid == m.id && n.mode.AssemblingQuorum?
    requires n' == n.(mode := n'.mode, quorumMembers := n'.quorumMembers, numWaitingNodes := n'.numWaitingNodes)
    requires n'.mode ==
             if L.txs[m.id].answered + {m.src} == L.txs[m.id].members then CoordinatingWrite else AssemblingQuorum
    ensures HoldsOk(Count(L, m.id, m.src), p, n') && ActiveOk(Count(L, m.id, m.src), p, n')
    ensures PromiseOk(Count(L, m.id, m.src), p, n') && ReleasedOk(Count(L, m.id, m.src), p, n')
    ensures CoverOk(Count(L, m.id, m.src), p, n')
  {
    GrantIsNew(cfg, L, p, n, m);
    var L' := Count(L, m.id, m.src);
    assert TxOk(cfg, L.history, m.id, L.txs[m.id]);
    forall u | u in L'.txs
      ensures Holds(L'.txs[u], p) <==> Busy(n', u)
      ensures L'.txs[u].coord == p && Active(L'.txs[u]) ==> n'.currentTxid == u
      ensures p in L'.txs[u].released <==> p in L.txs[u].released
    {
      assert TxOk(cfg, L.history, u, L.txs[u]);
    }
    ActorCover(L, L', p, n, n');
  }

  lemma GrantJob(cfg: Config, L: Ledger, p: int, n: Node, m: Message)
    requires LedgerOk(cfg, L) && NodeOk(cfg, L, p, n)
    requires IsGrant(m) && OnceOk(cfg, L, m) && n.currentTxid == m.id && n.mode.AssemblingQuorum?
    requires Counted(n, m).numWaitingNodes > 0
    ensures JobOk(Count(L, m.id, m.src), p, Counted(n, m))
  {
    GrantIsNew(cfg, L, p, n, m);
    GrantCount(cfg, L, p, n, m);
    assert TxOk(cfg, L.history, m.id, L.txs[m.id]);
    assert AssemblingJob(Count(L, m.id, m.src), p, Counted(n, m));
  }

  function Stamps(n: Node): Node
    requires n.quorumMembers.Some?
  {
    n.(mode := CoordinatingWrite, quorumMembers := Some(n.quorumMembers.value[n.id := Marker(PutRequest, 0)]),
       numWaitingNodes := n.config.w as int - 1)
  }

  lemma StampJob(cfg: Config, L: Ledger, p: int, n: Node, m: Message)
    requires ValidConfig(cfg) && LedgerOk(cfg, L) && NodeOk(cfg, L, p, n)
    requires IsGrant(m) && OnceOk(cfg, L, m) && n.currentTxid == m.id && n.mode.AssemblingQuorum?
    requires Counted(n, m).numWaitingNodes == 0
    ensures JobOk(Count(L, m.id, m.src), p, Stamps(Counted(n, m)))
    ensures Peers(Counted(n, m)) == L.txs[m.id].members
    ensures Lookup(Counted(n, m).quorumMembers, p).kind.TimestampRequest?
  {
    GrantIsNew(cfg, L, p, n, m);
    GrantCount(cfg, L, p, n, m);
    var x := L.txs[m.id];
    assert TxOk(cfg, L.history, m.id, x);
    var n' := Stamps(Counted(n, m));
    NobodyAwaited(Counted(n, m).quorumMembers.value, x.members, LockResponse);
    AllAwaited(n'.quorumMembers.value, x.members, GetResponse);
    assert StampingJob(Count(L, m.id, m.src), p, n');
  }

  lemma CountLedger(cfg: Config, L: Ledger, p: int, n: Node, m: Message)
    requires LedgerOk(cfg, L) && NodeOk(cfg, L, p, n)
    requires IsGrant(m) && OnceOk(cfg, L, m) && n.currentTxid == m.id && n.mode.AssemblingQuorum?
    ensures LedgerOk(cfg, Count(L, m.id, m.src)) && Evolves(L, Count(L, m.id, m.src), p, m)
    ensures forall t :: t in L.txs && L.txs[t].stage.Queued? ==> Count(L, m.id, m.src).txs[t].stage.Queued?
  {
    GrantIsNew(cfg, L, p, n, m);
    CountOk(cfg, L, m.id, m);
    hide LedgerOk, NodeOk, Evolves;
  }

  lemma GrantNode(cfg: Config, L: Ledger, p: int, n: Node, m: Message, n': Node)
    requires ValidConfig(cfg) && LedgerOk(cfg, L) && NodeOk(cfg, L, p, n)
    requires IsGrant(m) && OnceOk(cfg, L, m) && n.currentTxid == m.id && n.mode.AssemblingQuorum?
    requires n' == if Counted(n, m).numWaitingNodes == 0 then Stamps(Counted(n, m)) else Counted(n, m)
    ensures NodeOk(cfg, Count(L, m.id, m.src), p, n')
    ensures LedgerOk(cfg, Count(L, m.id, m.src)) && Evolves(L, Count(L, m.id, m.src), p, m)
  {
    assert m.id in L.txs;
    hide NodeOk, LedgerOk, Evolves, AssemblingJob, Holds, OnceOk;
    hide JobOk, HoldsOk, ActiveOk, ReleasedOk, StoreOk, StagingOk, PromiseOk, CoverOk, QueueOk, TimersOk, BackgroundOk;
    var L' := Count(L, m.id, m.src);
    GrantIsNew(cfg, L, p, n, m);
    GrantCount(cfg, L, p, n, m);
    CountLedger(cfg, L, p, n, m);
    NodeParts(cfg, L, p, n);
    ActorLinks(cfg, L, L', p, m, n);
    ActorQueue(cfg, L, L', p, m, n);
    SameParts(cfg, L', p, n, n');
    SameStaging(n, n');
    GrantLinks(cfg, L, p, n, m, n');
    if Counted(n, m).numWaitingNodes == 0 { StampJob(cfg, L, p, n, m); } else { GrantJob(cfg, L, p, n, m); }
    NodeWhole(cfg, L', p, n');
  }

  lemma SameStaging(n: Node, n': Node)
    requires StagingOk(n)
    requires n'.store == n.store && n'.uncommittedTxid == n.uncommittedTxid && n'.uncommittedKey == n.uncommittedKey
    ensures StagingOk(n')
  {}

  lemma CountGrantOk(cfg: Config, L: Ledger, p: int, n: Node, m: Message) returns (L': Ledger)
    requires ValidConfig(cfg) && LedgerOk(cfg, L) && NodeOk(cfg, L, p, n)
    requires IsGrant(m) && OnceOk(cfg, L, m) && n.currentTxid == m.id && n.mode.AssemblingQuorum?
    requires n.quorumMembers.Some? && Counted(n, m).numWaitingNodes != 0
    ensures EffectOk(cfg, L, L', p, m, Silent(Counted(n, m)))
  {
    hide NodeOk, LedgerOk, Evolves;
    L' := Count(L, m.id, m.src);
    GrantNode(cfg, L, p, n, m, Counted(n, m));
    QuietEffect(cfg, L, L', p, m, Silent(Counted(n, m)));
  }

  lemma StampsAsked(cfg: Config, L: Ledger, n: Node, t: int)
    requires n.quorumMembers.Some? && t in L.txs && Peers(n) == L.txs[t].members && InProgress(L.txs[t])
    requires IsWrite(L.txs[t].request) && L.txs[t].coord == n.id
    requires n.clientRequest.id == t && n.clientRequest.key == L.txs[t].request.key
    ensures forall r :: r in RequestTimestamps(n).out ==> !OneShot(r) && MessageOk(cfg, L, r)
  {}

  lemma TimestampRequestsOk(cfg: Config, L: Ledger, p: int, n: Node, m: Message)
    requires ValidConfig(cfg) && LedgerOk(cfg, L) && NodeOk(cfg, L, p, n)
    requires IsGrant(m) && OnceOk(cfg, L, m) && n.currentTxid == m.id && n.mode.AssemblingQuorum?
    requires Counted(n, m).numWaitingNodes == 0
    ensures forall r :: r in RequestTimestamps(Counted(n, m).(mode := CoordinatingWrite)).out ==>
              !OneShot(r) && MessageOk(cfg, Count(L, m.id, m.src), r)
    ensures RequestTimestamps(Counted(n, m).(mode := CoordinatingWrite)).node == Stamps(Counted(n, m))
  {
    NodeId(cfg, L, p, n);
    GrantIsNew(cfg, L, p, n, m);
    GrantCount(cfg, L, p, n, m);
    StampJob(cfg, L, p, n, m);
    assert TxOk(cfg, L.history, m.id, L.txs[m.id]);
    var x := L.txs[m.id];
    var n1 := Counted(n, m).(mode := CoordinatingWrite);
    hide NodeOk, LedgerOk, JobOk;
    assert n.clientRequest.id == m.id && n.clientRequest.key == x.request.key && x.coord == p && IsWrite(x.request);
    assert Peers(n1) == x.members;
    hide AssemblingJob;
    assert Count(L, m.id, m.src).txs[m.id].stage == Stamping;
    StampsAsked(cfg, Count(L, m.id, m.src), n1, m.id);
    hide MessageOk, OneShot, Count;
  }

  lemma TimestampsOk(cfg: Config, L: Ledger, p: int, n: Node, m: Message) returns (L': Ledger)
    requires ValidConfig(cfg) && LedgerOk(cfg, L) && NodeOk(cfg, L, p, n)
    requires IsGrant(m) && OnceOk(cfg, L, m) && n.currentTxid == m.id && n.mode.AssemblingQuorum?
    requires n.quorumMembers.Some? && Counted(n, m).numWaitingNodes == 0
    ensures EffectOk(cfg, L, L', p, m, RequestTimestamps(Counted(n, m).(mode := CoordinatingWrite)))
  {
    hide NodeOk, LedgerOk, Evolves;
    L' := Count(L, m.id, m.src);
    TimestampRequestsOk(cfg, L, p, n, m);
    GrantNode(cfg, L, p, n, m, Stamps(Counted(n, m)));
    QuietEffect(cfg, L, L', p, m, RequestTimestamps(Counted(n, m).(mode := CoordinatingWrite)));
  }

  lemma GrantArrives(cfg: Config, L: Ledger, p: int, n: Node, m: Message, c: Choice) returns (L': Ledger)
    requires ValidConfig(cfg) && LedgerOk(cfg, L) && NodeOk(cfg, L, p, n)
    requires IsGrant(m) && OnceOk(cfg, L, m) && n.currentTxid == m.id && n.mode.AssemblingQuorum?
    ensures EffectOk(cfg, L, L', p, m, CountReply(n, m, c))
  {
    NodeId(cfg, L, p, n);
    hide NodeOk, LedgerOk, EffectOk, CountReply, Continue, CoordinateWrite, RequestTimestamps, OnceOk;
    GrantIsNew(cfg, L, p, n, m);
    hide AssemblingJob, Holds;
    Counts(n, m, c);
    if Counted(n, m).numWaitingNodes == 0 {
      GrantMarker(cfg, L, p, n, m);
      Continues(Counted(n, m), c);
      Coordinating(Counted(n, m).(mode := CoordinatingWrite));
      L' := TimestampsOk(cfg, L, p, n, m);
    } else {
      L' := CountGrantOk(cfg, L, p, n, m);
    }
  }

  lemma GrantMarker(cfg: Config, L: Ledger, p: int, n: Node, m: Message)
    requires ValidConfig(cfg) && LedgerOk(cfg, L) && NodeOk(cfg, L, p, n)
    requires IsGrant(m) && OnceOk(cfg, L, m) && n.currentTxid == m.id && n.mode.AssemblingQuorum?
    requires n.quorumMembers.Some? && Counted(n, m).numWaitingNodes == 0
    ensures Lookup(Counted(n, m).quorumMembers, p).kind.TimestampRequest?
  {
    StampJob(cfg, L, p, n, m);
    hide NodeOk, LedgerOk;
  }

  /** A coordinator that is refused gives up. */
  lemma RefusalArrives(cfg: Config, L: Ledger, p: int, n: Node, m: Message, c: Choice) returns (L': Ledger)
    requires LedgerOk(cfg, L) && NodeOk(cfg, L, p, n) && !n.mode.Idle? && !n.mode.ProcessingWrite? && !m.ok
    ensures EffectOk(cfg, L, L', p, m, CountReply(n, m, c))
  {
    hide NodeOk, LedgerOk, Evolves, EffectOk, Abort;
    JobUnderway(cfg, L, p, n);
    L' := AbortOk(cfg, L, p, n, n, m);
  }

  lemma LockResponseOk(cfg: Config, L: Ledger, p: int, n: Node, m: Message, c: Choice) returns (L': Ledger)
    requires ValidConfig(cfg) && LedgerOk(cfg, L) && NodeOk(cfg, L, p, n)
    requires m.kind.LockResponse? && m.dest == p && (m.ok ==> OnceOk(cfg, L, m))
    ensures EffectOk(cfg, L, L', p, m, HandleLockRes(n, m, c))
  {
    hide NodeOk, LedgerOk, EffectOk, CountReply, OnceOk;
    if n.currentTxid == m.id && n.mode.AssemblingQuorum? {
      if m.ok { L' := GrantArrives(cfg, L, p, n, m, c); } else { L' := RefusalArrives(cfg, L, p, n, m, c); }
    } else if m.ok {
      L' := LateGrantOk(cfg, L, p, n, m);
    } else {
      L' := L;
      NoEffect(cfg, L, p, n, m);
    }
  }

  // ---------- timestamps ----------

  ghost predicate StampFor(cfg: Config, L: Ledger, p: int, n: Node, m: Message) {
    && NodeOk(cfg, L, p, n) && n.mode.CoordinatingWrite? && n.currentTxid == m.id
    && m.kind.GetResponse? && MessageOk(cfg, L, m) && !LateStamp(n, m)
  }

  /** A timestamp counts only if it is the member's first; then the writer is still collecting them. */
  lemma StampIsNew(cfg: Config, L: Ledger, p: int, n: Node, m: Message)
    requires LedgerOk(cfg, L) && StampFor(cfg, L, p, n, m)
    ensures m.ok && n.quorumMembers.Some? && m.src in L.txs[m.id].members
    ensures Lookup(n.quorumMembers, m.src).kind.GetResponse? || StampingJob(L, p, n)
    ensures StampingJob(L, p, n) ==> StampOk(L, m.src, L.txs[m.id], m.timestamp)
  {
    var x := L.txs[m.id];
    assert TxOk(cfg, L.history, m.id, x);
    assert GetResponseOk(L, m);
    if PuttingJob(L, p, n) {
      assert n.quorumMembers.value[m.src].kind.GetResponse?;
    } else {
      assert StampOk(L, m.src, x, m.timestamp);
    }
    hide NodeOk, LedgerOk, StampFor;
  }

  lemma StampCount(cfg: Config, L: Ledger, p: int, n: Node, m: Message)
    requires LedgerOk(cfg, L) && StampFor(cfg, L, p, n, m) && Lookup(n.quorumMembers, m.src).kind != GetResponse
    ensures n.quorumMembers.Some? && StampingJob(L, p, n)
    ensures Counted(n, m).numWaitingNodes > 0 ==> JobOk(L, p, Counted(n, m))
    ensures Counted(n, m).numWaitingNodes >= 0
    ensures Counted(n, m).numWaitingNodes == 0 ==> forall q :: q in L.txs[m.id].members ==>
              && Counted(n, m).quorumMembers.value[q].kind.GetResponse?
              && StampOk(L, q, L.txs[m.id], Counted(n, m).quorumMembers.value[q].timestamp)
  {
    StampIsNew(cfg, L, p, n, m);
    var x, members := L.txs[m.id], n.quorumMembers.value;
    assert TxOk(cfg, L.history, m.id, x);
    AwaitingStep(members, x.members, m);
    var n1 := Counted(n, m);
    if n1.numWaitingNodes > 0 {
      assert StampingJob(L, p, n1);
    } else {
      NobodyAwaited(n1.quorumMembers.value, x.members, GetResponse);
    }
    hide NodeOk, LedgerOk, StampFor, StampOk;
  }

  /** The newest timestamp collected is that of the last decided write. */
  lemma StampsComplete(cfg: Config, L: Ledger, p: int, n: Node, m: Message)
    requires ValidConfig(cfg) && LedgerOk(cfg, L) && StampFor(cfg, L, p, n, m)
    requires Lookup(n.quorumMembers, m.src).kind != GetResponse
    requires n.quorumMembers.Some? && Counted(n, m).numWaitingNodes == 0
    ensures Peers(Counted(n, m)) == L.txs[m.id].members
    ensures LatestTimestamp(Read(n, n.clientRequest.key).timestamp, Counted(n, m).quorumMembers.value,
            Peers(Counted(n, m)))
            == Version(L.history, L.txs[m.id].request.key)
    ensures Lookup(Counted(n, m).quorumMembers, p).kind.PutRequest?
    ensures StampingJob(L, p, n) && SameRequest(n.clientRequest, L.txs[m.id].request)
  {
    StampCount(cfg, L, p, n, m);
    var x, n1 := L.txs[m.id], Counted(n, m);
    assert TxOk(cfg, L.history, m.id, x);
    var h, key, replies := L.history, x.request.key, n1.quorumMembers.value;
    assert Peers(n1) == x.members;
    forall t | t in L.txs && L.txs[t].stage.Committed? ensures !Holds(L.txs[t], p) {
      assert Holds(L.txs[t], p) <==> Busy(n, t);
    }
    StoreCovers(cfg, L, p, n, key);
    RecordedBound(h, key, Read(n, key));
    var latest := LatestTimestamp(Read(n, key).timestamp, replies, x.members);
    forall q | q in Quorum(x) ensures Covers(h, q, key, |h|, latest) {
      if q in x.members { assert StampOk(L, q, x, replies[q].timestamp); }
    }
    QuorumSize(cfg, h, m.id, x);
    QuorumCovers(cfg, L, Quorum(x), key, |h|, latest);
    assert h[..|h|] == h;
    hide NodeOk, LedgerOk, StampFor;
  }

  lemma KeepStampOk(cfg: Config, L: Ledger, p: int, n: Node, m: Message) returns (L': Ledger)
    requires LedgerOk(cfg, L) && StampFor(cfg, L, p, n, m) && Lookup(n.quorumMembers, m.src).kind != GetResponse
    requires n.quorumMembers.Some? && Counted(n, m).numWaitingNodes != 0
    ensures EffectOk(cfg, L, L', p, m, Silent(Counted(n, m)))
  {
    hide NodeOk, LedgerOk, JobOk, StampingJob;
    L' := L;
    StampCount(cfg, L, p, n, m);
    JobChange(cfg, L, p, n, Counted(n, m));
    NoEffect(cfg, L, p, Counted(n, m), m);
  }

  lemma StagedShape(cfg: Config, L: Ledger, p: int, n: Node, m: Message, next: nat)
    requires NodeOk(cfg, L, p, n) && n.quorumMembers.Some? && n.clientRequest.key != []
    ensures StagingOk(Staged(Counted(n, m), next))
    ensures HasStaged(Staged(Counted(n, m), next), n.clientRequest.key, Stamped(next, n.clientRequest.value))
    ensures var n' := Staged(Counted(n, m), next);
            && n' == n.(store := n'.store, uncommittedTxid := n'.uncommittedTxid, uncommittedKey := n'.uncommittedKey,
                        quorumMembers := n'.quorumMembers, numWaitingNodes := n'.numWaitingNodes)
            && n'.store.committed == n.store.committed
            && n'.id == p && 0 <= p < cfg.n && n'.config == cfg && !n'.exited
  {
    assert StagingOk(n) && n.id == p && 0 <= p < cfg.n && n.config == cfg && !n.exited;
    hide NodeOk;
  }

  /** Every member's timestamp is counted. */
  ghost predicate AllStamped(L: Ledger, n: Node, m: Message) {
    && n.quorumMembers.Some? && m.id in L.txs && L.txs[m.id].members <= Counted(n, m).quorumMembers.value.Keys
    && forall q :: q in L.txs[m.id].members ==> Counted(n, m).quorumMembers.value[q].kind.GetResponse?
  }

  lemma StampedAll(cfg: Config, L: Ledger, p: int, n: Node, m: Message)
    requires LedgerOk(cfg, L) && StampFor(cfg, L, p, n, m) && Lookup(n.quorumMembers, m.src).kind != GetResponse
    requires n.quorumMembers.Some? && Counted(n, m).numWaitingNodes == 0
    ensures AllStamped(L, n, m) && StampingJob(L, p, n) && m.src in L.txs[m.id].members
  {
    StampedCall(cfg, L, p, n, m);
    StampCount(cfg, L, p, n, m);
    assert n.currentTxid == m.id;
    hide NodeOk, LedgerOk, StampFor, StampOk;
  }

  lemma PuttingBegins(cfg: Config, L: Ledger, p: int, n: Node, m: Message, n': Node)
    requires LedgerOk(cfg, L) && n.id == p && n.config == cfg && n.currentTxid == m.id && n.mode.CoordinatingWrite?
    requires StampingJob(L, p, n) && AllStamped(L, n, m) && m.src in L.txs[m.id].members && m.kind.GetResponse?
    requires n' == Staged(Counted(n, m), Version(L.history, L.txs[m.id].request.key) + 1)
    requires HasStaged(n', n.clientRequest.key,
              Stamped(Version(L.history, L.txs[m.id].request.key) + 1, n.clientRequest.value))
    ensures JobOk(Choose(L, m.id), p, n')
  {
    hide LedgerOk, StampingJob, HasStaged, Version, Waits, JobOk, Choose, PuttingJob;
    ChooseMembers(cfg, L, p, n, m, n');
    hide Staged, Counted, AllStamped;
    PuttingStarts(L, p, n, n');
    JobOfPutting(Choose(L, m.id), p, n');
  }

  lemma ChooseJob(cfg: Config, L: Ledger, p: int, n: Node, m: Message, n': Node)
    requires ValidConfig(cfg) && LedgerOk(cfg, L) && StampFor(cfg, L, p, n, m)
    requires Lookup(n.quorumMembers, m.src).kind != GetResponse
    requires n.quorumMembers.Some? && Counted(n, m).numWaitingNodes == 0
    requires n' == Staged(Counted(n, m), Version(L.history, L.txs[m.id].request.key) + 1)
    requires HasStaged(n', n.clientRequest.key,
              Stamped(Version(L.history, L.txs[m.id].request.key) + 1, n.clientRequest.value))
    ensures JobOk(Choose(L, m.id), p, n')
  {
    assert m.kind.GetResponse?;
    hide NodeOk, LedgerOk, StampFor, StampingJob, HasStaged, Version, MessageOk, JobOk, Choose, Staged, AllStamped;
    StampForParts(cfg, L, p, n, m);
    NodeId(cfg, L, p, n);
    StampedAll(cfg, L, p, n, m);
    hide Counted, Lookup;
    PuttingBegins(cfg, L, p, n, m, n');
  }

  lemma JobOfPutting(L: Ledger, p: int, n: Node)
    requires PuttingJob(L, p, n) && n.mode.CoordinatingWrite?
    ensures JobOk(L, p, n)
  {
    hide PuttingJob, StampingJob;
  }

  lemma PuttingStarts(L: Ledger, p: int, n: Node, n': Node)
    requires StampingJob(L, p, n)
    requires n' == n.(store := n'.store, uncommittedTxid := n'.uncommittedTxid, uncommittedKey := n'.uncommittedKey,
                      quorumMembers := n'.quorumMembers, numWaitingNodes := n'.numWaitingNodes)
    requires n'.quorumMembers.Some? && n'.quorumMembers.value.Keys == L.txs[n.currentTxid].members + {p}
    requires Waits(n', L.txs[n.currentTxid].members, PutResponse)
    requires forall q :: q in L.txs[n.currentTxid].members ==> n'.quorumMembers.value[q].kind.GetResponse?
    requires n'.quorumMembers.value[p] ==
              Marker(UnlockRequest, Version(L.history, L.txs[n.currentTxid].request.key) + 1)
    requires HasStaged(n', n.clientRequest.key,
              Stamped(Version(L.history, L.txs[n.currentTxid].request.key) + 1, n.clientRequest.value))
    ensures PuttingJob(Choose(L, n.currentTxid), p, n')
  {
    hide Version, StampOk, HasStaged;
  }

  /** Every member is awaited again, now for its staged write. */
  lemma ChooseMembers(cfg: Config, L: Ledger, p: int, n: Node, m: Message, n': Node)
    requires LedgerOk(cfg, L) && n.id == p && n.config == cfg && n.currentTxid == m.id && m.id in L.txs
    requires StampingJob(L, p, n)
    requires m.src in L.txs[m.id].members && m.kind.GetResponse?
    requires forall q :: q in L.txs[m.id].members ==> Counted(n, m).quorumMembers.value[q].kind.GetResponse?
    requires n' == Staged(Counted(n, m), Version(L.history, L.txs[m.id].request.key) + 1)
    ensures n' == n.(store := n'.store, uncommittedTxid := n'.uncommittedTxid, uncommittedKey := n'.uncommittedKey,
                     quorumMembers := n'.quorumMembers, numWaitingNodes := n'.numWaitingNodes)
    ensures n'.quorumMembers.Some? && n'.quorumMembers.value.Keys == L.txs[m.id].members + {p}
    ensures Waits(n', L.txs[m.id].members, PutResponse)
    ensures forall q :: q in L.txs[m.id].members ==> n'.quorumMembers.value[q].kind.GetResponse?
    ensures n'.quorumMembers.value[p] == Marker(UnlockRequest, Version(L.history, L.txs[m.id].request.key) + 1)
  {
    var x := L.txs[m.id];
    assert TxOk(cfg, L.history, m.id, x);
    hide LedgerOk, StampOk;
    assert p !in x.members && |x.members| == cfg.w - 1;
    AllAwaited(n'.quorumMembers.value, x.members, PutResponse);
  }

  lemma ChooseLinks(cfg: Config, L: Ledger, p: int, n: Node, m: Message, n': Node)
    requires ValidConfig(cfg) && LedgerOk(cfg, L) && StampFor(cfg, L, p, n, m) && StampingJob(L, p, n)
    requires Evolves(L, Choose(L, m.id), p, m)
    requires n' == n.(store := n'.store, uncommittedTxid := n'.uncommittedTxid, uncommittedKey := n'.uncommittedKey,
                      quorumMembers := n'.quorumMembers, numWaitingNodes := n'.numWaitingNodes)
    requires n'.store.committed == n.store.committed
    ensures HoldsOk(Choose(L, m.id), p, n') && ActiveOk(Choose(L, m.id), p, n') && ReleasedOk(Choose(L, m.id), p, n')
    ensures PromiseOk(Choose(L, m.id), p, n') && CoverOk(Choose(L, m.id), p, n')
    ensures StoreOk(Choose(L, m.id), n') && TimersOk(Choose(L, m.id), p, n')
    ensures BackgroundOk(cfg, Choose(L, m.id), p, n')
    ensures QueueOk(cfg, Choose(L, m.id), p, n')
  {
    hide Evolves;
    var L', x := Choose(L, m.id), L.txs[m.id];
    assert TxOk(cfg, L.history, m.id, x);
    hide LedgerOk;
    ActorUpdate(cfg, L, m.id, L'.txs[m.id], p, m, n);
    ActorQueue(cfg, L, L', p, m, n);
    ActorCover(L, L', p, n, n');
    forall t | t in L'.txs && p in L'.txs[t].staged ensures !Holds(L'.txs[t], p) {
      assert Holds(L.txs[t], p) <==> Busy(n, t);
    }
  }

  lemma ChooseLedger(cfg: Config, L: Ledger, p: int, n: Node, m: Message)
    requires LedgerOk(cfg, L) && StampFor(cfg, L, p, n, m) && StampingJob(L, p, n)
    requires n.clientRequest.kind.ClientStrongWriteRequest? ==>
               n.clientRequest.timestamp == Version(L.history, L.txs[m.id].request.key) + 1
    ensures LedgerOk(cfg, Choose(L, m.id)) && Evolves(L, Choose(L, m.id), p, m)
    ensures n.id == p && 0 <= p < cfg.n && n.config == cfg && !n.exited
  {
    assert n.id == p && 0 <= p < cfg.n && n.config == cfg && !n.exited;
    hide NodeOk;
    ChooseOk(cfg, L, m.id, m);
    hide LedgerOk, Evolves, StampFor;
  }

  lemma ChooseNode(cfg: Config, L: Ledger, p: int, n: Node, m: Message, n': Node)
    requires ValidConfig(cfg) && LedgerOk(cfg, L) && StampFor(cfg, L, p, n, m)
    requires Lookup(n.quorumMembers, m.src).kind != GetResponse
    requires n.quorumMembers.Some? && Counted(n, m).numWaitingNodes == 0
    requires n' == Staged(Counted(n, m), Version(L.history, L.txs[m.id].request.key) + 1)
    requires n.clientRequest.kind.ClientStrongWriteRequest? ==>
               n.clientRequest.timestamp == Version(L.history, L.txs[m.id].request.key) + 1
    ensures NodeOk(cfg, Choose(L, m.id), p, n')
    ensures LedgerOk(cfg, Choose(L, m.id)) && Evolves(L, Choose(L, m.id), p, m)
  {
    hide JobOk, HoldsOk, ActiveOk, ReleasedOk, StoreOk, StagingOk, PromiseOk, CoverOk, QueueOk, TimersOk, BackgroundOk;
    hide LedgerOk, NodeOk, Evolves, StampFor, Staged, Counted, StampingJob, HasStaged, MessageOk, Lookup, Version;
    StampedCall(cfg, L, p, n, m);
    StampForParts(cfg, L, p, n, m);
    StagedShape(cfg, L, p, n, m, Version(L.history, L.txs[m.id].request.key) + 1);
    ChooseLedger(cfg, L, p, n, m);
    ChooseJob(cfg, L, p, n, m, n');
    ChooseLinks(cfg, L, p, n, m, n');
    hide Choose;
    NodeWhole(cfg, Choose(L, m.id), p, n');
  }

  lemma StampedCall(cfg: Config, L: Ledger, p: int, n: Node, m: Message)
    requires LedgerOk(cfg, L) && StampFor(cfg, L, p, n, m) && Lookup(n.quorumMembers, m.src).kind != GetResponse
    ensures StampingJob(L, p, n) && n.clientRequest.id == m.id && n.clientRequest.key == L.txs[m.id].request.key
    ensures m.src in L.txs[m.id].members
    ensures L.txs[m.id].coord == p && n.id == p && IsWrite(L.txs[m.id].request)
    ensures n.clientRequest.value == L.txs[m.id].request.value
  {
    StampIsNew(cfg, L, p, n, m);
    assert TxOk(cfg, L.history, m.id, L.txs[m.id]);
    assert n.id == p;
    hide NodeOk, LedgerOk, StampFor;
  }

  lemma StageWriteCases(n: Node, next: nat)
    requires n.quorumMembers.Some?
    requires Successor(LatestTimestamp(Read(n, n.clientRequest.key).timestamp, n.quorumMembers.value, Peers(n))) == next
    ensures n.clientRequest.kind.ClientStrongWriteRequest? && n.clientRequest.timestamp != next ==>
              StageWrite(n) == Abort(n.(clientRequest := n.clientRequest.(timestamp := next)))
    ensures !(n.clientRequest.kind.ClientStrongWriteRequest? && n.clientRequest.timestamp != next) ==>
              StageWrite(n) == Effect(Staged(n, next), PutRequestsTo(n, next), None)
  {
    hide Abort;
  }

  lemma PutRequestsOk(cfg: Config, L: Ledger, p: int, n: Node, m: Message)
    requires LedgerOk(cfg, L) && StampFor(cfg, L, p, n, m) && Lookup(n.quorumMembers, m.src).kind != GetResponse
    requires n.quorumMembers.Some? && Peers(Counted(n, m)) == L.txs[m.id].members
    ensures forall r :: r in PutRequestsTo(Counted(n, m), Version(L.history, L.txs[m.id].request.key) + 1) ==>
              !OneShot(r) && MessageOk(cfg, Choose(L, m.id), r)
  {
    StampedCall(cfg, L, p, n, m);
    hide NodeOk, LedgerOk, StampFor;
    assert Choose(L, m.id).txs[m.id].request == L.txs[m.id].request;
  }

  lemma ChosenTimestamp(cfg: Config, L: Ledger, p: int, n: Node, m: Message)
    requires ValidConfig(cfg) && LedgerOk(cfg, L) && StampFor(cfg, L, p, n, m)
    requires Lookup(n.quorumMembers, m.src).kind != GetResponse
    requires n.quorumMembers.Some? && Counted(n, m).numWaitingNodes == 0
    requires |L.history| + 1 < TIMESTAMPS
    ensures Peers(Counted(n, m)) == L.txs[m.id].members
    ensures Successor(LatestTimestamp(Read(n, n.clientRequest.key).timestamp, Counted(n, m).quorumMembers.value,
            Peers(Counted(n, m))))
            == Version(L.history, L.txs[m.id].request.key) + 1
  {
    StampForParts(cfg, L, p, n, m);
    hide NodeOk, LedgerOk, StampFor, LatestTimestamp, StampingJob, Version, Read, Peers, Successor;
    StampsComplete(cfg, L, p, n, m);
    VersionBound(L.history, L.txs[m.id].request.key);
    SmallSuccessor(Version(L.history, L.txs[m.id].request.key));
  }

  lemma SmallSuccessor(timestamp: nat)
    requires timestamp + 1 < TIMESTAMPS
    ensures Successor(timestamp) == timestamp + 1
  {}

  /** The write is staged here, and every member is asked to stage it. */
  lemma ChosenOk(cfg: Config, L: Ledger, p: int, n: Node, m: Message)
    requires ValidConfig(cfg) && LedgerOk(cfg, L) && StampFor(cfg, L, p, n, m)
    requires Lookup(n.quorumMembers, m.src).kind != GetResponse
    requires n.quorumMembers.Some? && Counted(n, m).numWaitingNodes == 0
    requires Peers(Counted(n, m)) == L.txs[m.id].members
    requires n.clientRequest.kind.ClientStrongWriteRequest? ==>
               n.clientRequest.timestamp == Version(L.history, L.txs[m.id].request.key) + 1
    ensures var next := Version(L.history, L.txs[m.id].request.key) + 1;
            EffectOk(cfg, L, Choose(L, m.id), p, m,
                     Effect(Staged(Counted(n, m), next), PutRequestsTo(Counted(n, m), next), None))
  {
    hide LedgerOk, Evolves, NodeOk, MessageOk, EffectOk, StampFor, MembersTold, Staged, Peers, Version, OneShot;
    assert m.id in L.txs by { StampForParts(cfg, L, p, n, m); }
    var next := Version(L.history, L.txs[m.id].request.key) + 1;
    ChooseNode(cfg, L, p, n, m, Staged(Counted(n, m), next));
    PutRequestsOk(cfg, L, p, n, m);
    NobodyToTell(L, m.id, Choose(L, m.id).txs[m.id], p, PutRequestsTo(Counted(n, m), next));
    assert Choose(L, m.id).history == L.history;
    hide *;
    QuietEffect(cfg, L, Choose(L, m.id), p, m,
                Effect(Staged(Counted(n, m), next), PutRequestsTo(Counted(n, m), next), None));
  }

  lemma LastStampOk(cfg: Config, L: Ledger, p: int, n: Node, m: Message) returns (L': Ledger)
    requires ValidConfig(cfg) && LedgerOk(cfg, L) && StampFor(cfg, L, p, n, m)
    requires Lookup(n.quorumMembers, m.src).kind != GetResponse
    requires n.quorumMembers.Some? && Counted(n, m).numWaitingNodes == 0
    requires |L.history| + 1 < TIMESTAMPS
    ensures EffectOk(cfg, L, L', p, m, StageWrite(Counted(n, m)))
  {
    StampForParts(cfg, L, p, n, m);
    hide LedgerOk, StageWrite, NodeOk, Abort, MessageOk, EffectOk, StampFor, LatestTimestamp, Staged, StampingJob;
    hide Peers, Version;
    ChosenTimestamp(cfg, L, p, n, m);
    var next := Version(L.history, L.txs[m.id].request.key) + 1;
    StageWriteCases(Counted(n, m), next);
    if n.clientRequest.kind.ClientStrongWriteRequest? && n.clientRequest.timestamp != next {
      StampedCall(cfg, L, p, n, m);
      L' := AbortStamp(cfg, L, p, n, m, next);
    } else {
      L' := Choose(L, m.id);
      ChosenOk(cfg, L, p, n, m);
    }
  }

  /** A strong write that asked for another timestamp is given up. */
  lemma AbortStamp(cfg: Config, L: Ledger, p: int, n: Node, m: Message, next: nat) returns (L': Ledger)
    requires ValidConfig(cfg) && LedgerOk(cfg, L) && NodeOk(cfg, L, p, n) && n.mode.CoordinatingWrite?
    requires n.currentTxid == m.id && m.id in L.txs && m.src in L.txs[m.id].members && n.quorumMembers.Some?
    ensures EffectOk(cfg, L, L', p, m,
                     Abort(Counted(n, m).(clientRequest := n.clientRequest.(timestamp := next))))
  {
    CountedUnderway(cfg, L, p, n, m);
    hide LedgerOk, NodeOk, Abort, EffectOk;
    L' := AbortOk(cfg, L, p, n, Counted(n, m).(clientRequest := n.clientRequest.(timestamp := next)), m);
  }

  lemma StampForParts(cfg: Config, L: Ledger, p: int, n: Node, m: Message)
    requires LedgerOk(cfg, L) && StampFor(cfg, L, p, n, m)
    ensures NodeOk(cfg, L, p, n) && n.mode.CoordinatingWrite? && n.currentTxid == m.id && MessageOk(cfg, L, m)
    ensures m.id in L.txs && L.txs[m.id].request.key != []
  {
    assert TxOk(cfg, L.history, m.id, L.txs[m.id]);
    hide NodeOk, LedgerOk;
  }

  lemma StampArrives(cfg: Config, L: Ledger, p: int, n: Node, m: Message, c: Choice) returns (L': Ledger)
    requires ValidConfig(cfg) && LedgerOk(cfg, L) && StampFor(cfg, L, p, n, m) && |L.history| + 1 < TIMESTAMPS
    ensures EffectOk(cfg, L, L', p, m, CountReply(n, m, c))
  {
    StampForParts(cfg, L, p, n, m);
    StampIsNew(cfg, L, p, n, m);
    hide NodeOk, LedgerOk, EffectOk, StampFor, Continue, CoordinateWrite;
    hide StageWrite, MessageOk, Abort, StampingJob, StampOk;
    if Lookup(n.quorumMembers, m.src).kind.GetResponse? {
      L' := L;
      NoEffect(cfg, L, p, n, m);
    } else {
      Counts(n, m, c);
      hide CountReply;
      if Counted(n, m).numWaitingNodes != 0 {
        L' := KeepStampOk(cfg, L, p, n, m);
      } else {
        LastStampMarker(cfg, L, p, n, m);
        Continues(Counted(n, m), c);
        Coordinating(Counted(n, m));
        L' := LastStampOk(cfg, L, p, n, m);
      }
    }
  }

  lemma LastStampMarker(cfg: Config, L: Ledger, p: int, n: Node, m: Message)
    requires ValidConfig(cfg) && LedgerOk(cfg, L) && StampFor(cfg, L, p, n, m)
    requires Lookup(n.quorumMembers, m.src).kind != GetResponse
    requires n.quorumMembers.Some? && Counted(n, m).numWaitingNodes == 0
    ensures Counted(n, m).id == p && Lookup(Counted(n, m).quorumMembers, p).kind.PutRequest?
  {
    StampedCall(cfg, L, p, n, m);
    StampsComplete(cfg, L, p, n, m);
    hide NodeOk, LedgerOk, StampFor;
  }

  // ---------- staged writes ----------

  ghost predicate AckFor(cfg: Config, L: Ledger, p: int, n: Node, m: Message) {
    && NodeOk(cfg, L, p, n) && n.mode.CoordinatingWrite? && n.currentTxid == m.id
    && m.kind.PutResponse? && MessageOk(cfg, L, m) && m.ok
  }

  lemma AckIsFor(cfg: Config, L: Ledger, p: int, n: Node, m: Message)
    requires LedgerOk(cfg, L) && AckFor(cfg, L, p, n, m)
    ensures PuttingJob(L, p, n) && m.src in L.txs[m.id].members && m.src in L.txs[m.id].staged
    ensures n.id == p && IsWrite(L.txs[m.id].request) && NodeOk(cfg, L, p, n)
    ensures p !in L.txs[m.id].members
    ensures L.txs[m.id].request.src == cfg.n && L.txs[m.id].timestamp == Version(L.history, L.txs[m.id].request.key) + 1
  {
    var x := L.txs[m.id];
    assert TxOk(cfg, L.history, m.id, x);
    assert Chosen(x);
    assert PuttingJob(L, p, n) && n.id == p;
    hide NodeOk, LedgerOk, AckFor;
  }

  lemma AckCount(cfg: Config, L: Ledger, p: int, n: Node, m: Message)
    requires LedgerOk(cfg, L) && AckFor(cfg, L, p, n, m) && Lookup(n.quorumMembers, m.src).kind != PutResponse
    ensures n.quorumMembers.Some?
    ensures Counted(n, m).numWaitingNodes != 0 ==> JobOk(L, p, Counted(n, m))
    ensures Counted(n, m).numWaitingNodes == 0 ==> L.txs[m.id].staged == L.txs[m.id].members
    ensures Lookup(Counted(n, m).quorumMembers, p) == Marker(UnlockRequest, L.txs[m.id].timestamp)
    ensures Counted(n, m).quorumMembers.value.Keys == Quorum(L.txs[m.id]) && Peers(Counted(n, m)) == L.txs[m.id].members
  {
    AckIsFor(cfg, L, p, n, m);
    var x, members := L.txs[m.id], n.quorumMembers.value;
    assert TxOk(cfg, L.history, m.id, x);
    hide NodeOk, LedgerOk, AckFor;
    AwaitingStep(members, x.members, m);
    var n1 := Counted(n, m);
    assert Peers(n1) == x.members;
    if n1.numWaitingNodes != 0 {
      assert PuttingJob(L, p, n1);
    } else {
      NobodyAwaited(n1.quorumMembers.value, x.members, PutResponse);
      forall q | q in x.members ensures q in x.staged {
        if q != m.src { assert members[q] == n1.quorumMembers.value[q]; }
      }
    }
  }

  lemma KeepAckOk(cfg: Config, L: Ledger, p: int, n: Node, m: Message) returns (L': Ledger)
    requires LedgerOk(cfg, L) && AckFor(cfg, L, p, n, m) && Lookup(n.quorumMembers, m.src).kind != PutResponse
    requires n.quorumMembers.Some? && Counted(n, m).numWaitingNodes != 0
    ensures EffectOk(cfg, L, L', p, m, Silent(Counted(n, m)))
  {
    hide NodeOk, LedgerOk, JobOk;
    L' := L;
    AckCount(cfg, L, p, n, m);
    JobChange(cfg, L, p, n, Counted(n, m));
    NoEffect(cfg, L, p, Counted(n, m), m);
  }

  /** The node once it has decided. */
  lemma CommitShape(cfg: Config, L: Ledger, p: int, n: Node, m: Message)
    requires LedgerOk(cfg, L) && AckFor(cfg, L, p, n, m) && Lookup(n.quorumMembers, m.src).kind != PutResponse
    requires n.quorumMembers.Some? && Counted(n, m).numWaitingNodes == 0
    ensures var x := L.txs[m.id];
            var e := CommitWrite(Counted(n, m));
            var n' := e.node;
            && n'.store == Commit(n.store, x.request.key, n.uncommittedTxid)
            && n'.store.committed == n.store.committed[x.request.key := ValueOf(x)]
            && n' == n.(mode := Idle, currentTxid := -1, quorumMembers := None, numWaitingNodes := 0, store := n'.store,
                        uncommittedKey := None, uncommittedTxid := 0, background := n'.background)
            && n'.background ==
               (if n.background.None? then None
                else Some(Propagation.Propagate(n.background.value, m.id,
                                                Quorum(x), x.request.key, x.request.value, x.timestamp)))
            && e.out == Unlocks(Counted(n, m), m.id, true)
            && e.reply == Some(Message(m.id, p, cfg.n, ClientWriteResponse, x.request.key, x.request.value,
                 x.timestamp, true))
  {
    AckIsFor(cfg, L, p, n, m);
    AckCount(cfg, L, p, n, m);
    hide NodeOk, LedgerOk, AckFor, Abort;
  }

  lemma DecideLinks(cfg: Config, L: Ledger, p: int, n: Node, m: Message, n': Node)
    requires LedgerOk(cfg, L) && AckFor(cfg, L, p, n, m)
    requires n'.mode.Idle? && n'.unlockTxids == n.unlockTxids
    ensures HoldsOk(Decide(L, m.id), p, n') && ActiveOk(Decide(L, m.id), p, n') && ReleasedOk(Decide(L, m.id), p, n')
    ensures PromiseOk(Decide(L, m.id), p, n')
  {
    AckIsFor(cfg, L, p, n, m);
    var L' := Decide(L, m.id);
    assert TxOk(cfg, L.history, m.id, L.txs[m.id]);
    forall t | t in L'.txs ensures !Holds(L'.txs[t], p) && (L'.txs[t].coord == p ==> !Active(L'.txs[t])) {
      assert Holds(L.txs[t], p) <==> Busy(n, t);
    }
  }

  lemma DecideStore(cfg: Config, L: Ledger, p: int, n: Node, m: Message, n': Node)
    requires LedgerOk(cfg, L) && AckFor(cfg, L, p, n, m)
    requires n'.store.committed == n.store.committed[L.txs[m.id].request.key := ValueOf(L.txs[m.id])]
    ensures StoreOk(Decide(L, m.id), n')
  {
    AckIsFor(cfg, L, p, n, m);
    assert StoreOk(L, n);
    hide NodeOk, LedgerOk, AckFor, PuttingJob;
    var L', x := Decide(L, m.id), L.txs[m.id];
    assert L'.history[|L.history|] == DecisionOf(m.id, L'.txs[m.id]);
    assert L'.history[..|L.history|] == L.history;
    forall k | k in n'.store.committed ensures Recorded(L'.history, k, n'.store.committed[k]) {
      if k != x.request.key { RecordedStable(L.history, L'.history, k, n.store.committed[k]); }
    }
  }

  lemma DecideCover(cfg: Config, L: Ledger, p: int, n: Node, m: Message, n': Node)
    requires LedgerOk(cfg, L) && AckFor(cfg, L, p, n, m)
    requires Numbered(Decide(L, m.id).history)
    requires n'.store.committed == n.store.committed[L.txs[m.id].request.key := ValueOf(L.txs[m.id])]
    ensures CoverOk(Decide(L, m.id), p, n')
  {
    AckIsFor(cfg, L, p, n, m);
    NodeParts(cfg, L, p, n);
    assert n.currentTxid == m.id && L.txs[m.id].stage.Putting? && m.id in L.txs;
    hide NodeOk, AckFor, PuttingJob, JobOk, ActiveOk, ReleasedOk;
    hide StoreOk, StagingOk, PromiseOk, QueueOk, TimersOk, BackgroundOk;
    var L' := Decide(L, m.id);
    forall i | 0 <= i < |L'.history| && p in L'.history[i].quorum ensures HasCaughtUp(L', p, n', L'.history[i]) {
      if i < |L.history| { OldDecisionCovered(cfg, L, p, n, m.id, n', i); }
    }
    hide LedgerOk;
  }

  /** A new decision of this node leaves it caught up with the earlier ones. */
  lemma OldDecisionCovered(cfg: Config, L: Ledger, p: int, n: Node, t: int, n': Node, i: nat)
    requires LedgerOk(cfg, L) && CoverOk(L, p, n) && HoldsOk(L, p, n) && n.currentTxid == t
    requires t in L.txs && L.txs[t].stage.Putting? && Numbered(Decide(L, t).history)
    requires n'.store.committed == n.store.committed[L.txs[t].request.key := ValueOf(L.txs[t])]
    requires i < |L.history| && p in L.history[i].quorum
    ensures HasCaughtUp(Decide(L, t), p, n', Decide(L, t).history[i])
  {
    var L' := Decide(L, t);
    assert L'.history[i] == L.history[i] && DecisionOk(L, i) && HasCaughtUp(L, p, n, L.history[i]);
    assert L.history[i].txid != t;
    if L.history[i].key == L.txs[t].request.key { NumberedOrder(L'.history, i, |L.history|); }
  }

  lemma DecideEntered(cfg: Config, L: Ledger, p: int, n: Node, m: Message, n': Node)
    requires LedgerOk(cfg, L) && AckFor(cfg, L, p, n, m)
    requires BackgroundOk(cfg, Decide(L, m.id), p, n)
    requires n'.background ==
             (if n.background.None? then None
              else Some(Propagation.Propagate(n.background.value, m.id, Quorum(L.txs[m.id]), L.txs[m.id].request.key,
                                              L.txs[m.id].request.value, L.txs[m.id].timestamp)))
    ensures BackgroundOk(cfg, Decide(L, m.id), p, n')
  {
    AckIsFor(cfg, L, p, n, m);
    assert L.txs[m.id].coord == p;
    hide NodeOk, LedgerOk, AckFor, PuttingJob, Quorum, MessageOk;
  }

  lemma DecideBackground(cfg: Config, L: Ledger, p: int, n: Node, m: Message, n': Node)
    requires ValidConfig(cfg) && LedgerOk(cfg, L) && AckFor(cfg, L, p, n, m)
    requires Evolves(L, Decide(L, m.id), p, m)
    requires n'.background ==
             (if n.background.None? then None
              else Some(Propagation.Propagate(n.background.value, m.id, Quorum(L.txs[m.id]), L.txs[m.id].request.key,
                                              L.txs[m.id].request.value, L.txs[m.id].timestamp)))
    requires n'.lockRequests == n.lockRequests && n'.timers == n.timers
    ensures BackgroundOk(cfg, Decide(L, m.id), p, n') && TimersOk(Decide(L, m.id), p, n')
    ensures QueueOk(cfg, Decide(L, m.id), p, n')
  {
    AckIsFor(cfg, L, p, n, m);
    NodeParts(cfg, L, p, n);
    var L' := Decide(L, m.id);
    assert L.txs[m.id].stage.Putting?;
    hide NodeOk, LedgerOk, PuttingJob, JobOk, HoldsOk, ActiveOk;
    hide ReleasedOk, PromiseOk, CoverOk, StagingOk, StoreOk, Evolves;
    var n1 := n.(store := n.store.(committed := map[]));
    assert StoreOk(L, n1) && TimersOk(L, p, n1) && BackgroundOk(cfg, L, p, n1) by { NothingStored(cfg, L, p, n, n1); }
    hide BackgroundOk, TimersOk, QueueOk;
    ActorLinks(cfg, L, L', p, m, n1);
    ActorQueue(cfg, L, L', p, m, n);
    LikeNode(cfg, L', p, n1, n, n');
    DecideEntered(cfg, L, p, n, m, n');
  }

  lemma NothingStored(cfg: Config, L: Ledger, p: int, n: Node, n1: Node)
    requires TimersOk(L, p, n) && BackgroundOk(cfg, L, p, n) && n1 == n.(store := n.store.(committed := map[]))
    ensures StoreOk(L, n1) && TimersOk(L, p, n1) && BackgroundOk(cfg, L, p, n1)
  {}

  /** Queue, timers and book do not depend on the rest of the node. */
  lemma LikeNode(cfg: Config, L: Ledger, p: int, n1: Node, n: Node, n': Node)
    requires n1.background == n.background && n1.timers == n.timers == n'.timers && n'.lockRequests == n.lockRequests
    requires TimersOk(L, p, n1) && BackgroundOk(cfg, L, p, n1) && QueueOk(cfg, L, p, n)
    ensures TimersOk(L, p, n') && BackgroundOk(cfg, L, p, n) && QueueOk(cfg, L, p, n')
  {}

  lemma CommitStaging(cfg: Config, L: Ledger, p: int, n: Node, m: Message, n': Node)
    requires LedgerOk(cfg, L) && AckFor(cfg, L, p, n, m)
    requires n'.store == Commit(n.store, L.txs[m.id].request.key, n.uncommittedTxid)
    requires n'.uncommittedTxid == 0 && n'.uncommittedKey.None?
    ensures StagingOk(n') && n.id == p && 0 <= p < cfg.n && n.config == cfg && !n.exited
  {
    assert n.id == p && 0 <= p < cfg.n && n.config == cfg && !n.exited && StagingOk(n);
    hide NodeOk, LedgerOk, AckFor;
  }

  lemma LedgerNumbered(cfg: Config, L: Ledger)
    requires LedgerOk(cfg, L)
    ensures Numbered(L.history)
  {
    assert Numbered(L.history);
    hide LedgerOk;
  }

  lemma DecideNode(cfg: Config, L: Ledger, p: int, n: Node, m: Message)
    requires ValidConfig(cfg) && LedgerOk(cfg, L) && AckFor(cfg, L, p, n, m)
    requires Lookup(n.quorumMembers, m.src).kind != PutResponse
    requires n.quorumMembers.Some? && Counted(n, m).numWaitingNodes == 0
    ensures NodeOk(cfg, Decide(L, m.id), p, CommitWrite(Counted(n, m)).node)
    ensures LedgerOk(cfg, Decide(L, m.id)) && Evolves(L, Decide(L, m.id), p, m)
  {
    hide LedgerOk, Evolves;
    assert m.id in L.txs;
    hide CommitWrite, AckFor;
    var L', n' := Decide(L, m.id), CommitWrite(Counted(n, m)).node;
    CommitShape(cfg, L, p, n, m);
    CommitStaging(cfg, L, p, n, m, n');
    AckIsFor(cfg, L, p, n, m);
    AckCount(cfg, L, p, n, m);
    DecideOk(cfg, L, m.id, m);
    assert JobOk(L', p, n');
    hide JobOk, HoldsOk, ActiveOk, ReleasedOk, StoreOk, StagingOk, PromiseOk, CoverOk, QueueOk, TimersOk, BackgroundOk;
    hide PuttingJob, Counted, Decide;
    DecideLinks(cfg, L, p, n, m, n');
    DecideStore(cfg, L, p, n, m, n');
    LedgerNumbered(cfg, Decide(L, m.id));
    DecideCover(cfg, L, p, n, m, n');
    DecideBackground(cfg, L, p, n, m, n');
  }

  lemma DecideReply(cfg: Config, L: Ledger, p: int, n: Node, m: Message)
    requires LedgerOk(cfg, L) && AckFor(cfg, L, p, n, m) && Lookup(n.quorumMembers, m.src).kind != PutResponse
    requires n.quorumMembers.Some? && Counted(n, m).numWaitingNodes == 0
    ensures ReplySound(cfg, L, Decide(L, m.id), CommitWrite(Counted(n, m)).reply)
    ensures forall r :: r in CommitWrite(Counted(n, m)).out ==> !OneShot(r) && MessageOk(cfg, Decide(L, m.id), r)
  {
    assert n.currentTxid == m.id && m.id in L.txs;
    hide NodeOk, LedgerOk, AckFor, CommitWrite, HasStaged, Waits, Version, Lookup;
    CommitShape(cfg, L, p, n, m);
    AckIsFor(cfg, L, p, n, m);
    AckCount(cfg, L, p, n, m);
    assert n.clientRequest.id == m.id && n.id == p && L.txs[m.id].coord == p;
    assert Peers(Counted(n, m)) == L.txs[m.id].members;
    hide PuttingJob, Counted, Peers, Decide, MessageOk, OneShot, Unlocks;
    DecidedAnswered(cfg, L, p, m.id, CommitWrite(Counted(n, m)).reply);
    UnlocksTrue(cfg, L, Counted(n, m), m.id);
  }

  lemma UnlocksTrue(cfg: Config, L: Ledger, n: Node, t: int)
    requires n.quorumMembers.Some? && t in L.txs && Peers(n) == L.txs[t].members && L.txs[t].coord == n.id
    ensures forall r :: r in Unlocks(n, t, true) ==> !OneShot(r) && MessageOk(cfg, Decide(L, t), r)
  {}

  lemma DecidedAnswered(cfg: Config, L: Ledger, p: int, t: int, reply: Option<Message>)
    requires t in L.txs && L.txs[t].coord == p
    requires var x := L.txs[t];
             reply == Some(Message(t, p, cfg.n, ClientWriteResponse, x.request.key, x.request.value, x.timestamp, true))
    ensures ReplySound(cfg, L, Decide(L, t), reply)
  {}

  lemma LastAckOk(cfg: Config, L: Ledger, p: int, n: Node, m: Message) returns (L': Ledger)
    requires ValidConfig(cfg) && LedgerOk(cfg, L) && AckFor(cfg, L, p, n, m)
    requires Lookup(n.quorumMembers, m.src).kind != PutResponse
    requires n.quorumMembers.Some? && Counted(n, m).numWaitingNodes == 0
    ensures EffectOk(cfg, L, L', p, m, CommitWrite(Counted(n, m)))
  {
    hide NodeOk, LedgerOk;
    assert m.id in L.txs;
    hide AckFor, CommitWrite, Evolves, ReplySound, MessageOk, PuttingJob;
    hide OneShot, Decide, MembersTold;
    L' := Decide(L, m.id);
    DecideNode(cfg, L, p, n, m);
    DecideReply(cfg, L, p, n, m);
    DecideTells(cfg, L, p, n, m);
    hide Counted;
  }

  /** Every member is told that the write is committed. */
  lemma DecideTells(cfg: Config, L: Ledger, p: int, n: Node, m: Message)
    requires LedgerOk(cfg, L) && AckFor(cfg, L, p, n, m) && Lookup(n.quorumMembers, m.src).kind != PutResponse
    requires n.quorumMembers.Some? && Counted(n, m).numWaitingNodes == 0
    ensures MembersTold(L, Decide(L, m.id), p, CommitWrite(Counted(n, m)).out)
  {
    CommitShape(cfg, L, p, n, m);
    AckIsFor(cfg, L, p, n, m);
    hide NodeOk, LedgerOk, AckFor, CommitWrite;
    var out := CommitWrite(Counted(n, m)).out;
    forall q | q in L.txs[m.id].members ensures Told(m.id, p, q, out) {
      assert q in Peers(Counted(n, m)) && Signal(m.id, p, q, UnlockRequest, true) in out;
    }
  }

  lemma AckArrives(cfg: Config, L: Ledger, p: int, n: Node, m: Message, c: Choice) returns (L': Ledger)
    requires ValidConfig(cfg) && LedgerOk(cfg, L) && AckFor(cfg, L, p, n, m)
    ensures EffectOk(cfg, L, L', p, m, CountReply(n, m, c))
  {
    AckIsFor(cfg, L, p, n, m);
    hide NodeOk, LedgerOk, EffectOk, AckFor, Continue, CoordinateWrite, CommitWrite, MessageOk, Abort;
    if Lookup(n.quorumMembers, m.src).kind.PutResponse? {
      L' := L;
      NoEffect(cfg, L, p, n, m);
    } else {
      Counts(n, m, c);
      AckMarker(cfg, L, p, n, m);
      hide CountReply, PuttingJob;
      if Counted(n, m).numWaitingNodes != 0 {
        L' := KeepAckOk(cfg, L, p, n, m);
      } else {
        Continues(Counted(n, m), c);
        Coordinating(Counted(n, m));
        L' := LastAckOk(cfg, L, p, n, m);
      }
    }
  }

  lemma AckMarker(cfg: Config, L: Ledger, p: int, n: Node, m: Message)
    requires LedgerOk(cfg, L) && AckFor(cfg, L, p, n, m) && Lookup(n.quorumMembers, m.src).kind != PutResponse
    ensures n.quorumMembers.Some? && Counted(n, m).id == p
    ensures Lookup(Counted(n, m).quorumMembers, p).kind.UnlockRequest? && n.mode.CoordinatingWrite?
  {
    AckIsFor(cfg, L, p, n, m);
    AckCount(cfg, L, p, n, m);
    hide NodeOk, LedgerOk, AckFor;
  }

  lemma PutResponseOk(cfg: Config, L: Ledger, p: int, n: Node, m: Message, c: Choice) returns (L': Ledger)
    requires ValidConfig(cfg) && LedgerOk(cfg, L) && NodeOk(cfg, L, p, n)
    requires m.kind.PutResponse? && MessageOk(cfg, L, m)
    ensures EffectOk(cfg, L, L', p, m, HandlePutRes(n, m, c))
  {
    hide NodeOk, LedgerOk, EffectOk, CountReply, MessageOk;
    if n.currentTxid == m.id && n.mode.CoordinatingWrite? {
      if m.ok { L' := AckArrives(cfg, L, p, n, m, c); } else { L' := RefusalArrives(cfg, L, p, n, m, c); }
    } else {
      L' := L;
      NoEffect(cfg, L, p, n, m);
    }
  }

  // ---------- reads ----------

  ghost predicate ReplyFor(cfg: Config, L: Ledger, p: int, n: Node, m: Message) {
    && NodeOk(cfg, L, p, n) && n.mode.CoordinatingFastRead? && n.currentTxid == m.id
    && m.kind.GetResponse? && MessageOk(cfg, L, m) && m.ok
  }

  lemma ReplyIsFor(cfg: Config, L: Ledger, p: int, n: Node, m: Message)
    requires LedgerOk(cfg, L) && ReplyFor(cfg, L, p, n, m)
    ensures ReadingJob(L, p, n) && m.src in L.txs[m.id].members && ReplyOk(L, m.src, L.txs[m.id], m)
    ensures n.id == p && IsRead(L.txs[m.id].request) && NodeOk(cfg, L, p, n)
    ensures p !in L.txs[m.id].members && |L.txs[m.id].members| == cfg.r - 1 && InRange(L.txs[m.id].members + {p}, cfg.n)
    ensures L.txs[m.id].request.src == cfg.n && L.txs[m.id].since <= |L.history|
  {
    var x := L.txs[m.id];
    assert TxOk(cfg, L.history, m.id, x);
    assert GetResponseOk(L, m);
    assert ReadingJob(L, p, n) && n.id == p;
    hide NodeOk, LedgerOk, ReplyFor;
  }

  lemma ReplyCount(cfg: Config, L: Ledger, p: int, n: Node, m: Message)
    requires LedgerOk(cfg, L) && ReplyFor(cfg, L, p, n, m) && Lookup(n.quorumMembers, m.src).kind != GetResponse
    ensures n.quorumMembers.Some? && Counted(n, m).quorumMembers.value.Keys == L.txs[m.id].members
    ensures Counted(n, m).numWaitingNodes != 0 ==> JobOk(L, p, Counted(n, m))
    ensures Counted(n, m).numWaitingNodes == 0 ==> forall q :: q in L.txs[m.id].members ==>
              ReplyOk(L, q, L.txs[m.id], Counted(n, m).quorumMembers.value[q])
  {
    ReplyIsFor(cfg, L, p, n, m);
    assert n.mode.CoordinatingFastRead? && n.currentTxid == m.id && m.kind.GetResponse?;
    hide NodeOk, LedgerOk, ReplyFor, ReplyOk;
    ReplyCounted(L, p, n, m);
  }

  lemma ReplyCounted(L: Ledger, p: int, n: Node, m: Message)
    requires ReadingJob(L, p, n) && n.mode.CoordinatingFastRead? && n.currentTxid == m.id && m.kind.GetResponse?
    requires m.src in L.txs[m.id].members && ReplyOk(L, m.src, L.txs[m.id], m)
    requires Lookup(n.quorumMembers, m.src).kind != GetResponse
    ensures n.quorumMembers.Some? && Counted(n, m).quorumMembers.value.Keys == L.txs[m.id].members
    ensures Counted(n, m).numWaitingNodes != 0 ==> JobOk(L, p, Counted(n, m))
    ensures Counted(n, m).numWaitingNodes == 0 ==> forall q :: q in L.txs[m.id].members ==>
              ReplyOk(L, q, L.txs[m.id], Counted(n, m).quorumMembers.value[q])
  {
    var x, members, n1 := L.txs[m.id], n.quorumMembers.value, Counted(n, m);
    hide ReplyOk;
    AwaitingStep(members, x.members, m);
    if n1.numWaitingNodes != 0 {
      assert ReadingJob(L, p, n1);
    } else {
      NobodyAwaited(n1.quorumMembers.value, x.members, GetResponse);
    }
  }

  lemma KeepReplyOk(cfg: Config, L: Ledger, p: int, n: Node, m: Message) returns (L': Ledger)
    requires LedgerOk(cfg, L) && ReplyFor(cfg, L, p, n, m) && Lookup(n.quorumMembers, m.src).kind != GetResponse
    requires n.quorumMembers.Some? && Counted(n, m).numWaitingNodes != 0
    ensures EffectOk(cfg, L, L', p, m, Silent(Counted(n, m)))
  {
    hide NodeOk, LedgerOk, JobOk;
    L' := L;
    ReplyCount(cfg, L, p, n, m);
    JobChange(cfg, L, p, n, Counted(n, m));
    NoEffect(cfg, L, p, Counted(n, m), m);
  }

  /** The newest of R replies is at least as new as the last write decided before the read began. */
  lemma NewestReply(cfg: Config, L: Ledger, p: int, n: Node, m: Message, best: Stamped)
    requires LedgerOk(cfg, L) && ReplyFor(cfg, L, p, n, m) && Lookup(n.quorumMembers, m.src).kind != GetResponse
    requires n.quorumMembers.Some? && Counted(n, m).numWaitingNodes == 0
    requires IsLatest(Read(n, n.clientRequest.key), Counted(n, m).quorumMembers.value, best)
    ensures Genuine(L.history, L.txs[m.id].request.key, best)
    ensures StrictConfig(cfg) ==> Version(L.history[..L.txs[m.id].since], L.txs[m.id].request.key) <= best.timestamp
  {
    ReplyIsFor(cfg, L, p, n, m);
    ReplyCount(cfg, L, p, n, m);
    var x, replies := L.txs[m.id], Counted(n, m).quorumMembers.value;
    var key := x.request.key;
    forall t | t in L.txs && L.txs[t].stage.Committed? ensures !Holds(L.txs[t], p) {
      assert Holds(L.txs[t], p) <==> Busy(n, t);
    }
    StoreCovers(cfg, L, p, n, key);
    CoversFewer(L.history, p, key, x.since, Read(n, key).timestamp);
    hide NodeOk, ReplyFor;
    if best != Read(n, key) {
      var q :| q in replies && best == Stamped(replies[q].timestamp, replies[q].value);
      assert ReplyOk(L, q, x, replies[q]);
    }
    var readers := x.members + {p};
    forall q | q in readers ensures Covers(L.history, q, key, x.since, best.timestamp) {
      if q in x.members { assert ReplyOk(L, q, x, replies[q]); }
    }
    if StrictConfig(cfg) {
      assert |readers| == cfg.r;
      QuorumCovers(cfg, L, readers, key, x.since, best.timestamp);
    }
    hide LedgerOk;
  }

  lemma FinishReadNode(cfg: Config, L: Ledger, p: int, n: Node, m: Message, best: Stamped)
    requires LedgerOk(cfg, L) && ReplyFor(cfg, L, p, n, m) && n.quorumMembers.Some?
    ensures NodeOk(cfg, Finish(L, m.id), p, FinishRead(Counted(n, m), best).node)
    ensures LedgerOk(cfg, Finish(L, m.id)) && Evolves(L, Finish(L, m.id), p, m)
  {
    ReplyIsFor(cfg, L, p, n, m);
    hide NodeOk, LedgerOk, Evolves, ReadingJob, ReplyOk;
    NodeStaging(cfg, L, p, n);
    IdleNode(cfg, L, p, n, FinishRead(Counted(n, m), best).node, m);
  }

  lemma ReadAnswerOk(cfg: Config, L: Ledger, p: int, n: Node, m: Message, best: Stamped)
    requires LedgerOk(cfg, L) && ReplyFor(cfg, L, p, n, m) && Lookup(n.quorumMembers, m.src).kind != GetResponse
    requires n.quorumMembers.Some? && Counted(n, m).numWaitingNodes == 0
    requires IsLatest(Read(n, n.clientRequest.key), Counted(n, m).quorumMembers.value, best)
    ensures ReplySound(cfg, L, Finish(L, m.id), FinishRead(Counted(n, m), best).reply)
  {
    ReplyIsFor(cfg, L, p, n, m);
    NewestReply(cfg, L, p, n, m, best);
    assert n.currentTxid == m.id && n.clientRequest.id == m.id;
    hide NodeOk, LedgerOk, ReplyFor, Version, Genuine, IsLatest, ReplyOk, Waits;
    assert Stamped(best.timestamp, best.value) == best;
    var x := L.txs[m.id];
    var a := Message(m.id, p, cfg.n, ClientReadResponse, x.request.key, best.value, best.timestamp, true);
    assert FinishRead(Counted(n, m), best).reply == Some(a);
    assert AnswerOk(cfg, Finish(L, m.id), a);
    hide ReadingJob, AnswerOk, FinishRead, Counted;
  }

  lemma LastReplyOk(cfg: Config, L: Ledger, p: int, n: Node, m: Message, best: Stamped) returns (L': Ledger)
    requires LedgerOk(cfg, L) && ReplyFor(cfg, L, p, n, m) && Lookup(n.quorumMembers, m.src).kind != GetResponse
    requires n.quorumMembers.Some? && Counted(n, m).numWaitingNodes == 0
    requires IsLatest(Read(n, n.clientRequest.key), Counted(n, m).quorumMembers.value, best)
    ensures EffectOk(cfg, L, L', p, m, FinishRead(Counted(n, m), best))
  {
    ReplyIsFor(cfg, L, p, n, m);
    hide NodeOk, LedgerOk, ReplyFor, Evolves, ReplySound, ReadingJob, IsLatest;
    L' := Finish(L, m.id);
    FinishReadNode(cfg, L, p, n, m, best);
    ReadAnswerOk(cfg, L, p, n, m, best);
    NobodyToTell(L, m.id, L'.txs[m.id], p, {});
    var e := FinishRead(Counted(n, m), best);
    FailureIsTold(L, m.id, e.reply);
    assert e.out == {};
    hide FinishRead, Counted, MembersTold, FailureTold;
    SilentEffect(cfg, L, L', p, m, e);
  }

  lemma SilentEffect(cfg: Config, L: Ledger, L': Ledger, p: int, used: Message, e: Effect)
    requires LedgerOk(cfg, L') && Evolves(L, L', p, used) && NodeOk(cfg, L', p, e.node) && e.out == {}
    requires ReplySound(cfg, L, L', e.reply) && MembersTold(L, L', p, {}) && FailureTold(L, L', e.reply)
    ensures EffectOk(cfg, L, L', p, used, e)
  {
    hide LedgerOk, Evolves, NodeOk, ReplySound, MembersTold, FailureTold;
  }

  lemma ReplyArrives(cfg: Config, L: Ledger, p: int, n: Node, m: Message, c: Choice) returns (L': Ledger)
    requires LedgerOk(cfg, L) && ReplyFor(cfg, L, p, n, m) && ChoiceOk(n, m, c)
    ensures EffectOk(cfg, L, L', p, m, CountReply(n, m, c))
  {
    ReplyIsFor(cfg, L, p, n, m);
    hide NodeOk, LedgerOk, EffectOk, ReplyFor, Continue, FinishRead, MessageOk, Abort, IsLatest;
    if Lookup(n.quorumMembers, m.src).kind.GetResponse? {
      L' := L;
      NoEffect(cfg, L, p, n, m);
    } else {
      Counts(n, m, c);
      hide CountReply, ReadingJob, ReplyOk;
      if Counted(n, m).numWaitingNodes != 0 {
        L' := KeepReplyOk(cfg, L, p, n, m);
      } else {
        Continues(Counted(n, m), c);
        L' := LastReplyOk(cfg, L, p, n, m, c.latest);
      }
    }
  }

  lemma GetResponseArrives(cfg: Config, L: Ledger, p: int, n: Node, m: Message, c: Choice) returns (L': Ledger)
    requires ValidConfig(cfg) && LedgerOk(cfg, L) && NodeOk(cfg, L, p, n) && |L.history| + 1 < TIMESTAMPS
    requires m.kind.GetResponse? && MessageOk(cfg, L, m) && !LateStamp(n, m) && ChoiceOk(n, m, c)
    ensures EffectOk(cfg, L, L', p, m, HandleGetRes(n, m, c))
  {
    hide NodeOk, LedgerOk, EffectOk, CountReply, MessageOk, LateStamp, ChoiceOk;
    if n.currentTxid == m.id && n.mode.CoordinatingWrite? {
      L' := StampArrives(cfg, L, p, n, m, c);
    } else if n.currentTxid == m.id && n.mode.CoordinatingFastRead? {
      if m.ok { L' := ReplyArrives(cfg, L, p, n, m, c); } else { L' := RefusalArrives(cfg, L, p, n, m, c); }
    } else {
      L' := L;
      NoEffect(cfg, L, p, n, m);
    }
  }

  // ---------- taking the next request ----------

  lemma QueueHead(cfg: Config, L: Ledger, p: int, n: Node, m: Message)
    requires NodeOk(cfg, L, p, n) && n.lockRequests != [] && m == n.lockRequests[0]
    ensures QueueEntryOk(cfg, L, p, m) && n.id == p && 0 <= p < cfg.n && n.config == cfg && !n.exited
    ensures IsClientRequest(m) ==> forall x :: x in n.lockRequests[1..] && IsClientRequest(x) ==> x.id != m.id
    ensures QueueOk(cfg, L, p, n.(lockRequests := n.lockRequests[1..]))
  {
    assert m in n.lockRequests;
    assert n.lockRequests == [m] + n.lockRequests[1..];
    assert QueueOk(cfg, L, p, n) && QueueEntryOk(cfg, L, p, m);
    assert n.id == p && 0 <= p < cfg.n && n.config == cfg && !n.exited;
    forall x | x in n.lockRequests[1..]
      ensures QueueEntryOk(cfg, L, p, x)
      ensures IsClientRequest(x) ==> multiset(n.lockRequests[1..])[x] == 1
      ensures IsClientRequest(m) && IsClientRequest(x) ==> x.id != m.id
    {
      assert x in n.lockRequests && QueueEntryOk(cfg, L, p, x);
    }
    hide NodeOk;
  }

  /** A node whose queue is shortened, and nothing else. */
  lemma DropHead(cfg: Config, L: Ledger, p: int, n: Node)
    requires NodeOk(cfg, L, p, n) && n.lockRequests != []
    ensures NodeOk(cfg, L, p, n.(lockRequests := n.lockRequests[1..]))
  {
    QueueHead(cfg, L, p, n, n.lockRequests[0]);
    var n' := n.(lockRequests := n.lockRequests[1..]);
    QueueChange(cfg, L, p, n, n');
  }

  /** The coordinator's state when it has just drawn a quorum. */
  function Drawn(n: Node, m: Message, peers: set<int>): Node {
    var n1 := n.(currentTxid := m.id, clientRequest := m,
        mode := if IsRead(m) then CoordinatingFastRead else AssemblingQuorum);
    if IsRead(m) then AssembleQuorum(n1, n.config.r, GetRequest, peers).node
    else AssembleQuorum(n1, n.config.w, LockRequestNoTimeout, peers).node
  }

  lemma DrawnShape(n: Node, m: Message, peers: set<int>)
    requires n.id !in peers && |peers| == (if IsRead(m) then n.config.r else n.config.w) as int - 1
    ensures var n' := Drawn(n, m, peers);
            && n' == n.(currentTxid := m.id, clientRequest := m, mode := n'.mode, quorumMembers := n'.quorumMembers,
                        numWaitingNodes := |peers|)
            && n'.mode == (if IsRead(m) then CoordinatingFastRead else AssemblingQuorum)
            && n'.quorumMembers.Some?
            && n'.quorumMembers.value.Keys == (if IsRead(m) then peers else peers + {n.id})
            && (!IsRead(m) ==> n'.quorumMembers.value[n.id] == Marker(TimestampRequest, 0))
            && forall q :: q in peers ==>
                 n'.quorumMembers.value[q].kind == if IsRead(m) then GetRequest else LockRequestNoTimeout
  {}

  lemma DrawnReading(cfg: Config, L: Ledger, p: int, n: Node, m: Message, peers: set<int>)
    requires LedgerOk(cfg, L) && n.id == p && n.config == cfg && IsRead(m) && QueueEntryOk(cfg, L, p, m)
    requires p !in peers && |peers| == cfg.r - 1
    ensures ReadingJob(Begin(L, m.id, peers), p, Drawn(n, m, peers))
  {
    assert TxOk(cfg, L.history, m.id, L.txs[m.id]);
    hide LedgerOk;
    DrawnShape(n, m, peers);
    var n' := Drawn(n, m, peers);
    hide Drawn;
    AllAwaited(n'.quorumMembers.value, peers, GetResponse);
    assert Begin(L, m.id, peers).txs[m.id].stage == Reading;
  }

  lemma DrawnAssembling(cfg: Config, L: Ledger, p: int, n: Node, m: Message, peers: set<int>)
    requires ValidConfig(cfg) && LedgerOk(cfg, L) && n.id == p && n.config == cfg && IsWrite(m)
    requires QueueEntryOk(cfg, L, p, m)
    requires p !in peers && |peers| == cfg.w - 1
    ensures AssemblingJob(Begin(L, m.id, peers), p, Drawn(n, m, peers))
  {
    var x := L.txs[m.id];
    assert TxOk(cfg, L.history, m.id, x) && x.answered == {};
    hide LedgerOk;
    DrawnShape(n, m, peers);
    var n' := Drawn(n, m, peers);
    hide Drawn;
    AllAwaited(n'.quorumMembers.value, peers, LockResponse);
    assert Begin(L, m.id, peers).txs[m.id].stage == Assembling;
  }

  lemma DrawnJob(cfg: Config, L: Ledger, p: int, n: Node, m: Message, peers: set<int>)
    requires ValidConfig(cfg) && LedgerOk(cfg, L) && n.id == p && n.config == cfg
    requires IsClientRequest(m) && QueueEntryOk(cfg, L, p, m)
    requires InRange(peers, cfg.n) && p !in peers && |peers| == (if IsRead(m) then cfg.r else cfg.w) - 1
    ensures JobOk(Begin(L, m.id, peers), p, Drawn(n, m, peers))
  {
    hide LedgerOk, ReadingJob, AssemblingJob, QueueEntryOk;
    if IsRead(m) { DrawnReading(cfg, L, p, n, m, peers); } else { DrawnAssembling(cfg, L, p, n, m, peers); }
  }

  lemma DrawnLinks(cfg: Config, L: Ledger, p: int, n: Node, m: Message, peers: set<int>, n': Node)
    requires ValidConfig(cfg) && LedgerOk(cfg, L) && NodeOk(cfg, L, p, n) && n.mode.Idle?
    requires IsClientRequest(m) && QueueEntryOk(cfg, L, p, m)
    requires n'.currentTxid == m.id && (n'.mode.CoordinatingFastRead? || n'.mode.AssemblingQuorum?)
    requires n'.unlockTxids == n.unlockTxids && n'.store == n.store
    ensures HoldsOk(Begin(L, m.id, peers), p, n') && ActiveOk(Begin(L, m.id, peers), p, n')
    ensures ReleasedOk(Begin(L, m.id, peers), p, n') && PromiseOk(Begin(L, m.id, peers), p, n')
    ensures CoverOk(Begin(L, m.id, peers), p, n')
  {
    var L' := Begin(L, m.id, peers);
    assert TxOk(cfg, L.history, m.id, L.txs[m.id]);
    forall t | t in L'.txs ensures !Holds(L'.txs[t], p) && (L'.txs[t].coord == p && Active(L'.txs[t]) ==> t == m.id) {
      assert Holds(L.txs[t], p) <==> Busy(n, t);
    }
    ActorCover(L, L', p, n, n');
  }

  lemma DrawnQueue(cfg: Config, L: Ledger, p: int, n: Node, m: Message, peers: set<int>, q: seq<Message>)
    requires QueueOk(cfg, L, p, n.(lockRequests := q)) && IsClientRequest(m) && QueueEntryOk(cfg, L, p, m)
    requires forall x :: x in q && IsClientRequest(x) ==> x.id != m.id
    ensures QueueOk(cfg, Begin(L, m.id, peers), p, n.(lockRequests := q))
  {
    forall x | x in q ensures QueueEntryOk(cfg, Begin(L, m.id, peers), p, x) {
      assert x in n.(lockRequests := q).lockRequests;
      assert QueueEntryOk(cfg, L, p, x);
    }
  }

  lemma BeginLedger(cfg: Config, L: Ledger, p: int, m: Message, peers: set<int>)
    requires LedgerOk(cfg, L) && IsClientRequest(m) && QueueEntryOk(cfg, L, p, m)
    requires InRange(peers, cfg.n) && p !in peers && |peers| == (if IsRead(m) then cfg.r else cfg.w) - 1
    ensures LedgerOk(cfg, Begin(L, m.id, peers)) && Evolves(L, Begin(L, m.id, peers), p, ZERO_MESSAGE)
  {
    BeginOk(cfg, L, m.id, peers, ZERO_MESSAGE);
    hide LedgerOk, Evolves;
  }

  lemma DrawnNode(cfg: Config, L: Ledger, p: int, n: Node, m: Message, peers: set<int>)
    requires ValidConfig(cfg) && LedgerOk(cfg, L) && NodeOk(cfg, L, p, n) && n.mode.Idle?
    requires n.lockRequests != [] && m == n.lockRequests[0] && IsClientRequest(m)
    requires InRange(peers, cfg.n) && p !in peers && |peers| == (if IsRead(m) then cfg.r else cfg.w) - 1
    ensures NodeOk(cfg, Begin(L, m.id, peers), p, Drawn(n.(lockRequests := n.lockRequests[1..]), m, peers))
    ensures LedgerOk(cfg, Begin(L, m.id, peers)) && Evolves(L, Begin(L, m.id, peers), p, ZERO_MESSAGE)
  {
    hide NodeOk, LedgerOk, Evolves;
    hide JobOk, HoldsOk, ActiveOk, ReleasedOk, StoreOk, StagingOk, PromiseOk, CoverOk, QueueOk, TimersOk, BackgroundOk;
    QueueHead(cfg, L, p, n, m);
    var L', n1 := Begin(L, m.id, peers), n.(lockRequests := n.lockRequests[1..]);
    var n' := Drawn(n1, m, peers);
    BeginLedger(cfg, L, p, m, peers);
    NodeParts(cfg, L, p, n);
    ActorLinks(cfg, L, L', p, ZERO_MESSAGE, n);
    DrawnQueue(cfg, L, p, n, m, peers, n1.lockRequests);
    DrawnRest(cfg, L', p, n, n1);
    DrawnJob(cfg, L, p, n1, m, peers);
    DrawnLinks(cfg, L, p, n, m, peers, n');
    SameParts(cfg, L', p, n1, n');
    SameStaging(n, n');
    NodeWhole(cfg, L', p, n');
  }

  lemma DrawnRest(cfg: Config, L: Ledger, p: int, n: Node, n1: Node)
    requires StoreOk(L, n) && TimersOk(L, p, n) && BackgroundOk(cfg, L, p, n)
    requires n1 == n.(lockRequests := n1.lockRequests)
    ensures StoreOk(L, n1) && TimersOk(L, p, n1) && BackgroundOk(cfg, L, p, n1)
  {}

  lemma DrawnOut(cfg: Config, L: Ledger, p: int, n: Node, m: Message, peers: set<int>)
    requires LedgerOk(cfg, L) && IsClientRequest(m) && QueueEntryOk(cfg, L, p, m) && n.id == p && n.clientRequest == m
    ensures IsRead(m) ==> forall r :: r in AssembleQuorum(n, cfg.r, GetRequest, peers).out ==>
              !OneShot(r) && MessageOk(cfg, Begin(L, m.id, peers), r)
    ensures IsWrite(m) ==> forall r :: r in AssembleQuorum(n, cfg.w, LockRequestNoTimeout, peers).out ==>
              !OneShot(r) && MessageOk(cfg, Begin(L, m.id, peers), r)
  {
    assert TxOk(cfg, L.history, m.id, L.txs[m.id]);
    hide LedgerOk;
    assert Begin(L, m.id, peers).txs[m.id].members == peers;
  }

  lemma TakeClientRequest(cfg: Config, L: Ledger, p: int, n: Node, c: Choice) returns (L': Ledger)
    requires ValidConfig(cfg) && LedgerOk(cfg, L) && NodeOk(cfg, L, p, n) && n.mode.Idle?
    requires n.lockRequests != [] && IsClientRequest(n.lockRequests[0]) && PeersOk(n, c)
    ensures n.lockRequests[0].id !in n.unlockTxids
    ensures EffectOk(cfg, L, L', p, ZERO_MESSAGE, TakeNext(n, c))
  {
    var m := n.lockRequests[0];
    HeadNotUnlocked(cfg, L, p, n);
    QueueHead(cfg, L, p, n, m);
    hide NodeOk, LedgerOk, Evolves, QueueEntryOk, MessageOk;
    L' := Begin(L, m.id, c.peers);
    var n1 := n.(lockRequests := n.lockRequests[1..]);
    DrawnNode(cfg, L, p, n, m, c.peers);
    var n2 := n1.(currentTxid := m.id, clientRequest := m,
        mode := if IsRead(m) then CoordinatingFastRead else AssemblingQuorum);
    IdleMembers(cfg, L, p, n);
    DrawnOut(cfg, L, p, n2, m, c.peers);
    Draws(n, c);
    NobodyToTell(L, m.id, L'.txs[m.id], p, TakeNext(n, c).out);
    NoFailure(L, m.id, L'.txs[m.id]);
    hide Drawn, AssembleQuorum, TakeNext, QueueOk, MembersTold, FailureTold;
    if IsRead(m) {
      QuietEffect(cfg, L, L', p, ZERO_MESSAGE, AssembleQuorum(n2, cfg.r, GetRequest, c.peers));
    } else {
      QuietEffect(cfg, L, L', p, ZERO_MESSAGE, AssembleQuorum(n2, cfg.w, LockRequestNoTimeout, c.peers));
    }
  }

  lemma IdleMembers(cfg: Config, L: Ledger, p: int, n: Node)
    requires NodeOk(cfg, L, p, n) && n.mode.Idle?
    ensures n.quorumMembers.None? && n.currentTxid == -1
  {
    assert JobOk(L, p, n) && n.quorumMembers.None? && n.currentTxid == -1;
    hide NodeOk;
  }

  lemma HeadNotUnlocked(cfg: Config, L: Ledger, p: int, n: Node)
    requires LedgerOk(cfg, L) && NodeOk(cfg, L, p, n)
    requires n.lockRequests != [] && IsClientRequest(n.lockRequests[0])
    ensures n.lockRequests[0].id !in n.unlockTxids && n.lockRequests[0].id in L.txs
  {
    var m := n.lockRequests[0];
    assert m in n.lockRequests && QueueEntryOk(cfg, L, p, m) && TxOk(cfg, L.history, m.id, L.txs[m.id]);
    hide NodeOk, LedgerOk;
  }

  /** What taking a client request comes to. */
  lemma Draws(n: Node, c: Choice)
    requires n.mode.Idle? && n.lockRequests != [] && n.quorumMembers.None? && n.lockRequests[0].id !in n.unlockTxids
    requires IsClientRequest(n.lockRequests[0])
    ensures var m := n.lockRequests[0];
            var n1 := n.(lockRequests := n.lockRequests[1..]);
            var n2 := n1.(currentTxid := m.id, clientRequest := m,
                          mode := if IsRead(m) then CoordinatingFastRead else AssemblingQuorum);
            && TakeNext(n, c) == (if IsRead(m) then AssembleQuorum(n2, n.config.r, GetRequest, c.peers)
                                  else AssembleQuorum(n2, n.config.w, LockRequestNoTimeout, c.peers))
            && TakeNext(n, c).node == Drawn(n1, m, c.peers)
  {}

  lemma TakenLinks(cfg: Config, L: Ledger, p: int, n: Node, m: Message, n': Node)
    requires LedgerOk(cfg, L) && NodeOk(cfg, L, p, n) && n.mode.Idle?
    requires m.kind.LockRequestNoTimeout? && LockRequestOk(L, m) && m.dest == p && m.id !in n.unlockTxids
    requires n'.mode.ProcessingWrite? && n'.currentTxid == m.id && n'.unlockTxids == n.unlockTxids
    requires n'.store == n.store
    ensures p !in L.txs[m.id].granted && forall u :: u in L.txs ==> !Holds(L.txs[u], p)
    ensures HoldsOk(Grant(L, m.id, p), p, n') && ActiveOk(Grant(L, m.id, p), p, n')
    ensures ReleasedOk(Grant(L, m.id, p), p, n')
    ensures PromiseOk(Grant(L, m.id, p), p, n') && CoverOk(Grant(L, m.id, p), p, n')
  {
    var L' := Grant(L, m.id, p);
    var x := L.txs[m.id];
    assert TxOk(cfg, L.history, m.id, x);
    forall u | u in L.txs ensures !Holds(L.txs[u], p) && !(L.txs[u].coord == p && Active(L.txs[u])) {
      assert Holds(L.txs[u], p) <==> Busy(n, u);
    }
    assert p !in x.released;
    assert p !in x.granted;
    ActorCover(L, L', p, n, n');
  }

  /** A member locks: it was idle, so it holds for no one else, and it locks for a write only once. */
  lemma TakenNode(cfg: Config, L: Ledger, p: int, n: Node, m: Message, n': Node)
    requires LedgerOk(cfg, L) && NodeOk(cfg, L, p, n) && n.mode.Idle?
    requires m.kind.LockRequestNoTimeout? && LockRequestOk(L, m) && m.dest == p && m.id !in n.unlockTxids
    requires n' == n.(mode := ProcessingWrite, currentTxid := m.id, clientRequest := m, lockRequests := n'.lockRequests)
    requires QueueOk(cfg, L, p, n')
    ensures NodeOk(cfg, Grant(L, m.id, p), p, n')
    ensures LedgerOk(cfg, Grant(L, m.id, p)) && Evolves(L, Grant(L, m.id, p), p, ZERO_MESSAGE)
    ensures p !in L.txs[m.id].granted && L.txs[m.id].answered <= L.txs[m.id].granted
  {
    var L' := Grant(L, m.id, p);
    TakenLinks(cfg, L, p, n, m, n');
    assert TxOk(cfg, L.history, m.id, L.txs[m.id]);
    GrantOk(cfg, L, m.id, p, ZERO_MESSAGE);
    ActorLinks(cfg, L, L', p, ZERO_MESSAGE, n);
    ActorQueue(cfg, L, L', p, ZERO_MESSAGE, n');
    assert StoreOk(L', n') && TimersOk(L', p, n') && BackgroundOk(cfg, L', p, n') && StagingOk(n') && JobOk(L', p, n');
    hide StoreOk, TimersOk, BackgroundOk, StagingOk, QueueOk, LedgerOk, Evolves, JobOk;
    hide HoldsOk, ActiveOk, ReleasedOk, PromiseOk, CoverOk;
  }

  /** The lock is granted by one message, for the first time. */
  lemma GrantSent(cfg: Config, L: Ledger, p: int, m: Message)
    requires LockRequestOk(L, m) && m.dest == p
    requires p !in L.txs[m.id].granted && L.txs[m.id].answered <= L.txs[m.id].granted
    ensures SendOk(cfg, L, Grant(L, m.id, p), ZERO_MESSAGE, Signal(m.id, p, m.src, LockResponse, true))
    ensures MembersTold(L, Grant(L, m.id, p), p, {Signal(m.id, p, m.src, LockResponse, true)})
    ensures FailureTold(L, Grant(L, m.id, p), None)
  {
    NoFailure(L, m.id, Grant(L, m.id, p).txs[m.id]);
    NobodyToTell(L, m.id, Grant(L, m.id, p).txs[m.id], p, {Signal(m.id, p, m.src, LockResponse, true)});
    hide MembersTold, FailureTold;
  }

  lemma TakenEffect(n: Node, c: Choice)
    requires n.mode.Idle? && n.lockRequests != [] && n.lockRequests[0].kind.LockRequestNoTimeout?
    requires n.lockRequests[0].id !in n.unlockTxids
    ensures var m := n.lockRequests[0];
            TakeNext(n, c) == Effect(n.(mode := ProcessingWrite, currentTxid := m.id, clientRequest := m,
                                        lockRequests := n.lockRequests[1..]),
                                     {Signal(m.id, n.id, m.src, LockResponse, true)}, None)
  {
    hide Continue;
  }

  lemma TakeLockRequest(cfg: Config, L: Ledger, p: int, n: Node, c: Choice) returns (L': Ledger)
    requires ValidConfig(cfg) && LedgerOk(cfg, L) && NodeOk(cfg, L, p, n) && n.mode.Idle?
    requires n.lockRequests != [] && n.lockRequests[0].kind.LockRequestNoTimeout?
    requires n.lockRequests[0].id !in n.unlockTxids
    ensures EffectOk(cfg, L, L', p, ZERO_MESSAGE, TakeNext(n, c))
  {
    var m := n.lockRequests[0];
    QueueHead(cfg, L, p, n, m);
    TakenEffect(n, c);
    hide NodeOk, LedgerOk, Evolves, TakeNext, QueueOk;
    var e := TakeNext(n, c);
    L' := Grant(L, m.id, p);
    TakenQueue(cfg, L, p, n.(lockRequests := n.lockRequests[1..]), e.node);
    assert QueueEntryOk(cfg, L, p, m) && LockRequestOk(L, m);
    TakenNode(cfg, L, p, n, m, e.node);
    GrantSent(cfg, L, p, m);
    assert L'.history == L.history;
    hide LockRequestOk, QueueEntryOk, Grant, MembersTold, FailureTold, SendOk, Signal;
    OneSent(cfg, L, L', p, ZERO_MESSAGE, e, Signal(m.id, p, m.src, LockResponse, true));
  }

  lemma OneSent(cfg: Config, L: Ledger, L': Ledger, p: int, used: Message, e: Effect, r: Message)
    requires LedgerOk(cfg, L') && Evolves(L, L', p, used) && NodeOk(cfg, L', p, e.node) && L'.history == L.history
    requires e.out == {r} && e.reply.None? && SendOk(cfg, L, L', used, r) && MembersTold(L, L', p, {r})
    requires FailureTold(L, L', None)
    ensures EffectOk(cfg, L, L', p, used, e)
  {
    hide LedgerOk, Evolves, NodeOk, SendOk, MembersTold, FailureTold;
  }

  lemma TakenQueue(cfg: Config, L: Ledger, p: int, n: Node, n': Node)
    requires QueueOk(cfg, L, p, n) && n'.lockRequests == n.lockRequests
    ensures QueueOk(cfg, L, p, n')
  {}

  lemma TakeNextOk(cfg: Config, L: Ledger, p: int, n: Node, c: Choice) returns (L': Ledger)
    requires ValidConfig(cfg) && LedgerOk(cfg, L) && NodeOk(cfg, L, p, n) && PeersOk(n, c)
    ensures EffectOk(cfg, L, L', p, ZERO_MESSAGE, TakeNext(n, c))
  {
    hide NodeOk, LedgerOk, EffectOk, Continue, PeersOk;
    if !n.mode.Idle? || n.lockRequests == [] {
      L' := L;
      NoEffect(cfg, L, p, n, ZERO_MESSAGE);
    } else {
      var m := n.lockRequests[0];
      QueueHead(cfg, L, p, n, m);
      hide QueueOk;
      if IsClientRequest(m) {
        hide TakeNext;
        L' := TakeClientRequest(cfg, L, p, n, c);
      } else if m.id in n.unlockTxids {
        L' := L;
        DropHead(cfg, L, p, n);
        NoEffect(cfg, L, p, n.(lockRequests := n.lockRequests[1..]), ZERO_MESSAGE);
      } else {
        hide TakeNext;
        L' := TakeLockRequest(cfg, L, p, n, c);
      }
    }
  }

  // ---------- timeouts ----------

  lemma TimeoutOk(cfg: Config, L: Ledger, p: int, n: Node) returns (L': Ledger)
    requires LedgerOk(cfg, L) && NodeOk(cfg, L, p, n)
    ensures EffectOk(cfg, L, L', p, ZERO_MESSAGE, Timeout(n))
  {
    hide NodeOk, LedgerOk, EffectOk, Abort;
    if n.mode.CoordinatingWrite? || n.mode.AssemblingQuorum? {
      JobUnderway(cfg, L, p, n);
      L' := AbortOk(cfg, L, p, n, n, ZERO_MESSAGE);
    } else {
      L' := L;
      NoEffect(cfg, L, p, n, ZERO_MESSAGE);
    }
  }

  lemma QueuedMember(cfg: Config, L: Ledger, p: int, n: Node, m: Message)
    requires LedgerOk(cfg, L) && NodeOk(cfg, L, p, n) && m in n.lockRequests
    ensures QueueEntryOk(cfg, L, p, m) && QueueOk(cfg, L, p, n)
    ensures IsClientRequest(m) ==> m.id in L.txs && L.txs[m.id].stage.Queued? && L.txs[m.id].coord == p
    ensures IsClientRequest(m) ==> n.currentTxid != m.id
    ensures IsClientRequest(m) ==> m.src == cfg.n && L.txs[m.id].members == {}
    ensures IsClientRequest(m) ==> NotSeenBy(L.txs[m.id], Finish(L, m.id).txs[m.id], p)
  {
    assert QueueEntryOk(cfg, L, p, m) && QueueOk(cfg, L, p, n);
    if IsClientRequest(m) { assert TxOk(cfg, L.history, m.id, L.txs[m.id]); }
    hide NodeOk, LedgerOk;
  }

  lemma RemovedQueue(cfg: Config, L: Ledger, p: int, n: Node, m: Message)
    requires QueueOk(cfg, L, p, n) && m in n.lockRequests
    ensures QueueOk(cfg, L, p, n.(lockRequests := Without(n.lockRequests, m)))
    ensures forall x :: x in Without(n.lockRequests, m) ==> x in n.lockRequests && (IsClientRequest(x) ==> x != m)
  {
    var rest := Without(n.lockRequests, m);
    forall x | x in rest
      ensures x in n.lockRequests && QueueEntryOk(cfg, L, p, x)
      ensures IsClientRequest(x) ==> multiset(rest)[x] == 1 && x != m
    {
      assert multiset(rest)[x] > 0 && multiset(n.lockRequests)[x] > 0;
      assert x in n.lockRequests;
    }
  }

  lemma FinishedQueue(cfg: Config, L: Ledger, p: int, n: Node, m: Message)
    requires QueueOk(cfg, L, p, n) && m in n.lockRequests && IsClientRequest(m)
    ensures m.id in L.txs
    ensures QueueOk(cfg, Finish(L, m.id), p, n.(lockRequests := Without(n.lockRequests, m)))
  {
    assert QueueEntryOk(cfg, L, p, m);
    RemovedQueue(cfg, L, p, n, m);
    var n' := n.(lockRequests := Without(n.lockRequests, m));
    forall x | x in n'.lockRequests ensures QueueEntryOk(cfg, Finish(L, m.id), p, x) {
      assert QueueEntryOk(cfg, L, p, x);
    }
  }

  lemma DropQueuedClient(cfg: Config, L: Ledger, p: int, n: Node, m: Message)
    requires LedgerOk(cfg, L) && NodeOk(cfg, L, p, n) && m in n.lockRequests && IsClientRequest(m)
    ensures m.id in L.txs
    ensures NodeOk(cfg, Finish(L, m.id), p, n.(lockRequests := Without(n.lockRequests, m)))
    ensures LedgerOk(cfg, Finish(L, m.id)) && Evolves(L, Finish(L, m.id), p, ZERO_MESSAGE)
  {
    hide NodeOk, Evolves, QueueEntryOk, NotSeenBy;
    hide JobOk, HoldsOk, ActiveOk, ReleasedOk, StoreOk, StagingOk, PromiseOk, CoverOk, QueueOk, TimersOk, BackgroundOk;
    QueuedMember(cfg, L, p, n, m);
    var L', n' := Finish(L, m.id), n.(lockRequests := Without(n.lockRequests, m));
    FinishOk(cfg, L, m.id, ZERO_MESSAGE);
    hide LedgerOk;
    NodeParts(cfg, L, p, n);
    ActorUpdate(cfg, L, m.id, L'.txs[m.id], p, ZERO_MESSAGE, n);
    JobElsewhere(cfg, L, m.id, L'.txs[m.id], p, n);
    FinishedQueue(cfg, L, p, n, m);
    ShorterTimers(L', p, n, n');
    QueueChange(cfg, L', p, n, n');
  }

  lemma ShorterTimers(L: Ledger, p: int, n: Node, n': Node)
    requires TimersOk(L, p, n) && n'.timers == n.timers
    ensures TimersOk(L, p, n')
  {}

  lemma DropQueuedLock(cfg: Config, L: Ledger, p: int, n: Node, m: Message)
    requires NodeOk(cfg, L, p, n) && m in n.lockRequests
    ensures NodeOk(cfg, L, p, n.(lockRequests := Without(n.lockRequests, m)))
  {
    RemovedQueue(cfg, L, p, n, m);
    QueueChange(cfg, L, p, n, n.(lockRequests := Without(n.lockRequests, m)));
  }

  /** A request still timed can only be the one this node coordinates. */
  lemma TimedCurrent(cfg: Config, L: Ledger, p: int, n: Node, m: Message)
    requires LedgerOk(cfg, L) && NodeOk(cfg, L, p, n) && m in n.timers && IsClientRequest(m) && m.id == n.currentTxid
    ensures !n.mode.Idle? && !n.mode.ProcessingWrite?
  {
    assert TimersOk(L, p, n) && m.id in L.txs && TxOk(cfg, L.history, m.id, L.txs[m.id]);
    hide NodeOk, LedgerOk;
  }

  lemma DropClientOk(cfg: Config, L: Ledger, p: int, n: Node, m: Message) returns (L': Ledger)
    requires LedgerOk(cfg, L) && NodeOk(cfg, L, p, n) && m in n.lockRequests && IsClientRequest(m)
    ensures EffectOk(cfg, L, L', p, ZERO_MESSAGE,
            Effect(n.(lockRequests := Without(n.lockRequests, m)), {}, Some(Refusal(n, m))))
  {
    hide NodeOk, LedgerOk, Evolves, QueueOk, NotSeenBy, QueueEntryOk, ReplySound, MembersTold, FailureTold;
    QueuedMember(cfg, L, p, n, m);
    L' := Finish(L, m.id);
    DropQueuedClient(cfg, L, p, n, m);
    RequestOfId(cfg, L, n, p, m);
    FailureIsTold(L, m.id, Some(Refusal(n, m)));
    NobodyToTell(L, m.id, L'.txs[m.id], p, {});
    RefusalSound(cfg, L, n, m);
  }

  lemma RequestOfId(cfg: Config, L: Ledger, n: Node, p: int, m: Message)
    requires QueueEntryOk(cfg, L, p, m) && IsClientRequest(m)
    ensures m.id in L.txs && (IsWrite(L.txs[m.id].request) <==> IsWrite(m))
  {}

  lemma RefusalSound(cfg: Config, L: Ledger, n: Node, m: Message)
    requires m.id in L.txs && IsClientRequest(m) && m.src == cfg.n
    ensures ReplySound(cfg, L, Finish(L, m.id), Some(Refusal(n, m)))
  {}

  lemma DropLockOk(cfg: Config, L: Ledger, p: int, n: Node, m: Message)
    requires LedgerOk(cfg, L) && NodeOk(cfg, L, p, n) && m in n.lockRequests && !IsClientRequest(m)
    ensures EffectOk(cfg, L, L, p, ZERO_MESSAGE,
            Effect(n.(lockRequests := Without(n.lockRequests, m)), {Refusal(n, m)}, None))
  {
    hide NodeOk, LedgerOk, Evolves;
    StutterEvolves(L, p, ZERO_MESSAGE);
    DropQueuedLock(cfg, L, p, n, m);
  }

  lemma RequestTimeoutOk(cfg: Config, L: Ledger, p: int, n: Node, m: Message) returns (L': Ledger)
    requires LedgerOk(cfg, L) && NodeOk(cfg, L, p, n) && m in n.timers
    ensures EffectOk(cfg, L, L', p, ZERO_MESSAGE, RequestTimeout(n, m))
  {
    hide NodeOk, LedgerOk, EffectOk, Abort, Refusal;
    if m in n.lockRequests {
      if IsClientRequest(m) {
        L' := DropClientOk(cfg, L, p, n, m);
      } else {
        L' := L;
        DropLockOk(cfg, L, p, n, m);
      }
    } else if m.id == n.currentTxid && IsClientRequest(m) {
      TimedCurrent(cfg, L, p, n, m);
      JobUnderway(cfg, L, p, n);
      L' := AbortOk(cfg, L, p, n, n, ZERO_MESSAGE);
    } else {
      L' := L;
      NoEffect(cfg, L, p, n, ZERO_MESSAGE);
    }
  }

  // ---------- every message ----------

  ghost predicate Deliverable(cfg: Config, L: Ledger, m: Message) {
    if OneShot(m) then OnceOk(cfg, L, m) else MessageOk(cfg, L, m)
  }

  lemma ClientMessageOk(cfg: Config, L: Ledger, p: int, n: Node, m: Message, c: Choice) returns (L': Ledger)
    requires ValidConfig(cfg) && LedgerOk(cfg, L) && NodeOk(cfg, L, p, n)
    requires IsClientRequest(m) && m.dest == p && OnceOk(cfg, L, m)
    ensures EffectOk(cfg, L, L', p, m, Dispatch(n, m, c))
  {
    NodeId(cfg, L, p, n);
    hide NodeOk, LedgerOk, EffectOk, OnceOk, ProcessLocalRead, Enqueue;
    if IsRead(m) {
      if cfg.r == 1 { L' := LocalRead(cfg, L, p, n, m); } else { L' := EnqueueClientRequest(cfg, L, p, n, m); }
    } else if c.leader == p {
      L' := EnqueueClientRequest(cfg, L, p, n, m);
    } else {
      L' := ForwardClientRequest(cfg, L, p, n, m, c.target);
    }
  }

  /** Answers to clients are not addressed to nodes, and every message has a kind. */
  lemma ForNodes(cfg: Config, L: Ledger, m: Message)
    requires Deliverable(cfg, L, m) && m.dest < cfg.n
    ensures !m.kind.ClientReadResponse? && !m.kind.ClientWriteResponse? && !m.kind.NoKind?
    ensures OneShot(m) ==> OnceOk(cfg, L, m)
    ensures !OneShot(m) ==> MessageOk(cfg, L, m)
  {}

  lemma DispatchOk(cfg: Config, L: Ledger, p: int, n: Node, m: Message, c: Choice) returns (L': Ledger)
    requires ValidConfig(cfg) && LedgerOk(cfg, L) && NodeOk(cfg, L, p, n) && |L.history| + 1 < TIMESTAMPS
    requires m.dest == p && Deliverable(cfg, L, m) && ChoiceOk(n, m, c) && !LateStamp(n, m)
    ensures EffectOk(cfg, L, L', p, m, Dispatch(n, m, c))
  {
    NodeId(cfg, L, p, n);
    ForNodes(cfg, L, m);
    hide NodeOk, LedgerOk, EffectOk, OnceOk, Deliverable, MessageOk, ChoiceOk, LateStamp;
    hide HandleClientWrite, ProcessLocalRead, Enqueue, HandleLockRes, HandleUnlockReq, HandleGetReq, HandleGetRes;
    hide HandlePutReq, HandlePutRes, HandleTimestampReq, HandleBackgroundWriteReq, HandleBackgroundWriteRes, Exit;
    match m.kind
    case ClientReadRequest => L' := ClientMessageOk(cfg, L, p, n, m, c);
    case ClientWriteRequest => L' := ClientMessageOk(cfg, L, p, n, m, c);
    case ClientStrongWriteRequest => L' := ClientMessageOk(cfg, L, p, n, m, c);
    case LockRequestNoTimeout => L' := EnqueueLockRequest(cfg, L, p, n, m);
    case LockResponse => L' := LockResponseOk(cfg, L, p, n, m, c);
    case UnlockRequest => L' := UnlockRequestOk(cfg, L, p, n, m);
    case UnlockAck => L' := L; NoEffect(cfg, L, p, n, m);
    case GetRequest => L' := GetRequestOk(cfg, L, p, n, m);
    case GetResponse => L' := GetResponseArrives(cfg, L, p, n, m, c);
    case PutRequest => L' := PutRequestOk(cfg, L, p, n, m);
    case PutResponse => L' := PutResponseOk(cfg, L, p, n, m, c);
    case TimestampRequest => L' := TimestampRequestOk(cfg, L, p, n, m);
    case BackgroundWriteRequest => L' := BackgroundRequestOk(cfg, L, p, n, m);
    case BackgroundWriteResponse => L' := BackgroundResponseOk(cfg, L, p, n, m);
    case _ =>
  }
}
