/** What every node and every message satisfies in every run, stated against
    the auxiliary record, and why a step of one node keeps it for the others. */
module Invariants {
  import opened Packet
  import opened Wrappers
  import opened Node
  import opened Ledgers

  // ---------- messages ----------

  ghost predicate LockRequestOk(L: Ledger, m: Message) {
    && m.id in L.txs && IsWrite(L.txs[m.id].request) && Begun(L.txs[m.id])
    && m.src == L.txs[m.id].coord && m.dest in L.txs[m.id].members
  }

  ghost predicate AnswerOk(cfg: Config, L: Ledger, m: Message) {
    && m.id in L.txs && m.key == L.txs[m.id].request.key
    && (m.kind.ClientWriteResponse? ==>
          && L.txs[m.id].stage.Committed? && m.src == L.txs[m.id].coord
          && m.timestamp == L.txs[m.id].timestamp && m.value == L.txs[m.id].request.value)
    && (m.kind.ClientReadResponse? ==>
          && IsRead(L.txs[m.id].request)
          && Genuine(L.history, m.key, Stamped(m.timestamp, m.value))
          && (StrictConfig(cfg) ==>
                L.txs[m.id].since <= |L.history| && Version(L.history[..L.txs[m.id].since], m.key) <= m.timestamp))
  }

  ghost predicate GetResponseOk(L: Ledger, m: Message) {
    && m.id in L.txs && m.src in L.txs[m.id].members
    && (m.ok ==>
          var x := L.txs[m.id];
          if IsRead(x.request) then
            && Begun(x) && m.key == x.request.key
            && Genuine(L.history, m.key, Stamped(m.timestamp, m.value))
            && Covers(L.history, m.src, m.key, x.since, m.timestamp)
          else
            && (InProgress(x) || Over(x))
            && m.timestamp <= Version(L.history, x.request.key)
            && (x.stage.Stamping? ==> Covers(L.history, m.src, x.request.key, |L.history|, m.timestamp)))
    && (!m.ok ==> IsRead(L.txs[m.id].request))
  }

  ghost predicate MessageOk(cfg: Config, L: Ledger, m: Message) {
    match m.kind
    case ClientReadResponse | ClientWriteResponse =>
      m.dest == cfg.n && if m.ok then AnswerOk(cfg, L, m) else m.id in L.txs && L.txs[m.id].stage.Finished?
    case LockRequestNoTimeout => LockRequestOk(L, m)
    case LockResponse => !m.ok
    case UnlockRequest =>
      && m.id in L.txs && m.src == L.txs[m.id].coord && m.dest in L.txs[m.id].members
      && (if m.ok then L.txs[m.id].stage.Committed? else L.txs[m.id].stage.Finished?)
    case UnlockAck => true
    case GetRequest =>
      && m.id in L.txs && IsRead(L.txs[m.id].request) && Begun(L.txs[m.id]) && m.key == L.txs[m.id].request.key
      && m.src == L.txs[m.id].coord && m.dest in L.txs[m.id].members
    case GetResponse => GetResponseOk(L, m)
    case TimestampRequest =>
      && m.id in L.txs && IsWrite(L.txs[m.id].request) && (InProgress(L.txs[m.id]) || Over(L.txs[m.id]))
      && m.key == L.txs[m.id].request.key && m.src == L.txs[m.id].coord && m.dest in L.txs[m.id].members
    case PutRequest =>
      && m.id in L.txs && IsWrite(L.txs[m.id].request) && Chosen(L.txs[m.id])
      && m.key == L.txs[m.id].request.key && m.value == L.txs[m.id].request.value
      && m.timestamp == L.txs[m.id].timestamp
      && m.src == L.txs[m.id].coord && m.dest in L.txs[m.id].members
    case PutResponse =>
      && m.id in L.txs && m.src in L.txs[m.id].members
      && (m.ok ==> Chosen(L.txs[m.id]) && m.src in L.txs[m.id].staged)
    case BackgroundWriteRequest =>
      && cfg.sloppy && m.id in L.txs && L.txs[m.id].stage.Committed?
      && m.key == L.txs[m.id].request.key && m.value == L.txs[m.id].request.value
      && m.timestamp == L.txs[m.id].timestamp
      && m.src == L.txs[m.id].coord
    case BackgroundWriteResponse =>
      && cfg.sloppy && m.id in L.txs && L.txs[m.id].stage.Committed? && m.dest == L.txs[m.id].coord
      && m.key == L.txs[m.id].request.key
      && (m.ok ==> m.timestamp == L.txs[m.id].timestamp)
      && (!m.ok ==> L.txs[m.id].timestamp < m.timestamp && Recorded(L.history, m.key, Stamped(m.timestamp, m.value)))
    case _ => false
  }

  /** Messages that are delivered at most once. */
  ghost predicate OnceOk(cfg: Config, L: Ledger, m: Message) {
    && m.id in L.txs
    && (if IsClientRequest(m) then L.txs[m.id].stage == InTransit(m)
        else
          && m == Signal(m.id, m.src, L.txs[m.id].coord, LockResponse, true)
          && Begun(L.txs[m.id]) && m.src in L.txs[m.id].granted && m.src !in L.txs[m.id].answered)
  }

  // ---------- nodes ----------

  ghost predicate HasStaged(n: Node, key: Key, v: Stamped) {
    && n.uncommittedTxid > 0 && n.uncommittedKey == Some(key)
    && n.uncommittedTxid in n.store.staged && n.store.staged[n.uncommittedTxid] == (key, v)
  }

  function ValueOf(x: Tx): Stamped { Stamped(x.timestamp, x.request.value) }

  function Awaiting(members: map<int, Message>, peers: set<int>, kind: Kind): set<int>
    requires peers <= members.Keys
  {
    set q | q in peers && members[q].kind != kind
  }

  ghost predicate Waits(n: Node, peers: set<int>, kind: Kind) {
    && n.quorumMembers.Some? && peers <= n.quorumMembers.value.Keys
    && n.numWaitingNodes == |Awaiting(n.quorumMembers.value, peers, kind)| > 0
  }

  ghost predicate Coordinates(L: Ledger, p: int, n: Node) {
    && n.currentTxid in L.txs && L.txs[n.currentTxid].coord == p
    && SameRequest(n.clientRequest, L.txs[n.currentTxid].request)
    && n.quorumMembers.Some?
    && n.quorumMembers.value.Keys == L.txs[n.currentTxid].members +
         (if L.txs[n.currentTxid].stage.Reading? then {} else {p})
  }

  ghost predicate AssemblingJob(L: Ledger, p: int, n: Node) {
    && Coordinates(L, p, n)
    && var x := L.txs[n.currentTxid];
       var members := n.quorumMembers.value;
       && x.stage.Assembling? && members[p] == Marker(TimestampRequest, 0)
       && Waits(n, x.members, LockResponse)
       && (forall q :: q in x.members ==>
             && (members[q].kind.LockResponse? <==> q in x.answered)
             && (members[q].kind.LockResponse? || members[q].kind.LockRequestNoTimeout?))
  }

  ghost predicate StampingJob(L: Ledger, p: int, n: Node) {
    && Coordinates(L, p, n)
    && var x := L.txs[n.currentTxid];
       var members := n.quorumMembers.value;
       && x.stage.Stamping? && members[p] == Marker(PutRequest, 0)
       && Waits(n, x.members, GetResponse)
       && (forall q :: q in x.members ==>
             || members[q].kind.LockResponse?
             || (members[q].kind.GetResponse? && StampOk(L, q, x, members[q].timestamp)))
  }

  ghost predicate StampOk(L: Ledger, q: int, x: Tx, timestamp: nat) {
    Covers(L.history, q, x.request.key, |L.history|, timestamp) && timestamp <= Version(L.history, x.request.key)
  }

  ghost predicate PuttingJob(L: Ledger, p: int, n: Node) {
    && Coordinates(L, p, n)
    && var x := L.txs[n.currentTxid];
       var members := n.quorumMembers.value;
       && x.stage.Putting? && members[p] == Marker(UnlockRequest, x.timestamp)
       && Waits(n, x.members, PutResponse)
       && HasStaged(n, x.request.key, ValueOf(x))
       && (forall q :: q in x.members ==>
             members[q].kind.GetResponse? || (members[q].kind.PutResponse? && q in x.staged))
  }

  ghost predicate ReadingJob(L: Ledger, p: int, n: Node) {
    && Coordinates(L, p, n)
    && var x := L.txs[n.currentTxid];
       var members := n.quorumMembers.value;
       && x.stage.Reading?
       && Waits(n, x.members, GetResponse)
       && (forall q :: q in x.members ==>
             || members[q].kind.GetRequest?
             || (members[q].kind.GetResponse? && ReplyOk(L, q, x, members[q])))
  }

  ghost predicate ReplyOk(L: Ledger, q: int, x: Tx, m: Message) {
    && Genuine(L.history, x.request.key, Stamped(m.timestamp, m.value))
    && Covers(L.history, q, x.request.key, x.since, m.timestamp)
  }

  ghost predicate JobOk(L: Ledger, p: int, n: Node) {
    match n.mode
    case Idle => n.currentTxid == -1 && n.quorumMembers.None?
    case ProcessingWrite =>
      n.currentTxid in L.txs && p in L.txs[n.currentTxid].members && n.quorumMembers.None?
    case AssemblingQuorum => AssemblingJob(L, p, n)
    case CoordinatingWrite => StampingJob(L, p, n) || PuttingJob(L, p, n)
    case CoordinatingFastRead => ReadingJob(L, p, n)
  }

  predicate Busy(n: Node, t: int) {
    n.currentTxid == t && (n.mode.ProcessingWrite? || n.mode.CoordinatingWrite?)
  }

  /** A node's mode says exactly for which write it is held. */
  ghost predicate HoldsOk(L: Ledger, p: int, n: Node) {
    forall t :: t in L.txs ==> (Holds(L.txs[t], p) <==> Busy(n, t))
  }

  /** An active transaction is the one its coordinator works on. */
  ghost predicate ActiveOk(L: Ledger, p: int, n: Node) {
    forall t :: t in L.txs && L.txs[t].coord == p && Active(L.txs[t]) ==>
      n.currentTxid == t && !n.mode.Idle? && !n.mode.ProcessingWrite?
  }

  ghost predicate ReleasedOk(L: Ledger, p: int, n: Node) {
    && (forall t :: t in n.unlockTxids ==> t in L.txs)
    && (forall t :: t in L.txs ==> (p in L.txs[t].released <==> t in n.unlockTxids))
  }

  ghost predicate StoreOk(L: Ledger, n: Node) {
    forall k :: k in n.store.committed ==> Recorded(L.history, k, n.store.committed[k])
  }

  ghost predicate StagingOk(n: Node) {
    && n.store.txid >= 0 && n.uncommittedTxid >= 0
    && (forall id :: id in n.store.staged ==> 0 < id <= n.store.txid)
    && (n.uncommittedTxid > 0 <==> n.uncommittedKey.Some?)
    && (n.uncommittedTxid > 0 ==>
          && n.uncommittedTxid in n.store.staged && n.uncommittedKey.value != []
          && n.store.staged[n.uncommittedTxid].0 == n.uncommittedKey.value)
  }

  /** What a member has staged stays staged while it is locked. */
  ghost predicate PromiseOk(L: Ledger, p: int, n: Node) {
    forall t :: t in L.txs && p in L.txs[t].staged && Holds(L.txs[t], p) ==>
      HasStaged(n, L.txs[t].request.key, ValueOf(L.txs[t]))
  }

  ghost predicate HasCaughtUp(L: Ledger, p: int, n: Node, d: Decision) {
    || d.timestamp <= Read(n, d.key).timestamp
    || (d.txid in L.txs && Holds(L.txs[d.txid], p))
  }

  /** Each node of a decided write's quorum stores a value at least as new, or is still locked by it. */
  ghost predicate CoverOk(L: Ledger, p: int, n: Node) {
    forall i :: 0 <= i < |L.history| && p in L.history[i].quorum ==> HasCaughtUp(L, p, n, L.history[i])
  }

  ghost predicate QueueEntryOk(cfg: Config, L: Ledger, p: int, m: Message) {
    && m.dest == p
    && (if IsClientRequest(m) then
          && m.id in L.txs && L.txs[m.id].stage.Queued? && L.txs[m.id].coord == p
          && SameRequest(m, L.txs[m.id].request) && (IsRead(m) ==> cfg.r > 1)
        else m.kind.LockRequestNoTimeout? && LockRequestOk(L, m))
  }

  ghost predicate QueueOk(cfg: Config, L: Ledger, p: int, n: Node) {
    forall m :: m in n.lockRequests ==>
      QueueEntryOk(cfg, L, p, m) && (IsClientRequest(m) ==> multiset(n.lockRequests)[m] == 1)
  }

  ghost predicate TimersOk(L: Ledger, p: int, n: Node) {
    forall m :: m in n.timers && IsClientRequest(m) ==>
      m.id in L.txs && !L.txs[m.id].stage.InTransit? && L.txs[m.id].coord == p
  }

  ghost predicate BackgroundOk(cfg: Config, L: Ledger, p: int, n: Node) {
    && (n.background.Some? <==> cfg.sloppy)
    && (n.background.Some? ==>
          && n.background.value.id == p && n.background.value.criticalSize == cfg.n - cfg.r + 1
          && forall t :: t in n.background.value.transactions ==>
             && t in L.txs && L.txs[t].stage.Committed? && L.txs[t].coord == p
             && var e := n.background.value.transactions[t];
                && e.key == L.txs[t].request.key && e.value == L.txs[t].request.value
                && e.timestamp == L.txs[t].timestamp
                && e.numConfirmedNodes == |e.nodes|)
  }

  ghost predicate NodeOk(cfg: Config, L: Ledger, p: int, n: Node) {
    && n.id == p && 0 <= p < cfg.n && n.config == cfg && !n.exited
    && JobOk(L, p, n)
    && HoldsOk(L, p, n) && ActiveOk(L, p, n) && ReleasedOk(L, p, n)
    && StoreOk(L, n) && StagingOk(n) && PromiseOk(L, p, n) && CoverOk(L, p, n)
    && QueueOk(cfg, L, p, n) && TimersOk(L, p, n) && BackgroundOk(cfg, L, p, n)
  }

  // ---------- stability ----------

  lemma RecordedStable(h: seq<Decision>, g: seq<Decision>, key: Key, v: Stamped)
    requires Extends(h, g) && Recorded(h, key, v)
    ensures Recorded(g, key, v)
  {
    var i :| 0 <= i < |h| && h[i].key == key && h[i].timestamp == v.timestamp && h[i].value == v.value;
    assert g[i] == h[i];
  }

  lemma GenuineStable(h: seq<Decision>, g: seq<Decision>, key: Key, v: Stamped)
    requires Extends(h, g) && Genuine(h, key, v)
    ensures Genuine(g, key, v)
  {
    if v != ABSENT { RecordedStable(h, g, key, v); }
  }

  lemma CoversStable(h: seq<Decision>, g: seq<Decision>, q: int, key: Key, upto: nat, timestamp: nat)
    requires Extends(h, g) && upto <= |h| && Covers(h, q, key, upto, timestamp)
    ensures Covers(g, q, key, upto, timestamp)
  {
    forall i | 0 <= i < upto && i < |g| && g[i].key == key && q in g[i].quorum ensures g[i].timestamp <= timestamp {
      assert g[i] == h[i];
    }
  }

  lemma VersionStable(h: seq<Decision>, g: seq<Decision>, key: Key, upto: nat)
    requires Extends(h, g) && upto <= |h|
    ensures g[..upto] == h[..upto]
    ensures Version(h, key) <= Version(g, key)
  {
    assert g[..|h|] == h;
    VersionGrows(g, key, |h|);
  }

  /** While some write is in progress, no other is decided. */
  lemma HistoryFrozen(L: Ledger, L': Ledger, p: int, used: Message, t: int)
    requires Evolves(L, L', p, used) && t in L'.txs && InProgress(L'.txs[t])
    ensures L'.history == L.history
  {
    assert L'.history[..|L.history|] == L.history;
    assert L'.history[..|L'.history|] == L'.history;
  }

  lemma HoldsStable(L: Ledger, L': Ledger, p: int, used: Message, q: int, t: int)
    requires Evolves(L, L', p, used) && q != p && t in L'.txs
    ensures t in L.txs ==> (Holds(L.txs[t], q) <==> Holds(L'.txs[t], q))
    ensures t !in L.txs ==> !Holds(L'.txs[t], q)
  {
    if t in L.txs {
      assert TxEvolves(t, L.txs[t], L'.txs[t], p, used);
    } else {
      assert FreshTx(L, t, L'.txs[t]);
    }
  }

  lemma GetResponseStable(cfg: Config, L: Ledger, L': Ledger, p: int, used: Message, m: Message)
    requires LedgerOk(cfg, L) && Evolves(L, L', p, used) && GetResponseOk(L, m)
    ensures GetResponseOk(L', m)
  {
    var x, y := L.txs[m.id], L'.txs[m.id];
    assert TxEvolves(m.id, x, y, p, used) && TxOk(cfg, L.history, m.id, x);
    if m.ok {
      if IsRead(x.request) {
        GenuineStable(L.history, L'.history, m.key, Stamped(m.timestamp, m.value));
        CoversStable(L.history, L'.history, m.src, m.key, x.since, m.timestamp);
      } else {
        VersionStable(L.history, L'.history, x.request.key, |L.history|);
        if y.stage.Stamping? { HistoryFrozen(L, L', p, used, m.id); }
      }
    }
  }

  lemma AnswerStable(cfg: Config, L: Ledger, L': Ledger, p: int, used: Message, m: Message)
    requires LedgerOk(cfg, L) && Evolves(L, L', p, used) && AnswerOk(cfg, L, m)
    ensures AnswerOk(cfg, L', m)
  {
    var x, y := L.txs[m.id], L'.txs[m.id];
    assert TxEvolves(m.id, x, y, p, used) && TxOk(cfg, L.history, m.id, x);
    if m.kind.ClientReadResponse? {
      GenuineStable(L.history, L'.history, m.key, Stamped(m.timestamp, m.value));
      VersionStable(L.history, L'.history, m.key, x.since);
    }
  }

  lemma MessageStable(cfg: Config, L: Ledger, L': Ledger, p: int, used: Message, m: Message)
    requires LedgerOk(cfg, L) && Evolves(L, L', p, used) && MessageOk(cfg, L, m)
    ensures MessageOk(cfg, L', m)
  {
    if m.id in L.txs {
      assert TxEvolves(m.id, L.txs[m.id], L'.txs[m.id], p, used) && TxOk(cfg, L.history, m.id, L.txs[m.id]);
    }
    match m.kind
    case ClientReadResponse => if m.ok { AnswerStable(cfg, L, L', p, used, m); }
    case ClientWriteResponse => if m.ok { AnswerStable(cfg, L, L', p, used, m); }
    case GetResponse => GetResponseStable(cfg, L, L', p, used, m);
    case BackgroundWriteResponse =>
      if !m.ok { RecordedStable(L.history, L'.history, m.key, Stamped(m.timestamp, m.value)); }
    case _ =>
  }

  lemma OnceStable(cfg: Config, L: Ledger, L': Ledger, p: int, used: Message, m: Message)
    requires LedgerOk(cfg, L) && Evolves(L, L', p, used) && OneShot(m) && OnceOk(cfg, L, m) && m != used
    requires OneShot(used) ==> OnceOk(cfg, L, used)
    ensures OnceOk(cfg, L', m)
  {
    assert TxEvolves(m.id, L.txs[m.id], L'.txs[m.id], p, used);
  }

  lemma ReadingStable(L: Ledger, L': Ledger, p: int, q: int, n: Node)
    requires ReadingJob(L, q, n) && Extends(L.history, L'.history)
    requires n.currentTxid in L'.txs && L.txs[n.currentTxid].since <= |L.history|
    requires var x, y := L.txs[n.currentTxid], L'.txs[n.currentTxid];
             && y.stage == x.stage && y.coord == x.coord && y.request == x.request
             && y.members == x.members && y.since == x.since
    ensures ReadingJob(L', q, n)
  {
    var x, y := L.txs[n.currentTxid], L'.txs[n.currentTxid];
    hide Genuine, Covers;
    forall r | r in x.members && n.quorumMembers.value[r].kind.GetResponse?
      ensures ReplyOk(L', r, y, n.quorumMembers.value[r])
    {
      var m := n.quorumMembers.value[r];
      assert ReplyOk(L, r, x, m);
      GenuineStable(L.history, L'.history, x.request.key, Stamped(m.timestamp, m.value));
      CoversStable(L.history, L'.history, r, x.request.key, x.since, m.timestamp);
    }
  }

  lemma WritingStable(cfg: Config, L: Ledger, L': Ledger, p: int, used: Message, q: int, n: Node)
    requires Evolves(L, L', p, used) && q != p && (StampingJob(L, q, n) || PuttingJob(L, q, n))
    requires LedgerOk(cfg, L)
    ensures StampingJob(L', q, n) || PuttingJob(L', q, n)
  {
    var t := n.currentTxid;
    var x, y := L.txs[t], L'.txs[t];
    assert TxEvolves(t, x, y, p, used) && TxOk(cfg, L.history, t, x);
    assert y.stage == x.stage;
    HistoryFrozen(L, L', p, used, t);
    hide LedgerOk, Evolves, Version, Covers;
  }

  lemma AssemblingStable(L: Ledger, L': Ledger, q: int, n: Node)
    requires AssemblingJob(L, q, n) && n.currentTxid in L'.txs
    requires var x, y := L.txs[n.currentTxid], L'.txs[n.currentTxid];
             && y.stage == x.stage && y.coord == x.coord && y.request == x.request
             && y.members == x.members && y.answered == x.answered
    ensures AssemblingJob(L', q, n)
  {
    hide Awaiting;
  }

  lemma JobStable(cfg: Config, L: Ledger, L': Ledger, p: int, used: Message, q: int, n: Node)
    requires LedgerOk(cfg, L) && Evolves(L, L', p, used) && q != p && JobOk(L, q, n)
    ensures JobOk(L', q, n)
  {
    var t := n.currentTxid;
    if n.mode.CoordinatingWrite? {
      WritingStable(cfg, L, L', p, used, q, n);
      hide StampingJob, PuttingJob;
    } else if !n.mode.Idle? {
      var x, y := L.txs[t], L'.txs[t];
      assert TxEvolves(t, x, y, p, used) && TxOk(cfg, L.history, t, x);
      hide LedgerOk;
      if n.mode.CoordinatingFastRead? {
        assert y.stage == x.stage;
        ReadingStable(L, L', p, q, n);
        hide ReadingJob;
      } else if n.mode.AssemblingQuorum? {
        assert y.stage == x.stage && y.answered == x.answered;
        hide TxOk, TxEvolves;
        AssemblingStable(L, L', q, n);
        hide AssemblingJob;
      }
    }
    hide Evolves;
  }

  lemma CoverStable(cfg: Config, L: Ledger, L': Ledger, p: int, used: Message, q: int, n: Node)
    requires LedgerOk(cfg, L) && LedgerOk(cfg, L') && Evolves(L, L', p, used) && q != p && CoverOk(L, q, n)
    ensures CoverOk(L', q, n)
  {
    forall i | 0 <= i < |L'.history| && q in L'.history[i].quorum ensures HasCaughtUp(L', q, n, L'.history[i]) {
      var d := L'.history[i];
      if i < |L.history| {
        assert L.history[i] == L'.history[..|L.history|][i] == d;
        assert HasCaughtUp(L, q, n, d);
        if d.txid in L.txs { HoldsStable(L, L', p, used, q, d.txid); }
      } else {
        assert DecidedBy(L', d, p);
      }
    }
  }

  lemma PromiseStable(cfg: Config, L: Ledger, L': Ledger, p: int, used: Message, q: int, n: Node)
    requires LedgerOk(cfg, L) && Evolves(L, L', p, used) && q != p && PromiseOk(L, q, n)
    ensures PromiseOk(L', q, n)
  {
    forall t | t in L'.txs && q in L'.txs[t].staged && Holds(L'.txs[t], q)
      ensures HasStaged(n, L'.txs[t].request.key, ValueOf(L'.txs[t]))
    {
      HoldsStable(L, L', p, used, q, t);
      if t in L.txs {
        assert TxEvolves(t, L.txs[t], L'.txs[t], p, used) && TxOk(cfg, L.history, t, L.txs[t]);
      }
    }
  }

  lemma QueueStable(cfg: Config, L: Ledger, L': Ledger, p: int, used: Message, q: int, n: Node)
    requires Evolves(L, L', p, used) && q != p && QueueOk(cfg, L, q, n)
    ensures QueueOk(cfg, L', q, n)
  {
    forall m | m in n.lockRequests ensures QueueEntryOk(cfg, L', q, m) {
      assert QueueEntryOk(cfg, L, q, m);
      assert TxEvolves(m.id, L.txs[m.id], L'.txs[m.id], p, used);
    }
  }

  lemma HoldersStable(cfg: Config, L: Ledger, L': Ledger, p: int, used: Message, q: int, n: Node)
    requires Evolves(L, L', p, used) && q != p && HoldsOk(L, q, n) && (forall t :: Busy(n, t) ==> t in L.txs)
    ensures HoldsOk(L', q, n)
  {
    hide Holds, Busy;
    forall t | t in L'.txs ensures Holds(L'.txs[t], q) <==> Busy(n, t) { HoldsStable(L, L', p, used, q, t); }
    hide Evolves;
  }

  lemma TxLinksStable(L: Ledger, L': Ledger, p: int, used: Message, q: int, n: Node)
    requires Evolves(L, L', p, used) && q != p && ActiveOk(L, q, n) && ReleasedOk(L, q, n)
    ensures ActiveOk(L', q, n) && ReleasedOk(L', q, n)
  {
    forall t | t in L'.txs
      ensures L'.txs[t].coord == q && Active(L'.txs[t]) ==>
              n.currentTxid == t && !n.mode.Idle? && !n.mode.ProcessingWrite?
      ensures q in L'.txs[t].released <==> t in n.unlockTxids
    {
      if t in L.txs {
        assert TxEvolves(t, L.txs[t], L'.txs[t], p, used);
      } else {
        assert FreshTx(L, t, L'.txs[t]);
      }
    }
  }

  /** What a node remembers about writes and requests stays true. */
  lemma RecordsStable(cfg: Config, L: Ledger, L': Ledger, p: int, used: Message, q: int, n: Node)
    requires Evolves(L, L', p, used) && StoreOk(L, n) && TimersOk(L, q, n) && BackgroundOk(cfg, L, q, n)
    ensures StoreOk(L', n) && TimersOk(L', q, n) && BackgroundOk(cfg, L', q, n)
  {
    forall k | k in n.store.committed ensures Recorded(L'.history, k, n.store.committed[k]) {
      RecordedStable(L.history, L'.history, k, n.store.committed[k]);
    }
    forall m | m in n.timers && IsClientRequest(m)
      ensures m.id in L'.txs && !L'.txs[m.id].stage.InTransit? && L'.txs[m.id].coord == q
    {
      assert TxEvolves(m.id, L.txs[m.id], L'.txs[m.id], p, used);
    }
    if n.background.Some? {
      forall t | t in n.background.value.transactions
        ensures t in L'.txs && L'.txs[t].stage.Committed? && L'.txs[t].request == L.txs[t].request
        ensures L'.txs[t].coord == q && L'.txs[t].timestamp == L.txs[t].timestamp
      {
        assert TxEvolves(t, L.txs[t], L'.txs[t], p, used);
      }
    }
  }

  lemma BusyKnown(cfg: Config, L: Ledger, q: int, n: Node)
    requires NodeOk(cfg, L, q, n)
    ensures forall t :: Busy(n, t) ==> t in L.txs
    ensures HoldsOk(L, q, n) && ActiveOk(L, q, n) && ReleasedOk(L, q, n)
    ensures TimersOk(L, q, n) && BackgroundOk(cfg, L, q, n) && StoreOk(L, n)
  {
    assert JobOk(L, q, n);
    hide NodeOk, HoldsOk, ActiveOk, ReleasedOk, TimersOk, BackgroundOk, StoreOk;
  }

  lemma LedgerLinksStable(cfg: Config, L: Ledger, L': Ledger, p: int, used: Message, q: int, n: Node)
    requires LedgerOk(cfg, L) && Evolves(L, L', p, used) && q != p && NodeOk(cfg, L, q, n)
    ensures HoldsOk(L', q, n) && ActiveOk(L', q, n) && ReleasedOk(L', q, n)
    ensures TimersOk(L', q, n) && BackgroundOk(cfg, L', q, n) && StoreOk(L', n)
  {
    BusyKnown(cfg, L, q, n);
    hide NodeOk, LedgerOk, Evolves, HoldsOk, ActiveOk, ReleasedOk, TimersOk, BackgroundOk, StoreOk;
    HoldersStable(cfg, L, L', p, used, q, n);
    TxLinksStable(L, L', p, used, q, n);
    RecordsStable(cfg, L, L', p, used, q, n);
  }

  /** A step of node p keeps the invariant of every other node q. */
  lemma NodeStable(cfg: Config, L: Ledger, L': Ledger, p: int, used: Message, q: int, n: Node)
    requires LedgerOk(cfg, L) && LedgerOk(cfg, L') && Evolves(L, L', p, used) && q != p && NodeOk(cfg, L, q, n)
    ensures NodeOk(cfg, L', q, n)
  {
    JobStable(cfg, L, L', p, used, q, n);
    LedgerLinksStable(cfg, L, L', p, used, q, n);
    CoverStable(cfg, L, L', p, used, q, n);
    PromiseStable(cfg, L, L', p, used, q, n);
    QueueStable(cfg, L, L', p, used, q, n);
  }
}
