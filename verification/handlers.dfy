/** Each handler keeps the invariant: from a sound node and message, it leads to
    a sound node, sends only sound messages, and the record evolves as allowed. */
module Handlers {
  import opened Packet
  import opened Wrappers
  import opened Sets
  import opened Node
  import opened Ledgers
  import opened Invariants
  import Propagation

  ghost predicate SendOk(cfg: Config, L: Ledger, L': Ledger, used: Message, m: Message) {
    if OneShot(m) then OnceOk(cfg, L', m) && (m == used || !OnceOk(cfg, L, m)) else MessageOk(cfg, L', m)
  }

  ghost predicate ReplySound(cfg: Config, L: Ledger, L': Ledger, reply: Option<Message>) {
    && (reply.Some? ==>
          && (reply.value.kind.ClientReadResponse? || reply.value.kind.ClientWriteResponse?)
          && MessageOk(cfg, L', reply.value)
          && (reply.value.kind.ClientWriteResponse? && reply.value.ok ==>
                |L'.history| == |L.history| + 1 && L'.txs[reply.value.id].index == |L.history|))
    && (|L'.history| > |L.history| ==> reply.Some? && reply.value.ok && reply.value.kind.ClientWriteResponse?)
  }

  ghost predicate Told(t: int, p: int, q: int, out: set<Message>) {
    Signal(t, p, q, UnlockRequest, true) in out || Signal(t, p, q, UnlockRequest, false) in out
  }

  /** When a write is over, its coordinator tells every member. */
  ghost predicate MembersTold(L: Ledger, L': Ledger, p: int, out: set<Message>) {
    forall t, q :: t in L'.txs && WriteOver(L'.txs[t]) && !(t in L.txs && Over(L.txs[t])) && q in L'.txs[t].members ==>
      Told(t, p, q, out)
  }

  predicate WriteFailed(x: Tx) { IsWrite(x.request) && x.stage.Finished? }

  ghost predicate IsFailure(m: Message, t: int) { m.kind.ClientWriteResponse? && !m.ok && m.id == t }

  /** When a write is over and not committed, its client is told. */
  ghost predicate FailureTold(L: Ledger, L': Ledger, reply: Option<Message>) {
    forall t :: t in L'.txs && WriteFailed(L'.txs[t]) && !(t in L.txs && L.txs[t].stage.Finished?) ==>
      reply.Some? && IsFailure(reply.value, t)
  }

  predicate WriteOver(x: Tx) { IsWrite(x.request) && Over(x) }

  lemma NobodyToTell(L: Ledger, t: int, y: Tx, p: int, out: set<Message>)
    requires IsWrite(y.request) && Over(y) && y.members != {} ==> t in L.txs && Over(L.txs[t])
    ensures MembersTold(L, Update(L, t, y), p, out)
  {}

  lemma NoFailure(L: Ledger, t: int, y: Tx)
    requires WriteFailed(y) ==> t in L.txs && L.txs[t].stage.Finished?
    ensures FailureTold(L, Update(L, t, y), None)
  {}

  lemma FailureIsTold(L: Ledger, t: int, reply: Option<Message>)
    requires t in L.txs && (IsWrite(L.txs[t].request) ==> reply.Some? && IsFailure(reply.value, t))
    ensures FailureTold(L, Finish(L, t), reply)
  {}

  ghost predicate EffectOk(cfg: Config, L: Ledger, L': Ledger, p: int, used: Message, e: Effect) {
    && LedgerOk(cfg, L') && Evolves(L, L', p, used)
    && NodeOk(cfg, L', p, e.node)
    && (forall m :: m in e.out ==> SendOk(cfg, L, L', used, m))
    && ReplySound(cfg, L, L', e.reply) && MembersTold(L, L', p, e.out)
    && FailureTold(L, L', e.reply)
  }

  lemma IdleHasNoQuorum(cfg: Config, L: Ledger, p: int, n: Node)
    requires NodeOk(cfg, L, p, n)
    ensures n.id == p >= 0 && (n.mode.Idle? ==> n.quorumMembers.None?) && BackgroundOk(cfg, L, p, n)
  {
    assert JobOk(L, p, n);
    hide NodeOk, BackgroundOk;
  }

  lemma EffectNode(cfg: Config, L: Ledger, L': Ledger, p: int, m: Message, e: Effect)
    requires EffectOk(cfg, L, L', p, m, e)
    ensures NodeOk(cfg, L', p, e.node)
  {
    hide NodeOk, LedgerOk;
  }

  lemma NodeId(cfg: Config, L: Ledger, p: int, n: Node)
    requires NodeOk(cfg, L, p, n)
    ensures n.id == p && 0 <= p < cfg.n && n.config == cfg
  {
    assert n.id == p && 0 <= p < cfg.n && n.config == cfg;
    hide NodeOk;
  }

  lemma NodeParts(cfg: Config, L: Ledger, p: int, n: Node)
    requires NodeOk(cfg, L, p, n)
    ensures n.id == p && 0 <= p < cfg.n && n.config == cfg && !n.exited && JobOk(L, p, n)
    ensures HoldsOk(L, p, n) && ActiveOk(L, p, n) && ReleasedOk(L, p, n)
    ensures StoreOk(L, n) && StagingOk(n) && PromiseOk(L, p, n) && CoverOk(L, p, n)
    ensures QueueOk(cfg, L, p, n) && TimersOk(L, p, n) && BackgroundOk(cfg, L, p, n)
  {
    hide JobOk, HoldsOk, ActiveOk, ReleasedOk, StoreOk, StagingOk, PromiseOk, CoverOk, QueueOk, TimersOk, BackgroundOk;
  }

  lemma NodeWhole(cfg: Config, L: Ledger, p: int, n: Node)
    requires n.id == p && 0 <= p < cfg.n && n.config == cfg && !n.exited && JobOk(L, p, n)
    requires HoldsOk(L, p, n) && ActiveOk(L, p, n) && ReleasedOk(L, p, n)
    requires StoreOk(L, n) && StagingOk(n) && PromiseOk(L, p, n) && CoverOk(L, p, n)
    requires QueueOk(cfg, L, p, n) && TimersOk(L, p, n) && BackgroundOk(cfg, L, p, n)
    ensures NodeOk(cfg, L, p, n)
  {
    hide JobOk, HoldsOk, ActiveOk, ReleasedOk, StoreOk, StagingOk, PromiseOk, CoverOk, QueueOk, TimersOk, BackgroundOk;
  }

  /** A step that decides nothing and answers no client. */
  lemma QuietEffect(cfg: Config, L: Ledger, L': Ledger, p: int, used: Message, e: Effect)
    requires LedgerOk(cfg, L') && Evolves(L, L', p, used) && NodeOk(cfg, L', p, e.node)
    requires L'.history == L.history && e.reply.None?
    requires forall m :: m in e.out ==> !OneShot(m) && MessageOk(cfg, L', m)
    requires MembersTold(L, L', p, e.out) && FailureTold(L, L', None)
    ensures EffectOk(cfg, L, L', p, used, e)
  {}

  lemma NoEffect(cfg: Config, L: Ledger, p: int, n: Node, used: Message)
    requires LedgerOk(cfg, L) && NodeOk(cfg, L, p, n)
    ensures EffectOk(cfg, L, L, p, used, Silent(n))
  {
    hide NodeOk, LedgerOk;
    StutterEvolves(L, p, used);
  }

  // ---------- what a node's own store covers ----------

  /** A node that no decided write still locks covers all decided writes it took part in. */
  lemma StoreCovers(cfg: Config, L: Ledger, p: int, n: Node, key: Key)
    requires LedgerOk(cfg, L) && NodeOk(cfg, L, p, n)
    requires forall t :: t in L.txs && L.txs[t].stage.Committed? ==> !Holds(L.txs[t], p)
    ensures Covers(L.history, p, key, |L.history|, Read(n, key).timestamp)
    ensures Genuine(L.history, key, Read(n, key))
  {
    forall i | 0 <= i < |L.history| && L.history[i].key == key && p in L.history[i].quorum
      ensures L.history[i].timestamp <= Read(n, key).timestamp
    {
      assert DecisionOk(L, i) && HasCaughtUp(L, p, n, L.history[i]);
    }
  }

  /** A node with nothing staged is locked by no decided write. */
  lemma UnstagedCovers(cfg: Config, L: Ledger, p: int, n: Node, key: Key)
    requires LedgerOk(cfg, L) && NodeOk(cfg, L, p, n) && n.uncommittedKey.None?
    ensures Covers(L.history, p, key, |L.history|, Read(n, key).timestamp)
    ensures Genuine(L.history, key, Read(n, key))
  {
    forall t | t in L.txs && L.txs[t].stage.Committed? ensures !Holds(L.txs[t], p) {
      assert TxOk(cfg, L.history, t, L.txs[t]);
      assert p in L.txs[t].staged && Holds(L.txs[t], p) ==> HasStaged(n, L.txs[t].request.key, ValueOf(L.txs[t]));
    }
    StoreCovers(cfg, L, p, n, key);
  }

  lemma CoversFewer(h: seq<Decision>, q: int, key: Key, upto: nat, timestamp: nat)
    requires upto <= |h| && Covers(h, q, key, |h|, timestamp)
    ensures Covers(h, q, key, upto, timestamp)
  {}

  /** Replies from enough nodes are together at least as new as the last write decided before. */
  lemma QuorumCovers(cfg: Config, L: Ledger, readers: set<int>, key: Key, upto: nat, timestamp: nat)
    requires LedgerOk(cfg, L) && upto <= |L.history|
    requires InRange(readers, cfg.n) && |readers| + cfg.w > cfg.n
    requires forall q :: q in readers ==> Covers(L.history, q, key, upto, timestamp)
    ensures Version(L.history[..upto], key) <= timestamp
  {
    var h := L.history[..upto];
    if Version(h, key) > 0 {
      forall i | 0 <= i < |h| ensures h[i].timestamp == Version(h[..i], h[i].key) + 1 {
        assert h[..i] == L.history[..i];
      }
      var i := LastWrite(h, key);
      assert h[i] == L.history[i] && DecisionOk(L, i);
      var t := L.history[i].txid;
      assert TxOk(cfg, L.history, t, L.txs[t]);
      QuorumSize(cfg, L.history, t, L.txs[t]);
      var q := Overlap(readers, L.history[i].quorum, cfg.n);
    }
  }

  // ---------- what the acting node keeps for free ----------

  lemma ActorLinks(cfg: Config, L: Ledger, L': Ledger, p: int, used: Message, n: Node)
    requires Evolves(L, L', p, used) && StoreOk(L, n) && TimersOk(L, p, n) && BackgroundOk(cfg, L, p, n)
    ensures StoreOk(L', n) && TimersOk(L', p, n) && BackgroundOk(cfg, L', p, n)
  {
    RecordsStable(cfg, L, L', p, used, p, n);
    hide Evolves, StoreOk, TimersOk, BackgroundOk;
  }

  /** The queue stays sound if no queued request changes its stage. */
  lemma ActorQueue(cfg: Config, L: Ledger, L': Ledger, p: int, used: Message, n: Node)
    requires Evolves(L, L', p, used) && QueueOk(cfg, L, p, n)
    requires forall t :: t in L.txs && L.txs[t].stage.Queued? ==> L'.txs[t].stage.Queued?
    ensures QueueOk(cfg, L', p, n)
  {
    forall m | m in n.lockRequests ensures QueueEntryOk(cfg, L', p, m) {
      assert QueueEntryOk(cfg, L, p, m);
      assert TxEvolves(m.id, L.txs[m.id], L'.txs[m.id], p, used);
    }
  }

  lemma ActorCover(L: Ledger, L': Ledger, p: int, n: Node, n': Node)
    requires CoverOk(L, p, n) && L'.history == L.history
    requires forall t :: t in L.txs && Holds(L.txs[t], p) ==> t in L'.txs && Holds(L'.txs[t], p)
    requires n'.store.committed == n.store.committed
    ensures CoverOk(L', p, n')
  {
    forall i | 0 <= i < |L'.history| && p in L'.history[i].quorum ensures HasCaughtUp(L', p, n', L'.history[i]) {
      assert HasCaughtUp(L, p, n, L.history[i]);
    }
  }

  lemma SameParts(cfg: Config, L: Ledger, p: int, n: Node, n': Node)
    requires StoreOk(L, n) && TimersOk(L, p, n) && BackgroundOk(cfg, L, p, n) && QueueOk(cfg, L, p, n)
    requires n'.store.committed == n.store.committed && n'.timers == n.timers
    requires n'.background == n.background && n'.lockRequests == n.lockRequests
    ensures StoreOk(L, n') && TimersOk(L, p, n') && BackgroundOk(cfg, L, p, n') && QueueOk(cfg, L, p, n')
  {}

  /** Changing a transaction in ways that do not concern p. */
  ghost predicate NotSeenBy(x: Tx, y: Tx, p: int) {
    && (Holds(x, p) <==> Holds(y, p)) && (p in x.staged <==> p in y.staged) && (p in x.released <==> p in y.released)
    && (y.coord == p && Active(y) ==> x.coord == p && Active(x))
  }

  lemma UnseenLinks(L: Ledger, t: int, y: Tx, p: int, n: Node)
    requires t in L.txs && NotSeenBy(L.txs[t], y, p) && HoldsOk(L, p, n) && ActiveOk(L, p, n) && ReleasedOk(L, p, n)
    ensures HoldsOk(Update(L, t, y), p, n) && ActiveOk(Update(L, t, y), p, n) && ReleasedOk(Update(L, t, y), p, n)
  {
    hide Holds, Active, Busy;
  }

  lemma UpdateUnseen(cfg: Config, L: Ledger, t: int, y: Tx, p: int, used: Message, n: Node)
    requires LedgerOk(cfg, L) && t in L.txs && TxEvolves(t, L.txs[t], y, p, used) && NotSeenBy(L.txs[t], y, p)
    requires HoldsOk(L, p, n) && ActiveOk(L, p, n) && ReleasedOk(L, p, n) && PromiseOk(L, p, n)
    ensures HoldsOk(Update(L, t, y), p, n) && ActiveOk(Update(L, t, y), p, n) && ReleasedOk(Update(L, t, y), p, n)
    ensures PromiseOk(Update(L, t, y), p, n)
  {
    assert TxOk(cfg, L.history, t, L.txs[t]);
    hide LedgerOk, TxOk, TxEvolves, NotSeenBy, HoldsOk, ActiveOk, ReleasedOk, PromiseOk;
    UnseenLinks(L, t, y, p, n);
    UnseenPromise(cfg, L, t, y, p, used, n);
  }

  lemma UnseenPromise(cfg: Config, L: Ledger, t: int, y: Tx, p: int, used: Message, n: Node)
    requires t in L.txs && TxOk(cfg, L.history, t, L.txs[t]) && TxEvolves(t, L.txs[t], y, p, used)
    requires NotSeenBy(L.txs[t], y, p) && PromiseOk(L, p, n)
    ensures PromiseOk(Update(L, t, y), p, n)
  {
    hide HasStaged;
  }

  lemma ActorUpdate(cfg: Config, L: Ledger, t: int, y: Tx, p: int, used: Message, n: Node)
    requires LedgerOk(cfg, L) && t in L.txs && Evolves(L, Update(L, t, y), p, used)
    requires NodeOk(cfg, L, p, n) && NotSeenBy(L.txs[t], y, p)
    ensures HoldsOk(Update(L, t, y), p, n) && ActiveOk(Update(L, t, y), p, n) && ReleasedOk(Update(L, t, y), p, n)
    ensures PromiseOk(Update(L, t, y), p, n) && CoverOk(Update(L, t, y), p, n)
    ensures StoreOk(Update(L, t, y), n) && TimersOk(Update(L, t, y), p, n) && BackgroundOk(cfg, Update(L, t, y), p, n)
  {
    var L' := Update(L, t, y);
    assert TxEvolves(t, L.txs[t], L'.txs[t], p, used);
    hide NodeOk, LedgerOk, Evolves, TxEvolves, HoldsOk, ActiveOk;
    hide ReleasedOk, PromiseOk, CoverOk, StoreOk, TimersOk, BackgroundOk;
    NodeParts(cfg, L, p, n);
    UpdateUnseen(cfg, L, t, y, p, used, n);
    ActorLinks(cfg, L, L', p, used, n);
    ActorCover(L, L', p, n, n);
  }

  lemma JobElsewhere(cfg: Config, L: Ledger, t: int, y: Tx, p: int, n: Node)
    requires LedgerOk(cfg, L) && JobOk(L, p, n) && n.currentTxid != t
    ensures JobOk(Update(L, t, y), p, n)
  {}

  // ---------- requests that join the queue ----------

  /** Most invariants do not look at the queue or its timers. */
  lemma QueueChange(cfg: Config, L: Ledger, p: int, n: Node, n': Node)
    requires n' == n.(lockRequests := n'.lockRequests, timers := n'.timers)
    requires n.id == p && 0 <= p < cfg.n && n.config == cfg && !n.exited && JobOk(L, p, n)
    requires HoldsOk(L, p, n) && ActiveOk(L, p, n) && ReleasedOk(L, p, n)
    requires StoreOk(L, n) && StagingOk(n) && PromiseOk(L, p, n) && CoverOk(L, p, n) && BackgroundOk(cfg, L, p, n)
    requires QueueOk(cfg, L, p, n') && TimersOk(L, p, n')
    ensures NodeOk(cfg, L, p, n')
  {
    assert CoverOk(L, p, n') by { ActorCover(L, L, p, n, n'); }
  }

  lemma EnqueueLockQueue(cfg: Config, L: Ledger, p: int, n: Node, m: Message)
    requires NodeOk(cfg, L, p, n) && m.kind.LockRequestNoTimeout? && m.dest == p && LockRequestOk(L, m)
    ensures QueueOk(cfg, L, p, Enqueue(n, m).node) && TimersOk(L, p, Enqueue(n, m).node)
  {
    var n' := Enqueue(n, m).node;
    assert TimersOk(L, p, n) && QueueOk(cfg, L, p, n);
    hide NodeOk;
    forall x | x in n'.lockRequests
      ensures QueueEntryOk(cfg, L, p, x) && (IsClientRequest(x) ==> multiset(n'.lockRequests)[x] == 1)
    {
      if x in n.lockRequests { assert QueueEntryOk(cfg, L, p, x); }
    }
  }

  lemma EnqueueLockNode(cfg: Config, L: Ledger, p: int, n: Node, m: Message)
    requires NodeOk(cfg, L, p, n) && m.kind.LockRequestNoTimeout? && m.dest == p && LockRequestOk(L, m)
    ensures NodeOk(cfg, L, p, Enqueue(n, m).node)
  {
    EnqueueLockQueue(cfg, L, p, n, m);
    QueueChange(cfg, L, p, n, Enqueue(n, m).node);
    hide NodeOk;
  }

  lemma EnqueueLockRequest(cfg: Config, L: Ledger, p: int, n: Node, m: Message) returns (L': Ledger)
    requires ValidConfig(cfg) && LedgerOk(cfg, L) && NodeOk(cfg, L, p, n)
    requires m.kind.LockRequestNoTimeout? && m.dest == p && MessageOk(cfg, L, m)
    ensures EffectOk(cfg, L, L', p, m, Enqueue(n, m))
  {
    hide NodeOk, LedgerOk, EffectOk;
    L' := L;
    EnqueueLockNode(cfg, L, p, n, m);
    NoEffect(cfg, L, p, Enqueue(n, m).node, m);
  }

  lemma EnqueueQueue(cfg: Config, L: Ledger, p: int, n: Node, m: Message)
    requires LedgerOk(cfg, L) && NodeOk(cfg, L, p, n) && 0 <= p < cfg.n
    requires IsClientRequest(m) && m.dest == p && OnceOk(cfg, L, m) && (IsRead(m) ==> cfg.r > 1)
    ensures QueueOk(cfg, Accept(L, m, p), p, Enqueue(n, m).node)
  {
    var L', n' := Accept(L, m, p), Enqueue(n, m).node;
    AcceptOk(cfg, L, m, p);
    assert TxOk(cfg, L.history, m.id, L.txs[m.id]);
    ActorQueue(cfg, L, L', p, m, n);
    assert m !in n.lockRequests by { assert m in n.lockRequests ==> QueueEntryOk(cfg, L, p, m); }
    forall x | x in n'.lockRequests
      ensures QueueEntryOk(cfg, L', p, x) && (IsClientRequest(x) ==> multiset(n'.lockRequests)[x] == 1)
    {
      if x in n.lockRequests { assert QueueEntryOk(cfg, L', p, x); }
    }
  }

  /** A request in transit concerns no node. */
  lemma TransitUnseen(cfg: Config, L: Ledger, p: int, n: Node, m: Message, y: Tx)
    requires LedgerOk(cfg, L) && NodeOk(cfg, L, p, n) && IsClientRequest(m) && OnceOk(cfg, L, m)
    requires y == L.txs[m.id].(stage := y.stage, coord := y.coord) && (y.stage.Queued? || y.stage.InTransit?)
    ensures NotSeenBy(L.txs[m.id], y, p) && n.currentTxid != m.id
  {
    assert TxOk(cfg, L.history, m.id, L.txs[m.id]);
    hide NodeOk, LedgerOk;
  }

  lemma EnqueueNode(cfg: Config, L: Ledger, p: int, n: Node, m: Message)
    requires ValidConfig(cfg) && LedgerOk(cfg, L) && NodeOk(cfg, L, p, n)
    requires IsClientRequest(m) && m.dest == p && OnceOk(cfg, L, m) && (IsRead(m) ==> cfg.r > 1)
    ensures NodeOk(cfg, Accept(L, m, p), p, Enqueue(n, m).node)
    ensures LedgerOk(cfg, Accept(L, m, p)) && Evolves(L, Accept(L, m, p), p, m)
  {
    hide NodeOk, LedgerOk, Evolves, NotSeenBy, TimersOk;
    hide JobOk, HoldsOk, ActiveOk, ReleasedOk, StoreOk, StagingOk, PromiseOk, CoverOk, QueueOk, BackgroundOk;
    var L' := Accept(L, m, p);
    NodeParts(cfg, L, p, n);
    AcceptOk(cfg, L, m, p);
    TransitUnseen(cfg, L, p, n, m, L'.txs[m.id]);
    ActorUpdate(cfg, L, m.id, L'.txs[m.id], p, m, n);
    JobElsewhere(cfg, L, m.id, L'.txs[m.id], p, n);
    EnqueueQueue(cfg, L, p, n, m);
    EnqueueTimers(L', p, n, m);
    QueueChange(cfg, L', p, n, Enqueue(n, m).node);
  }

  lemma EnqueueTimers(L: Ledger, p: int, n: Node, m: Message)
    requires TimersOk(L, p, n) && m.id in L.txs && L.txs[m.id].stage.Queued? && L.txs[m.id].coord == p
    ensures TimersOk(L, p, Enqueue(n, m).node)
  {}

  lemma EnqueueClientRequest(cfg: Config, L: Ledger, p: int, n: Node, m: Message) returns (L': Ledger)
    requires ValidConfig(cfg) && LedgerOk(cfg, L) && NodeOk(cfg, L, p, n)
    requires IsClientRequest(m) && m.dest == p && OnceOk(cfg, L, m) && (IsRead(m) ==> cfg.r > 1)
    ensures EffectOk(cfg, L, L', p, m, Enqueue(n, m))
  {
    hide NodeOk, LedgerOk, Evolves;
    L' := Accept(L, m, p);
    EnqueueNode(cfg, L, p, n, m);
    QuietEffect(cfg, L, L', p, m, Enqueue(n, m));
  }

  lemma ForwardNode(cfg: Config, L: Ledger, p: int, n: Node, m: Message, target: int)
    requires ValidConfig(cfg) && LedgerOk(cfg, L) && NodeOk(cfg, L, p, n)
    requires IsClientRequest(m) && OnceOk(cfg, L, m)
    ensures NodeOk(cfg, PassOn(L, m, target), p, n)
    ensures LedgerOk(cfg, PassOn(L, m, target)) && Evolves(L, PassOn(L, m, target), p, m)
  {
    hide NodeOk, LedgerOk, Evolves, NotSeenBy, TimersOk;
    hide JobOk, HoldsOk, ActiveOk, ReleasedOk, StoreOk, StagingOk, PromiseOk, CoverOk, QueueOk, BackgroundOk;
    var L' := PassOn(L, m, target);
    NodeParts(cfg, L, p, n);
    PassOnOk(cfg, L, m, target, p);
    TransitUnseen(cfg, L, p, n, m, L'.txs[m.id]);
    ActorUpdate(cfg, L, m.id, L'.txs[m.id], p, m, n);
    JobElsewhere(cfg, L, m.id, L'.txs[m.id], p, n);
    ActorQueue(cfg, L, L', p, m, n);
    NodeWhole(cfg, L', p, n);
  }

  lemma ForwardClientRequest(cfg: Config, L: Ledger, p: int, n: Node, m: Message, target: int) returns (L': Ledger)
    requires ValidConfig(cfg) && LedgerOk(cfg, L) && NodeOk(cfg, L, p, n)
    requires IsClientRequest(m) && OnceOk(cfg, L, m)
    ensures EffectOk(cfg, L, L', p, m, Effect(n, {m.(dest := target)}, None))
  {
    hide NodeOk, LedgerOk, Evolves;
    L' := PassOn(L, m, target);
    ForwardNode(cfg, L, p, n, m, target);
  }

  lemma LocalRead(cfg: Config, L: Ledger, p: int, n: Node, m: Message) returns (L': Ledger)
    requires ValidConfig(cfg) && LedgerOk(cfg, L) && NodeOk(cfg, L, p, n)
    requires IsRead(m) && OnceOk(cfg, L, m) && cfg.r == 1
    ensures EffectOk(cfg, L, L', p, m, ProcessLocalRead(n, m))
  {
    L' := L;
    StutterEvolves(L, p, m);
    var x := L.txs[m.id];
    assert TxOk(cfg, L.history, m.id, x);
    if n.uncommittedKey.None? {
      UnstagedCovers(cfg, L, p, n, m.key);
      if StrictConfig(cfg) {
        CoversFewer(L.history, p, m.key, x.since, Read(n, m.key).timestamp);
        QuorumCovers(cfg, L, {p}, m.key, x.since, Read(n, m.key).timestamp);
      }
    }
  }

  // ---------- giving up ----------

  /** n is node n0 while it works on its transaction: replies counted, request annotated. */
  ghost predicate Underway(L: Ledger, p: int, n0: Node, n: Node) {
    && (n0.mode.AssemblingQuorum? || n0.mode.CoordinatingWrite? || n0.mode.CoordinatingFastRead?)
    && (n.mode == n0.mode || (n0.mode.AssemblingQuorum? && n.mode.CoordinatingWrite?))
    && n.quorumMembers.Some? && n0.currentTxid in L.txs && Peers(n) == L.txs[n0.currentTxid].members
    && n.clientRequest.id == n0.currentTxid && n.clientRequest.src == L.txs[n0.currentTxid].request.src
    && n == n0.(mode := n.mode, quorumMembers := n.quorumMembers, numWaitingNodes := n.numWaitingNodes,
                clientRequest := n.clientRequest)
  }

  lemma JobUnderway(cfg: Config, L: Ledger, p: int, n: Node)
    requires LedgerOk(cfg, L) && NodeOk(cfg, L, p, n) && !n.mode.Idle? && !n.mode.ProcessingWrite?
    ensures Underway(L, p, n, n) && Active(L.txs[n.currentTxid]) && L.txs[n.currentTxid].coord == p
    ensures L.txs[n.currentTxid].request.src == cfg.n
  {
    assert JobOk(L, p, n) && n.id == p;
    assert n.currentTxid in L.txs ==> TxOk(cfg, L.history, n.currentTxid, L.txs[n.currentTxid]);
    hide NodeOk, LedgerOk, JobOk, TxOk;
    JobIsUnderway(cfg, L, p, n);
  }

  lemma JobCoordinates(L: Ledger, p: int, n: Node)
    requires JobOk(L, p, n) && !n.mode.Idle? && !n.mode.ProcessingWrite?
    ensures Coordinates(L, p, n) && Active(L.txs[n.currentTxid])
  {
    hide Coordinates, Waits, StampOk, ReplyOk, HasStaged;
  }

  lemma JobIsUnderway(cfg: Config, L: Ledger, p: int, n: Node)
    requires JobOk(L, p, n) && n.id == p && !n.mode.Idle? && !n.mode.ProcessingWrite?
    requires n.currentTxid in L.txs ==> TxOk(cfg, L.history, n.currentTxid, L.txs[n.currentTxid])
    ensures Underway(L, p, n, n) && Active(L.txs[n.currentTxid]) && L.txs[n.currentTxid].coord == p
    ensures L.txs[n.currentTxid].request.src == cfg.n
  {
    JobCoordinates(L, p, n);
    hide JobOk;
    var x := L.txs[n.currentTxid];
    assert x.coord !in x.members;
    assert n.quorumMembers.value.Keys - {p} == x.members;
  }

  /** Once its coordinator is idle again, nothing holds the node. */
  /** A node that has given up holds nothing and coordinates nothing. */
  lemma NothingHeld(cfg: Config, L: Ledger, t: int, y: Tx, p: int, n: Node)
    requires LedgerOk(cfg, L) && t in L.txs && n.currentTxid == t && !n.mode.Idle? && !n.mode.ProcessingWrite?
    requires HoldsOk(L, p, n) && ActiveOk(L, p, n) && y == L.txs[t].(stage := Finished)
    requires n.mode.CoordinatingWrite? ==> L.txs[t].coord == p
    ensures var L' := Update(L, t, y);
            forall u :: u in L'.txs ==> !Holds(L'.txs[u], p) && (L'.txs[u].coord == p ==> !Active(L'.txs[u]))
  {
    var L' := Update(L, t, y);
    assert TxOk(cfg, L.history, t, L.txs[t]);
    hide LedgerOk;
    forall u | u in L'.txs ensures !Holds(L'.txs[u], p) && (L'.txs[u].coord == p ==> !Active(L'.txs[u])) {
      assert Holds(L.txs[u], p) <==> Busy(n, u);
    }
  }

  lemma IdleLinks(cfg: Config, L: Ledger, t: int, y: Tx, p: int, n: Node, n': Node)
    requires LedgerOk(cfg, L) && NodeOk(cfg, L, p, n) && t in L.txs && n.currentTxid == t
    requires !n.mode.Idle? && !n.mode.ProcessingWrite?
    requires y == L.txs[t].(stage := Finished)
    requires n'.mode.Idle? && n'.unlockTxids == n.unlockTxids && n'.store.committed == n.store.committed
    ensures HoldsOk(Update(L, t, y), p, n') && ActiveOk(Update(L, t, y), p, n') && ReleasedOk(Update(L, t, y), p, n')
    ensures PromiseOk(Update(L, t, y), p, n') && CoverOk(Update(L, t, y), p, n')
  {
    var L' := Update(L, t, y);
    JobUnderway(cfg, L, p, n);
    NodeParts(cfg, L, p, n);
    hide NodeOk, JobOk, StoreOk, StagingOk, QueueOk, TimersOk, BackgroundOk;
    NothingHeld(cfg, L, t, y, p, n);
    forall i | 0 <= i < |L'.history| && p in L'.history[i].quorum ensures HasCaughtUp(L', p, n', L'.history[i]) {
      StillCaughtUp(cfg, L, t, y, p, n, n', i);
    }
    hide LedgerOk, HasCaughtUp, Holds, Active, HasStaged, PromiseOk;
    assert PromiseOk(L', p, n') by { NothingPromised(L', p, n'); }
  }

  lemma NothingPromised(L: Ledger, p: int, n: Node)
    requires forall u :: u in L.txs ==> !Holds(L.txs[u], p)
    ensures PromiseOk(L, p, n)
  {}

  lemma StillCaughtUp(cfg: Config, L: Ledger, t: int, y: Tx, p: int, n: Node, n': Node, i: nat)
    requires LedgerOk(cfg, L) && CoverOk(L, p, n) && t in L.txs && !L.txs[t].stage.Committed?
    requires y == L.txs[t].(stage := Finished) && n'.store.committed == n.store.committed
    requires i < |L.history| && p in L.history[i].quorum
    ensures HasCaughtUp(Update(L, t, y), p, n', L.history[i])
  {
    assert HasCaughtUp(L, p, n, L.history[i]) && DecisionOk(L, i);
    hide LedgerOk, CoverOk;
  }

  lemma FinishQueue(cfg: Config, L: Ledger, t: int, p: int, used: Message, n: Node)
    requires LedgerOk(cfg, L) && t in L.txs && Active(L.txs[t]) && L.txs[t].coord == p && QueueOk(cfg, L, p, n)
    ensures QueueOk(cfg, Finish(L, t), p, n)
  {
    FinishOk(cfg, L, t, used);
    ActorQueue(cfg, L, Finish(L, t), L.txs[t].coord, used, n);
  }

  lemma IdleRest(cfg: Config, L: Ledger, L': Ledger, p: int, n: Node, n': Node, used: Message)
    requires NodeOk(cfg, L, p, n) && Evolves(L, L', p, used)
    requires n'.store.committed == n.store.committed && n'.timers == n.timers && n'.background == n.background
    ensures StoreOk(L', n') && TimersOk(L', p, n') && BackgroundOk(cfg, L', p, n')
  {
    ActorLinks(cfg, L, L', p, used, n);
    assert StoreOk(L', n') && TimersOk(L', p, n') && BackgroundOk(cfg, L', p, n');
    hide NodeOk, Evolves;
  }

  /** A coordinator that returns to idle leaves its transaction undecided. */
  lemma IdleNode(cfg: Config, L: Ledger, p: int, n: Node, n': Node, used: Message)
    requires LedgerOk(cfg, L) && NodeOk(cfg, L, p, n) && !n.mode.Idle? && !n.mode.ProcessingWrite?
    requires n' == n.(mode := Idle, currentTxid := -1, quorumMembers := None, numWaitingNodes := n'.numWaitingNodes,
                      clientRequest := n'.clientRequest, disabled := n'.disabled, store := n'.store,
                      uncommittedTxid := n'.uncommittedTxid, uncommittedKey := n'.uncommittedKey)
    requires n'.store.committed == n.store.committed && StagingOk(n')
    ensures NodeOk(cfg, Finish(L, n.currentTxid), p, n')
    ensures LedgerOk(cfg, Finish(L, n.currentTxid)) && Evolves(L, Finish(L, n.currentTxid), p, used)
  {
    var t := n.currentTxid;
    JobUnderway(cfg, L, p, n);
    var L' := Finish(L, t);
    FinishOk(cfg, L, t, used);
    IdleRest(cfg, L, L', p, n, n', used);
    FinishQueue(cfg, L, t, p, used, n);
    assert QueueOk(cfg, L', p, n') && JobOk(L', p, n');
    assert n'.id == p && 0 <= p < cfg.n && n'.config == cfg && !n'.exited;
    hide HoldsOk, ActiveOk, ReleasedOk, PromiseOk, CoverOk, StoreOk, TimersOk, BackgroundOk, StagingOk, QueueOk, JobOk;
    hide LedgerOk, Evolves;
    IdleLinks(cfg, L, t, L'.txs[t], p, n, n');
  }

  lemma RollbackStaging(n: Node, n': Node)
    requires StagingOk(n) && n' == Abort(n).node
    ensures StagingOk(n') && n'.store.committed == n.store.committed
  {}

  lemma NodeStaging(cfg: Config, L: Ledger, p: int, n: Node)
    requires NodeOk(cfg, L, p, n)
    ensures StagingOk(n)
  {
    assert StagingOk(n);
    hide NodeOk;
  }

  lemma AbortNode(cfg: Config, L: Ledger, p: int, n0: Node, n: Node, used: Message)
    requires LedgerOk(cfg, L) && NodeOk(cfg, L, p, n0) && Underway(L, p, n0, n)
    ensures NodeOk(cfg, Finish(L, n0.currentTxid), p, Abort(n).node)
  {
    hide NodeOk, LedgerOk, Evolves;
    NodeStaging(cfg, L, p, n0);
    RollbackStaging(n, Abort(n).node);
    IdleNode(cfg, L, p, n0, Abort(n).node, used);
  }

  lemma AbortOut(n: Node)
    requires !n.mode.Idle? && !n.mode.ProcessingWrite? && n.quorumMembers.Some?
    ensures Abort(n).out == Unlocks(n, n.clientRequest.id, false)
  {}

  lemma AbortMessages(cfg: Config, L: Ledger, p: int, n0: Node, n: Node)
    requires LedgerOk(cfg, L) && NodeOk(cfg, L, p, n0) && Underway(L, p, n0, n) && n0.currentTxid in L.txs
    ensures forall m :: m in Abort(n).out ==> !OneShot(m) && MessageOk(cfg, Finish(L, n0.currentTxid), m)
  {
    NodeId(cfg, L, p, n0);
    JobUnderway(cfg, L, p, n0);
    hide NodeOk, LedgerOk;
    AbortOut(n);
    hide Abort;
    var t := n0.currentTxid;
    assert Finish(L, t).txs[t].stage.Finished? && Finish(L, t).txs[t].coord == p && n.id == p;
    forall m | m in Abort(n).out ensures !OneShot(m) && MessageOk(cfg, Finish(L, t), m) {
      assert m == Signal(t, p, m.dest, UnlockRequest, false) && m.dest in Peers(n);
    }
  }

  lemma AbortReply(cfg: Config, L: Ledger, p: int, n0: Node, n: Node)
    requires LedgerOk(cfg, L) && NodeOk(cfg, L, p, n0) && Underway(L, p, n0, n) && n0.currentTxid in L.txs
    ensures ReplySound(cfg, L, Finish(L, n0.currentTxid), Abort(n).reply)
  {
    hide NodeOk, LedgerOk;
    JobUnderway(cfg, L, p, n0);
  }

  lemma AbortAnswers(cfg: Config, L: Ledger, p: int, n0: Node, n: Node)
    requires LedgerOk(cfg, L) && NodeOk(cfg, L, p, n0) && Underway(L, p, n0, n) && n0.currentTxid in L.txs
    ensures FailureTold(L, Finish(L, n0.currentTxid), Abort(n).reply)
  {
    WritesAssemble(cfg, L, p, n0);
    hide NodeOk, LedgerOk;
    FailureIsTold(L, n0.currentTxid, Abort(n).reply);
  }

  lemma WritesAssemble(cfg: Config, L: Ledger, p: int, n: Node)
    requires LedgerOk(cfg, L) && NodeOk(cfg, L, p, n) && !n.mode.Idle? && !n.mode.ProcessingWrite?
    ensures n.currentTxid in L.txs
    ensures IsWrite(L.txs[n.currentTxid].request) <==> n.mode.AssemblingQuorum? || n.mode.CoordinatingWrite?
  {
    assert JobOk(L, p, n) && TxOk(cfg, L.history, n.currentTxid, L.txs[n.currentTxid]);
    hide NodeOk, LedgerOk;
  }

  lemma AbortTells(cfg: Config, L: Ledger, p: int, n0: Node, n: Node)
    requires LedgerOk(cfg, L) && NodeOk(cfg, L, p, n0) && Underway(L, p, n0, n) && n0.currentTxid in L.txs
    ensures MembersTold(L, Finish(L, n0.currentTxid), p, Abort(n).out)
  {
    NodeId(cfg, L, p, n0);
    hide NodeOk, LedgerOk;
    var t := n0.currentTxid;
    forall q | q in L.txs[t].members ensures Told(t, p, q, Abort(n).out) {
      assert Signal(t, p, q, UnlockRequest, false) in Unlocks(n, t, false);
    }
  }

  lemma AbortOk(cfg: Config, L: Ledger, p: int, n0: Node, n: Node, used: Message) returns (L': Ledger)
    requires LedgerOk(cfg, L) && NodeOk(cfg, L, p, n0) && Underway(L, p, n0, n)
    ensures EffectOk(cfg, L, L', p, used, Abort(n))
  {
    hide NodeOk, LedgerOk, Evolves, MessageOk, ReplySound, MembersTold, FailureTold;
    var t := n0.currentTxid;
    L' := Finish(L, t);
    AbortTells(cfg, L, p, n0, n);
    AbortAnswers(cfg, L, p, n0, n);
    AbortNode(cfg, L, p, n0, n, used);
    AbortMessages(cfg, L, p, n0, n);
    AbortReply(cfg, L, p, n0, n);
    JobUnderway(cfg, L, p, n0);
    hide Abort;
    FinishOk(cfg, L, t, used);
  }

  /** A read has no members to tell. */
  lemma ReadTellsNobody(cfg: Config, L: Ledger, p: int, n: Node, out: set<Message>)
    requires LedgerOk(cfg, L) && NodeOk(cfg, L, p, n) && n.mode.CoordinatingFastRead?
    ensures n.currentTxid in L.txs && MembersTold(L, Finish(L, n.currentTxid), p, out)
    ensures FailureTold(L, Finish(L, n.currentTxid), None)
  {
    assert ReadingJob(L, p, n) && TxOk(cfg, L.history, n.currentTxid, L.txs[n.currentTxid]);
    hide NodeOk, LedgerOk;
    NobodyToTell(L, n.currentTxid, Finish(L, n.currentTxid).txs[n.currentTxid], p, out);
    FailureIsTold(L, n.currentTxid, None);
  }

  lemma FailInPlace(cfg: Config, L: Ledger, p: int, n: Node)
    requires NodeOk(cfg, L, p, n) && !n.mode.ProcessingWrite? && !n.mode.CoordinatingFastRead?
    ensures NodeOk(cfg, L, p, Fail(n))
  {
    ActorCover(L, L, p, n, Fail(n));
    assert JobOk(L, p, Fail(n));
  }

  lemma FailOk(cfg: Config, L: Ledger, p: int, n: Node, used: Message) returns (L': Ledger)
    requires LedgerOk(cfg, L) && NodeOk(cfg, L, p, n) && !n.mode.ProcessingWrite?
    ensures EffectOk(cfg, L, L', p, used, Silent(Fail(n)))
  {
    hide NodeOk, LedgerOk, Evolves;
    NodeStaging(cfg, L, p, n);
    var n' := Fail(n);
    if n.mode.CoordinatingFastRead? {
      JobUnderway(cfg, L, p, n);
      L' := Finish(L, n.currentTxid);
      IdleNode(cfg, L, p, n, n', used);
      ReadTellsNobody(cfg, L, p, n, {});
      hide MembersTold, FailureTold;
      QuietEffect(cfg, L, L', p, used, Silent(n'));
    } else {
      L' := L;
      FailInPlace(cfg, L, p, n);
      NoEffect(cfg, L, p, n', used);
    }
  }

  lemma RecoverOk(cfg: Config, L: Ledger, p: int, n: Node, used: Message)
    requires LedgerOk(cfg, L) && NodeOk(cfg, L, p, n)
    ensures EffectOk(cfg, L, L, p, used, Silent(Recover(n)))
  {
    assert NodeOk(cfg, L, p, Recover(n)) by {
      ActorCover(L, L, p, n, Recover(n));
      assert JobOk(L, p, Recover(n));
    }
    hide NodeOk, LedgerOk;
    NoEffect(cfg, L, p, Recover(n), used);
  }

  // ---------- what a quorum member does ----------

  lemma GetReplyOk(cfg: Config, L: Ledger, p: int, n: Node, m: Message)
    requires ValidConfig(cfg) && LedgerOk(cfg, L) && NodeOk(cfg, L, p, n) && n.uncommittedKey.None?
    requires m.kind.GetRequest? && m.dest == p && MessageOk(cfg, L, m)
    ensures GetResponseOk(L, Message(m.id, p, m.src, GetResponse, m.key, Read(n, m.key).value,
            Read(n, m.key).timestamp, true))
  {
    assert TxOk(cfg, L.history, m.id, L.txs[m.id]);
    UnstagedCovers(cfg, L, p, n, m.key);
    CoversFewer(L.history, p, m.key, L.txs[m.id].since, Read(n, m.key).timestamp);
    assert Stamped(Read(n, m.key).timestamp, Read(n, m.key).value) == Read(n, m.key);
  }

  lemma GetAnswerOk(cfg: Config, L: Ledger, p: int, n: Node, m: Message, r: Message)
    requires ValidConfig(cfg) && LedgerOk(cfg, L) && NodeOk(cfg, L, p, n)
    requires m.kind.GetRequest? && m.dest == p && MessageOk(cfg, L, m) && r in HandleGetReq(n, m).out
    ensures r.kind.GetResponse? && GetResponseOk(L, r)
  {
    NodeId(cfg, L, p, n);
    hide NodeOk, LedgerOk;
    if n.uncommittedKey.None? { GetReplyOk(cfg, L, p, n, m); }
  }

  lemma GetRequestOk(cfg: Config, L: Ledger, p: int, n: Node, m: Message) returns (L': Ledger)
    requires ValidConfig(cfg) && LedgerOk(cfg, L) && NodeOk(cfg, L, p, n)
    requires m.kind.GetRequest? && m.dest == p && MessageOk(cfg, L, m)
    ensures EffectOk(cfg, L, L', p, m, HandleGetReq(n, m))
  {
    hide NodeOk, LedgerOk, Evolves, GetResponseOk;
    L' := L;
    StutterEvolves(L, p, m);
    var e := HandleGetReq(n, m);
    forall r | r in e.out ensures !OneShot(r) && MessageOk(cfg, L, r) { GetAnswerOk(cfg, L, p, n, m, r); }
    QuietEffect(cfg, L, L', p, m, e);
  }

  /** A member that holds for a write is locked by it, and by no decided write. */
  lemma MemberLocked(cfg: Config, L: Ledger, p: int, n: Node, t: int)
    requires LedgerOk(cfg, L) && NodeOk(cfg, L, p, n) && t in L.txs && Holds(L.txs[t], p)
    requires L.txs[t].stage.Stamping? && p in L.txs[t].members
    ensures n.mode.ProcessingWrite? && n.currentTxid == t
    ensures forall u :: u in L.txs && L.txs[u].stage.Committed? ==> !Holds(L.txs[u], p)
  {
    assert TxOk(cfg, L.history, t, L.txs[t]) && Busy(n, t);
    hide NodeOk, LedgerOk;
  }

  lemma StoredBound(cfg: Config, L: Ledger, p: int, n: Node, key: Key)
    requires LedgerOk(cfg, L) && NodeOk(cfg, L, p, n)
    ensures Read(n, key).timestamp <= Version(L.history, key)
  {
    assert Numbered(L.history) && StoreOk(L, n);
    hide NodeOk, LedgerOk;
    RecordedBound(L.history, key, Read(n, key));
  }

  lemma AskedMember(cfg: Config, L: Ledger, p: int, m: Message)
    requires LedgerOk(cfg, L) && m.kind.TimestampRequest? && m.dest == p && MessageOk(cfg, L, m)
    requires L.txs[m.id].stage.Stamping?
    ensures m.id in L.txs && p in L.txs[m.id].members && Holds(L.txs[m.id], p)
  {
    AllHold(cfg, L, m.id, p);
    hide LedgerOk;
  }

  /** A member that its writer asks for a timestamp covers every decided write it took part in. */
  lemma MemberCovers(cfg: Config, L: Ledger, p: int, n: Node, m: Message)
    requires LedgerOk(cfg, L) && NodeOk(cfg, L, p, n)
    requires m.kind.TimestampRequest? && m.dest == p && MessageOk(cfg, L, m) && L.txs[m.id].stage.Stamping?
    ensures n.mode.ProcessingWrite? && n.currentTxid == m.id
    ensures Covers(L.history, p, m.key, |L.history|, Read(n, m.key).timestamp)
  {
    AskedMember(cfg, L, p, m);
    hide NodeOk, LedgerOk, MessageOk, Holds, Covers;
    MemberLocked(cfg, L, p, n, m.id);
    StoreCovers(cfg, L, p, n, m.key);
  }

  lemma TimestampReplyOk(cfg: Config, L: Ledger, p: int, n: Node, m: Message, r: Message)
    requires ValidConfig(cfg) && LedgerOk(cfg, L) && NodeOk(cfg, L, p, n)
    requires m.kind.TimestampRequest? && m.dest == p && MessageOk(cfg, L, m) && r in HandleTimestampReq(n, m).out
    ensures r.kind.GetResponse? && GetResponseOk(L, r)
  {
    NodeId(cfg, L, p, n);
    StoredBound(cfg, L, p, n, m.key);
    if L.txs[m.id].stage.Stamping? { MemberCovers(cfg, L, p, n, m); }
    hide NodeOk, LedgerOk, Read, Version, Covers;
    assert m.id in L.txs && m.dest in L.txs[m.id].members && IsWrite(L.txs[m.id].request);
    assert m.key == L.txs[m.id].request.key && (InProgress(L.txs[m.id]) || Over(L.txs[m.id]));
    hide MessageOk;
  }

  lemma TimestampRequestOk(cfg: Config, L: Ledger, p: int, n: Node, m: Message) returns (L': Ledger)
    requires ValidConfig(cfg) && LedgerOk(cfg, L) && NodeOk(cfg, L, p, n)
    requires m.kind.TimestampRequest? && m.dest == p && MessageOk(cfg, L, m)
    ensures EffectOk(cfg, L, L', p, m, HandleTimestampReq(n, m))
  {
    hide NodeOk, LedgerOk, Evolves, GetResponseOk;
    L' := L;
    StutterEvolves(L, p, m);
    var e := HandleTimestampReq(n, m);
    forall r | r in e.out ensures !OneShot(r) && MessageOk(cfg, L, r) { TimestampReplyOk(cfg, L, p, n, m, r); }
    QuietEffect(cfg, L, L', p, m, e);
  }

  lemma StagePromise(cfg: Config, L: Ledger, p: int, n: Node, m: Message)
    requires LedgerOk(cfg, L) && NodeOk(cfg, L, p, n)
    requires m.kind.PutRequest? && m.dest == p && MessageOk(cfg, L, m) && n.mode.ProcessingWrite?
    requires n.currentTxid == m.id
    ensures HasStaged(HandlePutReq(n, m).node, m.key, ValueOf(L.txs[m.id]))
    ensures StagingOk(HandlePutReq(n, m).node)
    ensures PromiseOk(StageAt(L, m.id, p), p, HandlePutReq(n, m).node)
  {
    assert TxOk(cfg, L.history, m.id, L.txs[m.id]);
    var L', n' := StageAt(L, m.id, p), HandlePutReq(n, m).node;
    forall t | t in L'.txs && p in L'.txs[t].staged && Holds(L'.txs[t], p)
      ensures HasStaged(n', L'.txs[t].request.key, ValueOf(L'.txs[t]))
    {
      assert Holds(L.txs[t], p);
    }
  }

  lemma PutRequestLinks(cfg: Config, L: Ledger, p: int, n: Node, m: Message)
    requires LedgerOk(cfg, L) && NodeOk(cfg, L, p, n)
    requires m.kind.PutRequest? && m.dest == p && MessageOk(cfg, L, m) && n.mode.ProcessingWrite?
    requires n.currentTxid == m.id
    ensures Holds(L.txs[m.id], p)
    ensures var L', n' := StageAt(L, m.id, p), HandlePutReq(n, m).node;
            JobOk(L', p, n') && HoldsOk(L', p, n') && ActiveOk(L', p, n') && ReleasedOk(L', p, n') && CoverOk(L', p, n')
  {
    var L', n' := StageAt(L, m.id, p), HandlePutReq(n, m).node;
    assert Holds(L.txs[m.id], p);
    ActorCover(L, L', p, n, n');
    forall t | t in L'.txs ensures Holds(L'.txs[t], p) <==> Busy(n', t) { assert Holds(L.txs[t], p) <==> Busy(n, t); }
  }

  lemma PutRequestNode(cfg: Config, L: Ledger, p: int, n: Node, m: Message)
    requires LedgerOk(cfg, L) && NodeOk(cfg, L, p, n)
    requires m.kind.PutRequest? && m.dest == p && MessageOk(cfg, L, m) && n.mode.ProcessingWrite?
    requires n.currentTxid == m.id
    ensures NodeOk(cfg, StageAt(L, m.id, p), p, HandlePutReq(n, m).node)
  {
    MemberHolds(cfg, L, p, n, m.id);
    StageOk(cfg, L, m.id, p, m);
    hide NodeOk, LedgerOk, Evolves, HasStaged;
    hide JobOk, HoldsOk, ActiveOk, ReleasedOk, StoreOk, StagingOk, PromiseOk, CoverOk, QueueOk, TimersOk, BackgroundOk;
    var L', n' := StageAt(L, m.id, p), HandlePutReq(n, m).node;
    PutRequestLinks(cfg, L, p, n, m);
    StagePromise(cfg, L, p, n, m);
    NodeParts(cfg, L, p, n);
    ActorLinks(cfg, L, L', p, m, n);
    ActorQueue(cfg, L, L', p, m, n);
    SameParts(cfg, L', p, n, n');
    NodeWhole(cfg, L', p, n');
  }

  lemma MemberHolds(cfg: Config, L: Ledger, p: int, n: Node, t: int)
    requires LedgerOk(cfg, L) && NodeOk(cfg, L, p, n) && t in L.txs && n.mode.ProcessingWrite? && n.currentTxid == t
    ensures Holds(L.txs[t], p) && p in L.txs[t].granted
  {
    assert TxOk(cfg, L.history, t, L.txs[t]);
  }

  /** The put of the lock holder is staged, and acknowledged. */
  lemma PutStaged(cfg: Config, L: Ledger, p: int, n: Node, m: Message)
    requires LedgerOk(cfg, L) && NodeOk(cfg, L, p, n) && n.mode.ProcessingWrite? && n.currentTxid == m.id
    requires m.kind.PutRequest? && m.dest == p && MessageOk(cfg, L, m)
    ensures EffectOk(cfg, L, StageAt(L, m.id, p), p, m, HandlePutReq(n, m))
  {
    hide NodeOk, LedgerOk, Evolves, HandlePutReq, OneShot, MembersTold;
    assert m.id in L.txs && p in L.txs[m.id].members && Chosen(L.txs[m.id]);
    NodeId(cfg, L, p, n);
    MemberHolds(cfg, L, p, n, m.id);
    StageOk(cfg, L, m.id, p, m);
    PutRequestNode(cfg, L, p, n, m);
    hide MessageOk;
    var L', e := StageAt(L, m.id, p), HandlePutReq(n, m);
    NobodyToTell(L, m.id, L'.txs[m.id], p, e.out);
    assert L'.history == L.history;
    PutAnswered(cfg, L', p, n, m);
    hide StageAt;
    QuietEffect(cfg, L, L', p, m, e);
  }

  /** The answer to a put is true where the transaction has the write staged, or refuses. */
  lemma PutAnswered(cfg: Config, L: Ledger, p: int, n: Node, m: Message)
    requires m.id in L.txs && p in L.txs[m.id].members && n.id == p
    requires n.mode.ProcessingWrite? && n.currentTxid == m.id ==> Chosen(L.txs[m.id]) && p in L.txs[m.id].staged
    ensures HandlePutReq(n, m).reply.None?
    ensures forall r :: r in HandlePutReq(n, m).out ==> !OneShot(r) && MessageOk(cfg, L, r)
  {}

  /** A put of anyone else changes nothing, and is refused. */
  lemma PutRefused(cfg: Config, L: Ledger, p: int, n: Node, m: Message)
    requires LedgerOk(cfg, L) && NodeOk(cfg, L, p, n) && !(n.mode.ProcessingWrite? && n.currentTxid == m.id)
    requires m.kind.PutRequest? && m.dest == p && MessageOk(cfg, L, m)
    ensures EffectOk(cfg, L, L, p, m, HandlePutReq(n, m))
  {
    hide NodeOk, LedgerOk, Evolves, EffectOk;
    NodeId(cfg, L, p, n);
    StutterEvolves(L, p, m);
    var e := HandlePutReq(n, m);
    assert e.node == n;
    assert m.id in L.txs && p in L.txs[m.id].members;
    hide MessageOk, OneShot, HandlePutReq;
    PutAnswered(cfg, L, p, n, m);
    assert MembersTold(L, L, p, e.out);
    hide MembersTold;
    QuietEffect(cfg, L, L, p, m, e);
  }

  lemma PutRequestOk(cfg: Config, L: Ledger, p: int, n: Node, m: Message) returns (L': Ledger)
    requires ValidConfig(cfg) && LedgerOk(cfg, L) && NodeOk(cfg, L, p, n)
    requires m.kind.PutRequest? && m.dest == p && MessageOk(cfg, L, m)
    ensures EffectOk(cfg, L, L', p, m, HandlePutReq(n, m))
  {
    assert m.id in L.txs;
    hide NodeOk, LedgerOk, EffectOk, MessageOk, HandlePutReq;
    if n.mode.ProcessingWrite? && n.currentTxid == m.id {
      L' := StageAt(L, m.id, p);
      PutStaged(cfg, L, p, n, m);
    } else {
      L' := L;
      PutRefused(cfg, L, p, n, m);
    }
  }

  /** A commit at p overwrites nothing newer. */
  lemma CommitCover(cfg: Config, L: Ledger, p: int, n: Node, n': Node, t: int, i: nat)
    requires LedgerOk(cfg, L) && NodeOk(cfg, L, p, n)
    requires t in L.txs && L.txs[t].stage.Committed? && Holds(L.txs[t], p)
    requires n'.store.committed == n.store.committed[L.txs[t].request.key := ValueOf(L.txs[t])]
    requires i < |L.history| && p in L.history[i].quorum
    ensures L.history[i].timestamp <= Read(n', L.history[i].key).timestamp
  {
    var x, d := L.txs[t], L.history[i];
    assert TxOk(cfg, L.history, t, x) && DecisionOk(L, i) && HasCaughtUp(L, p, n, d);
    if d.key == x.request.key && i != x.index {
      assert i < x.index;
      NumberedOrder(L.history, i, x.index);
    }
  }

  lemma UnlockHolder(cfg: Config, L: Ledger, p: int, n: Node, m: Message)
    requires ValidConfig(cfg) && LedgerOk(cfg, L) && NodeOk(cfg, L, p, n)
    requires m.kind.UnlockRequest? && m.dest == p && MessageOk(cfg, L, m) && n.currentTxid == m.id
    ensures n.mode.ProcessingWrite? && Holds(L.txs[m.id], p)
    ensures m.ok ==> HasStaged(n, L.txs[m.id].request.key, ValueOf(L.txs[m.id]))
  {
    assert TxOk(cfg, L.history, m.id, L.txs[m.id]);
  }

  /** What is stored once the holder has obeyed, and what that leaves as it was. */
  lemma UnlockedStore(cfg: Config, L: Ledger, p: int, n: Node, m: Message)
    requires ValidConfig(cfg) && LedgerOk(cfg, L) && NodeOk(cfg, L, p, n)
    requires m.kind.UnlockRequest? && m.dest == p && MessageOk(cfg, L, m)
    ensures var n', x := HandleUnlockReq(n, m).node, L.txs[m.id];
            && (if n.currentTxid == m.id && m.ok then
                  && n'.store.committed == n.store.committed[x.request.key := ValueOf(x)]
                  && x.stage.Committed? && L.history[x.index] == DecisionOf(m.id, x)
                else n'.store == n.store)
            && StoreOk(L, n') && StagingOk(n')
            && TimersOk(L, p, n') && BackgroundOk(cfg, L, p, n') && QueueOk(cfg, L, p, n')
  {
    assert TxOk(cfg, L.history, m.id, L.txs[m.id]);
    if n.currentTxid == m.id { UnlockHolder(cfg, L, p, n, m); }
    hide LedgerOk;
  }

  lemma UnlockStore(cfg: Config, L: Ledger, p: int, n: Node, m: Message)
    requires ValidConfig(cfg) && LedgerOk(cfg, L) && NodeOk(cfg, L, p, n)
    requires m.kind.UnlockRequest? && m.dest == p && MessageOk(cfg, L, m)
    ensures CoverOk(Release(L, m.id, p), p, HandleUnlockReq(n, m).node)
    ensures StoreOk(L, HandleUnlockReq(n, m).node) && StagingOk(HandleUnlockReq(n, m).node)
    ensures TimersOk(L, p, HandleUnlockReq(n, m).node) && BackgroundOk(cfg, L, p, HandleUnlockReq(n, m).node)
    ensures QueueOk(cfg, L, p, HandleUnlockReq(n, m).node)
  {
    var L', n' := Release(L, m.id, p), HandleUnlockReq(n, m).node;
    UnlockedStore(cfg, L, p, n, m);
    NodeParts(cfg, L, p, n);
    hide HandleUnlockReq, StagingOk, TimersOk, BackgroundOk, QueueOk, StoreOk, NodeOk, JobOk;
    forall i | 0 <= i < |L'.history| && p in L'.history[i].quorum ensures HasCaughtUp(L', p, n', L'.history[i]) {
      assert HasCaughtUp(L, p, n, L.history[i]) && DecisionOk(L, i);
      if n.currentTxid == m.id && m.ok { CommitCover(cfg, L, p, n, n', m.id, i); }
      else { UnlockHolds(cfg, L, p, n, m, i); }
    }
    hide LedgerOk, HasCaughtUp;
  }

  /** A node unlocked without a commit was not held by a decided write. */
  lemma UnlockHolds(cfg: Config, L: Ledger, p: int, n: Node, m: Message, i: nat)
    requires LedgerOk(cfg, L) && m.id in L.txs && i < |L.history| && HoldsOk(L, p, n)
    requires n.currentTxid != m.id || L.txs[m.id].stage.Finished?
    ensures var t := L.history[i].txid;
            t in L.txs && Holds(L.txs[t], p) ==> Holds(Release(L, m.id, p).txs[t], p)
  {
    assert DecisionOk(L, i);
    var t := L.history[i].txid;
    if t in L.txs && Holds(L.txs[t], p) { assert Busy(n, t); }
    hide LedgerOk;
  }

  lemma UnlockLinks(cfg: Config, L: Ledger, p: int, n: Node, m: Message)
    requires ValidConfig(cfg) && LedgerOk(cfg, L) && NodeOk(cfg, L, p, n)
    requires m.kind.UnlockRequest? && m.dest == p && MessageOk(cfg, L, m)
    ensures HoldsOk(Release(L, m.id, p), p, HandleUnlockReq(n, m).node)
    ensures ActiveOk(Release(L, m.id, p), p, HandleUnlockReq(n, m).node)
    ensures PromiseOk(Release(L, m.id, p), p, HandleUnlockReq(n, m).node)
  {
    var L', n' := Release(L, m.id, p), HandleUnlockReq(n, m).node;
    assert TxOk(cfg, L.history, m.id, L.txs[m.id]);
    if n.currentTxid == m.id { UnlockHolder(cfg, L, p, n, m); }
    forall t | t in L'.txs
      ensures Holds(L'.txs[t], p) <==> Busy(n', t)
      ensures L'.txs[t].coord == p && Active(L'.txs[t]) ==>
              n'.currentTxid == t && !n'.mode.Idle? && !n'.mode.ProcessingWrite?
      ensures p in L'.txs[t].staged && Holds(L'.txs[t], p) ==> HasStaged(n', L'.txs[t].request.key, ValueOf(L'.txs[t]))
    {
      assert Holds(L.txs[t], p) <==> Busy(n, t);
    }
  }

  lemma UnlockReleased(L: Ledger, p: int, n: Node, m: Message)
    requires ReleasedOk(L, p, n) && m.id in L.txs
    ensures ReleasedOk(Release(L, m.id, p), p, HandleUnlockReq(n, m).node)
  {}

  lemma UnlockJob(cfg: Config, L: Ledger, p: int, n: Node, m: Message)
    requires ValidConfig(cfg) && LedgerOk(cfg, L) && NodeOk(cfg, L, p, n)
    requires m.kind.UnlockRequest? && m.dest == p && MessageOk(cfg, L, m)
    ensures JobOk(Release(L, m.id, p), p, HandleUnlockReq(n, m).node)
    ensures ReleasedOk(Release(L, m.id, p), p, HandleUnlockReq(n, m).node)
  {
    hide NodeOk, LedgerOk, ReleasedOk;
    NodeParts(cfg, L, p, n);
    UnlockReleased(L, p, n, m);
    if n.currentTxid == m.id {
      UnlockHolder(cfg, L, p, n, m);
      assert n.quorumMembers.None?;
    } else {
      JobElsewhere(cfg, L, m.id, Release(L, m.id, p).txs[m.id], p, n);
      assert HandleUnlockReq(n, m).node == n.(unlockTxids := n.unlockTxids + {m.id});
    }
  }

  lemma UnlockNode(cfg: Config, L: Ledger, p: int, n: Node, m: Message)
    requires ValidConfig(cfg) && LedgerOk(cfg, L) && NodeOk(cfg, L, p, n)
    requires m.kind.UnlockRequest? && m.dest == p && MessageOk(cfg, L, m)
    ensures NodeOk(cfg, Release(L, m.id, p), p, HandleUnlockReq(n, m).node)
  {
    var L', n' := Release(L, m.id, p), HandleUnlockReq(n, m).node;
    ReleaseOk(cfg, L, m.id, p, m);
    UnlockLinks(cfg, L, p, n, m);
    UnlockJob(cfg, L, p, n, m);
    UnlockStore(cfg, L, p, n, m);
    hide HoldsOk, ActiveOk, PromiseOk, JobOk, ReleasedOk, CoverOk, StagingOk, StoreOk, TimersOk, BackgroundOk, QueueOk;
    ActorLinks(cfg, L, L', p, m, n');
    ActorQueue(cfg, L, L', p, m, n');
  }

  lemma UnlockRequestOk(cfg: Config, L: Ledger, p: int, n: Node, m: Message) returns (L': Ledger)
    requires ValidConfig(cfg) && LedgerOk(cfg, L) && NodeOk(cfg, L, p, n)
    requires m.kind.UnlockRequest? && m.dest == p && MessageOk(cfg, L, m)
    ensures EffectOk(cfg, L, L', p, m, HandleUnlockReq(n, m))
  {
    hide NodeOk, Evolves;
    L' := Release(L, m.id, p);
    ReleaseOk(cfg, L, m.id, p, m);
    hide LedgerOk;
    UnlockNode(cfg, L, p, n, m);
    UnlockSends(cfg, L', n, m);
    hide HandleUnlockReq;
    QuietEffect(cfg, L, L', p, m, HandleUnlockReq(n, m));
  }

  lemma UnlockSends(cfg: Config, L: Ledger, n: Node, m: Message)
    ensures HandleUnlockReq(n, m).reply.None?
    ensures forall r :: r in HandleUnlockReq(n, m).out ==> !OneShot(r) && MessageOk(cfg, L, r)
  {}

  // ---------- background writes ----------

  lemma AbsorbStore(cfg: Config, L: Ledger, p: int, n: Node, m: Message)
    requires StoreOk(L, n) && StagingOk(n) && CoverOk(L, p, n)
    requires m.timestamp > Read(n, m.key).timestamp ==> Recorded(L.history, m.key, Stamped(m.timestamp, m.value))
    ensures StoreOk(L, Absorb(n, m)) && StagingOk(Absorb(n, m)) && CoverOk(L, p, Absorb(n, m))
  {
    var n' := Absorb(n, m);
    assert forall k :: Read(n, k).timestamp <= Read(n', k).timestamp;
    forall i | 0 <= i < |L.history| && p in L.history[i].quorum ensures HasCaughtUp(L, p, n', L.history[i]) {
      assert HasCaughtUp(L, p, n, L.history[i]);
    }
  }

  /** Storing a background write leaves staged writes alone. */
  lemma AbsorbStaged(n: Node, m: Message)
    requires StagingOk(n)
    ensures var n' := Absorb(n, m);
            && n' == n.(store := n'.store)
            && forall id :: id in n.store.staged ==> id in n'.store.staged && n'.store.staged[id] == n.store.staged[id]
  {}

  lemma AbsorbJob(L: Ledger, p: int, n: Node, n': Node)
    requires n' == n.(store := n'.store)
    requires forall id :: id in n.store.staged ==> id in n'.store.staged && n'.store.staged[id] == n.store.staged[id]
    requires JobOk(L, p, n) && PromiseOk(L, p, n)
    ensures JobOk(L, p, n') && PromiseOk(L, p, n')
  {
    hide AssemblingJob, StampingJob, PuttingJob, ReadingJob;
    assert forall k, v :: HasStaged(n, k, v) ==> HasStaged(n', k, v);
    JobStore(L, p, n, n');
  }

  lemma JobStore(L: Ledger, p: int, n: Node, n': Node)
    requires n' == n.(store := n'.store)
    requires forall k, v :: HasStaged(n, k, v) ==> HasStaged(n', k, v)
    ensures AssemblingJob(L, p, n) ==> AssemblingJob(L, p, n')
    ensures StampingJob(L, p, n) ==> StampingJob(L, p, n')
    ensures PuttingJob(L, p, n) ==> PuttingJob(L, p, n')
    ensures ReadingJob(L, p, n) ==> ReadingJob(L, p, n')
  {
    hide StampOk, ReplyOk;
  }

  lemma AbsorbRest(cfg: Config, L: Ledger, p: int, n: Node, n': Node)
    requires n' == n.(store := n'.store)
    requires HoldsOk(L, p, n) && ActiveOk(L, p, n) && ReleasedOk(L, p, n)
    requires QueueOk(cfg, L, p, n) && TimersOk(L, p, n) && BackgroundOk(cfg, L, p, n)
    ensures HoldsOk(L, p, n') && ActiveOk(L, p, n') && ReleasedOk(L, p, n')
    ensures QueueOk(cfg, L, p, n') && TimersOk(L, p, n') && BackgroundOk(cfg, L, p, n')
  {}

  lemma AbsorbOk(cfg: Config, L: Ledger, p: int, n: Node, m: Message)
    requires LedgerOk(cfg, L) && NodeOk(cfg, L, p, n)
    requires m.timestamp > Read(n, m.key).timestamp ==> Recorded(L.history, m.key, Stamped(m.timestamp, m.value))
    ensures NodeOk(cfg, L, p, Absorb(n, m))
  {
    hide NodeOk, LedgerOk;
    hide JobOk, HoldsOk, ActiveOk, ReleasedOk, StoreOk, StagingOk, PromiseOk, CoverOk, QueueOk, TimersOk, BackgroundOk;
    NodeParts(cfg, L, p, n);
    AbsorbStore(cfg, L, p, n, m);
    AbsorbStaged(n, m);
    hide Absorb;
    AbsorbJob(L, p, n, Absorb(n, m));
    AbsorbRest(cfg, L, p, n, Absorb(n, m));
    NodeWhole(cfg, L, p, Absorb(n, m));
  }

  /** A background write agrees with what the node stores at the same timestamp. */
  lemma BackgroundConsistent(cfg: Config, L: Ledger, p: int, n: Node, m: Message)
    requires LedgerOk(cfg, L) && NodeOk(cfg, L, p, n)
    requires m.kind.BackgroundWriteRequest? && MessageOk(cfg, L, m)
    ensures !Inconsistent(n, m) && m.timestamp > 0
    ensures Recorded(L.history, m.key, Stamped(m.timestamp, m.value))
    ensures Read(n, m.key).timestamp > 0 ==> Recorded(L.history, m.key, Read(n, m.key))
  {
    var x, v, u := L.txs[m.id], Read(n, m.key), Stamped(m.timestamp, m.value);
    assert TxOk(cfg, L.history, m.id, x);
    assert L.history[x.index] == DecisionOf(m.id, x);
    assert Recorded(L.history, m.key, u) && Genuine(L.history, m.key, v);
    RecordedBound(L.history, m.key, v);
    RecordedBound(L.history, m.key, u);
    if u.timestamp == v.timestamp { RecordedUnique(L.history, m.key, u, v); }
  }

  lemma BackgroundReplyOk(cfg: Config, L: Ledger, p: int, n: Node, m: Message)
    requires LedgerOk(cfg, L) && NodeOk(cfg, L, p, n)
    requires m.kind.BackgroundWriteRequest? && MessageOk(cfg, L, m)
    ensures forall r :: r in HandleBackgroundWriteReq(n, m).out ==> !OneShot(r) && MessageOk(cfg, L, r)
    ensures HandleBackgroundWriteReq(n, m).node == Absorb(n, m)
  {
    hide NodeOk, LedgerOk;
    BackgroundConsistent(cfg, L, p, n, m);
    var v := Read(n, m.key);
    hide Read;
    if m.timestamp < v.timestamp {
      assert Stamped(v.timestamp, v.value) == v;
    }
  }

  lemma BackgroundRequestOk(cfg: Config, L: Ledger, p: int, n: Node, m: Message) returns (L': Ledger)
    requires ValidConfig(cfg) && LedgerOk(cfg, L) && NodeOk(cfg, L, p, n)
    requires m.kind.BackgroundWriteRequest? && m.dest == p && MessageOk(cfg, L, m)
    ensures EffectOk(cfg, L, L', p, m, HandleBackgroundWriteReq(n, m))
  {
    hide NodeOk, LedgerOk, Evolves, Absorb;
    L' := L;
    StutterEvolves(L, p, m);
    BackgroundConsistent(cfg, L, p, n, m);
    AbsorbOk(cfg, L, p, n, m);
    BackgroundReplyOk(cfg, L, p, n, m);
    hide Inconsistent;
    QuietEffect(cfg, L, L', p, m, HandleBackgroundWriteReq(n, m));
  }

  /** A negative reply is newer than the write it answers, and agrees with what the node stores. */
  lemma ResponseConsistent(cfg: Config, L: Ledger, p: int, n: Node, m: Message)
    requires Numbered(L.history) && StoreOk(L, n) && BackgroundOk(cfg, L, p, n)
    requires m.kind.BackgroundWriteResponse? && m.dest == p && MessageOk(cfg, L, m)
    ensures n.background.Some? && !Propagation.Conflict(n.background.value, m) && (!m.ok ==> !Inconsistent(n, m))
    ensures BackgroundOk(cfg, L, p, n.(background := Some(Propagation.Response(n.background.value, m))))
  {
    var v, u := Read(n, m.key), Stamped(m.timestamp, m.value);
    if !m.ok && u.timestamp == v.timestamp { RecordedUnique(L.history, m.key, u, v); }
  }

  lemma ResponseNode(cfg: Config, L: Ledger, p: int, n: Node, m: Message)
    requires LedgerOk(cfg, L) && NodeOk(cfg, L, p, n)
    requires m.kind.BackgroundWriteResponse? && m.dest == p && MessageOk(cfg, L, m)
    ensures n.background.Some? && !Propagation.Conflict(n.background.value, m) && (!m.ok ==> !Inconsistent(n, m))
    ensures NodeOk(cfg, L, p, n.(background := Some(Propagation.Response(n.background.value, m))))
  {
    assert Numbered(L.history);
    hide NodeOk, LedgerOk, MessageOk, Propagation.Response, Propagation.Conflict, Inconsistent;
    hide JobOk, HoldsOk, ActiveOk, ReleasedOk, StoreOk, StagingOk, PromiseOk, CoverOk, QueueOk, TimersOk, BackgroundOk;
    NodeParts(cfg, L, p, n);
    ResponseConsistent(cfg, L, p, n, m);
    var n1 := n.(background := Some(Propagation.Response(n.background.value, m)));
    ResponseRest(cfg, L, p, n, n1);
    NodeWhole(cfg, L, p, n1);
  }

  lemma ResponseRest(cfg: Config, L: Ledger, p: int, n: Node, n1: Node)
    requires NodeOk(cfg, L, p, n) && n1 == n.(background := n1.background)
    ensures JobOk(L, p, n1) && HoldsOk(L, p, n1) && ActiveOk(L, p, n1) && ReleasedOk(L, p, n1) && PromiseOk(L, p, n1)
    ensures StoreOk(L, n1) && StagingOk(n1) && CoverOk(L, p, n1) && QueueOk(cfg, L, p, n1) && TimersOk(L, p, n1)
  {
    ActorCover(L, L, p, n, n1);
  }

  lemma BackgroundResponseOk(cfg: Config, L: Ledger, p: int, n: Node, m: Message) returns (L': Ledger)
    requires ValidConfig(cfg) && LedgerOk(cfg, L) && NodeOk(cfg, L, p, n)
    requires m.kind.BackgroundWriteResponse? && m.dest == p && MessageOk(cfg, L, m)
    ensures EffectOk(cfg, L, L', p, m, HandleBackgroundWriteRes(n, m))
  {
    hide NodeOk, LedgerOk, Evolves, Absorb;
    L' := L;
    ResponseNode(cfg, L, p, n, m);
    var n1 := n.(background := Some(Propagation.Response(n.background.value, m)));
    assert Inconsistent(n1, m) <==> Inconsistent(n, m);
    if !m.ok { AbsorbOk(cfg, L, p, n1, m); }
    NoEffect(cfg, L, p, HandleBackgroundWriteRes(n, m).node, m);
  }

  lemma RetiredBook(cfg: Config, L: Ledger, p: int, n: Node)
    requires BackgroundOk(cfg, L, p, n)
    ensures BackgroundOk(cfg, L, p, StreamWrites(n).node)
    ensures forall m :: m in StreamWrites(n).out ==> m.kind.BackgroundWriteRequest? && MessageOk(cfg, L, m)
  {}

  lemma StreamWritesNode(cfg: Config, L: Ledger, p: int, n: Node)
    requires NodeOk(cfg, L, p, n)
    ensures NodeOk(cfg, L, p, StreamWrites(n).node)
    ensures forall m :: m in StreamWrites(n).out ==> m.kind.BackgroundWriteRequest? && MessageOk(cfg, L, m)
  {
    NodeParts(cfg, L, p, n);
    RetiredBook(cfg, L, p, n);
    var n' := StreamWrites(n).node;
    assert n' == n.(background := n'.background);
    hide StreamWrites, BackgroundOk, MessageOk;
    ResponseRest(cfg, L, p, n, n');
    hide NodeOk;
    NodeWhole(cfg, L, p, n');
  }

  lemma StreamWritesOk(cfg: Config, L: Ledger, p: int, n: Node, used: Message) returns (L': Ledger)
    requires ValidConfig(cfg) && LedgerOk(cfg, L) && NodeOk(cfg, L, p, n)
    ensures EffectOk(cfg, L, L', p, used, StreamWrites(n))
  {
    hide NodeOk, LedgerOk, Evolves;
    L' := L;
    StutterEvolves(L, p, used);
    StreamWritesNode(cfg, L, p, n);
    QuietEffect(cfg, L, L', p, used, StreamWrites(n));
  }
}
