/** Background propagation in the whole cluster: a node listed as confirmed keeps the write,
    and so does a node of every read quorum once the write is given up, unless a step makes
    the node fall below it. */
module Confirmed {
  import opened Packet
  import opened Wrappers
  import opened Sets
  import opened Node
  import opened Ledgers
  import opened Invariants
  import opened Handlers
  import opened Coordination
  import opened Clusters
  import opened Runs
  import opened Theorems
  import opened Locking
  import opened Timestamps
  import StagedStore
  import Propagation

  // ---------- what handlers do to the propagater's book ----------

  /** The write answered to the client is entered with this quorum. */
  predicate Announces(n: Node, quorum: set<int>, e: Effect) {
    && n.background.Some? && e.reply.Some? && e.reply.value.kind.ClientWriteResponse? && e.reply.value.ok
    && e.node.mode.Idle?
    && var a := e.reply.value;
       && a.id == n.clientRequest.id
       && e.node.background ==
            Some(Propagation.Propagate(n.background.value, a.id, quorum, a.key, a.value, a.timestamp))
  }

  predicate HasMembers(n: Node, keys: set<int>) { n.quorumMembers.Some? && n.quorumMembers.value.Keys == keys }

  lemma AbortBook(n: Node)
    ensures Abort(n).node.background == n.background
  {}

  lemma CommitBook(n: Node, keys: set<int>)
    requires HasMembers(n, keys)
    ensures CommitWrite(n).node.background == n.background || Announces(n, keys, CommitWrite(n))
  {
    hide Abort, StagedStore.Commit, StagedStore.CanCommit, Propagation.Propagate;
    AbortBook(n);
  }

  lemma StageBook(n: Node)
    requires n.quorumMembers.Some?
    ensures StageWrite(n).node.background == n.background
  {
    hide Abort, LatestTimestamp;
    var next := Successor(LatestTimestamp(Read(n, n.clientRequest.key).timestamp, n.quorumMembers.value, Peers(n)));
    AbortBook(n.(clientRequest := n.clientRequest.(timestamp := next)));
  }

  lemma CoordinateBook(n: Node, keys: set<int>)
    requires HasMembers(n, keys)
    ensures CoordinateWrite(n).node.background == n.background || Announces(n, keys, CoordinateWrite(n))
  {
    hide StageWrite, CommitWrite;
    StageBook(n);
    CommitBook(n, keys);
  }

  lemma CountBook(n: Node, m: Message, c: Choice)
    ensures
      var e := CountReply(n, m, c);
      || e.node.background == n.background
      || (m.ok && n.quorumMembers.Some? && Announces(n, n.quorumMembers.value.Keys + {m.src}, e))
  {
    hide Abort, CoordinateWrite;
    AbortBook(n);
    if n.quorumMembers.Some? {
      var n1, keys := Counted(n, m), n.quorumMembers.value.Keys + {m.src};
      CoordinateBook(n1, keys);
      CoordinateBook(n1.(mode := CoordinatingWrite), keys);
    }
  }

  predicate BookChange(n: Node, m: Message, e: Effect) {
    || e.node.background == n.background
    || (m.kind.BackgroundWriteResponse? && n.background.Some?
        && e.node.background == Some(Propagation.Response(n.background.value, m)))
    || (IsVote(m) && m.ok && n.currentTxid == m.id && n.quorumMembers.Some?
        && Announces(n, n.quorumMembers.value.Keys + {m.src}, e))
  }

  lemma DispatchBook(n: Node, m: Message, c: Choice)
    ensures BookChange(n, m, Dispatch(n, m, c))
  {
    hide CountReply, Absorb, StagedStore.Put, StagedStore.Commit, Read, Propagation.Response, Announces;
    CountBook(n, m, c);
    AbsorbKept(n, m);
    if n.background.Some? { AbsorbKept(n.(background := Some(Propagation.Response(n.background.value, m))), m); }
  }

  /** Taking a request leaves the store and the book alone. */
  lemma TakeNextQuiet(n: Node, c: Choice)
    requires n.mode.Idle? ==> n.quorumMembers.None?
    ensures TakeNext(n, c).node.background == n.background && TakeNext(n, c).node.store == n.store
    ensures NoAcks(TakeNext(n, c).out) && TakeNext(n, c).reply.None?
  {}

  // ---------- who acknowledges ----------

  predicate IsAck(m: Message) { m.kind.BackgroundWriteResponse? && m.ok }

  predicate NoAcks(out: set<Message>) { forall m :: m in out ==> !IsAck(m) }

  lemma AbortQuiet(n: Node)
    ensures NoAcks(Abort(n).out)
  {}

  lemma CoordinateQuiet(n: Node)
    ensures NoAcks(CoordinateWrite(n).out)
  {
    hide Abort, LatestTimestamp;
    AbortQuiet(n);
    if n.quorumMembers.Some? {
      var next := Successor(LatestTimestamp(Read(n, n.clientRequest.key).timestamp, n.quorumMembers.value, Peers(n)));
      AbortQuiet(n.(clientRequest := n.clientRequest.(timestamp := next)));
    }
  }

  lemma CountQuiet(n: Node, m: Message, c: Choice)
    ensures NoAcks(CountReply(n, m, c).out)
  {
    hide Abort, CoordinateWrite;
    AbortQuiet(n);
    if n.quorumMembers.Some? {
      CoordinateQuiet(Counted(n, m));
      CoordinateQuiet(Counted(n, m).(mode := CoordinatingWrite));
    }
  }

  /** A background write is acknowledged by a node that stores it or something newer. */
  lemma DispatchAcks(n: Node, m: Message, c: Choice, x: Message)
    requires x in Dispatch(n, m, c).out && IsAck(x)
    ensures x.src == n.id && x.timestamp <= Read(Dispatch(n, m, c).node, x.key).timestamp
  {
    hide CountReply;
    CountQuiet(n, m, c);
  }

  // ---------- one step of the cluster ----------

  predicate Entered(n: Node, t: int) { n.background.Some? && t in n.background.value.transactions }

  function Entry(n: Node, t: int): Propagation.Transaction
    requires Entered(n, t)
  {
    n.background.value.transactions[t]
  }

  function Content(e: Propagation.Transaction): Stamped { Stamped(e.timestamp, e.value) }

  predicate SameWrite(a: Propagation.Transaction, b: Propagation.Transaction) {
    a.key == b.key && a.value == b.value && a.timestamp == b.timestamp
  }

  predicate Listed(n: Node, t: int, q: int) { Entered(n, t) && q in Entry(n, t).nodes }

  /** Node q acknowledged the entry. */
  predicate AckOf(x: Message, t: int, q: int, e: Propagation.Transaction) {
    IsAck(x) && x.id == t && x.src == q && x.key == e.key && x.timestamp == e.timestamp
  }

  ghost predicate Acked(net: set<Message>, t: int, q: int, e: Propagation.Transaction) {
    exists x :: x in net && AckOf(x, t, q, e)
  }

  ghost predicate KeepsEntry(s: Cluster, t: int, q: int, e: Propagation.Transaction) {
    0 <= q < |s.nodes| && Keeps(s.nodes[q], t, e.key, Content(e))
  }

  /** A node is listed because it was listed, has acknowledged the write, or keeps it. */
  ghost predicate Justified(s: Cluster, s': Cluster, n: Node, n': Node, t: int, q: int)
    requires Entered(n', t)
  {
    || (Listed(n, t, q) && SameWrite(Entry(n, t), Entry(n', t)))
    || Acked(s.net, t, q, Entry(n', t))
    || KeepsEntry(s', t, q, Entry(n', t))
  }

  /** These nodes, n - R + 1 of them, are listed or have acknowledged the entry. */
  ghost predicate Confirmed(s: Cluster, n: Node, t: int, nodes: set<int>)
    requires Entered(n, t)
  {
    |nodes| >= s.cfg.n - s.cfg.r + 1 && forall q :: q in nodes ==> Listed(n, t, q) || Acked(s.net, t, q, Entry(n, t))
  }

  /** A node answered the entry with something newer. */
  predicate Overtakes(x: Message, t: int, e: Propagation.Transaction) {
    x.kind.BackgroundWriteResponse? && !x.ok && x.id == t && x.key == e.key && x.timestamp > e.timestamp
  }

  ghost predicate Overtaken(net: set<Message>, t: int, e: Propagation.Transaction) {
    exists x :: x in net && Overtakes(x, t, e)
  }

  /** The two reasons for which an entry is given up. */
  ghost predicate Dropped(s: Cluster, n: Node, t: int)
    requires Entered(n, t)
  {
    Overtaken(s.net, t, Entry(n, t)) || exists nodes :: Confirmed(s, n, t, nodes)
  }

  ghost predicate BookStep(s: Cluster, s': Cluster, p: int)
    requires 0 <= p < |s.nodes| && |s'.nodes| == |s.nodes|
  {
    && (forall t, q :: Listed(s'.nodes[p], t, q) ==> Justified(s, s', s.nodes[p], s'.nodes[p], t, q))
    && (forall t :: Entered(s.nodes[p], t) && !Entered(s'.nodes[p], t) ==> Dropped(s, s.nodes[p], t))
  }

  predicate AckBacked(s: Cluster, x: Message) {
    0 <= x.src < |s.nodes| && x.timestamp <= Read(s.nodes[x.src], x.key).timestamp
  }

  /** A new acknowledgement comes from a node that now stores the write or something newer. */
  ghost predicate AckStep(s: Cluster, s': Cluster) {
    forall x :: x in s'.net && IsAck(x) ==> x in s.net || AckBacked(s', x)
  }

  ghost predicate Progress(s: Cluster, s': Cluster) {
    |s'.nodes| == |s.nodes| && AckStep(s, s') && forall p :: 0 <= p < |s.nodes| ==> BookStep(s, s', p)
  }

  lemma SameBook(s: Cluster, s': Cluster, p: int)
    requires 0 <= p < |s.nodes| && |s'.nodes| == |s.nodes| && s'.nodes[p].background == s.nodes[p].background
    ensures BookStep(s, s', p)
  {}

  lemma QuietAcks(s: Cluster, p: int, e: Effect)
    requires 0 <= p < |s.nodes| && NoAcks(e.out) && (e.reply.Some? ==> !IsAck(e.reply.value))
    ensures AckStep(s, Apply(s, p, e))
  {}

  /** A step that touches no book and acknowledges nothing. */
  lemma QuietProgress(s: Cluster, p: int, e: Effect)
    requires 0 <= p < |s.nodes| && NoAcks(e.out) && (e.reply.Some? ==> !IsAck(e.reply.value))
    requires e.node.background == s.nodes[p].background
    ensures Progress(s, Apply(s, p, e))
  {
    QuietAcks(s, p, e);
    hide AckStep, BookStep;
    var s' := Apply(s, p, e);
    forall q | 0 <= q < |s.nodes| ensures BookStep(s, s', q) { SameBook(s, s', q); }
  }

  lemma ResponseListed(cfg: Config, L: Ledger, p: int, n: Node, n': Node, m: Message, t: int, q: int)
    requires BackgroundOk(cfg, L, p, n) && MessageOk(cfg, L, m) && m.kind.BackgroundWriteResponse? && n.background.Some?
    requires n'.background == Some(Propagation.Response(n.background.value, m)) && Listed(n', t, q)
    ensures Entered(n, t) && SameWrite(Entry(n, t), Entry(n', t)) && (Listed(n, t, q) || AckOf(m, t, q, Entry(n', t)))
  {}

  /** What a reply removes from the book was answered with something newer, or its sender was the last one needed. */
  lemma ResponseDrops(cfg: Config, L: Ledger, p: int, n: Node, m: Message, t: int)
    requires BackgroundOk(cfg, L, p, n) && MessageOk(cfg, L, m) && m.kind.BackgroundWriteResponse? && n.background.Some?
    requires Entered(n, t) && t !in Propagation.Response(n.background.value, m).transactions
    ensures if m.ok then AckOf(m, t, m.src, Entry(n, t)) && |Entry(n, t).nodes + {m.src}| >= cfg.n - cfg.r + 1
            else Overtakes(m, t, Entry(n, t))
  {}

  lemma ResponseDropped(s: Cluster, L: Ledger, p: int, n: Node, m: Message, t: int)
    requires BackgroundOk(s.cfg, L, p, n) && MessageOk(s.cfg, L, m) && m.kind.BackgroundWriteResponse?
    requires n.background.Some?
    requires Entered(n, t) && t !in Propagation.Response(n.background.value, m).transactions && m in s.net
    ensures Dropped(s, n, t)
  {
    ResponseDrops(s.cfg, L, p, n, m, t);
    hide BackgroundOk, MessageOk, Propagation.Response, AckOf, Overtakes;
    if m.ok {
      assert Acked(s.net, t, m.src, Entry(n, t));
      assert Confirmed(s, n, t, Entry(n, t).nodes + {m.src});
    }
  }

  /** A reply counted in the book. */
  lemma ResponseJustified(s: Cluster, s': Cluster, L: Ledger, p: int, m: Message)
    requires 0 <= p < |s.nodes| == |s'.nodes| && m in s.net && m.kind.BackgroundWriteResponse?
    requires BackgroundOk(s.cfg, L, p, s.nodes[p]) && MessageOk(s.cfg, L, m)
    requires s.nodes[p].background.Some?
    requires s'.nodes[p].background == Some(Propagation.Response(s.nodes[p].background.value, m))
    ensures BookStep(s, s', p)
  {
    var n, n' := s.nodes[p], s'.nodes[p];
    hide BackgroundOk, MessageOk, KeepsEntry, Propagation.Response, SameWrite, AckOf;
    forall t, q | Listed(n', t, q) ensures Justified(s, s', n, n', t, q) {
      ResponseListed(s.cfg, L, p, n, n', m, t, q);
      if !Listed(n, t, q) { assert Acked(s.net, t, q, Entry(n', t)); }
    }
    forall t | Entered(n, t) && !Entered(n', t) ensures Dropped(s, n, t) { ResponseDropped(s, L, p, n, m, t); }
  }

  // ---------- the write just decided ----------

  lemma GrantKnown(cfg: Config, L: Ledger, m: Message)
    requires LedgerOk(cfg, L) && m.kind.LockResponse? && OnceOk(cfg, L, m)
    ensures m.id in L.txs && m.src in L.txs[m.id].members
  {
    assert TxOk(cfg, L.history, m.id, L.txs[m.id]);
    hide LedgerOk;
  }

  lemma ReplyKnown(cfg: Config, L: Ledger, m: Message)
    requires (m.kind.GetResponse? || m.kind.PutResponse?) && MessageOk(cfg, L, m)
    ensures m.id in L.txs && m.src in L.txs[m.id].members
  {}

  lemma VoterKnown(cfg: Config, L: Ledger, m: Message)
    requires LedgerOk(cfg, L) && Deliverable(cfg, L, m) && IsVote(m) && m.ok
    ensures m.id in L.txs && m.src in L.txs[m.id].members
  {
    hide LedgerOk, MessageOk, OnceOk;
    if m.kind.LockResponse? { GrantKnown(cfg, L, m); } else { ReplyKnown(cfg, L, m); }
  }

  /** The members of a coordinator about to decide are the quorum of the decision. */
  lemma MembersOfVote(cfg: Config, L: Ledger, p: int, n: Node, m: Message)
    requires LedgerOk(cfg, L) && NodeOk(cfg, L, p, n) && n.quorumMembers.Some? && n.currentTxid == m.id
    requires m.id in L.txs && m.src in L.txs[m.id].members && IsWrite(L.txs[m.id].request)
    ensures n.quorumMembers.value.Keys + {m.src} == Quorum(L.txs[m.id]) && Begun(L.txs[m.id])
  {
    assert JobOk(L, p, n) && TxOk(cfg, L.history, m.id, L.txs[m.id]);
    hide NodeOk, LedgerOk;
  }

  lemma VoterIsAsked(cfg: Config, L: Ledger, p: int, n: Node, m: Message)
    requires LedgerOk(cfg, L) && NodeOk(cfg, L, p, n) && n.quorumMembers.Some? && n.currentTxid == m.id && m.id in L.txs
    ensures n.clientRequest.id == m.id
  {
    assert JobOk(L, p, n) && TxOk(cfg, L.history, m.id, L.txs[m.id]);
    hide NodeOk, LedgerOk;
  }

  /** A write answered with success is committed, with this key and content. */
  lemma AnswerCommitted(cfg: Config, L: Ledger, L': Ledger, p: int, m: Message, e: Effect)
    requires EffectOk(cfg, L, L', p, m, e) && e.reply.Some? && e.reply.value.kind.ClientWriteResponse?
    requires e.reply.value.ok
    requires p != CLIENT
    ensures var a := e.reply.value;
            && a.id in L'.txs && L'.txs[a.id].stage.Committed? && IsWrite(L'.txs[a.id].request)
            && a.key == L'.txs[a.id].request.key && Stamped(a.timestamp, a.value) == ValueOf(L'.txs[a.id])
            && a.id in L.txs && TxEvolves(a.id, L.txs[a.id], L'.txs[a.id], p, m)
  {
    var a := e.reply.value;
    assert LedgerOk(cfg, L') && ReplySound(cfg, L, L', e.reply) && Evolves(L, L', p, m);
    hide EffectOk;
    assert AnswerOk(cfg, L', a) && TxOk(cfg, L'.history, a.id, L'.txs[a.id]);
    hide LedgerOk;
  }

  /** What a vote leads to: the same members, and a committed write if the client was told so. */
  lemma VoteDecides(cfg: Config, L: Ledger, L': Ledger, p: int, n: Node, m: Message, e: Effect)
    requires LedgerOk(cfg, L) && NodeOk(cfg, L, p, n) && EffectOk(cfg, L, L', p, m, e) && IsVote(m) && m.ok
    requires Deliverable(cfg, L, m) && n.currentTxid == m.id && n.quorumMembers.Some? && p != CLIENT
    requires Announces(n, n.quorumMembers.value.Keys + {m.src}, e)
    ensures var a := e.reply.value;
            && a.id in L'.txs && L'.txs[a.id].stage.Committed?
            && n.quorumMembers.value.Keys + {m.src} == Quorum(L'.txs[a.id])
            && a.key == L'.txs[a.id].request.key && Stamped(a.timestamp, a.value) == ValueOf(L'.txs[a.id])
  {
    hide LedgerOk, NodeOk, EffectOk, Deliverable, IsVote;
    VoterKnown(cfg, L, m);
    VoterIsAsked(cfg, L, p, n, m);
    AnswerCommitted(cfg, L, L', p, m, e);
    MembersOfVote(cfg, L, p, n, m);
  }

  // ---------- every step makes progress ----------

  lemma NotAnAck(cfg: Config, L: Ledger, L': Ledger, p: int, m: Message, e: Effect)
    requires EffectOk(cfg, L, L', p, m, e)
    ensures e.reply.Some? ==> !IsAck(e.reply.value)
  {
    hide LedgerOk, NodeOk, Evolves, MembersTold;
  }

  /** A node that has stored what it decided still stores it after it takes its next request. */
  lemma StillKeeps(n: Node, n': Node, t: int, key: Key, v: Stamped)
    requires Keeps(n, t, key, v) && n.mode.Idle? && n'.store == n.store
    ensures Keeps(n', t, key, v)
  {}

  /** Only node p has acted since s2, and without touching its store or its book. */
  predicate Continues(s2: Cluster, s': Cluster, p: int) {
    && 0 <= p < |s2.nodes| == |s'.nodes|
    && s'.nodes[p].store == s2.nodes[p].store && s'.nodes[p].background == s2.nodes[p].background
    && forall q :: 0 <= q < |s'.nodes| && q != p ==> s'.nodes[q] == s2.nodes[q]
  }

  lemma EnteredNow(n: Node, quorum: set<int>, e: Effect, n': Node, t: int, q: int)
    requires Announces(n, quorum, e) && n'.background == e.node.background && Listed(n', t, q)
    ensures
      if t == e.reply.value.id then
        && Entry(n', t).key == e.reply.value.key && q in quorum
        && Content(Entry(n', t)) == Stamped(e.reply.value.timestamp, e.reply.value.value)
      else Listed(n, t, q) && SameWrite(Entry(n, t), Entry(n', t))
  {}

  /** The entry of a write just decided. */
  lemma AnnouncedJustified(s: Cluster, s2: Cluster, s': Cluster, L: Ledger, p: int, quorum: set<int>, e: Effect)
    requires Continues(s2, s', p) && |s.nodes| == |s2.nodes| && s2.nodes[p] == e.node
    requires Inv(s2, L) && Announces(s.nodes[p], quorum, e)
    requires var a := e.reply.value;
             && a.id in L.txs && L.txs[a.id].stage.Committed? && quorum == Quorum(L.txs[a.id])
             && a.key == L.txs[a.id].request.key && Stamped(a.timestamp, a.value) == ValueOf(L.txs[a.id])
    ensures BookStep(s, s', p)
  {
    hide Inv, Listed, Keeps, SameWrite, Quorum;
    var n' := s'.nodes[p];
    forall t, q | Listed(n', t, q) ensures Entered(n', t) && Justified(s, s', s.nodes[p], n', t, q) {
      assert Entered(n', t) by { ListedIsEntered(n', t, q); }
      EnteredNow(s.nodes[p], quorum, e, n', t, q);
      if t == e.reply.value.id {
        DecidedKept(s2, L, t, q);
        if q == p { StillKeeps(e.node, n', t, Entry(n', t).key, Content(Entry(n', t))); }
        assert KeepsEntry(s', t, q, Entry(n', t));
      }
    }
    assert forall t :: Entered(s.nodes[p], t) ==> Entered(n', t) by { EntriesStay(s.nodes[p], quorum, e, n'); }
    hide Announces, Justified, Continues;
    assert forall t, q :: Listed(n', t, q) ==> Entered(n', t) && Justified(s, s', s.nodes[p], n', t, q);
  }

  lemma EntriesStay(n: Node, quorum: set<int>, e: Effect, n': Node)
    requires Announces(n, quorum, e) && n'.background == e.node.background
    ensures forall t :: Entered(n, t) ==> Entered(n', t)
  {}

  lemma ListedIsEntered(n: Node, t: int, q: int)
    requires Listed(n, t, q)
    ensures Entered(n, t)
  {}

  /** A node has handled m, with effect e, and then taken its next request. */
  ghost predicate Moves(s: Cluster, s': Cluster, p: int, e: Effect, f: Effect) {
    0 <= p < |s.nodes| && s' == Apply(Apply(s, p, e), p, f)
  }

  lemma MovesOn(s: Cluster, s': Cluster, p: int, e: Effect, f: Effect)
    requires Moves(s, s', p, e, f) && f.node.store == e.node.store && f.node.background == e.node.background
    ensures Continues(Apply(s, p, e), s', p) && |s'.nodes| == |s.nodes|
    ensures forall q :: 0 <= q < |s.nodes| && q != p ==> s'.nodes[q] == s.nodes[q]
  {}

  lemma MovesAcks(s: Cluster, s': Cluster, p: int, e: Effect, f: Effect)
    requires Moves(s, s', p, e, f) && f.node.store == e.node.store
    requires NoAcks(f.out) && f.reply.None? && (e.reply.Some? ==> !IsAck(e.reply.value))
    requires forall x :: x in e.out && IsAck(x) ==> x.src == p && x.timestamp <= Read(e.node, x.key).timestamp
    ensures AckStep(s, s')
  {
    forall x | x in s'.net && IsAck(x) ensures x in s.net || AckBacked(s', x) {
      if x !in s.net { assert x in e.out; }
    }
  }

  lemma DispatchMoves(s: Cluster, s': Cluster, L: Ledger, p: int, m: Message, c: Choice, d: Choice) returns (L1: Ledger)
    requires Inv(s, L) && Deliverable(s.cfg, L, m) && 0 <= p < |s.nodes| && m.dest == p && |s.trace| + 1 < TIMESTAMPS
    requires ChoiceOk(s.nodes[p], m, c) && !LateStamp(s.nodes[p], m)
    requires OneShot(m) ==> OnceOk(s.cfg, L, m) && m !in s.once
    requires Moves(s, s', p, Dispatch(s.nodes[p], m, c), TakeNext(Dispatch(s.nodes[p], m, c).node, d))
    ensures EffectOk(s.cfg, L, L1, p, m, Dispatch(s.nodes[p], m, c)) && Inv(Apply(s, p, Dispatch(s.nodes[p], m, c)), L1)
    ensures AckStep(s, s') && Continues(Apply(s, p, Dispatch(s.nodes[p], m, c)), s', p)
    ensures forall q :: 0 <= q < |s.nodes| == |s'.nodes| && q != p ==> s'.nodes[q] == s.nodes[q]
  {
    var n, e := s.nodes[p], Dispatch(s.nodes[p], m, c);
    hide Inv, NodeOk, LedgerOk, EffectOk, Dispatch, TakeNext, Deliverable, ChoiceOk, LateStamp, OnceOk, OneShot;
    NodeAt(s, L, p);
    IdleHasNoQuorum(s.cfg, L, p, n);
    L1 := DispatchOk(s.cfg, L, p, n, m, c);
    NotAnAck(s.cfg, L, L1, p, m, e);
    ApplyOk(s, L, L1, p, m, e);
    NodeAt(Apply(s, p, e), L1, p);
    IdleHasNoQuorum(s.cfg, L1, p, e.node);
    TakeNextQuiet(e.node, d);
    forall x | x in e.out && IsAck(x) ensures x.src == p && x.timestamp <= Read(e.node, x.key).timestamp {
      DispatchAcks(n, m, c, x);
    }
    hide NoAcks, IsAck, Read;
    MovesOn(s, s', p, e, TakeNext(e.node, d));
    MovesAcks(s, s', p, e, TakeNext(e.node, d));
  }

  lemma ReplyInNet(cfg: Config, L: Ledger, m: Message)
    requires Deliverable(cfg, L, m) && m.kind.BackgroundWriteResponse?
    ensures MessageOk(cfg, L, m) && !OneShot(m)
  {}

  /** What handling m does to the book of the node that handles it. */
  lemma DispatchJustified(s: Cluster, s': Cluster, L: Ledger, L1: Ledger, p: int, m: Message, c: Choice)
    requires Inv(s, L) && Deliverable(s.cfg, L, m) && (!OneShot(m) ==> m in s.net)
    requires 0 <= p < |s.nodes| && EffectOk(s.cfg, L, L1, p, m, Dispatch(s.nodes[p], m, c))
    requires Inv(Apply(s, p, Dispatch(s.nodes[p], m, c)), L1)
    requires Continues(Apply(s, p, Dispatch(s.nodes[p], m, c)), s', p)
    ensures |s'.nodes| == |s.nodes| && BookStep(s, s', p)
  {
    var n, e := s.nodes[p], Dispatch(s.nodes[p], m, c);
    DispatchBook(n, m, c);
    hide Inv, NodeOk, LedgerOk, EffectOk, Dispatch, Deliverable;
    hide OnceOk, OneShot, MessageOk, BackgroundOk, Announces, Propagation.Response;
    NodeAt(s, L, p);
    IdleHasNoQuorum(s.cfg, L, p, n);
    if s'.nodes[p].background == n.background {
      SameBook(s, s', p);
    } else if m.kind.BackgroundWriteResponse? {
      ReplyInNet(s.cfg, L, m);
      ResponseJustified(s, s', L, p, m);
    } else {
      VoteDecides(s.cfg, L, L1, p, n, m, e);
      AnnouncedJustified(s, Apply(s, p, e), s', L1, p, n.quorumMembers.value.Keys + {m.src}, e);
    }
  }

  lemma SameReason(s: Cluster, s1: Cluster, n: Node, t: int)
    requires s1.net == s.net && s1.cfg == s.cfg && Entered(n, t) && Dropped(s1, n, t)
    ensures Dropped(s, n, t)
  {
    if !Overtaken(s.net, t, Entry(n, t)) {
      var nodes :| Confirmed(s1, n, t, nodes);
      assert Confirmed(s, n, t, nodes);
    }
  }

  lemma ConsumedProgress(s: Cluster, s1: Cluster, s': Cluster)
    requires s1.nodes == s.nodes && s1.net == s.net && s1.cfg == s.cfg && Progress(s1, s')
    ensures Progress(s, s')
  {
    hide AckBacked, KeepsEntry, SameWrite, Acked;
    assert AckStep(s, s');
    forall p | 0 <= p < |s.nodes| ensures BookStep(s, s', p) {
      assert BookStep(s1, s', p);
      forall t, q | Listed(s'.nodes[p], t, q) ensures Justified(s, s', s.nodes[p], s'.nodes[p], t, q) {
        assert Justified(s1, s', s1.nodes[p], s'.nodes[p], t, q);
      }
      forall t | Entered(s.nodes[p], t) && !Entered(s'.nodes[p], t) ensures Dropped(s, s.nodes[p], t) {
        SameReason(s, s1, s.nodes[p], t);
      }
    }
  }

  lemma DeliverProgress(s: Cluster, s': Cluster, L: Ledger, m: Message, c: Choice, d: Choice)
    requires Inv(s, L) && Deliver(s, s', m, c, d) && |s.trace| + 1 < TIMESTAMPS
    ensures Progress(s, s')
  {
    hide Inv, NodeOk, LedgerOk, EffectOk, Dispatch, TakeNext, Deliverable, ChoiceOk, LateStamp, OnceOk, PeersOk;
    ConsumeOk(s, L, m);
    var p, s1 := m.dest, Consume(s, m);
    if s.nodes[p].disabled {
      Unchanged(s, s');
    } else {
      var L1 := DispatchMoves(s1, s', L, p, m, c, d);
      DispatchJustified(s1, s', L, L1, p, m, c);
      hide AckStep, Continues, BookStep, OneShot;
      forall q | 0 <= q < |s1.nodes| ensures BookStep(s1, s', q) {
        if q != p { SameBook(s1, s', q); }
      }
      ConsumedProgress(s, s1, s');
    }
  }

  lemma Unchanged(s: Cluster, s': Cluster)
    requires s'.nodes == s.nodes && s'.net == s.net
    ensures Progress(s, s')
  {
    hide BookStep;
    assert AckStep(s, s');
    forall p | 0 <= p < |s.nodes| ensures BookStep(s, s', p) { SameBook(s, s', p); }
  }

  lemma TickProgress(s: Cluster, s': Cluster, L: Ledger, p: int, d: Choice)
    requires Inv(s, L) && Tick(s, s', p, d)
    ensures Progress(s, s')
  {
    hide Inv, NodeOk, LedgerOk, EffectOk, TakeNext, PeersOk, Abort;
    NodeAt(s, L, p);
    var e := Timeout(s.nodes[p]);
    AbortBook(s.nodes[p]);
    AbortQuiet(s.nodes[p]);
    var L1 := TimeoutOk(s.cfg, L, p, s.nodes[p]);
    NotAnAck(s.cfg, L, L1, p, ZERO_MESSAGE, e);
    IdleHasNoQuorum(s.cfg, L1, p, e.node) by { EffectNode(s.cfg, L, L1, p, ZERO_MESSAGE, e); }
    hide Timeout, NoAcks, IsAck;
    TakeNextQuiet(e.node, d);
    var f := TakeNext(e.node, d);
    MovesQuietly(s, s', p, e, f);
  }

  lemma MovesQuietly(s: Cluster, s': Cluster, p: int, e: Effect, f: Effect)
    requires Moves(s, s', p, e, f) && f.node.background == e.node.background
    requires e.node.background == s.nodes[p].background
    requires NoAcks(e.out) && NoAcks(f.out) && f.reply.None? && (e.reply.Some? ==> !IsAck(e.reply.value))
    ensures Progress(s, s')
  {
    hide BookStep;
    assert AckStep(s, s');
    forall q | 0 <= q < |s.nodes| ensures BookStep(s, s', q) { SameBook(s, s', q); }
  }

  lemma ExpireProgress(s: Cluster, s': Cluster, L: Ledger, p: int, m: Message)
    requires Inv(s, L) && Expire(s, s', p, m)
    ensures Progress(s, s')
  {
    var n, e := s.nodes[p], RequestTimeout(s.nodes[p], m);
    hide Inv, NodeOk, LedgerOk, EffectOk, Abort, Without;
    NodeAt(s, L, p);
    AbortBook(n);
    AbortQuiet(n);
    assert e.node.background == n.background && NoAcks(e.out);
    hide RequestTimeout, NoAcks, IsAck;
    var L1 := RequestTimeoutOk(s.cfg, L, p, n, m);
    NotAnAck(s.cfg, L, L1, p, ZERO_MESSAGE, e);
    QuietProgress(s, p, e);
  }

  lemma RetireJustified(s: Cluster, s': Cluster, L: Ledger, p: int)
    requires 0 <= p < |s.nodes| == |s'.nodes| && BackgroundOk(s.cfg, L, p, s.nodes[p])
    requires s'.nodes[p].background == StreamWrites(s.nodes[p]).node.background
    ensures BookStep(s, s', p)
  {
    var n, n' := s.nodes[p], s'.nodes[p];
    forall t | Entered(n, t) && !Entered(n', t) ensures Dropped(s, n, t) {
      assert Confirmed(s, n, t, Entry(n, t).nodes);
    }
    hide BackgroundOk, Dropped, Acked, KeepsEntry;
  }

  lemma PropagateProgress(s: Cluster, s': Cluster, L: Ledger, p: int)
    requires Inv(s, L) && Clusters.Propagate(s, s', p)
    ensures Progress(s, s')
  {
    hide Inv, NodeOk, LedgerOk;
    NodeAt(s, L, p);
    IdleHasNoQuorum(s.cfg, L, p, s.nodes[p]);
    var e := StreamWrites(s.nodes[p]);
    assert NoAcks(e.out) && e.reply.None?;
    QuietAcks(s, p, e);
    hide AckStep, BackgroundOk, BookStep, StreamWrites;
    RetireJustified(s, s', L, p);
    forall q | 0 <= q < |s.nodes| ensures BookStep(s, s', q) {
      if q != p { SameBook(s, s', q); }
    }
  }

  /** In one step, a node is listed in a book, or sends an acknowledgement, only for a reason. */
  lemma StepProgress(s: Cluster, s': Cluster, L: Ledger)
    requires Inv(s, L) && Next(s, s')
    ensures Progress(s, s')
  {
    hide Inv, Deliver, Tick, Expire, Fail, Recover, Clusters.Propagate, Progress;
    if m :| Invoke(s, s', m) {
      Unchanged(s, s');
    } else if m, c, d :| Deliver(s, s', m, c, d) {
      DeliverProgress(s, s', L, m, c, d);
    } else if p, d :| Tick(s, s', p, d) {
      TickProgress(s, s', L, p, d);
    } else if p, m :| Expire(s, s', p, m) {
      ExpireProgress(s, s', L, p, m);
    } else if p :| Crash(s, s', p) {
      FailQuiet(s.nodes[p]);
      QuietProgress(s, p, Silent(Fail(s.nodes[p])));
    } else if p :| Restart(s, s', p) {
      FailQuiet(s.nodes[p]);
      QuietProgress(s, p, Silent(Recover(s.nodes[p])));
    } else {
      var p :| Clusters.Propagate(s, s', p);
      PropagateProgress(s, s', L, p);
    }
  }

  lemma FailQuiet(n: Node)
    ensures Fail(n).background == n.background && Recover(n).background == n.background && NoAcks({})
  {}

  // ---------- whole runs ----------

  /** Node q stored this, or something newer, at some moment of the run. */
  ghost predicate StoredOnce(run: seq<Cluster>, q: int, key: Key, timestamp: nat) {
    exists i :: 0 <= i < |run| && 0 <= q < |run[i].nodes| && timestamp <= Read(run[i].nodes[q], key).timestamp
  }

  /** Node q kept the write at some moment of the run. */
  ghost predicate KeptOnce(run: seq<Cluster>, q: int, t: int, key: Key, v: Stamped) {
    exists i :: 0 <= i < |run| && 0 <= q < |run[i].nodes| && Keeps(run[i].nodes[q], t, key, v)
  }

  ghost predicate AcksBacked(run: seq<Cluster>)
    requires |run| > 0
  {
    forall x :: x in Last(run).net && IsAck(x) ==> StoredOnce(run, x.src, x.key, x.timestamp)
  }

  ghost predicate BooksBacked(run: seq<Cluster>)
    requires |run| > 0
  {
    forall p, t, q :: 0 <= p < |Last(run).nodes| && Listed(Last(run).nodes[p], t, q) ==>
      KeptOnce(run, q, t, Entry(Last(run).nodes[p], t).key, Content(Entry(Last(run).nodes[p], t)))
  }

  lemma StoredGrows(run: seq<Cluster>, s': Cluster, q: int, key: Key, timestamp: nat)
    requires StoredOnce(run, q, key, timestamp)
    ensures StoredOnce(run + [s'], q, key, timestamp)
  {
    var i :| 0 <= i < |run| && 0 <= q < |run[i].nodes| && timestamp <= Read(run[i].nodes[q], key).timestamp;
    assert (run + [s'])[i] == run[i];
  }

  lemma KeptGrows(run: seq<Cluster>, s': Cluster, q: int, t: int, key: Key, v: Stamped)
    requires KeptOnce(run, q, t, key, v)
    ensures KeptOnce(run + [s'], q, t, key, v)
  {
    var i :| 0 <= i < |run| && 0 <= q < |run[i].nodes| && Keeps(run[i].nodes[q], t, key, v);
    assert (run + [s'])[i] == run[i];
  }

  lemma StoredIsKept(run: seq<Cluster>, q: int, t: int, key: Key, v: Stamped)
    requires StoredOnce(run, q, key, v.timestamp)
    ensures KeptOnce(run, q, t, key, v)
  {
    var i :| 0 <= i < |run| && 0 <= q < |run[i].nodes| && v.timestamp <= Read(run[i].nodes[q], key).timestamp;
    assert Keeps(run[i].nodes[q], t, key, v);
  }

  lemma AcksStayBacked(run: seq<Cluster>, s': Cluster)
    requires |run| > 0 && AcksBacked(run) && AckStep(Last(run), s')
    ensures AcksBacked(run + [s'])
  {
    var longer := run + [s'];
    hide IsAck;
    forall x | x in s'.net && IsAck(x) ensures StoredOnce(longer, x.src, x.key, x.timestamp) {
      if x in Last(run).net {
        StoredGrows(run, s', x.src, x.key, x.timestamp);
      } else {
        assert AckBacked(longer[|run|], x);
      }
    }
  }

  lemma EntryBacked(run: seq<Cluster>, s': Cluster, p: int, t: int, q: int)
    requires |run| > 0 && AcksBacked(run) && BooksBacked(run) && 0 <= p < |Last(run).nodes| == |s'.nodes|
    requires Listed(s'.nodes[p], t, q) && Justified(Last(run), s', Last(run).nodes[p], s'.nodes[p], t, q)
    ensures KeptOnce(run + [s'], q, t, Entry(s'.nodes[p], t).key, Content(Entry(s'.nodes[p], t)))
  {
    var s, e := Last(run), Entry(s'.nodes[p], t);
    hide Keeps, IsAck, StoredOnce, KeptOnce;
    if KeepsEntry(s', t, q, e) {
      KeptNow(run, s', q, t, e.key, Content(e));
    } else if Acked(s.net, t, q, e) {
      var x :| x in s.net && AckOf(x, t, q, e);
      StoredIsKept(run, q, t, e.key, Content(e));
      KeptGrows(run, s', q, t, e.key, Content(e));
    } else {
      KeptGrows(run, s', q, t, e.key, Content(e));
    }
  }

  lemma KeptNow(run: seq<Cluster>, s': Cluster, q: int, t: int, key: Key, v: Stamped)
    requires 0 <= q < |s'.nodes| && Keeps(s'.nodes[q], t, key, v)
    ensures KeptOnce(run + [s'], q, t, key, v)
  {
    assert Keeps((run + [s'])[|run|].nodes[q], t, key, v);
  }

  lemma ProgressBacked(run: seq<Cluster>, s': Cluster)
    requires |run| > 0 && AcksBacked(run) && BooksBacked(run) && Progress(Last(run), s')
    ensures AcksBacked(run + [s']) && BooksBacked(run + [s'])
  {
    hide AckStep, Justified, KeptOnce;
    AcksStayBacked(run, s');
    hide AcksBacked;
    assert Last(run + [s']) == s';
    forall p, t, q | 0 <= p < |s'.nodes| && Listed(s'.nodes[p], t, q)
      ensures KeptOnce(run + [s'], q, t, Entry(s'.nodes[p], t).key, Content(Entry(s'.nodes[p], t)))
    {
      assert BookStep(Last(run), s', p) && Justified(Last(run), s', Last(run).nodes[p], s'.nodes[p], t, q);
      EntryBacked(run, s', p, t, q);
    }
  }

  lemma {:induction false} RunBacked(run: seq<Cluster>)
    requires IsRun(run)
    ensures AcksBacked(run) && BooksBacked(run)
  {
    hide Inv, Next, AcksBacked, BooksBacked, Progress;
    if |run| == 1 {
      InitBacked(run);
    } else {
      var shorter := run[..|run| - 1];
      PrefixRun(run, |run| - 2);
      assert shorter == run[..|run| - 2 + 1];
      RunBacked(shorter);
      var L := RunOk(shorter);
      assert Next(run[|run| - 2], run[|run| - 2 + 1]);
      StepProgress(Last(shorter), Last(run), L);
      ProgressBacked(shorter, Last(run));
      assert run == shorter + [Last(run)];
    }
  }

  lemma InitBacked(run: seq<Cluster>)
    requires |run| == 1 && Init(run[0])
    ensures AcksBacked(run) && BooksBacked(run)
  {}

  /** The write of an entry has been acknowledged. */
  lemma EntryAcked(s: Cluster, L: Ledger, p: nat, t: int) returns (b: nat)
    requires Inv(s, L) && p < |s.nodes| && Entered(s.nodes[p], t)
    ensures b < |s.trace| && WriteDone(s.trace[b]) && s.trace[b].answer.id == t
    ensures var e, a := Entry(s.nodes[p], t), s.trace[b].answer;
            a.key == e.key && Stamped(a.timestamp, a.value) == Content(e)
  {
    NodeAt(s, L, p);
    assert BackgroundOk(s.cfg, L, p, s.nodes[p]) && L.txs[t].stage.Committed?;
    assert TxOk(s.cfg, L.history, t, L.txs[t]);
    var i := L.txs[t].index;
    assert Acknowledged(s.trace, L.history[i]);
    b :| 0 <= b < |s.trace| && Acknowledges(s.trace[b], L.history[i]);
  }

  /** At the end of the run, node q keeps the write or has been made to fall below it. */
  ghost predicate KeptOrSunk(run: seq<Cluster>, q: int, t: int, e: Propagation.Transaction)
    requires |run| > 0
  {
    && 0 <= q < |Last(run).nodes|
    && (Keeps(Last(run).nodes[q], t, e.key, Content(e)) || exists k: nat :: SinksAt(run, k, q, e.key, e.timestamp))
  }

  lemma KeptWhen(run: seq<Cluster>, j: nat, q: int, t: int, key: Key, v: Stamped) returns (i: nat)
    requires j < |run| && KeptOnce(run[..j + 1], q, t, key, v)
    ensures i < |run| && 0 <= q < |run[i].nodes| && Keeps(run[i].nodes[q], t, key, v)
  {
    var shorter := run[..j + 1];
    i :| 0 <= i < |shorter| && 0 <= q < |shorter[i].nodes| && Keeps(shorter[i].nodes[q], t, key, v);
    assert shorter[i] == run[i];
  }

  lemma AckedToTheEnd(run: seq<Cluster>, j: nat, p: nat, t: int) returns (b: nat)
    requires IsRun(run) && j < |run| && p < |run[j].nodes| && Entered(run[j].nodes[p], t)
    ensures b < |Last(run).trace| && WriteDone(Last(run).trace[b]) && Last(run).trace[b].answer.id == t
    ensures var e, a := Entry(run[j].nodes[p], t), Last(run).trace[b].answer;
            a.key == e.key && Stamped(a.timestamp, a.value) == Content(e)
  {
    hide IsRun, Inv;
    PrefixRun(run, j);
    assert run[..j + 1][j] == run[j];
    var L := RunOk(run[..j + 1]);
    b := EntryAcked(run[j], L, p, t);
    TracesGrow(run, j, |run| - 1);
    assert Last(run).trace[b] == run[j].trace[b];
  }

  /** What a node has kept of an entry of moment j is kept to the end, or it was made to fall below it. */
  lemma EntryKept(run: seq<Cluster>, j: nat, p: nat, t: int, q: int)
    requires IsRun(run) && j < |run| && p < |run[j].nodes| && Entered(run[j].nodes[p], t)
    requires var e := Entry(run[j].nodes[p], t); KeptOnce(run[..j + 1], q, t, e.key, Content(e))
    ensures KeptOrSunk(run, q, t, Entry(run[j].nodes[p], t))
  {
    hide IsRun, Keeps, KeptOnce, SinksAt;
    var e := Entry(run[j].nodes[p], t);
    var b := AckedToTheEnd(run, j, p, t);
    var i := KeptWhen(run, j, q, t, e.key, Content(e));
    KeptUnless(run, b, i, q);
  }

  /** Every node listed as confirmed for a write keeps it: it stores it or something newer, or
      is locked by it with exactly its value staged, unless it was made to fall below it. */
  lemma ListedNodesKeepIt(run: seq<Cluster>, p: nat, t: int, q: int)
    requires IsRun(run) && p < |Last(run).nodes| && Listed(Last(run).nodes[p], t, q)
    ensures KeptOrSunk(run, q, t, Entry(Last(run).nodes[p], t))
  {
    RunBacked(run);
    assert run[..|run| - 1 + 1] == run;
    hide IsRun, KeptOnce;
    assert BooksBacked(run);
    EntryKept(run, |run| - 1, p, t, q);
  }

  // ---------- a write given up ----------

  lemma ConfirmedKept(run: seq<Cluster>, p: nat, t: int, nodes: set<int>)
    requires IsRun(run) && p < |Last(run).nodes| && Entered(Last(run).nodes[p], t)
    requires Confirmed(Last(run), Last(run).nodes[p], t, nodes)
    ensures var e := Entry(Last(run).nodes[p], t);
            forall q :: q in nodes ==> KeptOnce(run, q, t, e.key, Content(e)) && 0 <= q < |Last(run).nodes|
  {
    RunBacked(run);
    var s := Last(run);
    var n, e := s.nodes[p], Entry(s.nodes[p], t);
    hide IsRun, Inv, StoredOnce, Keeps;
    forall q | q in nodes ensures KeptOnce(run, q, t, e.key, Content(e)) && 0 <= q < |s.nodes| {
      if !Listed(n, t, q) {
        var x :| x in s.net && AckOf(x, t, q, e);
        StoredIsKept(run, q, t, e.key, Content(e));
      }
      var i :| 0 <= i < |run| && 0 <= q < |run[i].nodes| && Keeps(run[i].nodes[q], t, e.key, Content(e));
      RunKept(run, i, |run| - 1, q);
    }
  }

  lemma InNet(s: Cluster, L: Ledger, x: Message)
    requires Inv(s, L) && x in s.net
    ensures MessageOk(s.cfg, L, x) && DecidedAcked(L, s.trace)
  {
    hide MessageOk, NodesOk, LedgerOk, DecidedAcked, UnlocksSent;
  }

  lemma OvertakenWritten(s: Cluster, L: Ledger, t: int, e: Propagation.Transaction) returns (v: Stamped)
    requires Inv(s, L) && Overtaken(s.net, t, e)
    ensures WasWritten(s.trace, e.key, v) && v.timestamp > e.timestamp
  {
    var x :| x in s.net && Overtakes(x, t, e);
    InNet(s, L, x);
    hide Inv, DecidedAcked;
    v := Stamped(x.timestamp, x.value);
    RecordedWasWritten(L, s.trace, e.key, v);
  }

  lemma GivenUpWasKept(run: seq<Cluster>, s': Cluster, p: nat, t: int, readers: set<int>) returns (q: int)
    requires IsRun(run) && Next(Last(run), s') && p < |Last(run).nodes| && Entered(Last(run).nodes[p], t)
    requires p < |s'.nodes| ==> !Entered(s'.nodes[p], t)
    requires InRange(readers, |Last(run).nodes|) && |readers| >= Last(run).cfg.r
    ensures var e := Entry(Last(run).nodes[p], t);
            || (exists v :: WasWritten(Last(run).trace, e.key, v) && v.timestamp > e.timestamp)
            || (q in readers && KeptOnce(run, q, t, e.key, Content(e)))
  {
    var L := RunOk(run);
    var s := Last(run);
    assert |s.nodes| == s.cfg.n;
    StepProgress(s, s', L);
    hide IsRun, Inv, Next, AckStep;
    assert BookStep(s, s', p) && Dropped(s, s.nodes[p], t);
    q := 0;
    if Overtaken(s.net, t, Entry(s.nodes[p], t)) {
      var v := OvertakenWritten(s, L, t, Entry(s.nodes[p], t));
    } else {
      var nodes :| Confirmed(s, s.nodes[p], t, nodes);
      ConfirmedKept(run, p, t, nodes);
      q := Overlap(readers, nodes, |s.nodes|);
    }
  }

  /** A write leaves the book of its coordinator only when a newer write of the key has been
      acknowledged, or when every read quorum contains a node that keeps it to the end of
      the run, unless it was made to fall below it. */
  lemma GivenUpMeetsReaders(run: seq<Cluster>, j: nat, p: nat, t: int, readers: set<int>) returns (q: int)
    requires IsRun(run) && j + 1 < |run| && p < |run[j].nodes| && Entered(run[j].nodes[p], t)
    requires p < |run[j + 1].nodes| ==> !Entered(run[j + 1].nodes[p], t)
    requires InRange(readers, |run[j].nodes|) && |readers| >= run[j].cfg.r
    ensures var e := Entry(run[j].nodes[p], t);
            || (exists v :: WasWritten(run[j].trace, e.key, v) && v.timestamp > e.timestamp)
            || (q in readers && KeptOrSunk(run, q, t, e))
  {
    PrefixRun(run, j);
    assert Next(run[j], run[j + 1]);
    var e := Entry(run[j].nodes[p], t);
    assert Last(run[..j + 1]) == run[j];
    hide IsRun, Next, KeptOnce, KeptOrSunk, Entered;
    q := GivenUpWasKept(run[..j + 1], run[j + 1], p, t, readers);
    if q in readers && KeptOnce(run[..j + 1], q, t, e.key, Content(e)) { EntryKept(run, j, p, t, q); }
  }
}
