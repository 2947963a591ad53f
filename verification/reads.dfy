/** What a read finds, in every run and with quorums of any size: the newest of what R
    nodes, the coordinator among them, stored while the read went on. */
module Reads {
  import opened Packet
  import opened Sets
  import opened StagedStore
  import opened Node
  import opened Ledgers
  import opened Invariants
  import opened Handlers
  import opened Coordination
  import opened Clusters
  import opened Runs
  import opened Theorems
  import opened Locking
  import opened Timestamps
  import opened Confirmed
  import opened OwnWrites
  import Propagation

  // ---------- what handlers do to the replies gathered ----------

  predicate Reading(n: Node) { n.mode.CoordinatingFastRead? && n.quorumMembers.Some? }

  /** The coordinator of a read has a reply of node q. */
  predicate Replied(n: Node, q: int) {
    Reading(n) && q in n.quorumMembers.value && n.quorumMembers.value[q].kind.GetResponse?
  }

  predicate IsReply(m: Message) { m.kind.GetResponse? && m.ok }

  /** The replies at n' are those at n for the same read, and perhaps m. */
  ghost predicate RepliesFrom(n: Node, m: Message, n': Node) {
    forall q :: Replied(n', q) ==>
      && Reading(n) && n'.currentTxid == n.currentTxid && n'.clientRequest == n.clientRequest
      && (|| (Replied(n, q) && n'.quorumMembers.value[q] == n.quorumMembers.value[q])
          || (IsReply(m) && m.id == n.currentTxid && q == m.src && n'.quorumMembers.value[q] == m))
  }

  lemma SameReplies(n: Node, m: Message, n': Node)
    requires Reading(n') ==>
               && n'.mode == n.mode && n'.currentTxid == n.currentTxid && n'.clientRequest == n.clientRequest
               && n'.quorumMembers == n.quorumMembers
    ensures RepliesFrom(n, m, n')
  {}

  lemma NoRead(n: Node)
    ensures !Reading(Abort(n).node)
    ensures !n.mode.CoordinatingFastRead? ==> !Reading(CoordinateWrite(n).node)
  {
    hide LatestTimestamp;
  }

  lemma CountReplies(n: Node, m: Message, c: Choice)
    requires n.mode.CoordinatingFastRead? ==> m.kind.GetResponse? && m.id == n.currentTxid
    ensures RepliesFrom(n, m, CountReply(n, m, c).node)
  {
    hide Abort, CoordinateWrite;
    NoRead(n);
    if n.quorumMembers.Some? {
      NoRead(Counted(n, m));
      NoRead(Counted(n, m).(mode := CoordinatingWrite));
    }
  }

  lemma DispatchReplies(n: Node, m: Message, c: Choice)
    ensures RepliesFrom(n, m, Dispatch(n, m, c).node)
  {
    var n' := Dispatch(n, m, c).node;
    if IsVote(m) && n' != n {
      CountReplies(n, m, c);
      hide CountReply;
    } else {
      hide CountReply, Absorb, CommitStaged, Propagation.Response;
      OtherReplies(n, m, c);
    }
  }

  lemma OtherReplies(n: Node, m: Message, c: Choice)
    requires !IsVote(m) || Dispatch(n, m, c).node == n
    ensures RepliesFrom(n, m, Dispatch(n, m, c).node)
  {
    hide CountReply, Propagation.Response, StagedStore.Put, StagedStore.Commit;
    SameReplies(n, m, Dispatch(n, m, c).node);
  }

  lemma TakeNextReplies(n: Node, m: Message, c: Choice)
    requires n.mode.Idle? ==> n.quorumMembers.None?
    ensures RepliesFrom(n, m, TakeNext(n, c).node)
  {}

  lemma TimersReply(n: Node, m: Message)
    ensures RepliesFrom(n, ZERO_MESSAGE, Timeout(n).node) && RepliesFrom(n, ZERO_MESSAGE, RequestTimeout(n, m).node)
    ensures RepliesFrom(n, ZERO_MESSAGE, Fail(n)) && RepliesFrom(n, ZERO_MESSAGE, Recover(n))
    ensures RepliesFrom(n, ZERO_MESSAGE, StreamWrites(n).node)
  {
    hide Abort, Without, Propagation.Retire, Propagation.Requests;
    NoRead(n);
  }

  // ---------- who replies ----------

  predicate NoReplies(out: set<Message>) { forall x :: x in out ==> !IsReply(x) }

  lemma CoordinateSilent(n: Node)
    ensures NoReplies(Abort(n).out) && NoReplies(CoordinateWrite(n).out)
  {
    hide LatestTimestamp;
  }

  lemma CountSilent(n: Node, m: Message, c: Choice)
    ensures NoReplies(CountReply(n, m, c).out)
  {
    hide Abort, CoordinateWrite;
    CoordinateSilent(n);
    if n.quorumMembers.Some? {
      CoordinateSilent(Counted(n, m));
      CoordinateSilent(Counted(n, m).(mode := CoordinatingWrite));
    }
  }

  /** A reply to a read tells what its sender stores, with nothing staged there. */
  lemma DispatchSends(n: Node, m: Message, c: Choice, x: Message)
    requires x in Dispatch(n, m, c).out && IsReply(x)
    ensures x.src == n.id && x.id == m.id && x.key == m.key
    ensures || m.kind.TimestampRequest?
            || (m.kind.GetRequest? && n.uncommittedKey.None? && Stamped(x.timestamp, x.value) == Read(n, m.key))
  {
    hide CountReply;
    CountSilent(n, m, c);
  }

  lemma TakeNextSilent(n: Node, c: Choice)
    requires n.mode.Idle? ==> n.quorumMembers.None?
    ensures NoReplies(TakeNext(n, c).out) && TakeNext(n, c).reply.None?
  {}

  lemma TimersSilent(n: Node, m: Message)
    ensures NoReplies(Timeout(n).out) && NoReplies(RequestTimeout(n, m).out) && NoReplies(StreamWrites(n).out)
    ensures Answers(Timeout(n)) == Answers(RequestTimeout(n, m)) == Answers(StreamWrites(n)) == []
  {
    hide Without, Propagation.Retire;
  }

  // ---------- who answers a read ----------

  predicate ReadAnswer(m: Message) { m.kind.ClientReadResponse? && m.ok }

  /** The last reply of a read arrives at its coordinator. */
  predicate LastReply(n: Node, m: Message) {
    && Reading(n) && IsReply(m) && m.id == n.currentTxid
    && Lookup(n.quorumMembers, m.src).kind != GetResponse && Counted(n, m).numWaitingNodes == 0
  }

  lemma CountAnswers(n: Node, m: Message, c: Choice)
    requires n.mode.CoordinatingFastRead? ==> m.kind.GetResponse? && m.id == n.currentTxid
    requires CountReply(n, m, c).reply.Some? && ReadAnswer(CountReply(n, m, c).reply.value)
    ensures LastReply(n, m) && CountReply(n, m, c) == FinishRead(Counted(n, m), c.latest)
  {
    hide Abort, CoordinateWrite;
    NoReadAnswer(n);
    if n.quorumMembers.Some? {
      NoReadAnswer(Counted(n, m));
      NoReadAnswer(Counted(n, m).(mode := CoordinatingWrite));
    }
  }

  lemma NoReadAnswer(n: Node)
    ensures Abort(n).reply.Some? ==> !ReadAnswer(Abort(n).reply.value)
    ensures CoordinateWrite(n).reply.Some? ==> !ReadAnswer(CoordinateWrite(n).reply.value)
  {
    hide LatestTimestamp;
  }

  lemma DispatchAnswers(n: Node, m: Message, c: Choice)
    requires Dispatch(n, m, c).reply.Some? && ReadAnswer(Dispatch(n, m, c).reply.value)
    ensures var a := Dispatch(n, m, c).reply.value;
            || (&& IsRead(m) && n.config.r == 1 && !(n.uncommittedKey.Some? && |n.uncommittedKey.value| > 0)
                && a.id == m.id && a.src == n.id && a.key == m.key
                && Stamped(a.timestamp, a.value) == Read(n, m.key))
            || (LastReply(n, m) && a == FinishRead(Counted(n, m), c.latest).reply.value)
  {
    hide CountReply;
    if IsVote(m) && n.currentTxid == m.id && (n.mode.CoordinatingFastRead? ==> m.kind.GetResponse?) {
      if Dispatch(n, m, c) == CountReply(n, m, c) { CountAnswers(n, m, c); }
    }
  }

  // ---------- one step of the cluster ----------

  /** A read under this id has been asked for. */
  ghost predicate ReadAsked(trace: seq<Event>, id: int) {
    exists i :: 0 <= i < |trace| && trace[i].Invoked? && IsRead(trace[i].request) && trace[i].request.id == id
  }

  predicate ReadDone(e: Event) { e.Returned? && e.answer.kind.ClientReadResponse? }

  /** The node has no write staged that holds it. */
  predicate Unstaged(n: Node) { n.mode.ProcessingWrite? ==> n.uncommittedKey.None? }

  /** Node q stores v while the read goes on. */
  ghost predicate Shows(s: Cluster, q: int, id: int, key: Key, v: Stamped) {
    0 <= q < |s.nodes| && ReadAsked(s.trace, id) && Unstaged(s.nodes[q]) && Read(s.nodes[q], key) == v
  }

  ghost predicate ReplyShows(s: Cluster, x: Message) {
    Shows(s, x.src, x.id, x.key, Stamped(x.timestamp, x.value))
  }

  /** A reply to a read that has been sent. */
  ghost predicate ReplyTo(s: Cluster, x: Message) { x in s.net && IsReply(x) && ReadAsked(s.trace, x.id) }

  ghost predicate NewReplies(s: Cluster, s': Cluster) {
    forall x :: ReplyTo(s', x) ==> ReplyTo(s, x) || ReplyShows(s, x)
  }

  /** What a coordinator has of node q's reply: it had it before, or takes it from the net. */
  ghost predicate GoesOn(s: Cluster, n: Node, n': Node, q: int)
    requires Replied(n', q)
  {
    && Reading(n) && n'.currentTxid == n.currentTxid && n'.clientRequest == n.clientRequest
    && var x := n'.quorumMembers.value[q];
       || (Replied(n, q) && n.quorumMembers.value[q] == x)
       || (ReplyTo(s, x) && x.src == q && x.id == n.currentTxid && x.key == n.clientRequest.key)
  }

  ghost predicate NodesGoOn(s: Cluster, s': Cluster) {
    && |s'.nodes| == |s.nodes|
    && forall p, q :: 0 <= p < |s.nodes| && Replied(s'.nodes[p], q) ==> GoesOn(s, s.nodes[p], s'.nodes[p], q)
  }

  /** With reply x, the coordinator n has those of a whole read quorum, and answers the newest value. */
  ghost predicate Completes(s: Cluster, n: Node, x: Message, a: Message) {
    && Reading(n) && ReplyTo(s, x) && x.id == n.currentTxid == a.id && x.key == n.clientRequest.key == a.key
    && var members := n.quorumMembers.value[x.src := x];
       && |members| == s.cfg.r - 1 && a.src !in members && (forall q :: q in members ==> members[q].kind.GetResponse?)
       && IsLatest(Read(n, a.key), members, Stamped(a.timestamp, a.value))
  }

  /** Why a read is answered: from the coordinator's store alone, if R is 1, or with its last reply. */
  ghost predicate Answered(s: Cluster, a: Message) {
    && 0 <= a.src < |s.nodes| && ReadAsked(s.trace, a.id) && Unstaged(s.nodes[a.src])
    && (|| (s.cfg.r == 1 && Read(s.nodes[a.src], a.key) == Stamped(a.timestamp, a.value))
        || exists x :: Completes(s, s.nodes[a.src], x, a))
  }

  ghost predicate NewAnswers(s: Cluster, s': Cluster) {
    s'.trace == s.trace || (&& |s'.trace| == |s.trace| + 1 && s'.trace[..|s.trace|] == s.trace
                            && (ReadDone(s'.trace[|s.trace|]) ==> Answered(s, s'.trace[|s.trace|].answer)))
  }

  ghost predicate ReadStep(s: Cluster, s': Cluster) {
    s'.cfg == s.cfg && NewReplies(s, s') && NodesGoOn(s, s') && NewAnswers(s, s')
  }

  // ---------- steps that neither reply nor answer ----------

  lemma SameAsked(trace: seq<Event>, more: seq<Event>, id: int)
    requires forall i :: 0 <= i < |more| ==> more[i].Returned? || more[i].request.id != id
    ensures ReadAsked(trace + more, id) <==> ReadAsked(trace, id)
  {
    if ReadAsked(trace, id) {
      var i :| 0 <= i < |trace| && trace[i].Invoked? && IsRead(trace[i].request) && trace[i].request.id == id;
      assert (trace + more)[i] == trace[i];
    }
  }

  lemma SameNode(s: Cluster, n: Node, q: int)
    requires Replied(n, q)
    ensures GoesOn(s, n, n, q)
  {}

  /** Only node p changes, and only one effect is applied, with no reply and no answer in it. */
  lemma QuietRead(s: Cluster, p: int, e: Effect)
    requires 0 <= p < |s.nodes| && RepliesFrom(s.nodes[p], ZERO_MESSAGE, e.node) && NoReplies(e.out)
    requires Answers(e) == [] && (e.reply.Some? ==> !IsReply(e.reply.value))
    ensures ReadStep(s, Apply(s, p, e))
  {
    var s' := Apply(s, p, e);
    assert s'.trace == s.trace;
    forall r, q | 0 <= r < |s.nodes| && Replied(s'.nodes[r], q) ensures GoesOn(s, s.nodes[r], s'.nodes[r], q) {
      if r != p { SameNode(s, s.nodes[r], q); }
    }
    hide Replied, ReadAsked, GoesOn;
  }

  lemma ReplyAsked(s: Cluster, L: Ledger, x: Message)
    requires Inv(s, L) && x in s.net && IsReply(x)
    ensures Asked(s.trace, x.id)
  {
    NetMessage(s, L, x);
    assert RequestsKnown(L, s.trace);
    hide Inv;
    assert x.id in L.txs;
  }

  lemma AskedEarlier(s: Cluster, m: Message, id: int)
    requires NewId(s, m.id) && Asked(s.trace, id)
    ensures ReadAsked(s.trace + [Invoked(m)], id) <==> ReadAsked(s.trace, id)
  {
    SameAsked(s.trace, [Invoked(m)], id);
  }

  lemma InvokeRead(s: Cluster, s': Cluster, L: Ledger, m: Message)
    requires Inv(s, L) && Invoke(s, s', m)
    ensures ReadStep(s, s')
  {
    hide Inv, GoesOn, ReadAsked, Shows, Answered;
    forall x | ReplyTo(s', x) ensures ReplyTo(s, x) {
      ReplyAsked(s, L, x);
      AskedEarlier(s, m, x.id);
    }
    forall r, q | 0 <= r < |s.nodes| && Replied(s'.nodes[r], q) ensures GoesOn(s, s.nodes[r], s'.nodes[r], q) {
      SameNode(s, s.nodes[r], q);
    }
  }

  // ---------- a delivery ----------

  lemma ReadKnown(L: Ledger, trace: seq<Event>, id: int)
    requires RequestsKnown(L, trace)
    ensures ReadAsked(trace, id) <==> id in L.txs && IsRead(L.txs[id].request)
  {
    if id in L.txs {
      assert Asked(trace, id);
      var i :| 0 <= i < |trace| && trace[i].Invoked? && trace[i].request.id == id;
    }
  }

  /** What a node knows of the read it coordinates. */
  lemma ReadJob(s: Cluster, L: Ledger, p: int)
    requires Inv(s, L) && 0 <= p < |s.nodes| && Reading(s.nodes[p])
    ensures var n := s.nodes[p];
            && n.id == p && n.config == s.cfg && n.clientRequest.id == n.currentTxid && ReadAsked(s.trace, n.currentTxid)
            && ReadingJob(L, p, n) && n.quorumMembers.value.Keys == L.txs[n.currentTxid].members
            && |L.txs[n.currentTxid].members| == s.cfg.r - 1 && p !in L.txs[n.currentTxid].members
            && n.clientRequest.key == L.txs[n.currentTxid].request.key && IsRead(L.txs[n.currentTxid].request)
  {
    NodeAt(s, L, p);
    var n := s.nodes[p];
    assert RequestsKnown(L, s.trace);
    hide Inv;
    assert JobOk(L, p, n) && n.id == p && n.config == s.cfg;
    assert TxOk(s.cfg, L.history, n.currentTxid, L.txs[n.currentTxid]);
    hide NodeOk, LedgerOk, RequestsKnown, ReplyOk, Waits;
    ReadKnown(L, s.trace, n.currentTxid);
  }

  lemma ReplyKnown(s: Cluster, L: Ledger, m: Message)
    requires Inv(s, L) && m in s.net && m.id in L.txs
    ensures IsReply(m) && IsRead(L.txs[m.id].request) ==>
              m.key == L.txs[m.id].request.key && m.src in L.txs[m.id].members
    ensures m.kind.TimestampRequest? ==> !IsRead(L.txs[m.id].request)
  {
    NetMessage(s, L, m);
    hide Inv;
    ReadMessage(s.cfg, L, m);
  }

  lemma ReadMessage(cfg: Config, L: Ledger, m: Message)
    requires MessageOk(cfg, L, m) && m.id in L.txs
    ensures IsReply(m) && IsRead(L.txs[m.id].request) ==>
              m.key == L.txs[m.id].request.key && m.src in L.txs[m.id].members
    ensures m.kind.TimestampRequest? ==> !IsRead(L.txs[m.id].request)
  {}

  lemma FromNet(s: Cluster, m: Message)
    requires Available(s, m) && (m.kind.GetResponse? || m.kind.TimestampRequest? || m.kind.GetRequest?)
    ensures m in s.net
  {}

  /** A reply counted now is one to this read. */
  lemma CountedReply(s: Cluster, L: Ledger, m: Message, p: int)
    requires Inv(s, L) && Available(s, m) && 0 <= p < |s.nodes| && Reading(s.nodes[p])
    requires IsReply(m) && m.id == s.nodes[p].currentTxid
    ensures ReplyTo(s, m) && m.key == s.nodes[p].clientRequest.key && m.src in s.nodes[p].quorumMembers.value
  {
    ReadJob(s, L, p);
    FromNet(s, m);
    ReplyKnown(s, L, m);
    hide Inv, ReadingJob, Available, ReadAsked;
  }

  lemma DeliverGoesOn(s: Cluster, L: Ledger, m: Message, c: Choice, d: Choice, q: int)
    requires Inv(s, L) && Available(s, m)
    requires var n1 := Dispatch(s.nodes[m.dest], m, c).node; n1.mode.Idle? ==> n1.quorumMembers.None?
    requires Replied(TakeNext(Dispatch(s.nodes[m.dest], m, c).node, d).node, q)
    ensures GoesOn(s, s.nodes[m.dest], TakeNext(Dispatch(s.nodes[m.dest], m, c).node, d).node, q)
  {
    var n := s.nodes[m.dest];
    DispatchReplies(n, m, c);
    TakeNextReplies(Dispatch(n, m, c).node, ZERO_MESSAGE, d);
    hide Dispatch, TakeNext, Inv, ReplyTo;
    if IsReply(m) && m.id == n.currentTxid && Reading(n) { CountedReply(s, L, m, m.dest); }
    hide Available;
  }

  lemma DeliverSends(s: Cluster, L: Ledger, m: Message, c: Choice, x: Message)
    requires Inv(s, L) && Available(s, m) && s.nodes[m.dest].id == m.dest
    requires x in Dispatch(s.nodes[m.dest], m, c).out && IsReply(x) && ReadAsked(s.trace, x.id)
    ensures ReplyShows(s, x)
  {
    var n := s.nodes[m.dest];
    DispatchSends(n, m, c, x);
    hide Dispatch;
    FromNet(s, m);
    assert RequestsKnown(L, s.trace);
    ReadKnown(L, s.trace, x.id);
    ReplyKnown(s, L, m);
    hide Inv, ReadAsked;
  }

  lemma LastReplyCompletes(s: Cluster, L: Ledger, m: Message, c: Choice)
    requires Inv(s, L) && Available(s, m) && LastReply(s.nodes[m.dest], m) && ChoiceOk(s.nodes[m.dest], m, c)
    ensures Answered(s, FinishRead(Counted(s.nodes[m.dest], m), c.latest).reply.value)
  {
    var p := m.dest;
    var n := s.nodes[p];
    ReadJob(s, L, p);
    CountedReply(s, L, m, p);
    hide Inv;
    AllReplied(n, L.txs[n.currentTxid].members, m, L, p);
    hide ReadingJob, Available, ReadAsked, ReplyTo, IsLatest;
    var a := FinishRead(Counted(n, m), c.latest).reply.value;
    assert c.latest == Stamped(a.timestamp, a.value);
    assert Completes(s, n, m, a);
  }

  /** The last reply is in: there is one of each member. */
  lemma AllReplied(n: Node, peers: set<int>, m: Message, L: Ledger, p: int)
    requires LastReply(n, m) && ReadingJob(L, p, n) && peers == L.txs[n.currentTxid].members
    requires n.quorumMembers.value.Keys == peers && m.src in peers
    ensures var members := n.quorumMembers.value[m.src := m];
            |members| == |peers| && members.Keys == peers && forall q :: q in members ==> members[q].kind.GetResponse?
  {
    var members := n.quorumMembers.value;
    AwaitingStep(members, peers, m);
    NobodyAwaited(members[m.src := m], peers, GetResponse);
    assert members[m.src := m].Keys == peers;
    assert |members[m.src := m]| == |members[m.src := m].Keys|;
  }

  lemma LocalReadAnswered(s: Cluster, L: Ledger, m: Message, a: Message)
    requires Inv(s, L) && Available(s, m) && IsRead(m) && OnceOk(s.cfg, L, m)
    requires var n := s.nodes[m.dest];
             && n.config.r == 1 && !(n.uncommittedKey.Some? && |n.uncommittedKey.value| > 0)
             && a.id == m.id && a.src == n.id && a.key == m.key && Stamped(a.timestamp, a.value) == Read(n, m.key)
    ensures Answered(s, a)
  {
    NodeAt(s, L, m.dest);
    var n := s.nodes[m.dest];
    assert StagingOk(n) && n.id == m.dest && n.config == s.cfg;
    assert TxOk(s.cfg, L.history, m.id, L.txs[m.id]);
    assert RequestsKnown(L, s.trace);
    ReadKnown(L, s.trace, m.id);
    hide Inv, NodeOk, LedgerOk, ReadAsked;
  }

  lemma DeliverAnswers(s: Cluster, L: Ledger, m: Message, c: Choice)
    requires Inv(s, L) && Available(s, m) && ChoiceOk(s.nodes[m.dest], m, c) && (OneShot(m) ==> OnceOk(s.cfg, L, m))
    requires var e := Dispatch(s.nodes[m.dest], m, c); e.reply.Some? && ReadAnswer(e.reply.value)
    ensures Answered(s, Dispatch(s.nodes[m.dest], m, c).reply.value)
  {
    var n := s.nodes[m.dest];
    DispatchAnswers(n, m, c);
    hide Inv, OnceOk, ChoiceOk, Answered;
    if LastReply(n, m) && Dispatch(n, m, c).reply.value == FinishRead(Counted(n, m), c.latest).reply.value {
      LastReplyCompletes(s, L, m, c);
    } else {
      LocalReadAnswered(s, L, m, Dispatch(n, m, c).reply.value);
    }
  }

  lemma DeliverRead(s: Cluster, s': Cluster, L: Ledger, m: Message, c: Choice, d: Choice)
    requires Inv(s, L) && Deliver(s, s', m, c, d) && |s.trace| + 1 < TIMESTAMPS
    ensures ReadStep(s, s')
  {
    hide Inv, NodeOk, LedgerOk, EffectOk, Dispatch, TakeNext, Deliverable, ChoiceOk, LateStamp, OnceOk, PeersOk;
    hide ReadStep, Answered, GoesOn;
    ConsumeOk(s, L, m);
    var p, s1 := m.dest, Consume(s, m);
    if s.nodes[p].disabled {
      IdleStep(s, s');
    } else {
      var n, e := s.nodes[p], Dispatch(s.nodes[p], m, c);
      var f := TakeNext(e.node, d);
      NodeAt(s1, L, p);
      NodeId(s.cfg, L, p, n);
      var L1 := DispatchOk(s.cfg, L, p, n, m, c);
      EffectNode(s.cfg, L, L1, p, m, e);
      IdleHasNoQuorum(s.cfg, L1, p, e.node);
      EffectParts(s.cfg, L, L1, p, m, e);
      TakeNextSilent(e.node, d);
      forall q | Replied(f.node, q) ensures GoesOn(s, n, f.node, q) { DeliverGoesOn(s, L, m, c, d, q); }
      forall x | x in e.out && IsReply(x) && ReadAsked(s.trace, x.id) ensures ReplyShows(s, x) {
        DeliverSends(s, L, m, c, x);
      }
      if e.reply.Some? && ReadAnswer(e.reply.value) { DeliverAnswers(s, L, m, c); }
      AnswersNoReply(s.cfg, L, L1, e);
      BothEffects(s, s', s1, p, e, f);
    }
  }

  lemma AnswersNoReply(cfg: Config, L: Ledger, L': Ledger, e: Effect)
    requires ReplySound(cfg, L, L', e.reply)
    ensures e.reply.Some? ==> !IsReply(e.reply.value)
  {}

  lemma IdleStep(s: Cluster, s': Cluster)
    requires s'.nodes == s.nodes && s'.net == s.net && s'.trace == s.trace && s'.cfg == s.cfg
    ensures ReadStep(s, s')
  {
    forall r, q | 0 <= r < |s.nodes| && Replied(s'.nodes[r], q) ensures GoesOn(s, s.nodes[r], s'.nodes[r], q) {
      SameNode(s, s.nodes[r], q);
    }
    hide ReadAsked;
  }

  lemma BothEffects(s: Cluster, s': Cluster, s1: Cluster, p: int, e: Effect, f: Effect)
    requires s1 == s.(once := s1.once) && Moves(s1, s', p, e, f)
    requires NoReplies(f.out) && f.reply.None? && (e.reply.Some? ==> !IsReply(e.reply.value))
    requires forall q :: Replied(f.node, q) ==> GoesOn(s, s.nodes[p], f.node, q)
    requires forall x :: x in e.out && IsReply(x) && ReadAsked(s.trace, x.id) ==> ReplyShows(s, x)
    requires e.reply.Some? && ReadAnswer(e.reply.value) ==> Answered(s, e.reply.value)
    ensures ReadStep(s, s')
  {
    hide Answered, ReplyShows, ReadAsked;
    assert s'.trace == s.trace + Answers(e);
    assert NodesGoOn(s, s') by {
      forall r, q | 0 <= r < |s.nodes| && Replied(s'.nodes[r], q) ensures GoesOn(s, s.nodes[r], s'.nodes[r], q) {
        if r != p { SameNode(s, s.nodes[r], q); }
      }
    }
    hide GoesOn, Replied, NodesGoOn;
    forall x | ReplyTo(s', x) ensures ReplyTo(s, x) || ReplyShows(s, x) {
      SameAsked(s.trace, Answers(e), x.id);
    }
  }

  // ---------- the other steps ----------

  lemma TickRead(s: Cluster, s': Cluster, L: Ledger, p: int, d: Choice)
    requires Inv(s, L) && Tick(s, s', p, d)
    ensures ReadStep(s, s')
  {
    hide Inv, NodeOk, LedgerOk, EffectOk, TakeNext, PeersOk, Abort, ReadStep, GoesOn, Replied;
    NodeAt(s, L, p);
    var n, e := s.nodes[p], Timeout(s.nodes[p]);
    TimersReply(n, ZERO_MESSAGE);
    TimersSilent(n, ZERO_MESSAGE);
    var L1 := TimeoutOk(s.cfg, L, p, n);
    EffectNode(s.cfg, L, L1, p, ZERO_MESSAGE, e);
    EffectParts(s.cfg, L, L1, p, ZERO_MESSAGE, e);
    AnswersNoReply(s.cfg, L, L1, e);
    hide Timeout;
    IdleHasNoQuorum(s.cfg, L1, p, e.node);
    TakeNextSilent(e.node, d);
    TakeNextReplies(e.node, ZERO_MESSAGE, d);
    var f := TakeNext(e.node, d);
    forall q | Replied(f.node, q) ensures GoesOn(s, n, f.node, q) { RepliesGoOn(s, n, e.node, f.node, q); }
    BothEffects(s, s', s, p, e, f);
  }

  lemma RepliesGoOn(s: Cluster, n: Node, n1: Node, n': Node, q: int)
    requires RepliesFrom(n, ZERO_MESSAGE, n1) && RepliesFrom(n1, ZERO_MESSAGE, n') && Replied(n', q)
    ensures GoesOn(s, n, n', q)
  {}

  lemma StepRead(s: Cluster, s': Cluster, L: Ledger)
    requires Inv(s, L) && Next(s, s')
    ensures ReadStep(s, s')
  {
    hide Inv, Deliver, Tick, Fail, Recover, RequestTimeout, StreamWrites, ReadStep, Invoke, RepliesFrom, NoReplies;
    if m :| Invoke(s, s', m) {
      InvokeRead(s, s', L, m);
    } else if m, c, d :| Deliver(s, s', m, c, d) {
      DeliverRead(s, s', L, m, c, d);
    } else if p, d :| Tick(s, s', p, d) {
      TickRead(s, s', L, p, d);
    } else if p, m :| Expire(s, s', p, m) {
      TimersReply(s.nodes[p], m);
      TimersSilent(s.nodes[p], m);
      RefusesNoRead(s.nodes[p], m);
      QuietRead(s, p, RequestTimeout(s.nodes[p], m));
    } else if p :| Crash(s, s', p) {
      TimersReply(s.nodes[p], ZERO_MESSAGE);
      SilentRead(s, p, Fail(s.nodes[p]));
    } else if p :| Restart(s, s', p) {
      TimersReply(s.nodes[p], ZERO_MESSAGE);
      SilentRead(s, p, Recover(s.nodes[p]));
    } else {
      var p :| Clusters.Propagate(s, s', p);
      TimersReply(s.nodes[p], ZERO_MESSAGE);
      TimersSilent(s.nodes[p], ZERO_MESSAGE);
      RefusesNoRead(s.nodes[p], ZERO_MESSAGE);
      QuietRead(s, p, StreamWrites(s.nodes[p]));
    }
  }

  lemma SilentRead(s: Cluster, p: int, n': Node)
    requires 0 <= p < |s.nodes| && RepliesFrom(s.nodes[p], ZERO_MESSAGE, n')
    ensures ReadStep(s, Apply(s, p, Silent(n')))
  {
    QuietRead(s, p, Silent(n'));
    hide ReadStep;
  }

  lemma RefusesNoRead(n: Node, m: Message)
    ensures RequestTimeout(n, m).reply.Some? ==> !IsReply(RequestTimeout(n, m).reply.value)
    ensures StreamWrites(n).reply.None?
  {
    hide Without, Propagation.Retire;
  }

  // ---------- whole runs ----------

  /** At moment k of the run, before the answer at b is given, node q stores v while the read goes on. */
  ghost predicate ShowsAt(run: seq<Cluster>, k: nat, q: int, id: int, key: Key, v: Stamped) {
    k < |run| && Shows(run[k], q, id, key, v)
  }

  ghost predicate Shown(run: seq<Cluster>, q: int, id: int, key: Key, v: Stamped) {
    exists k: nat :: ShowsAt(run, k, q, id, key, v)
  }

  /** The reply of q that the coordinator n has. */
  ghost predicate MemberShown(run: seq<Cluster>, n: Node, q: int)
    requires Replied(n, q)
  {
    var x := n.quorumMembers.value[q];
    Shown(run, q, n.currentTxid, n.clientRequest.key, Stamped(x.timestamp, x.value))
  }

  ghost predicate RepliesShown(run: seq<Cluster>)
    requires |run| > 0
  {
    && (forall x :: ReplyTo(Last(run), x) ==> Shown(run, x.src, x.id, x.key, Stamped(x.timestamp, x.value)))
    && (forall p, q :: 0 <= p < |Last(run).nodes| && Replied(Last(run).nodes[p], q) ==>
          MemberShown(run, Last(run).nodes[p], q))
  }

  lemma ShownLater(run: seq<Cluster>, s': Cluster, q: int, id: int, key: Key, v: Stamped)
    requires Shown(run, q, id, key, v)
    ensures Shown(run + [s'], q, id, key, v)
  {
    hide Shows;
    var k: nat :| ShowsAt(run, k, q, id, key, v);
    assert ShowsAt(run + [s'], k, q, id, key, v);
  }

  lemma ReplyShown(run: seq<Cluster>, s': Cluster, x: Message)
    requires |run| > 0 && RepliesShown(run) && ReadStep(Last(run), s') && ReplyTo(s', x)
    ensures Shown(run + [s'], x.src, x.id, x.key, Stamped(x.timestamp, x.value))
  {
    var s := Last(run);
    assert ReplyTo(s, x) || ReplyShows(s, x);
    if ReplyTo(s, x) {
      ShownLater(run, s', x.src, x.id, x.key, Stamped(x.timestamp, x.value));
    } else {
      assert (run + [s'])[|run| - 1] == s;
      assert ShowsAt(run + [s'], |run| - 1, x.src, x.id, x.key, Stamped(x.timestamp, x.value));
    }
    hide ReadStep, RepliesShown, Shows;
  }

  lemma MemberStays(run: seq<Cluster>, s': Cluster, p: int, q: int)
    requires |run| > 0 && RepliesShown(run) && ReadStep(Last(run), s')
    requires 0 <= p < |s'.nodes| && Replied(s'.nodes[p], q)
    ensures MemberShown(run + [s'], s'.nodes[p], q)
  {
    var s, n' := Last(run), s'.nodes[p];
    var x := n'.quorumMembers.value[q];
    assert GoesOn(s, s.nodes[p], n', q);
    assert Shown(run, q, n'.currentTxid, n'.clientRequest.key, Stamped(x.timestamp, x.value)) by {
      if Replied(s.nodes[p], q) { assert MemberShown(run, s.nodes[p], q); }
    }
    hide ReadStep, RepliesShown, GoesOn, Shown;
    ShownLater(run, s', q, n'.currentTxid, n'.clientRequest.key, Stamped(x.timestamp, x.value));
  }

  lemma {:induction false} RunShown(run: seq<Cluster>)
    requires IsRun(run)
    ensures RepliesShown(run)
  {
    hide Inv, Next, ReadStep, Replied, Shown, ReplyTo, MemberShown;
    if |run| == 1 {
      FirstShown(run);
    } else {
      var shorter, s' := run[..|run| - 1], run[|run| - 1];
      PrefixRun(run, |run| - 2);
      assert run[..|run| - 2 + 1] == shorter && shorter + [s'] == run;
      RunShown(shorter);
      var L := RunOk(shorter);
      assert Next(run[|run| - 2], run[|run| - 2 + 1]);
      StepRead(Last(shorter), s', L);
      forall x | ReplyTo(s', x) ensures Shown(run, x.src, x.id, x.key, Stamped(x.timestamp, x.value)) {
        ReplyShown(shorter, s', x);
      }
      forall p, q | 0 <= p < |s'.nodes| && Replied(s'.nodes[p], q)
        ensures MemberShown(run, s'.nodes[p], q)
      {
        MemberStays(shorter, s', p, q);
      }
    }
  }

  lemma FirstShown(run: seq<Cluster>)
    requires |run| == 1 && Init(run[0])
    ensures RepliesShown(run)
  {}

  // ---------- what an answered read has found ----------

  /** At moment k, after the read was asked for and before its answer, the b-th event, was
      given, node q stores nothing newer than the answer. */
  ghost predicate ReadAt(run: seq<Cluster>, k: nat, q: int, a: Message, b: nat) {
    && k < |run| && 0 <= q < |run[k].nodes| && ReadAsked(run[k].trace, a.id) && |run[k].trace| <= b
    && Unstaged(run[k].nodes[q]) && Read(run[k].nodes[q], a.key).timestamp <= a.timestamp
  }

  /** R nodes, the coordinator among them, each seen at a moment during the read: the answer
      is what one of them stored, and no older than what any of them stored. */
  ghost predicate FoundBy(run: seq<Cluster>, moments: map<int, nat>, a: Message, b: nat)
    requires |run| > 0
  {
    && |moments| == Last(run).cfg.r && a.src in moments
    && (forall q :: q in moments ==> ReadAt(run, moments[q], q, a, b))
    && exists q :: q in moments && StoresAt(run, moments[q], q, a.key, Stamped(a.timestamp, a.value))
  }

  ghost predicate StoresAt(run: seq<Cluster>, k: nat, q: int, key: Key, v: Stamped) {
    k < |run| && 0 <= q < |run[k].nodes| && Read(run[k].nodes[q], key) == v
  }

  ghost function Moment(run: seq<Cluster>, q: int, id: int, key: Key, v: Stamped): (k: nat)
    requires Shown(run, q, id, key, v)
    ensures ShowsAt(run, k, q, id, key, v)
  {
    var k: nat :| ShowsAt(run, k, q, id, key, v);
    k
  }

  lemma MembersShown(run: seq<Cluster>, n: Node, x: Message, a: Message, q: int)
    requires |run| > 0 && RepliesShown(run) && Completes(Last(run), n, x, a) && n in Last(run).nodes
    requires q in n.quorumMembers.value[x.src := x]
    ensures var y := n.quorumMembers.value[x.src := x][q];
            Shown(run, q, a.id, a.key, Stamped(y.timestamp, y.value)) && y.timestamp <= a.timestamp
  {
    var p :| 0 <= p < |Last(run).nodes| && Last(run).nodes[p] == n;
    hide Shown;
    if q != x.src { assert Replied(n, q) && MemberShown(run, n, q); }
  }

  lemma LocallyFound(run: seq<Cluster>, a: Message) returns (moments: map<int, nat>)
    requires IsRun(run) && Answered(Last(run), a) && Last(run).cfg.r == 1
    requires Read(Last(run).nodes[a.src], a.key) == Stamped(a.timestamp, a.value)
    ensures FoundBy(run, moments, a, |Last(run).trace|)
  {
    var now: nat := |run| - 1;
    hide IsRun, ReadAsked;
    moments := map[a.src := now];
    assert StoresAt(run, moments[a.src], a.src, a.key, Stamped(a.timestamp, a.value));
    assert ReadAt(run, moments[a.src], a.src, a, |Last(run).trace|);
  }

  ghost predicate AllShown(run: seq<Cluster>, members: map<int, Message>, a: Message) {
    forall q :: q in members ==>
      && Shown(run, q, a.id, a.key, Stamped(members[q].timestamp, members[q].value))
      && members[q].timestamp <= a.timestamp
  }

  ghost function Moments(run: seq<Cluster>, members: map<int, Message>, a: Message): (moments: map<int, nat>)
    requires AllShown(run, members, a)
    ensures moments.Keys == members.Keys && |moments| == |members|
    ensures forall q :: q in members ==>
              ShowsAt(run, moments[q], q, a.id, a.key, Stamped(members[q].timestamp, members[q].value))
  {
    var moments := map q | q in members :: Moment(run, q, a.id, a.key,
        Stamped(members[q].timestamp, members[q].value));
    assert moments.Keys == members.Keys;
    assert |moments| == |moments.Keys| && |members| == |members.Keys|;
    moments
  }

  lemma ShownIsRead(run: seq<Cluster>, k: nat, q: int, a: Message, v: Stamped)
    requires IsRun(run) && ShowsAt(run, k, q, a.id, a.key, v) && v.timestamp <= a.timestamp
    ensures ReadAt(run, k, q, a, |Last(run).trace|)
  {
    hide IsRun, ReadAsked;
    TracesGrow(run, k, |run| - 1);
  }

  lemma AllMembersShown(run: seq<Cluster>, n: Node, x: Message, a: Message) returns (members: map<int, Message>)
    requires |run| > 0 && RepliesShown(run) && Completes(Last(run), n, x, a) && n in Last(run).nodes
    ensures AllShown(run, members, a) && |members| == Last(run).cfg.r - 1 && a.src !in members
    ensures IsLatest(Read(n, a.key), members, Stamped(a.timestamp, a.value))
  {
    members := n.quorumMembers.value[x.src := x];
    hide RepliesShown, Shown, IsLatest, ReplyTo;
    forall q | q in members
      ensures Shown(run, q, a.id, a.key, Stamped(members[q].timestamp, members[q].value))
      ensures members[q].timestamp <= a.timestamp
    {
      MembersShown(run, n, x, a, q);
    }
  }

  lemma MembersRead(run: seq<Cluster>, members: map<int, Message>, moments: map<int, nat>, a: Message)
    requires IsRun(run) && AllShown(run, members, a) && members.Keys <= moments.Keys
    requires forall q :: q in members ==>
               ShowsAt(run, moments[q], q, a.id, a.key, Stamped(members[q].timestamp, members[q].value))
    ensures forall q :: q in members ==> ReadAt(run, moments[q], q, a, |Last(run).trace|)
  {
    assert |run| > 0;
    hide IsRun, AllShown, ReadAt, ShowsAt;
    forall q | q in members ensures ReadAt(run, moments[q], q, a, |Last(run).trace|) {
      ShownBounds(run, members, a, q);
      ShownIsRead(run, moments[q], q, a, Stamped(members[q].timestamp, members[q].value));
    }
  }

  lemma QuorumFound(run: seq<Cluster>, x: Message, a: Message) returns (moments: map<int, nat>)
    requires IsRun(run) && RepliesShown(run) && Answered(Last(run), a)
    requires Completes(Last(run), Last(run).nodes[a.src], x, a)
    ensures FoundBy(run, moments, a, |Last(run).trace|)
  {
    CoordinatorShown(run, a);
    var v := Read(Last(run).nodes[a.src], a.key);
    hide IsRun, RepliesShown, Answered, Completes, AllShown, ReadAt, ShowsAt, IsLatest, Read, FoundBy;
    var members := AllMembersShown(run, Last(run).nodes[a.src], x, a);
    moments := WithCoordinator(run, members, a);
    MembersRead(run, members, moments, a);
    LatestBounds(v, members, Stamped(a.timestamp, a.value));
    ShownIsRead(run, |run| - 1, a.src, a, v);
    Assembled(run, members, moments, a);
  }

  lemma Assembled(run: seq<Cluster>, members: map<int, Message>, moments: map<int, nat>, a: Message)
    requires |run| > 0 && 0 <= a.src < |Last(run).nodes| && moments.Keys == members.Keys + {a.src}
    requires |moments| == Last(run).cfg.r && moments[a.src] == |run| - 1 && a.src !in members
    requires IsLatest(Read(Last(run).nodes[a.src], a.key), members, Stamped(a.timestamp, a.value))
    requires forall q :: q in members ==>
               ShowsAt(run, moments[q], q, a.id, a.key, Stamped(members[q].timestamp, members[q].value))
    requires forall q :: q in members ==> ReadAt(run, moments[q], q, a, |Last(run).trace|)
    requires ReadAt(run, |run| - 1, a.src, a, |Last(run).trace|)
    ensures FoundBy(run, moments, a, |Last(run).trace|)
  {
    NewestFound(run, members, moments, a);
    hide ShowsAt, IsLatest, ReadAt, StoresAt, Read;
    forall q | q in moments ensures ReadAt(run, moments[q], q, a, |Last(run).trace|) {
      assert q == a.src || q in members;
    }
  }

  lemma ShownBounds(run: seq<Cluster>, members: map<int, Message>, a: Message, q: int)
    requires AllShown(run, members, a) && q in members
    ensures members[q].timestamp <= a.timestamp
  {}

  lemma LatestBounds(local: Stamped, replies: map<int, Message>, best: Stamped)
    requires IsLatest(local, replies, best)
    ensures local.timestamp <= best.timestamp
  {}

  lemma CoordinatorShown(run: seq<Cluster>, a: Message)
    requires |run| > 0 && Answered(Last(run), a)
    ensures ShowsAt(run, |run| - 1, a.src, a.id, a.key, Read(Last(run).nodes[a.src], a.key))
  {
    hide ReadAsked, Completes;
  }

  lemma WithCoordinator(run: seq<Cluster>, members: map<int, Message>, a: Message) returns (moments: map<int, nat>)
    requires |run| > 0 && AllShown(run, members, a) && a.src !in members
    ensures moments.Keys == members.Keys + {a.src} && |moments| == |members| + 1 && moments[a.src] == |run| - 1
    ensures forall q :: q in members ==>
              ShowsAt(run, moments[q], q, a.id, a.key, Stamped(members[q].timestamp, members[q].value))
  {
    hide ShowsAt, Shown;
    var others := Moments(run, members, a);
    hide AllShown;
    var now: nat := |run| - 1;
    moments := others[a.src := now];
  }

  lemma NewestFound(run: seq<Cluster>, members: map<int, Message>, moments: map<int, nat>, a: Message)
    requires |run| > 0 && 0 <= a.src < |Last(run).nodes| && a.src in moments && moments[a.src] == |run| - 1
    requires IsLatest(Read(Last(run).nodes[a.src], a.key), members, Stamped(a.timestamp, a.value))
    requires a.src !in members && forall q :: q in members ==>
               && q in moments
               && ShowsAt(run, moments[q], q, a.id, a.key, Stamped(members[q].timestamp, members[q].value))
    ensures exists q :: q in moments && StoresAt(run, moments[q], q, a.key, Stamped(a.timestamp, a.value))
  {
    hide ReadAsked;
    var v := Stamped(a.timestamp, a.value);
    if Read(Last(run).nodes[a.src], a.key) == v {
      assert StoresAt(run, moments[a.src], a.src, a.key, v);
    } else {
      var q :| q in members && v == Stamped(members[q].timestamp, members[q].value);
      assert ShowsAt(run, moments[q], q, a.id, a.key, v);
      assert StoresAt(run, moments[q], q, a.key, v);
    }
  }

  lemma FoundLater(run: seq<Cluster>, s': Cluster, moments: map<int, nat>, a: Message, b: nat)
    requires |run| > 0 && FoundBy(run, moments, a, b) && s'.cfg == Last(run).cfg
    ensures FoundBy(run + [s'], moments, a, b)
  {
    hide ReadAsked;
    var all := run + [s'];
    forall q | q in moments ensures ReadAt(all, moments[q], q, a, b) {
      assert ReadAt(run, moments[q], q, a, b);
      assert all[moments[q]] == run[moments[q]];
    }
    var q :| q in moments && StoresAt(run, moments[q], q, a.key, Stamped(a.timestamp, a.value));
    assert all[moments[q]] == run[moments[q]];
    assert StoresAt(all, moments[q], q, a.key, Stamped(a.timestamp, a.value));
  }

  /** In every run and every configuration, each answered read is the newest of what R nodes
      stored, each at some moment between request and answer. */
  lemma {:induction false} ReadsTheNewest(run: seq<Cluster>, b: nat) returns (moments: map<int, nat>)
    requires IsRun(run) && b < |Last(run).trace| && ReadDone(Last(run).trace[b])
    ensures FoundBy(run, moments, Last(run).trace[b].answer, b)
  {
    hide Inv, Next, NewReplies, NodesGoOn, FoundBy, RepliesShown, Answered;
    var shorter, s' := run[..|run| - 1], Last(run);
    if |run| == 1 {
      assert false;
    }
    PrefixRun(run, |run| - 2);
    assert run[..|run| - 2 + 1] == shorter && shorter + [s'] == run;
    var L := RunOk(shorter);
    assert Next(run[|run| - 2], run[|run| - 2 + 1]);
    StepRead(Last(shorter), s', L);
    var a := s'.trace[b].answer;
    if b < |Last(shorter).trace| {
      assert Last(shorter).trace[b] == s'.trace[b];
      moments := ReadsTheNewest(shorter, b);
    } else {
      RunShown(shorter);
      moments := AnswerFound(shorter, a);
    }
    FoundLater(shorter, s', moments, a, b);
  }

  lemma AnswerFound(run: seq<Cluster>, a: Message) returns (moments: map<int, nat>)
    requires IsRun(run) && RepliesShown(run) && Answered(Last(run), a)
    ensures FoundBy(run, moments, a, |Last(run).trace|)
  {
    var s := Last(run);
    hide IsRun, RepliesShown, FoundBy, Completes, ReadAsked;
    if s.cfg.r == 1 && Read(s.nodes[a.src], a.key) == Stamped(a.timestamp, a.value) {
      moments := LocallyFound(run, a);
    } else {
      var x :| Completes(s, s.nodes[a.src], x, a);
      moments := QuorumFound(run, x, a);
    }
  }

  // ---------- reads of a write given up ----------

  lemma AskedLater(run: seq<Cluster>, i: nat, j: nat, id: int)
    requires IsRun(run) && i < |run| && j < |run| && ReadAsked(run[i].trace, id) && !ReadAsked(run[j].trace, id)
    ensures j < i
  {
    hide IsRun;
    if i <= j {
      TracesGrow(run, i, j);
      AskedStill(run[i].trace, run[j].trace, id);
    }
  }

  lemma AskedStill(trace: seq<Event>, longer: seq<Event>, id: int)
    requires trace <= longer && ReadAsked(trace, id)
    ensures ReadAsked(longer, id)
  {
    var i :| 0 <= i < |trace| && trace[i].Invoked? && IsRead(trace[i].request) && trace[i].request.id == id;
    assert longer[i] == trace[i];
  }

  /** Node q once kept the write of an entry of moment j; at a later moment k, when nothing is
      staged there, it stores it or something newer, or a commit has made it fall below it. */
  lemma KeptThen(run: seq<Cluster>, j: nat, k: nat, p: nat, t: int, q: int)
    requires IsRun(run) && j <= k < |run| && p < |run[j].nodes| && Entered(run[j].nodes[p], t)
    requires var e := Entry(run[j].nodes[p], t); KeptOnce(run[..j + 1], q, t, e.key, Content(e))
    requires 0 <= q < |run[k].nodes| && Unstaged(run[k].nodes[q])
    ensures var e := Entry(run[j].nodes[p], t);
            || e.timestamp <= Read(run[k].nodes[q], e.key).timestamp
            || exists i: nat :: SinksAt(run, i, q, e.key, e.timestamp)
  {
    var e, part := Entry(run[j].nodes[p], t), run[..k + 1];
    PrefixRun(run, k);
    assert part[j] == run[j] && part[..j + 1] == run[..j + 1] && Last(part) == run[k];
    hide IsRun, KeptOnce, SinksAt, Unstaged, Keeps;
    EntryKept(part, j, p, t, q);
    if Keeps(run[k].nodes[q], t, e.key, Content(e)) {
      KeepsUnstaged(run[k].nodes[q], t, e.key, Content(e));
    } else {
      var i: nat :| SinksAt(part, i, q, e.key, e.timestamp);
      SinksInRun(run, k, i, q, e.key, e.timestamp);
    }
  }

  lemma KeepsUnstaged(n: Node, t: int, key: Key, v: Stamped)
    requires Keeps(n, t, key, v) && Unstaged(n)
    ensures v.timestamp <= Read(n, key).timestamp
  {}

  lemma SinksInRun(run: seq<Cluster>, k: nat, i: nat, q: nat, key: Key, timestamp: nat)
    requires k < |run| && SinksAt(run[..k + 1], i, q, key, timestamp)
    ensures SinksAt(run, i, q, key, timestamp)
  {
    hide CommitsBelow;
    assert run[..k + 1][i] == run[i] && run[..k + 1][i + 1] == run[i + 1];
  }

  lemma ReadersOf(run: seq<Cluster>, j: nat, moments: map<int, nat>, a: Message, b: nat)
    requires IsRun(run) && j < |run| && FoundBy(run, moments, a, b)
    ensures InRange(moments.Keys, |run[j].nodes|) && |moments.Keys| == run[j].cfg.r
  {
    assert |run| > 0;
    hide IsRun, ReadAt, StoresAt;
    SizeAt(run, j);
    SameConfig(run, j, |run| - 1);
    forall q | q in moments ensures 0 <= q < |run[j].nodes| {
      ReaderOf(run, moments[q], q, a, b);
    }
    assert |moments| == |moments.Keys|;
  }

  lemma ReaderOf(run: seq<Cluster>, k: nat, q: int, a: Message, b: nat)
    requires IsRun(run) && ReadAt(run, k, q, a, b)
    ensures 0 <= q < Last(run).cfg.n
  {
    SizeAt(run, k);
    SameConfig(run, k, |run| - 1);
    hide IsRun, ReadAsked;
  }

  lemma SizeAt(run: seq<Cluster>, i: nat)
    requires IsRun(run) && i < |run|
    ensures |run[i].nodes| == run[i].cfg.n
  {
    PrefixRun(run, i);
    var L := RunOk(run[..i + 1]);
    assert run[..i + 1][i] == run[i];
    hide IsRun;
  }

  /** Once its coordinator has given a write up, every read asked for later returns it or
      something newer, unless a newer write had been acknowledged by then, or a commit has
      made some node fall below it. */
  lemma GivenUpIsRead(run: seq<Cluster>, j: nat, p: nat, t: int, b: nat)
    requires IsRun(run) && j + 1 < |run| && p < |run[j].nodes| && Entered(run[j].nodes[p], t)
    requires p < |run[j + 1].nodes| ==> !Entered(run[j + 1].nodes[p], t)
    requires b < |Last(run).trace| && ReadDone(Last(run).trace[b])
    requires !ReadAsked(run[j + 1].trace, Last(run).trace[b].answer.id)
    requires Last(run).trace[b].answer.key == Entry(run[j].nodes[p], t).key
    ensures var e := Entry(run[j].nodes[p], t);
            || (exists v :: WasWritten(run[j].trace, e.key, v) && v.timestamp > e.timestamp)
            || e.timestamp <= Last(run).trace[b].answer.timestamp
            || exists q: nat, i: nat :: SinksAt(run, i, q, e.key, e.timestamp)
  {
    var e, a := Entry(run[j].nodes[p], t), Last(run).trace[b].answer;
    PrefixRun(run, j);
    assert Next(run[j], run[j + 1]) && Last(run[..j + 1]) == run[j];
    hide IsRun, Next, KeptOnce, SinksAt, Entered, FoundBy, Unstaged, ReadAsked;
    var moments := ReadsTheNewest(run, b);
    ReadersOf(run, j, moments, a, b);
    var q := GivenUpWasKept(run[..j + 1], run[j + 1], p, t, moments.Keys);
    if q in moments && KeptOnce(run[..j + 1], q, t, e.key, Content(e)) {
      ReadOf(run, moments, a, b, q);
      AskedLater(run, moments[q], j + 1, a.id);
      KeptThen(run, j, moments[q], p, t, q);
    }
  }

  lemma ReadOf(run: seq<Cluster>, moments: map<int, nat>, a: Message, b: nat, q: int)
    requires |run| > 0 && FoundBy(run, moments, a, b) && q in moments
    ensures ReadAt(run, moments[q], q, a, b)
  {}
}
