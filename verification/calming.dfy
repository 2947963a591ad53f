/** The system can always come to rest: from every state of every run, once the nodes are
    up, the internal timers and messages already sent lead to a state in which every node
    is idle and nothing waits. */
module Calming {
  import opened Packet
  import opened Wrappers
  import opened Sets
  import opened Node
  import opened Ledgers
  import opened Invariants
  import opened Handlers
  import opened Coordination
  import opened Clusters
  import opened Runs
  import opened Theorems
  import opened Locking
  import opened Timestamps
  import StagedStore
  import Propagation

  // ---------- going on with a run ----------

  ghost predicate Leads(run: seq<Cluster>, more: seq<Cluster>) { IsRun(run) && IsRun(more) && run <= more }

  lemma Stepped(run: seq<Cluster>, s': Cluster) returns (more: seq<Cluster>)
    requires IsRun(run) && Next(Last(run), s')
    ensures Leads(run, more) && Last(more) == s'
  {
    hide Next, Init;
    more := run + [s'];
    forall i | 0 <= i < |more| - 1 ensures Next(more[i], more[i + 1]) {
      if i < |run| - 1 { assert Next(run[i], run[i + 1]); }
    }
  }

  lemma LeadsOn(run: seq<Cluster>, more: seq<Cluster>, most: seq<Cluster>)
    requires Leads(run, more) && Leads(more, most)
    ensures Leads(run, most)
  {
    hide IsRun;
    assert forall i :: 0 <= i < |run| ==> most[i] == more[i] == run[i];
  }

  lemma LeadsNowhere(run: seq<Cluster>)
    requires IsRun(run)
    ensures Leads(run, run)
  {
    hide IsRun;
  }

  /** A node of a run handles a message, and what comes of it. */
  lemma Handled(run: seq<Cluster>, m: Message, c: Choice, d: Choice, e: Effect, f: Effect)
    returns (more: seq<Cluster>)
    requires |run| > 0 && IsRun(run) && |Last(run).trace| + 1 < TIMESTAMPS && Available(Last(run), m)
    requires var n := Last(run).nodes[m.dest];
             && !n.disabled && !LateStamp(n, m) && ChoiceOk(n, m, c)
             && e == Dispatch(n, m, c) && PeersOk(e.node, d) && f == TakeNext(e.node, d)
    ensures Leads(run, more) && Last(more) == Apply(Apply(Consume(Last(run), m), m.dest, e), m.dest, f)
  {
    hide IsRun, Dispatch, TakeNext, LateStamp, ChoiceOk, PeersOk;
    var s := Last(run);
    var s' := Apply(Apply(Consume(s, m), m.dest, e), m.dest, f);
    assert Deliver(s, s', m, c, d);
    hide Deliver, Invoke, Tick, Expire, Crash, Restart, Apply, Consume;
    more := Stepped(run, s');
  }

  // ---------- the reads under way have asked their members ----------

  predicate Awaits(n: Node, q: int) {
    n.quorumMembers.Some? && q in n.quorumMembers.value && n.quorumMembers.value[q].kind.GetRequest?
  }

  /** Every member whose value a read still waits for has been asked for it. */
  ghost predicate AskedAll(n: Node, net: set<Message>) {
    n.mode.CoordinatingFastRead? ==> forall q :: Awaits(n, q) ==> QuorumRequest(n, q, GetRequest) in net
  }

  ghost predicate AsksAsBefore(n: Node, n': Node) {
    n'.mode.CoordinatingFastRead? ==>
      && n.mode.CoordinatingFastRead? && n'.clientRequest == n.clientRequest && n'.id == n.id
      && forall q :: Awaits(n', q) ==> Awaits(n, q)
  }

  lemma StillAsked(n: Node, n': Node, net: set<Message>, net': set<Message>)
    requires AskedAll(n, net) && AsksAsBefore(n, n') && net <= net'
    ensures AskedAll(n', net')
  {}

  lemma NoLongerReads(n: Node)
    ensures !Abort(n).node.mode.CoordinatingFastRead?
    ensures !n.mode.CoordinatingFastRead? ==> !CoordinateWrite(n).node.mode.CoordinatingFastRead?
  {
    hide LatestTimestamp, RolledBack, Unlocks;
  }

  lemma CountAsks(n: Node, m: Message, c: Choice)
    requires n.mode.CoordinatingFastRead? ==> m.kind.GetResponse?
    ensures AsksAsBefore(n, CountReply(n, m, c).node)
  {
    hide Abort, CoordinateWrite;
    NoLongerReads(n);
    if n.quorumMembers.Some? {
      NoLongerReads(Counted(n, m));
      NoLongerReads(Counted(n, m).(mode := CoordinatingWrite));
    }
  }

  lemma DispatchAsks(n: Node, m: Message, c: Choice)
    ensures AsksAsBefore(n, Dispatch(n, m, c).node)
  {
    hide CountReply, HandleBackgroundWriteReq, HandleBackgroundWriteRes, HandleUnlockReq, HandlePutReq;
    if n.mode.CoordinatingFastRead? ==> m.kind.GetResponse? { CountAsks(n, m, c); }
    LocalAsks(n, m);
    hide AsksAsBefore;
  }

  lemma LocalAsks(n: Node, m: Message)
    ensures AsksAsBefore(n, HandleUnlockReq(n, m).node) && AsksAsBefore(n, HandlePutReq(n, m).node)
    ensures AsksAsBefore(n, HandleBackgroundWriteReq(n, m).node)
    ensures AsksAsBefore(n, HandleBackgroundWriteRes(n, m).node)
    ensures AsksAsBefore(n, Enqueue(n, m).node) && AsksAsBefore(n, n) && AsksAsBefore(n, Exit(n).node)
  {
    AbsorbKept(n, m);
    if n.background.Some? { AbsorbKept(n.(background := Some(Propagation.Response(n.background.value, m))), m); }
    hide Absorb, Read, Propagation.Response, StagedStore.Put, StagedStore.Commit;
  }

  lemma TakeNextAsks(n: Node, d: Choice, net: set<Message>)
    requires AskedAll(n, net) && (n.mode.Idle? ==> n.quorumMembers.None?)
    ensures AskedAll(TakeNext(n, d).node, net + Sent(TakeNext(n, d)))
  {
    var f := TakeNext(n, d);
    forall q | f.node.mode.CoordinatingFastRead? && Awaits(f.node, q)
      ensures QuorumRequest(f.node, q, GetRequest) in net + Sent(f)
    {
      if n.mode.Idle? && n.lockRequests != [] { assert QuorumRequest(f.node, q, GetRequest) in f.out; }
    }
  }

  lemma RestAsks(n: Node, m: Message)
    ensures AsksAsBefore(n, Timeout(n).node) && AsksAsBefore(n, RequestTimeout(n, m).node)
    ensures AsksAsBefore(n, Fail(n)) && AsksAsBefore(n, Recover(n)) && AsksAsBefore(n, StreamWrites(n).node)
  {
    hide Abort, Without, Propagation.Retire, Propagation.Requests;
    NoLongerReads(n);
  }

  ghost predicate AllAsked(s: Cluster) { forall p :: 0 <= p < |s.nodes| ==> AskedAll(s.nodes[p], s.net) }

  lemma NodeAsks(s: Cluster, p: int, e: Effect)
    requires AllAsked(s) && 0 <= p < |s.nodes| && AsksAsBefore(s.nodes[p], e.node)
    ensures AllAsked(Apply(s, p, e))
  {
    var s' := Apply(s, p, e);
    forall q | 0 <= q < |s'.nodes| ensures AskedAll(s'.nodes[q], s'.net) {
      assert AskedAll(s.nodes[q], s.net);
      if q == p {
        StillAsked(s.nodes[p], e.node, s.net, s'.net);
      } else {
        hide AsksAsBefore;
        MoreSent(s.nodes[q], s.net, s'.net);
      }
    }
  }

  lemma MoreSent(n: Node, net: set<Message>, net': set<Message>)
    requires AskedAll(n, net) && net <= net'
    ensures AskedAll(n, net')
  {}

  lemma TakesAsking(s: Cluster, L: Ledger, p: int, d: Choice)
    requires AllAsked(s) && 0 <= p < |s.nodes| && NodeOk(s.cfg, L, p, s.nodes[p])
    ensures AllAsked(Apply(s, p, TakeNext(s.nodes[p], d)))
  {
    hide NodeOk, TakeNext, AskedAll;
    var n := s.nodes[p];
    IdleHasNoQuorum(s.cfg, L, p, n);
    TakeNextAsks(n, d, s.net);
    var s' := Apply(s, p, TakeNext(n, d));
    forall q | 0 <= q < |s'.nodes| ensures AskedAll(s'.nodes[q], s'.net) {
      if q != p { MoreSent(s.nodes[q], s.net, s'.net); }
    }
  }

  lemma BothAsk(s: Cluster, L: Ledger, p: int, e: Effect, d: Choice)
    requires AllAsked(s) && 0 <= p < |s.nodes| && AsksAsBefore(s.nodes[p], e.node) && NodeOk(s.cfg, L, p, e.node)
    ensures AllAsked(Apply(Apply(s, p, e), p, TakeNext(e.node, d)))
  {
    hide AllAsked, AsksAsBefore, NodeOk, TakeNext;
    NodeAsks(s, p, e);
    TakesAsking(Apply(s, p, e), L, p, d);
  }

  lemma StepAsks(s: Cluster, s': Cluster, L: Ledger)
    requires Inv(s, L) && Next(s, s') && AllAsked(s)
    ensures AllAsked(s')
  {
    hide Inv, Deliver, Tick, Timeout, RequestTimeout, Fail, Recover, StreamWrites, AskedAll, AsksAsBefore;
    if m :| Invoke(s, s', m) {
    } else if m, c, d :| Deliver(s, s', m, c, d) {
      DeliverAsks(s, s', L, m, c, d);
    } else if p, d :| Tick(s, s', p, d) {
      TickAsks(s, s', L, p, d);
    } else if p, m :| Expire(s, s', p, m) {
      RestAsks(s.nodes[p], m);
      NodeAsks(s, p, RequestTimeout(s.nodes[p], m));
    } else if p :| Crash(s, s', p) {
      RestAsks(s.nodes[p], ZERO_MESSAGE);
      NodeAsks(s, p, Silent(Fail(s.nodes[p])));
    } else if p :| Restart(s, s', p) {
      RestAsks(s.nodes[p], ZERO_MESSAGE);
      NodeAsks(s, p, Silent(Recover(s.nodes[p])));
    } else {
      var p :| Clusters.Propagate(s, s', p);
      RestAsks(s.nodes[p], ZERO_MESSAGE);
      NodeAsks(s, p, StreamWrites(s.nodes[p]));
    }
  }

  lemma DeliverAsks(s: Cluster, s': Cluster, L: Ledger, m: Message, c: Choice, d: Choice)
    requires Inv(s, L) && Deliver(s, s', m, c, d) && |s.trace| + 1 < TIMESTAMPS && AllAsked(s)
    ensures AllAsked(s')
  {
    hide Inv, NodeOk, LedgerOk, EffectOk, Dispatch, TakeNext, Deliverable, ChoiceOk, LateStamp, OnceOk, PeersOk;
    hide AskedAll, AsksAsBefore;
    ConsumeOk(s, L, m);
    var p, s1, n := m.dest, Consume(s, m), s.nodes[m.dest];
    assert AllAsked(s1);
    if !n.disabled {
      var e := Dispatch(n, m, c);
      NodeAt(s1, L, p);
      var L1 := DispatchOk(s.cfg, L, p, n, m, c);
      EffectNode(s.cfg, L, L1, p, m, e);
      DispatchAsks(n, m, c);
      hide Consume, Apply, AllAsked;
      BothAsk(s1, L1, p, e, d);
    }
  }

  lemma TickAsks(s: Cluster, s': Cluster, L: Ledger, p: int, d: Choice)
    requires Inv(s, L) && Tick(s, s', p, d) && AllAsked(s)
    ensures AllAsked(s')
  {
    hide Inv, NodeOk, LedgerOk, EffectOk, TakeNext, PeersOk, AskedAll, AsksAsBefore, Timeout, Apply, AllAsked;
    NodeAt(s, L, p);
    var e := Timeout(s.nodes[p]);
    var L1 := TimeoutOk(s.cfg, L, p, s.nodes[p]);
    EffectNode(s.cfg, L, L1, p, ZERO_MESSAGE, e);
    RestAsks(s.nodes[p], ZERO_MESSAGE);
    BothAsk(s, L1, p, e, d);
  }

  lemma {:induction false} RunAsks(run: seq<Cluster>)
    requires IsRun(run)
    ensures AllAsked(Last(run))
  {
    hide Inv, Next;
    if |run| == 1 {
      FirstAsks(run);
    } else {
      PrefixRun(run, |run| - 2);
      var shorter := run[..|run| - 2 + 1];
      assert Last(shorter) == run[|run| - 2];
      assert Next(run[|run| - 2], run[|run| - 2 + 1]);
      hide IsRun;
      RunAsks(shorter);
      var L := RunOk(shorter);
      StepAsks(run[|run| - 2], run[|run| - 2 + 1], L);
    }
  }

  lemma FirstAsks(run: seq<Cluster>)
    requires |run| == 1 && Init(run[0])
    ensures AllAsked(Last(run))
  {}

  // ---------- the work still to be done ----------

  /** Nothing keeps the node from taking a request at once. */
  predicate Free(n: Node) { n.mode.Idle? && !n.disabled && n.lockRequests == [] }

  predicate Calm(s: Cluster) { forall p :: 0 <= p < |s.nodes| ==> Free(s.nodes[p]) }

  /** A request that waits outweighs all the replies it may come to wait for. */
  function Work(n: Node): nat {
    (n.config.n + 2) * |n.lockRequests|
    + (if n.mode.Idle? then 0 else if n.mode.CoordinatingFastRead? && n.numWaitingNodes > 0 then 1 + n.numWaitingNodes
       else 1)
  }

  function Effort(nodes: seq<Node>): nat {
    if nodes == [] then 0 else Work(nodes[0]) + Effort(nodes[1..])
  }

  lemma {:induction false} EffortAt(nodes: seq<Node>, p: nat, n: Node)
    requires p < |nodes|
    ensures Effort(nodes[p := n]) + Work(nodes[p]) == Effort(nodes) + Work(n)
  {
    hide Work;
    if p > 0 {
      EffortAt(nodes[1..], p - 1, n);
      assert nodes[p := n][1..] == nodes[1..][p - 1 := n];
    }
  }

  lemma TakesWork(n: Node, d: Choice)
    requires n.config.r <= n.config.n && (n.mode.Idle? ==> n.quorumMembers.None?)
    ensures Work(TakeNext(n, d).node) <= Work(n)
    ensures n.mode.Idle? && n.lockRequests != [] ==> Work(TakeNext(n, d).node) < Work(n)
    ensures TakeNext(n, d).node.disabled == n.disabled && Answers(TakeNext(n, d)) == []
  {
    if n.mode.Idle? && n.lockRequests != [] {
      var k := |n.lockRequests|;
      assert (n.config.n + 2) * (k - 1) + n.config.n + 2 == (n.config.n + 2) * k;
    }
  }

  // ---------- steps that bring the system closer to rest ----------

  ghost predicate AllUp(s: Cluster) { forall p :: 0 <= p < |s.nodes| ==> !s.nodes[p].disabled }

  predicate ReadAnswered(e: Event) { e.Returned? && e.answer.kind.ClientReadResponse? }

  /** Clients see nothing but answers to reads, and each of them leaves less to do. */
  ghost predicate Settles(s: Cluster, s': Cluster) {
    && s.trace <= s'.trace && |s'.trace| + Effort(s'.nodes) <= |s.trace| + Effort(s.nodes)
    && (forall i :: |s.trace| <= i < |s'.trace| ==> ReadAnswered(s'.trace[i]))
    && s'.cfg == s.cfg && |s'.nodes| == |s.nodes|
  }

  lemma SettlesOn(a: Cluster, b: Cluster, c: Cluster)
    requires Settles(a, b) && Settles(b, c)
    ensures Settles(a, c)
  {
    hide Effort;
    forall i | |a.trace| <= i < |c.trace| ensures ReadAnswered(c.trace[i]) {
      if i < |b.trace| { assert c.trace[i] == b.trace[i]; }
    }
  }

  ghost predicate SeesReads(e: Effect) { forall i :: 0 <= i < |Answers(e)| ==> ReadAnswered(Answers(e)[i]) }

  /** Node p acts, with less to do afterwards, and then takes the next request. */
  lemma ActsDown(s: Cluster, s': Cluster, p: nat, e: Effect, d: Choice)
    requires AllUp(s) && p < |s.nodes| && e.node.config == s.nodes[p].config && e.node.config.r <= e.node.config.n
    requires e.node.mode.Idle? ==> e.node.quorumMembers.None?
    requires s' == Apply(Apply(s, p, e), p, TakeNext(e.node, d)) && !e.node.disabled && SeesReads(e)
    requires Work(e.node) < Work(s.nodes[p]) ||
               (e.node == s.nodes[p] && Answers(e) == [] && e.node.mode.Idle? && e.node.lockRequests != [])
    ensures AllUp(s') && Settles(s, s') && Effort(s'.nodes) < Effort(s.nodes)
  {
    TakesWork(e.node, d);
    hide TakeNext, Work, Effort, Settles, Answers, SeesReads;
    TwoEffects(s, p, e, TakeNext(e.node, d));
    hide Apply;
    NodeSettles(s, s', p, e, TakeNext(e.node, d).node);
  }

  lemma TwoEffects(s: Cluster, p: nat, e: Effect, f: Effect)
    requires p < |s.nodes| && Answers(f) == []
    ensures var s' := Apply(Apply(s, p, e), p, f);
            s'.nodes == s.nodes[p := f.node] && s'.trace == s.trace + Answers(e) && s'.cfg == s.cfg
  {
    hide Answers;
  }

  lemma NodeSettles(s: Cluster, s': Cluster, p: nat, e: Effect, n: Node)
    requires p < |s.nodes| && s'.nodes == s.nodes[p := n] && s'.trace == s.trace + Answers(e) && s'.cfg == s.cfg
    requires SeesReads(e) && (Answers(e) == [] || Work(n) < Work(s.nodes[p])) && Work(n) <= Work(s.nodes[p])
    ensures Settles(s, s') && Effort(s'.nodes) + Work(s.nodes[p]) == Effort(s.nodes) + Work(n)
  {
    hide Work, Effort;
    EffortAt(s.nodes, p, n);
  }

  lemma SomePeers(n: nat, p: int, size: nat) returns (peers: set<int>)
    requires 0 <= p < n && size < n
    ensures |peers| == size && forall q :: q in peers ==> 0 <= q < n && q != p
  {
    peers := SubsetOf(Below(n) - {p}, size);
  }

  lemma {:induction false} SubsetOf(s: set<int>, size: nat) returns (t: set<int>)
    requires size <= |s|
    ensures t <= s && |t| == size
  {
    if size == 0 { t := {}; } else {
      var x := Member(s);
      var rest := SubsetOf(s - {x}, size - 1);
      t := rest + {x};
    }
  }

  /** A draw that suits the next request of the node. */
  lemma SomeDraw(cfg: Config, n: Node) returns (d: Choice)
    requires ValidConfig(cfg) && n.config == cfg && 0 <= n.id < cfg.n
    ensures PeersOk(n, d)
  {
    var size := if n.lockRequests != [] && IsRead(n.lockRequests[0]) then cfg.r else cfg.w;
    var peers := SomePeers(cfg.n, n.id, size - 1);
    d := Choice(peers, ABSENT, 0, 0);
  }

  // ---------- what each node can do ----------

  lemma Restarted(run: seq<Cluster>, p: nat) returns (more: seq<Cluster>)
    requires |run| > 0 && IsRun(run) && |Last(run).trace| + 1 < TIMESTAMPS && p < |Last(run).nodes|
    ensures Leads(run, more) && Settles(Last(run), Last(more)) && !Last(more).nodes[p].disabled
    ensures forall q :: 0 <= q < |Last(run).nodes| && q != p ==> Last(more).nodes[q] == Last(run).nodes[q]
    ensures Effort(Last(more).nodes) == Effort(Last(run).nodes)
  {
    hide IsRun;
    var s := Last(run);
    hide Deliver, Invoke, Tick, Expire, Crash, Effort, Settles, Work;
    if s.nodes[p].disabled {
      var e := Silent(Recover(s.nodes[p]));
      var s' := Apply(s, p, e);
      assert Restart(s, s', p);
      hide Restart;
      RecoverWork(s.nodes[p]);
      NodeSettles(s, s', p, e, e.node);
      more := Stepped(run, s');
    } else {
      more := run;
      LeadsNowhere(run);
      SettledAlready(s);
    }
  }

  lemma RecoverWork(n: Node)
    ensures Work(Recover(n)) == Work(n) && !Recover(n).disabled && Answers(Silent(Recover(n))) == []
  {}

  lemma SettledAlready(s: Cluster)
    ensures Settles(s, s)
  {
    hide Effort;
  }

  lemma {:induction false} AllRestarted(run: seq<Cluster>, k: nat) returns (more: seq<Cluster>)
    requires |run| > 0 && IsRun(run) && k <= |Last(run).nodes|
    requires |Last(run).trace| + Effort(Last(run).nodes) + 1 < TIMESTAMPS
    ensures Leads(run, more) && Settles(Last(run), Last(more))
    ensures forall q :: 0 <= q < k ==> !Last(more).nodes[q].disabled
  {
    hide IsRun, Effort;
    if k == 0 {
      more := run;
      LeadsNowhere(run);
    } else {
      var some := AllRestarted(run, k - 1);
      more := Restarted(some, k - 1);
      LeadsOn(run, some, more);
      SettlesOn(Last(run), Last(some), Last(more));
    }
  }

  /** What is known of a node of a run. */
  lemma NodeFacts(run: seq<Cluster>, p: nat)
    requires IsRun(run) && p < |Last(run).nodes|
    ensures var s := Last(run);
            && ValidConfig(s.cfg) && |s.nodes| == s.cfg.n && s.nodes[p].config == s.cfg && s.nodes[p].id == p
            && (s.nodes[p].mode.Idle? ==> s.nodes[p].quorumMembers.None?)
            && (s.nodes[p].mode.ProcessingWrite? ==> s.nodes[p].quorumMembers.None?)
  {
    var L := RunOk(run);
    var s := Last(run);
    hide IsRun;
    NodesInConfig(s, L);
    NodeAt(s, L, p);
    assert JobOk(L, p, s.nodes[p]);
    hide Inv, LedgerOk;
    assert s.nodes[p].id == p && s.nodes[p].config == s.cfg;
    hide NodeOk;
  }

  /** The internal timer makes an idle node take its next request, and a writer give up. */
  lemma Ticked(run: seq<Cluster>, p: nat) returns (more: seq<Cluster>)
    requires |run| > 0 && IsRun(run) && |Last(run).trace| + 1 < TIMESTAMPS && AllUp(Last(run)) && p < |Last(run).nodes|
    requires var n := Last(run).nodes[p];
             (n.mode.Idle? && n.lockRequests != []) || n.mode.CoordinatingWrite? || n.mode.AssemblingQuorum?
    ensures Leads(run, more) && Settles(Last(run), Last(more)) && AllUp(Last(more))
    ensures Effort(Last(more).nodes) < Effort(Last(run).nodes)
  {
    hide IsRun, TakeNext, Effort, Settles, Work;
    NodeFacts(run, p);
    var s, n := Last(run), Last(run).nodes[p];
    var e := Timeout(n);
    TimerWork(n);
    hide Timeout;
    var d := SomeDraw(s.cfg, e.node);
    var s' := Apply(Apply(s, p, e), p, TakeNext(e.node, d));
    assert Tick(s, s', p, d);
    ActsDown(s, s', p, e, d);
    hide Deliver, Invoke, Tick, Expire, Crash, Restart, Apply;
    more := Stepped(run, s');
  }

  lemma TimerWork(n: Node)
    requires (n.mode.Idle? && n.lockRequests != []) || n.mode.CoordinatingWrite? || n.mode.AssemblingQuorum?
    requires n.mode.Idle? ==> n.quorumMembers.None?
    ensures var e := Timeout(n);
            && e.node.config == n.config && e.node.id == n.id && e.node.disabled == n.disabled
            && Answers(e) == [] && e.node.quorumMembers.None? && e.node.mode.Idle?
            && if n.mode.Idle? then e.node == n else Work(e.node) < Work(n)
  {}

  /** A read that is under way waits for some member. */
  lemma ReaderAwaits(cfg: Config, L: Ledger, p: int, n: Node) returns (q: int)
    requires LedgerOk(cfg, L) && NodeOk(cfg, L, p, n) && n.mode.CoordinatingFastRead?
    ensures Awaits(n, q) && 0 <= q < cfg.n && q != p && n.numWaitingNodes > 0
    ensures n.clientRequest.id == n.currentTxid && n.id == p
  {
    assert JobOk(L, p, n);
    hide NodeOk;
    var members := L.txs[n.currentTxid].members;
    assert ReadingJob(L, p, n) && TxOk(cfg, L.history, n.currentTxid, L.txs[n.currentTxid]);
    hide LedgerOk, TxOk;
    assert Waits(n, members, GetResponse);
    q := Member(Awaiting(n.quorumMembers.value, members, GetResponse));
    hide ReplyOk;
  }

  /** Some newest value exists. */
  lemma SomeLatest(local: Stamped, replies: map<int, Message>) returns (best: Stamped)
    ensures IsLatest(local, replies, best)
  {
    var t := LatestTimestamp(local.timestamp, replies, replies.Keys);
    if t == local.timestamp {
      best := local;
    } else {
      var q :| q in replies.Keys && replies[q].timestamp == t;
      best := Stamped(t, replies[q].value);
    }
  }

  lemma GivesValue(n: Node, m: Message, c: Choice)
    requires m.kind.GetRequest?
    ensures exists x :: Dispatch(n, m, c) == Effect(n, {x}, None) && x.kind.GetResponse? && x.id == m.id
                && x.src == n.id && x.dest == m.src
  {
    var x := Member(Dispatch(n, m, c).out);
    assert Dispatch(n, m, c) == Effect(n, {x}, None);
  }

  /** A reply brings a read closer to its end, whether it is a value or a refusal. */
  lemma ReplyWork(n: Node, m: Message, c: Choice)
    requires n.mode.CoordinatingFastRead? && m.kind.GetResponse? && m.id == n.currentTxid
    requires Awaits(n, m.src) && n.numWaitingNodes > 0
    ensures var e := Dispatch(n, m, c);
            && e.node.config == n.config && e.node.id == n.id && e.node.disabled == n.disabled
            && (e.node.mode.Idle? ==> e.node.quorumMembers.None?) && Work(e.node) < Work(n) && SeesReads(e)
  {}

  /** Asking one member that a read still waits for, and taking its reply. */
  lemma Replied(run: seq<Cluster>, p: nat) returns (more: seq<Cluster>)
    requires |run| > 0 && IsRun(run) && |Last(run).trace| + 1 < TIMESTAMPS && AllUp(Last(run)) && p < |Last(run).nodes|
    requires Last(run).nodes[p].mode.CoordinatingFastRead?
    requires forall q :: 0 <= q < |Last(run).nodes| && Last(run).nodes[q].mode.Idle? ==>
               Last(run).nodes[q].lockRequests == []
    ensures Leads(run, more) && Settles(Last(run), Last(more)) && AllUp(Last(more))
    ensures Effort(Last(more).nodes) < Effort(Last(run).nodes)
  {
    hide IsRun, Settles, Effort;
    var one, x := AskedOnce(run, p);
    more := ReplyTaken(one, p, x);
    LeadsOn(run, one, more);
    SameNodesSettle(Last(run), Last(one), Last(more));
  }

  lemma SameNodesSettle(a: Cluster, b: Cluster, c: Cluster)
    requires b.nodes == a.nodes && b.trace == a.trace && b.cfg == a.cfg && Settles(b, c)
    ensures Settles(a, c)
  {
    hide Effort;
  }

  /** The member that is asked replies at once. */
  lemma AskedOnce(run: seq<Cluster>, p: nat) returns (more: seq<Cluster>, x: Message)
    requires |run| > 0 && IsRun(run) && |Last(run).trace| + 1 < TIMESTAMPS && AllUp(Last(run)) && p < |Last(run).nodes|
    requires Last(run).nodes[p].mode.CoordinatingFastRead?
    requires forall q :: 0 <= q < |Last(run).nodes| && Last(run).nodes[q].mode.Idle? ==>
               Last(run).nodes[q].lockRequests == []
    ensures Leads(run, more) && x in Last(more).net
    ensures Last(more).nodes == Last(run).nodes && Last(more).trace == Last(run).trace && Last(more).cfg == Last(run).cfg
    ensures var n := Last(run).nodes[p];
            && x.kind.GetResponse? && x.id == n.currentTxid && x.dest == p && Awaits(n, x.src)
            && n.numWaitingNodes > 0
  {
    hide IsRun, Inv, NodeOk, LedgerOk, Dispatch, TakeNext;
    RunAsks(run);
    NodeFacts(run, p);
    var L := RunOk(run);
    var s, n := Last(run), Last(run).nodes[p];
    NodeAt(s, L, p);
    var q := ReaderAwaits(s.cfg, L, p, n);
    assert AskedAll(n, s.net);
    hide Awaits, AllAsked, AskedAll;
    NodeFacts(run, q);
    more, x := Answering(run, q, QuorumRequest(n, q, GetRequest));
  }

  lemma Answering(run: seq<Cluster>, q: nat, m: Message) returns (more: seq<Cluster>, x: Message)
    requires |run| > 0 && IsRun(run) && |Last(run).trace| + 1 < TIMESTAMPS && m in Last(run).net && m.dest == q
    requires q < |Last(run).nodes| && m.kind.GetRequest?
    requires var n := Last(run).nodes[q]; !n.disabled && (n.mode.Idle? ==> n.lockRequests == [])
    ensures Leads(run, more) && x in Last(more).net
    ensures x.kind.GetResponse? && x.id == m.id && x.dest == m.src && x.src == q
    ensures Last(more).nodes == Last(run).nodes && Last(more).trace == Last(run).trace && Last(more).cfg == Last(run).cfg
  {
    hide IsRun, Dispatch, TakeNext;
    NodeFacts(run, q);
    var s, n := Last(run), Last(run).nodes[q];
    var c := Choice({}, ABSENT, 0, 0);
    GivesValue(n, m, c);
    x :| Dispatch(n, m, c) == Effect(n, {x}, None) && x.kind.GetResponse? && x.id == m.id
         && x.src == q && x.dest == m.src;
    var d := SomeDraw(s.cfg, n);
    TakesNothingNow(n, d);
    hide PeersOk;
    var e := Effect(n, {x}, None);
    assert Consume(s, m) == s;
    hide Consume, Apply;
    more := Handled(run, m, c, d, e, Silent(n));
    NothingChanges(s, q, e);
  }

  lemma NothingChanges(s: Cluster, q: nat, e: Effect)
    requires q < |s.nodes| && e.node == s.nodes[q] && e.reply.None?
    ensures var s' := Apply(Apply(s, q, e), q, Silent(e.node));
            && s'.nodes == s.nodes && s'.trace == s.trace && s'.cfg == s.cfg
            && forall x :: x in e.out && !OneShot(x) ==> x in s'.net
  {}

  lemma TakesNothingNow(n: Node, d: Choice)
    requires n.mode.Idle? ==> n.lockRequests == []
    ensures TakeNext(n, d) == Silent(n)
  {}

  lemma ReplyTaken(run: seq<Cluster>, p: nat, x: Message) returns (more: seq<Cluster>)
    requires |run| > 0 && IsRun(run) && |Last(run).trace| + 1 < TIMESTAMPS && AllUp(Last(run)) && p < |Last(run).nodes|
    requires Last(run).nodes[p].mode.CoordinatingFastRead? && x in Last(run).net
    requires var n := Last(run).nodes[p];
             && x.kind.GetResponse? && x.id == n.currentTxid && x.dest == p && Awaits(n, x.src)
             && n.numWaitingNodes > 0
    ensures Leads(run, more) && Settles(Last(run), Last(more)) && AllUp(Last(more))
    ensures Effort(Last(more).nodes) < Effort(Last(run).nodes)
  {
    hide IsRun, TakeNext, Effort, Settles, Work, Dispatch;
    NodeFacts(run, p);
    var s, n := Last(run), Last(run).nodes[p];
    var latest := SomeLatest(Read(n, n.clientRequest.key), n.quorumMembers.value[x.src := x]);
    var c := Choice({}, latest, 0, 0);
    var e := Dispatch(n, x, c);
    ReplyWork(n, x, c);
    var d := SomeDraw(s.cfg, e.node);
    more := Handled(run, x, c, d, e, TakeNext(e.node, d));
    ActsDown(s, Last(more), p, e, d);
  }

  /** A locked node, once no node coordinates anything, obeys the unlock it has been sent. */
  lemma Released(run: seq<Cluster>, q: nat) returns (more: seq<Cluster>)
    requires |run| > 0 && IsRun(run) && |Last(run).trace| + 1 < TIMESTAMPS && AllUp(Last(run)) && q < |Last(run).nodes|
    requires Last(run).nodes[q].mode.ProcessingWrite?
    requires forall p :: 0 <= p < |Last(run).nodes| ==> !Coordinator(Last(run).nodes[p])
    ensures Leads(run, more) && Settles(Last(run), Last(more)) && AllUp(Last(more))
    ensures Effort(Last(more).nodes) < Effort(Last(run).nodes)
  {
    NodeFacts(run, q);
    NoLockIsLost(run, q);
    hide IsRun, TakeNext, Effort, Settles, Work, Dispatch;
    var s, n := Last(run), Last(run).nodes[q];
    var m :| m in s.net && m.kind.UnlockRequest? && m.id == n.currentTxid && m.dest == q;
    var c := Choice({}, ABSENT, 0, 0);
    var e := Dispatch(n, m, c);
    UnlockWork(n, m, c);
    var d := SomeDraw(s.cfg, e.node);
    more := Handled(run, m, c, d, e, TakeNext(e.node, d));
    ActsDown(s, Last(more), q, e, d);
  }

  lemma UnlockWork(n: Node, m: Message, c: Choice)
    requires n.mode.ProcessingWrite? && n.quorumMembers.None? && m.kind.UnlockRequest? && m.id == n.currentTxid
    ensures var e := Dispatch(n, m, c);
            && e.node.config == n.config && e.node.id == n.id && e.node.disabled == n.disabled
            && e.node.quorumMembers.None? && Work(e.node) < Work(n) && Answers(e) == []
  {
    hide StagedStore.Commit;
  }

  // ---------- coming to rest ----------

  /** Some node can be brought closer to rest, unless all are at rest. */
  lemma Lowered(run: seq<Cluster>) returns (more: seq<Cluster>)
    requires |run| > 0 && IsRun(run) && |Last(run).trace| + 1 < TIMESTAMPS && AllUp(Last(run)) && !Calm(Last(run))
    ensures Leads(run, more) && Settles(Last(run), Last(more)) && AllUp(Last(more))
    ensures Effort(Last(more).nodes) < Effort(Last(run).nodes)
  {
    hide IsRun, Effort, Settles;
    var s := Last(run);
    if p: nat :| p < |s.nodes| && s.nodes[p].mode.Idle? && s.nodes[p].lockRequests != [] {
      more := Ticked(run, p);
    } else if p: nat :| p < |s.nodes| && (s.nodes[p].mode.CoordinatingWrite? || s.nodes[p].mode.AssemblingQuorum?) {
      more := Ticked(run, p);
    } else if p: nat :| p < |s.nodes| && s.nodes[p].mode.CoordinatingFastRead? {
      more := Replied(run, p);
    } else {
      var q: nat :| q < |s.nodes| && !Free(s.nodes[q]);
      more := Released(run, q);
    }
  }

  lemma {:induction false} Settled(run: seq<Cluster>) returns (more: seq<Cluster>)
    requires |run| > 0 && IsRun(run) && |Last(run).trace| + Effort(Last(run).nodes) + 1 < TIMESTAMPS && AllUp(Last(run))
    ensures Leads(run, more) && Calm(Last(more)) && Settles(Last(run), Last(more))
    decreases Effort(Last(run).nodes)
  {
    hide IsRun, Effort, Calm, AllUp;
    if Calm(Last(run)) {
      more := run;
      LeadsNowhere(run);
    } else {
      var some := Lowered(run);
      more := Settled(some);
      LeadsOn(run, some, more);
      SettlesOn(Last(run), Last(some), Last(more));
    }
  }

  /** From every state of every run the system can come to rest: no request is stuck at a
      node and no lock is held for ever, and all that clients see of it is answers to reads. */
  lemma CanComeToRest(run: seq<Cluster>) returns (more: seq<Cluster>)
    requires |run| > 0 && IsRun(run) && |Last(run).trace| + Effort(Last(run).nodes) + 1 < TIMESTAMPS
    ensures Leads(run, more) && Calm(Last(more)) && Settles(Last(run), Last(more))
  {
    hide IsRun, Effort;
    var up := AllRestarted(run, |Last(run).nodes|);
    more := Settled(up);
    LeadsOn(run, up, more);
    SettlesOn(Last(run), Last(up), Last(more));
  }
}
