/** The class of module Dbnode takes the steps of the runs of modules Programs and
    Clusters: each method, run on a node of a cluster, leads to the cluster that the
    step of the same name leads to. */
module Machines {
  import opened Packet
  import opened Node
  import opened Clusters
  import opened Coordination
  import Boundaries
  import Dbnode
  import Programs
  import Propagation

  predicate IsResponse(m: Message) { m.kind.ClientReadResponse? || m.kind.ClientWriteResponse? }

  /** The cluster once node p has become n and has put these messages on its channel: they
      are in flight, and a client sees the successful answer among them, if there is one. */
  ghost predicate Posts(s: Cluster, s': Cluster, p: int, n: Node, sent: set<Message>) {
    && 0 <= p < |s.nodes| && s'.cfg == s.cfg && s'.nodes == s.nodes[p := n]
    && s'.net == s.net + (sent - Once(sent)) && s'.once == s.once + multiset(Once(sent))
    && (|| (s'.trace == s.trace && forall a :: a in sent && IsResponse(a) ==> !a.ok)
        || (exists a :: a in sent && IsResponse(a) && a.ok && s'.trace == s.trace + [Returned(a)]))
  }

  // ---------- clients are answered by the answer of an effect only ----------

  predicate NoResponses(out: set<Message>) { forall m :: m in out ==> !IsResponse(m) }

  predicate Clean(e: Effect) { NoResponses(e.out) && (e.reply.Some? ==> IsResponse(e.reply.value)) }

  lemma CleanPosts(s: Cluster, p: int, e: Effect)
    requires 0 <= p < |s.nodes| && Clean(e)
    ensures Posts(s, Apply(s, p, e), p, e.node, Messages(e))
  {
    var sent := Messages(e);
    assert Once(sent) == Once(e.out) && Sent(e) == sent - Once(sent);
    if Answers(e) == [] { assert s.trace + [] == s.trace; }
  }

  lemma AbortClean(n: Node)
    ensures Clean(Abort(n))
  {}

  lemma CoordinateClean(n: Node)
    ensures Clean(CoordinateWrite(n))
  {
    hide Abort, LatestTimestamp;
    AbortClean(n);
    if n.quorumMembers.Some? {
      var next := Successor(LatestTimestamp(Read(n, n.clientRequest.key).timestamp, n.quorumMembers.value, Peers(n)));
      AbortClean(n.(clientRequest := n.clientRequest.(timestamp := next)));
    }
  }

  lemma ContinueClean(n: Node, c: Choice)
    ensures Clean(Continue(n, c))
  {
    hide CoordinateWrite;
    CoordinateClean(n);
    CoordinateClean(n.(mode := CoordinatingWrite));
  }

  lemma CountClean(n: Node, m: Message, c: Choice)
    ensures Clean(CountReply(n, m, c))
  {
    hide Abort, Continue;
    AbortClean(n);
    if n.quorumMembers.Some? { ContinueClean(Counted(n, m), c); }
  }

  lemma DispatchClean(n: Node, m: Message, c: Choice)
    ensures Clean(Dispatch(n, m, c))
  {
    hide CountReply, Absorb, Propagation.Response, Read;
    CountClean(n, m, c);
  }

  lemma TakeNextClean(n: Node, c: Choice)
    ensures Clean(TakeNext(n, c))
  {
    hide Continue;
    if n.mode.Idle? && n.lockRequests != [] {
      var m := n.lockRequests[0];
      var n1 := n.(lockRequests := n.lockRequests[1..], currentTxid := m.id, clientRequest := m);
      ContinueClean(n1.(mode := CoordinatingFastRead), c);
      ContinueClean(n1.(mode := AssemblingQuorum), c);
    }
  }

  lemma TimeoutClean(n: Node, m: Message)
    ensures Clean(Timeout(n)) && Clean(RequestTimeout(n, m)) && Clean(StreamWrites(n)) && Clean(Silent(n))
  {
    hide Abort, Without, Propagation.Retire;
    AbortClean(n);
  }

  // ---------- the methods as steps ----------

  /** The message is handled and then a request is taken, unless handling it was fatal. */
  method Deliver(node: Dbnode.Dbnode, ghost s: Cluster, m: Message, leader: int, target: int)
    returns (ghost s1: Cluster, ghost s': Cluster, ghost c: Choice, ghost d: Choice, ghost middle: seq<Message>)
    requires node.Valid() && !node.exited && !node.disabled
    requires Available(s, m) && m.dest == node.id && s.nodes[node.id] == node.State()
    modifies node, node.background
    ensures old(node.outgoing) <= middle <= node.outgoing
    ensures Posts(Consume(s, m), s1, node.id, Dispatch(old(node.State()), m, c).node,
            Dbnode.Between(old(node.outgoing), middle))
    ensures Posts(s1, s', node.id, node.State(), Dbnode.Between(middle, node.outgoing))
    ensures !node.exited ==> Programs.Handle(s, s', m, c, d)
  {
    ghost var n, p := node.State(), node.id;
    hide Dispatch, TakeNext, TakeNextShared, Posts, ChoiceOk, PeersOk, Dbnode.Between, Messages, Clean, Consume;
    c, d, middle := node.Receive(m, leader, target);
    ghost var e := Dispatch(n, m, c);
    ghost var f := if e.node.exited then Silent(e.node) else TakeNextShared(n, m, c, d);
    s1 := Apply(Consume(s, m), p, e);
    s' := Apply(s1, p, f);
    DispatchClean(n, m, c);
    SharedClean(n, m, c, d);
    TimeoutClean(e.node, m);
    assert |Consume(s, m).nodes| == |s.nodes| by { SameSize(s, m); }
    CleanPosts(Consume(s, m), p, e);
    CleanPosts(s1, p, f);
  }

  lemma SameSize(s: Cluster, m: Message)
    ensures Consume(s, m).nodes == s.nodes
  {}

  lemma SharedClean(n: Node, m: Message, c: Choice, d: Choice)
    ensures Clean(TakeNextShared(n, m, c, d))
  {
    hide TakeNext, Dispatch, Clean;
    if Overwrites(n, m, c) { TakeNextClean(Overwritten(n), d); }
    TakeNextClean(Dispatch(n, m, c).node, d);
  }

  method Tick(node: Dbnode.Dbnode, ghost s: Cluster)
    returns (ghost s1: Cluster, ghost s': Cluster, ghost d: Choice, ghost middle: seq<Message>)
    requires node.Valid() && !node.disabled && node.id < |s.nodes| && s.nodes[node.id] == node.State()
    modifies node, node.background
    ensures old(node.outgoing) <= middle <= node.outgoing
    ensures Posts(s, s1, node.id, Timeout(old(node.State())).node, Dbnode.Between(old(node.outgoing), middle))
    ensures Posts(s1, s', node.id, node.State(), Dbnode.Between(middle, node.outgoing))
    ensures Clusters.Tick(s, s', node.id, d)
  {
    ghost var n, p := node.State(), node.id;
    hide Timeout, TakeNext, Posts, PeersOk, Dbnode.Between, Messages, Clean;
    d, middle := node.Tick();
    s1 := Apply(s, p, Timeout(n));
    s' := Apply(s1, p, TakeNext(Timeout(n).node, d));
    TimeoutClean(n, ZERO_MESSAGE);
    TakeNextClean(Timeout(n).node, d);
    CleanPosts(s, p, Timeout(n));
    CleanPosts(s1, p, TakeNext(Timeout(n).node, d));
  }

  method Expire(node: Dbnode.Dbnode, ghost s: Cluster, m: Message) returns (ghost s': Cluster)
    requires node.Valid() && !node.disabled && node.id < |s.nodes| && s.nodes[node.id] == node.State()
    requires m in node.timers
    modifies node
    ensures old(node.outgoing) <= node.outgoing
    ensures Posts(s, s', node.id, node.State(), Dbnode.Between(old(node.outgoing), node.outgoing))
    ensures Clusters.Expire(s, s', node.id, m)
  {
    ghost var n, p := node.State(), node.id;
    hide RequestTimeout, Posts, Dbnode.Between, Messages, Clean;
    node.RequestTimeout(m);
    s' := Apply(s, p, RequestTimeout(n, m));
    TimeoutClean(n, m);
    CleanPosts(s, p, RequestTimeout(n, m));
  }

  method Stop(node: Dbnode.Dbnode, ghost s: Cluster) returns (ghost s': Cluster)
    requires node.Valid() && !node.disabled && node.id < |s.nodes| && s.nodes[node.id] == node.State()
    modifies node
    ensures node.outgoing == old(node.outgoing) && Posts(s, s', node.id, node.State(), {})
    ensures Programs.Stop(s, s', node.id)
  {
    ghost var n, p := node.State(), node.id;
    node.ControlFail();
    s' := Apply(s, p, Silent(Fail(n)));
    CleanPosts(s, p, Silent(Fail(n)));
  }

  method Restart(node: Dbnode.Dbnode, ghost s: Cluster) returns (ghost s': Cluster)
    requires node.Valid() && node.disabled && node.id < |s.nodes| && s.nodes[node.id] == node.State()
    modifies node
    ensures node.outgoing == old(node.outgoing) && Posts(s, s', node.id, node.State(), {})
    ensures Clusters.Restart(s, s', node.id)
  {
    ghost var n, p := node.State(), node.id;
    node.ControlRecover();
    s' := Apply(s, p, Silent(Recover(n)));
    CleanPosts(s, p, Silent(Recover(n)));
  }

  method Prune(node: Dbnode.Dbnode, ghost s: Cluster) returns (ghost s': Cluster)
    requires node.Valid() && !node.disabled && node.id < |s.nodes| && s.nodes[node.id] == node.State()
    modifies node
    ensures node.outgoing == old(node.outgoing) && Posts(s, s', node.id, node.State(), {})
    ensures Programs.Prune(s, s', node.id)
  {
    ghost var n, p := node.State(), node.id;
    node.CleanUnlockTxids();
    s' := Apply(s, p, Silent(Boundaries.Pruned(n)));
    CleanPosts(s, p, Silent(Boundaries.Pruned(n)));
  }

  method Propagate(node: Dbnode.Dbnode, ghost s: Cluster) returns (ghost s': Cluster)
    requires node.Valid() && node.id < |s.nodes| && s.nodes[node.id] == node.State()
    modifies node, node.background
    ensures old(node.outgoing) <= node.outgoing
    ensures Posts(s, s', node.id, node.State(), Dbnode.Between(old(node.outgoing), node.outgoing))
    ensures Clusters.Propagate(s, s', node.id)
  {
    ghost var n, p := node.State(), node.id;
    hide StreamWrites, Posts, Dbnode.Between, Messages, Clean;
    node.StreamWrites();
    s' := Apply(s, p, StreamWrites(n));
    TimeoutClean(n, ZERO_MESSAGE);
    CleanPosts(s, p, StreamWrites(n));
  }
}
