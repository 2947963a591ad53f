/** The program's own steps, with none of the exceptions that the runs of module
    Clusters make, and the conditions under which a run of the program is such a run. */
module Programs {
  import opened Packet
  import opened Node
  import opened Theorems
  import opened Boundaries
  import opened Clusters

  ghost predicate Handle(s: Cluster, s': Cluster, m: Message, c: Choice, d: Choice) {
    && Available(s, m)
    && var n, s1 := s.nodes[m.dest], Consume(s, m);
       if n.disabled then s' == s1
       else
         && ChoiceOk(n, m, c) && PeersOk(Dispatch(n, m, c).node, d)
         && s' == Apply(Apply(s1, m.dest, Dispatch(n, m, c)), m.dest, TakeNextShared(n, m, c, d))
  }

  /** A node may crash at any time. */
  ghost predicate Stop(s: Cluster, s': Cluster, p: int) {
    0 <= p < |s.nodes| && !s.nodes[p].disabled && s' == Apply(s, p, Silent(Fail(s.nodes[p])))
  }

  ghost predicate Prune(s: Cluster, s': Cluster, p: int) {
    0 <= p < |s.nodes| && !s.nodes[p].disabled && s' == Apply(s, p, Silent(Pruned(s.nodes[p])))
  }

  ghost predicate Other(s: Cluster, s': Cluster) {
    || (exists m :: Invoke(s, s', m))
    || (exists p, d :: Tick(s, s', p, d))
    || (exists p, m :: Expire(s, s', p, m))
    || (exists p :: Restart(s, s', p))
    || (exists p :: Clusters.Propagate(s, s', p))
  }

  ghost predicate Step(s: Cluster, s': Cluster) {
    && |s.trace| + 1 < TIMESTAMPS
    && (|| Other(s, s')
        || (exists m, c, d :: Handle(s, s', m, c, d))
        || (exists p :: Stop(s, s', p))
        || (exists p :: Prune(s, s', p)))
  }

  ghost predicate IsProgramRun(run: seq<Cluster>) {
    && |run| > 0 && Clusters.Init(run[0])
    && forall i :: 0 <= i < |run| - 1 ==> Step(run[i], run[i + 1])
  }

  // ---------- which steps are safe ----------

  /** No timestamp is counted as the vote of a member already counted, and no queued
      request is overwritten by another. */
  predicate SafelyHandled(n: Node, m: Message, c: Choice) {
    n.disabled || (!LateStamp(n, m) && !(Overwrites(n, m, c) && n.lockRequests[0] != m))
  }

  ghost predicate HandleSafely(s: Cluster, s': Cluster, m: Message, c: Choice, d: Choice) {
    Handle(s, s', m, c, d) && SafelyHandled(s.nodes[m.dest], m, c)
  }

  ghost predicate StopSafely(s: Cluster, s': Cluster, p: int) { Stop(s, s', p) && !s.nodes[p].mode.ProcessingWrite? }

  ghost predicate PruneSafely(s: Cluster, s': Cluster, p: int) { Prune(s, s', p) && Pruned(s.nodes[p]) == s.nodes[p] }

  ghost predicate SafeStep(s: Cluster, s': Cluster) {
    && |s.trace| + 1 < TIMESTAMPS
    && (|| Other(s, s')
        || (exists m, c, d :: HandleSafely(s, s', m, c, d))
        || (exists p :: StopSafely(s, s', p))
        || (exists p :: PruneSafely(s, s', p)))
  }

  lemma SafelyHandledIsDelivered(s: Cluster, s': Cluster, m: Message, c: Choice, d: Choice)
    requires HandleSafely(s, s', m, c, d)
    ensures Deliver(s, s', m, c, d)
  {
    hide TakeNext, ChoiceOk, PeersOk, LateStamp;
    var n := s.nodes[m.dest];
    if !n.disabled && Overwrites(n, m, c) {
      SharedVariable(n, m, c, d);
      Enqueued(n, m, c);
    }
    hide Dispatch;
  }

  lemma Enqueued(n: Node, m: Message, c: Choice)
    requires Queues(n, m, c)
    ensures Dispatch(n, m, c) == Enqueue(n, m)
  {}

  lemma NothingApplied(s: Cluster, p: int)
    requires 0 <= p < |s.nodes|
    ensures Apply(s, p, Silent(s.nodes[p])) == s
  {
    var e := Silent(s.nodes[p]);
    assert Sent(e) == {} && Once(e.out) == {};
    assert s.nodes[p := s.nodes[p]] == s.nodes && s.net + {} == s.net && s.trace + [] == s.trace;
  }

  /** A safe step of the program is a step of a cluster's run, or changes nothing. */
  lemma SafeStepIsNext(s: Cluster, s': Cluster)
    requires SafeStep(s, s')
    ensures Clusters.Next(s, s') || s' == s
  {
    hide HandleSafely, Deliver, Invoke, Tick, Expire, Restart, Clusters.Propagate, Pruned, Fail, Apply;
    if m, c, d :| HandleSafely(s, s', m, c, d) {
      SafelyHandledIsDelivered(s, s', m, c, d);
    } else if p :| StopSafely(s, s', p) {
      assert Crash(s, s', p);
    } else if p :| PruneSafely(s, s', p) {
      NothingApplied(s, p);
    }
  }

  /** A run of the program whose every step is safe is a run of module Clusters, so that
      everything proved of those holds in its last state. */
  lemma {:induction false} SafeProgramRun(run: seq<Cluster>) returns (r: seq<Cluster>)
    requires IsProgramRun(run) && forall i :: 0 <= i < |run| - 1 ==> SafeStep(run[i], run[i + 1])
    ensures Clusters.IsRun(r) && Last(r) == Last(run)
  {
    hide SafeStep, Step, Clusters.Next, Clusters.Init;
    if |run| == 1 {
      r := run;
    } else {
      var shorter := run[..|run| - 1];
      assert forall i :: 0 <= i < |shorter| - 1 ==> Step(run[i], run[i + 1]) && SafeStep(run[i], run[i + 1]);
      var r0 := SafeProgramRun(shorter);
      assert SafeStep(run[|run| - 2], run[|run| - 2 + 1]);
      SafeStepIsNext(Last(shorter), Last(run));
      if Last(run) == Last(shorter) {
        r := r0;
      } else {
        r := r0 + [Last(run)];
        forall i | 0 <= i < |r| - 1 ensures Clusters.Next(r[i], r[i + 1]) {
          if i < |r0| - 1 { assert Clusters.Next(r0[i], r0[i + 1]); }
        }
      }
    }
  }
}
