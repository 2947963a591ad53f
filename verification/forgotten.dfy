/** One more run of the program with a step that is not safe: a node forgets a finished
    transaction, and locks for it again. */
module Forgotten {
  import opened Packet
  import opened Wrappers
  import opened StagedStore
  import opened Node
  import opened Boundaries
  import opened Clusters
  import opened Theorems
  import opened Locking
  import opened Programs
  import opened Failures

  /** The member once it has committed write 7, knowing that these transactions are over. */
  function Finished(over: set<int>): Node {
    LockedBy7(PAIR, 1, LOCKS).(mode := Idle, currentTxid := -1, unlockTxids := over, store := COMMITTED)
  }

  function Told60(): Message { Signal(60, 0, 1, UnlockRequest, false) }

  lemma CommitsAt(c: Choice)
    ensures var n, m := StagedBy7(PAIR, 1, LOCKS), Unlock(1, true);
            && Dispatch(n, m, c) == Effect(Finished({7}), {Signal(7, 1, 0, UnlockAck, true)}, None)
            && !Overwrites(n, m, c) && !LateStamp(n, m)
  {
    assert Commit(STAGED, KEY, 1) == COMMITTED && {} + {7} == {7};
  }

  lemma MemberCommits(s: Cluster) returns (s': Cluster)
    requires Pair(s) && s.nodes[1] == StagedBy7(PAIR, 1, LOCKS) && Unlock(1, true) in s.net
    ensures s' == s.(nodes := s.nodes[1 := Finished({7})], net := s.net + {Signal(7, 1, 0, UnlockAck, true)})
    ensures Step(s, s') && SafeStep(s, s')
  {
    CommitsAt(Draw(PAIR, 1));
    hide Dispatch, Overwrites, LateStamp, Step, SafeStep, Draw;
    s' := Handled(s, Unlock(1, true), Effect(Finished({7}), {Signal(7, 1, 0, UnlockAck, true)}, None));
  }

  // ---------- another write comes and goes ----------

  const BOTH: set<Message> := {Write(PAIR, 7), Write(PAIR, 60)}

  function Sixty(): Node { Assembles(Done([], BOTH), 60, []) }

  lemma SixtyReceived(c: Choice)
    requires c == Draw(PAIR, 0)
    ensures var n, m := Done([], ONLY), Write(PAIR, 60);
            && Dispatch(n, m, c) == Silent(Done([m], BOTH)) && SafelyHandled(n, m, c)
            && TakeNextShared(n, m, c, c) == Effect(Sixty(), {LockFor(60, 1)}, None)
  {
    var n, m := Done([], ONLY), Write(PAIR, 60);
    assert n.lockRequests + [m] == [m] && [m] == [m] + [] && ONLY + {m} == BOTH;
    assert c.peers == {1};
    PairTakes(Done([m], BOTH), 60, [], c);
    NotLate(n, m);
    hide TakeNext, LateStamp;
    assert Assembles(Done([m], BOTH), 60, []) == Sixty();
  }

  lemma SixtyBegins(s: Cluster) returns (s': Cluster)
    requires Pair(s) && s.nodes[0] == Done([], ONLY) && Write(PAIR, 60) in s.once
    ensures s' == s.(nodes := s.nodes[0 := Sixty()], once := s.once - multiset{Write(PAIR, 60)},
                     net := s.net + {LockFor(60, 1)})
    ensures Step(s, s') && SafeStep(s, s')
  {
    var m, c := Write(PAIR, 60), Draw(PAIR, 0);
    assert m.dest == 0 && Consume(s, m) == s.(once := s.once - multiset{m}) && Ready(s, m);
    SixtyReceived(c);
    hide Dispatch, TakeNextShared, SafelyHandled, Step, SafeStep, Draw, Ready, Consume, Sixty, LockFor, BOTH;
    s' := TakenPlainly(s, m, Silent(Done([m], BOTH)), Effect(Sixty(), {LockFor(60, 1)}, None));
    hide Write, Done;
    assert s.net + {} == s.net && s.trace + [] == s.trace;
  }

  lemma SixtyGivesUp()
    ensures Timeout(Sixty()) == Effect(Done([], BOTH).(clientRequest := Write(PAIR, 60)), {Told60()}, Some(Failure(60)))
  {
    assert Peers(Sixty()) == {1};
  }

  lemma SixtyTimesOut(s: Cluster) returns (s': Cluster)
    requires Pair(s) && s.nodes[0] == Sixty()
    ensures s' == s.(nodes := s.nodes[0 := Done([], BOTH).(clientRequest := Write(PAIR, 60))],
                     net := s.net + {Told60(), Failure(60)})
    ensures Step(s, s') && SafeStep(s, s')
  {
    SixtyGivesUp();
    hide Timeout, Step, SafeStep;
    s' := Ticked(s, Effect(Done([], BOTH).(clientRequest := Write(PAIR, 60)), {Told60()}, Some(Failure(60))));
  }

  lemma ToldAt(c: Choice)
    ensures var n, m := Finished({7}), Told60();
            && Dispatch(n, m, c) == Effect(Finished({7, 60}), {Signal(60, 1, 0, UnlockAck, true)}, None)
            && !Overwrites(n, m, c) && !LateStamp(n, m)
  {
    assert {7} + {60} == {7, 60};
  }

  lemma MemberTold(s: Cluster) returns (s': Cluster)
    requires Pair(s) && s.nodes[1] == Finished({7}) && Told60() in s.net
    ensures s' == s.(nodes := s.nodes[1 := Finished({7, 60})], net := s.net + {Signal(60, 1, 0, UnlockAck, true)})
    ensures Step(s, s') && SafeStep(s, s')
  {
    ToldAt(Draw(PAIR, 1));
    hide Dispatch, Overwrites, LateStamp, Step, SafeStep, Draw;
    s' := Handled(s, Told60(), Effect(Finished({7, 60}), {Signal(60, 1, 0, UnlockAck, true)}, None));
  }

  // ---------- and transaction 7 is forgotten ----------

  lemma Forgets(s: Cluster) returns (s': Cluster)
    requires Pair(s) && s.nodes[1] == Finished({7, 60})
    ensures s' == s.(nodes := s.nodes[1 := Finished({60})]) && Prune(s, s', 1) && Step(s, s')
  {
    var n := s.nodes[1];
    assert 60 in n.unlockTxids && NewestId(n.unlockTxids) == 60;
    assert Pruned(n).unlockTxids == {60};
    s' := s.(nodes := s.nodes[1 := Pruned(n)]);
    NodeChanged(s, 1, Pruned(n));
    hide Pruned, Finished;
  }

  function LockedAgain(): Node { Finished({60}).(mode := ProcessingWrite, currentTxid := 7) }

  lemma LocksOnceMore(c: Choice)
    ensures var n, m := Finished({60}), Lock(1);
            && Dispatch(n, m, c) == Silent(n.(lockRequests := [m])) && SafelyHandled(n, m, c)
            && TakeNextShared(n, m, c, c) == Effect(LockedAgain(), {Grant(1)}, None)
  {
    assert Finished({60}).lockRequests + [Lock(1)] == [Lock(1)] && LOCKS + {Lock(1)} == LOCKS && [Lock(1)][1..] == [];
  }

  lemma MemberLocksAgain(s: Cluster) returns (s': Cluster)
    requires Pair(s) && s.nodes[1] == Finished({60}) && Lock(1) in s.net
    ensures s' == s.(nodes := s.nodes[1 := LockedAgain()], once := s.once + multiset{Grant(1)})
    ensures Step(s, s') && SafeStep(s, s')
  {
    var m, c := Lock(1), Draw(PAIR, 1);
    LocksOnceMore(c);
    hide Dispatch, TakeNextShared, SafelyHandled, Step, SafeStep, Draw;
    s' := TakenGranting(s, m, Finished({60}).(lockRequests := [m]), Effect(LockedAgain(), {Grant(1)}, None), Grant(1));
    assert m.dest == 1 && Consume(s, m) == s;
    hide Finished, LockedAgain, Lock, Grant, Consume;
  }

  lemma StrayAtIdle(c: Choice)
    ensures var n, m := Done([], BOTH).(clientRequest := Write(PAIR, 60)), Grant(1);
            && Dispatch(n, m, c) == Effect(n, {Unlock(1, false)}, None) && !Overwrites(n, m, c) && !LateStamp(n, m)
  {}

  lemma StrayAnswered(s: Cluster) returns (s': Cluster)
    requires Pair(s) && s.nodes[0] == Done([], BOTH).(clientRequest := Write(PAIR, 60)) && Grant(1) in s.once
    ensures s' == s.(once := s.once - multiset{Grant(1)}, net := s.net + {Unlock(1, false)})
    ensures Step(s, s') && SafeStep(s, s')
  {
    StrayAtIdle(Draw(PAIR, 0));
    hide Dispatch, Overwrites, LateStamp, Step, SafeStep, Draw, BOTH;
    s' := Handled(s, Grant(1), Effect(s.nodes[0], {Unlock(1, false)}, None));
    hide Done;
    assert s.nodes[0 := s.nodes[0]] == s.nodes;
  }

  // ---------- the run ----------

  /** Write 7 is acknowledged and committed at both nodes. */
  lemma SevenOver() returns (run: seq<Cluster>)
    ensures |run| == 10 && UnsafeAt(run, 13) && Pair(Last(run)) && Last(run).once == multiset{}
    ensures |run[4].nodes| == 2 && Locked(run[4].nodes[1], 7)
    ensures Last(run).nodes == [Done([], ONLY), Finished({7})]
    ensures Unlock(1, true) in Last(run).net && Lock(1) in Last(run).net
    ensures Last(run).trace == [Invoked(Write(PAIR, 7)), Returned(Success(PAIR))]
  {
    hide UnsafeAt, Step, SafeStep;
    run := Beginning(13, 7);
    run := Granting(run, 13, [], ONLY);
    run := Staging(run, 13, [], ONLY, LOCKS);
    var s := PairAcked(Last(run), ONLY);
    Extended(run, 13, s);
    run := run + [s];
    s := MemberCommits(s);
    Extended(run, 13, s);
    run := run + [s];
  }

  /** The member has been told of two finished transactions. */
  lemma SixtyOver() returns (run: seq<Cluster>)
    ensures |run| == 14 && UnsafeAt(run, 13) && Pair(Last(run)) && Last(run).once == multiset{}
    ensures |run[4].nodes| == 2 && Locked(run[4].nodes[1], 7) && |run[9].nodes| == 2 && run[9].nodes[1].mode.Idle?
    ensures Last(run).nodes == [Done([], BOTH).(clientRequest := Write(PAIR, 60)), Finished({7, 60})]
    ensures Unlock(1, true) in Last(run).net && Lock(1) in Last(run).net
  {
    hide UnsafeAt, Step, SafeStep, Done, Sixty, BOTH;
    run := SevenOver();
    var s := Asked(Last(run), Write(PAIR, 60));
    Extended(run, 13, s);
    run := run + [s];
    s := SixtyBegins(s);
    Extended(run, 13, s);
    run := run + [s];
    s := SixtyTimesOut(s);
    Extended(run, 13, s);
    run := run + [s];
    s := MemberTold(s);
    Extended(run, 13, s);
    run := run + [s];
  }

  /** A node forgets transaction 7, which trails another by more than 50, and locks for it
      again when the lock request is sent again. The members of an acknowledged write are
      told both to commit and to abort. */
  lemma LockedTwice() returns (run: seq<Cluster>)
    ensures |run| == 17 && UnsafeAt(run, 13) && Prune(run[13], run[14], 1)
    ensures |run[4].nodes| == |run[9].nodes| == |run[15].nodes| == 2
    ensures Locked(run[4].nodes[1], 7) && !Locked(run[9].nodes[1], 7) && Locked(run[15].nodes[1], 7)
    ensures Unlock(1, true) in Last(run).net && Unlock(1, false) in Last(run).net
  {
    hide UnsafeAt, Step, SafeStep, Prune, Done, BOTH;
    run := SixtyOver();
    var s := Forgets(Last(run));
    Extended(run, 13, s);
    run := run + [s];
    s := MemberLocksAgain(s);
    Extended(run, 13, s);
    run := run + [s];
    s := StrayAnswered(s);
    Extended(run, 13, s);
    run := run + [s];
  }
}
