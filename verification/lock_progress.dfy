/** When a call of Lock or Unlock can still return: exact conditions, at every
    moment of every run of net/locker.go. */
module LockProgress {
  import opened Wrappers
  import opened Lockers
  import Decimal

  /** Steps that may follow each other, from the first state to the last. */
  ghost predicate IsPath(path: seq<System>) {
    |path| > 0 && forall i :: 0 <= i < |path| - 1 ==> Next(path[i], path[i + 1])
  }

  ghost predicate Leads(path: seq<System>, s: System, t: System) {
    IsPath(path) && path[0] == s && path[|path| - 1] == t
  }

  /** Client c can come to be where `user` says. */
  ghost predicate CanBecome(s: System, c: nat, user: User) {
    exists path, t :: Leads(path, s, t) && c in t.clients && t.clients[c].user == user
  }

  lemma PathOk(path: seq<System>, s: System, t: System)
    requires Leads(path, s, t) && Inv(s)
    ensures Inv(t)
    decreases |path|
  {
    hide Inv, Next;
    if |path| > 1 {
      assert Next(path[0], path[0 + 1]);
      StepOk(path[0], path[1]);
      forall i | 0 <= i < |path[1..]| - 1 ensures Next(path[1..][i], path[1..][i + 1]) {
        assert Next(path[i + 1], path[i + 1 + 1]);
      }
      PathOk(path[1..], path[1], t);
    }
  }

  lemma Join(one: seq<System>, two: seq<System>, s: System, m: System, t: System)
    requires Leads(one, s, m) && Leads(two, m, t)
    ensures |two| > 0 && Leads(one + two[1..], s, t)
  {
    hide Next;
    var path := one + two[1..];
    forall i | 0 <= i < |path| - 1 ensures Next(path[i], path[i + 1]) {
      if i < |one| - 1 {
        assert Next(one[i], one[i + 1]);
      } else {
        assert Next(two[i - |one| + 1], two[i - |one| + 1 + 1]);
      }
    }
  }

  lemma Extend(path: seq<System>, s: System, m: System, t: System)
    requires Leads(path, s, m) && Next(m, t)
    ensures Leads(path + [t], s, t)
  {
    hide Next;
    assert IsPath([m, t]);
    Join(path, [m, t], s, m, t);
    assert [m, t][1..] == [t];
  }

  /** The client's StrongPut watches an attempt that took effect. */
  predicate HasWon(s: System, c: nat)
    requires c in s.clients
  {
    && s.clients[c].daemon.Putting? && s.clients[c].daemon.latest.Some?
    && s.clients[c].daemon.latest.value in s.won
  }

  // ---------- a client's own steps ----------

  /** Whatever it is doing, a daemon can come back to reading the register, with nothing else changed. */
  lemma Settle(s: System, c: nat) returns (path: seq<System>, t: System)
    requires Inv(s) && c in s.clients
    ensures Leads(path, s, t) && c in t.clients && t.clients[c].daemon.Polling?
    ensures t.versions == s.versions && t.clients.Keys == s.clients.Keys
    ensures forall d :: d in s.clients ==> t.clients[d].user == s.clients[d].user
  {
    hide Inv, Name, NodeId;
    t := s;
    path := [s];
    if t.clients[c].daemon.Read? {
      var x := t.clients[c];
      var (l, call) := Decide(x.locker, x.daemon.value, x.daemon.ts);
      var t' := With(t, c, x.(locker := l, daemon := if call.Some? then Putting(call.value, None) else Polling));
      assert Choose(t, t', c);
      Extend(path, s, t, t');
      path, t := path + [t'], t';
    }
    if t.clients[c].daemon.Putting? {
      var t' := With(t, c, t.clients[c].(daemon := Polling));
      assert Return(t, t', c, false);
      Extend(path, s, t, t');
      path, t := path + [t'], t';
    }
  }

  /** Client c reads the latest version, chooses what to do, sends a StrongPut, the database
      serves it, and it returns, with the answer or without: five steps of this client. */
  ghost predicate IsRound(path: seq<System>, c: nat, success: bool) {
    && |path| == 6
    && Get(path[0], path[1], c, |path[0].versions|) && Choose(path[1], path[2], c) && Send(path[2], path[3], c)
    && Serve(path[3], path[4], path[2].next) && Return(path[4], path[5], c, success)
  }

  lemma RoundLeads(path: seq<System>, c: nat, success: bool)
    requires IsRound(path, c, success)
    ensures |path| == 6 && Leads(path, path[0], path[5])
  {
    hide CallLock, CallUnlock, Get, Choose, Send, Serve, Lose, Return;
    assert Next(path[0], path[1]) && Next(path[1], path[2]) && Next(path[2], path[3]);
    assert Next(path[3], path[4]) && Next(path[4], path[5]);
    hide Next, IsRound;
    forall i | 0 <= i < 5 ensures Next(path[i], path[i + 1]) {
      if i == 0 {} else if i == 1 {} else if i == 2 {} else if i == 3 {} else {}
    }
  }

  /** What a round leaves behind: the next version, of the same client; its user has come on
      if the answer came. */
  ghost predicate RoundDone(s: System, t: System, c: nat, user: User) {
    && c in s.clients && t.clients.Keys == s.clients.Keys
    && t.versions == s.versions + [Name(c)] && t.clients[c].user == user && t.clients[c].daemon.Polling?
    && forall d :: d in s.clients && d != c ==> t.clients[d] == s.clients[d]
  }

  /** The round of a client whose daemon, having read the latest version, makes this call. */
  lemma Round(s: System, c: nat, l: Locker, call: Call, success: bool) returns (path: seq<System>)
    requires Inv(s) && c in s.clients && s.clients[c].daemon.Polling?
    requires Decide(s.clients[c].locker, ValueAt(s, |s.versions|), |s.versions|) == (l, Some(call))
    requires call == Call(Name(c), |s.versions| + 1) && Finish(l, call.version, success).1 == success
    ensures IsRound(path, c, success) && path[0] == s
    ensures RoundDone(s, path[5], c, if !success then s.clients[c].user else if call.version % 2 == 0
                                     then Outside else Inside)
  {
    var x := s.clients[c];
    var s1 := With(s, c, x.(daemon := Read(ValueAt(s, |s.versions|), |s.versions|)));
    var s2 := With(s1, c, x.(locker := l, daemon := Putting(call, None)));
    var s3 := With(s2, c, x.(locker := l, daemon := Putting(call, Some(s2.next)))).(
                pending := s2.pending[s2.next := Attempt(c, call)], next := s2.next + 1);
    var s4 := s3.(pending := s3.pending - {s2.next}, versions := s3.versions + [call.value],
                  won := s3.won[s2.next := Attempt(c, call)]);
    var user := if !success then x.user else if call.version % 2 == 0 then Outside else Inside;
    path := [s, s1, s2, s3, s4, With(s4, c, Client(user, Finish(l, call.version, success).0, Polling))];
    hide Inv, Name, NodeId, Decide, Finish, ValueAt;
    assert Get(s, s1, c, |s.versions|);
    assert Choose(s1, s2, c);
    assert Send(s2, s3, c);
    assert Serve(s3, s4, s2.next);
    assert Return(s4, path[5], c, success);
  }

  /** The owner of an odd version, waiting in Unlock, gives it up by its own steps: the next
      version is even, and with the answer Unlock returns. */
  lemma OwnerReleases(s: System, c: nat, success: bool) returns (path: seq<System>)
    requires Inv(s) && c in s.clients && s.clients[c].daemon.Polling?
    requires s.clients[c].user.Unlocking? && Owner(s, c)
    ensures IsRound(path, c, success) && path[0] == s
    ensures RoundDone(s, path[5], c, if success then Outside else s.clients[c].user)
  {
    InvClient(s, c);
    Decimal.RoundTrip(c);
    assert NodeId(Name(c)) == c;
    var l := s.clients[c].locker.(haveLock := true);
    hide Inv, Name, NodeId, VersionsOk;
    path := Round(s, c, l, Call(Name(c), |s.versions| + 1), success);
  }

  /** A client waiting in Lock while the latest version is even takes the lock by its own
      steps: the next version is odd and names it, and with the answer Lock returns. */
  lemma FreeLockIsTaken(s: System, c: nat, success: bool) returns (path: seq<System>)
    requires Inv(s) && c in s.clients && s.clients[c].daemon.Polling?
    requires s.clients[c].user.Locking? && |s.versions| % 2 == 0
    ensures IsRound(path, c, success) && path[0] == s
    ensures RoundDone(s, path[5], c, if success then Inside else s.clients[c].user)
  {
    InvClient(s, c);
    hide Inv, Name, NodeId, VersionsOk;
    path := Round(s, c, s.clients[c].locker, Call(Name(c), |s.versions| + 1), success);
  }

  // ---------- whose Lock or Unlock can return ----------

  /** Client d waits in Lock for a lock it has already: the attempt that wrote its version
      is not the one its StrongPut watches. */
  ghost predicate Missed(s: System, d: nat) {
    d in s.clients && s.clients[d].user.Locking? && Owner(s, d) && !HasWon(s, d)
  }

  ghost predicate Blocked(s: System) { exists d :: Missed(s, d) }

  /** An answer on its way makes the waiting call return. */
  lemma WinnerReturns(s: System, c: nat) returns (t: System)
    requires Inv(s) && c in s.clients && HasWon(s, c)
    ensures Leads([s, t], s, t) && t.clients.Keys == s.clients.Keys && t.versions == s.versions
    ensures t.clients[c].user == if s.clients[c].user.Locking? then Inside else Outside
    ensures s.clients[c].user.Locking? || s.clients[c].user.Unlocking?
    ensures forall d :: d in s.clients && d != c ==> t.clients[d] == s.clients[d]
  {
    InvClient(s, c);
    hide Inv, Name, VersionsOk;
    var x := s.clients[c];
    var version := x.daemon.call.version;
    var (l, signal) := Finish(x.locker, version, true);
    t := With(s, c, Client(if version % 2 == 0 then Outside else Inside, l, Polling));
    assert Return(s, t, c, true);
  }

  lemma UnlockRound(s: System, c: nat) returns (path: seq<System>, t: System)
    requires Inv(s) && c in s.clients && s.clients[c].user.Unlocking? && Owner(s, c)
    ensures Leads(path, s, t) && |t.versions| % 2 == 0 && t.clients.Keys == s.clients.Keys && t.clients[c].user.Outside?
    ensures forall d :: d in s.clients && d != c ==> t.clients[d].user == s.clients[d].user
  {
    hide Inv, Name, Leads, IsRound;
    var way, u := Settle(s, c);
    PathOk(way, s, u);
    var round := OwnerReleases(u, c, true);
    t := RoundEnd(round, c);
    Join(way, round, s, u, t);
    path := way + round[1..];
  }

  lemma LockRound(s: System, c: nat) returns (path: seq<System>, t: System)
    requires Inv(s) && c in s.clients && s.clients[c].user.Locking? && |s.versions| % 2 == 0
    ensures Leads(path, s, t) && c in t.clients && t.clients[c].user.Inside?
  {
    hide Inv, Name, Leads, IsRound;
    var way, u := Settle(s, c);
    PathOk(way, s, u);
    var round := FreeLockIsTaken(u, c, true);
    t := RoundEnd(round, c);
    Join(way, round, s, u, t);
    path := way + round[1..];
  }

  lemma RoundEnd(path: seq<System>, c: nat) returns (t: System)
    requires IsRound(path, c, true)
    ensures |path| == 6 && t == path[5] && Leads(path, path[0], t)
  {
    RoundLeads(path, c, true);
    hide IsRound, Leads;
    t := path[5];
  }

  lemma InsideCanLeave(s: System, c: nat) returns (path: seq<System>, t: System)
    requires Inv(s) && c in s.clients && s.clients[c].user.Inside?
    ensures Leads(path, s, t) && |t.versions| % 2 == 0 && t.clients.Keys == s.clients.Keys && t.clients[c].user.Outside?
    ensures forall d :: d in s.clients && d != c ==> t.clients[d].user == s.clients[d].user
  {
    InvClient(s, c);
    var m := With(s, c, s.clients[c].(user := Unlocking, locker := Unlock(s.clients[c].locker)));
    assert CallUnlock(s, m, c);
    assert Next(s, m);
    assert Owner(m, c);
    hide Next, Name, Inv;
    StepOk(s, m);
    assert Leads([s, m], s, m);
    hide Leads, Owner;
    path, t := UnlockRound(m, c);
    Join([s, m], path, s, m, t);
    path := [s, m] + path[1..];
  }

  /** From its own version on, the owner can leave the lock free, if its Lock can return. */
  lemma OwnerCanLeave(s: System, c: nat) returns (path: seq<System>, t: System)
    requires Inv(s) && c in s.clients && Owner(s, c) && !Missed(s, c)
    ensures Leads(path, s, t) && |t.versions| % 2 == 0 && t.clients.Keys == s.clients.Keys && t.clients[c].user.Outside?
    ensures forall d :: d in s.clients && d != c ==> t.clients[d].user == s.clients[d].user
  {
    assert !s.clients[c].user.Outside? by { InvClient(s, c); }
    hide Name, Leads, Inv;
    if s.clients[c].user.Locking? {
      var m := WinnerReturns(s, c);
      PathOk([s, m], s, m);
      path, t := InsideCanLeave(m, c);
      Join([s, m], path, s, m, t);
      path := [s, m] + path[1..];
    } else if s.clients[c].user.Inside? {
      path, t := InsideCanLeave(s, c);
    } else {
      path, t := UnlockRound(s, c);
    }
  }

  lemma OwnerExists(s: System) returns (c: nat)
    requires Inv(s) && |s.versions| % 2 == 1
    ensures c in s.clients && Owner(s, c)
  {
    assert NamesClient(s, s.versions[|s.versions| - 1]);
    c :| c in s.clients && s.versions[|s.versions| - 1] == Name(c);
  }

  lemma LockCanReturn(s: System, c: nat) returns (path: seq<System>, t: System)
    requires Inv(s) && c in s.clients && s.clients[c].user.Locking? && !Blocked(s)
    ensures Leads(path, s, t) && c in t.clients && t.clients[c].user.Inside?
  {
    hide Inv, Name, Leads;
    if |s.versions| % 2 == 0 {
      path, t := LockRound(s, c);
    } else {
      var d := OwnerExists(s);
      assert !Missed(s, d);
      if d == c {
        t := WinnerReturns(s, c);
        path := [s, t];
      } else {
        hide Owner, Missed;
        var way, m := OwnerCanLeave(s, d);
        PathOk(way, s, m);
        path, t := LockRound(m, c);
        Join(way, path, s, m, t);
        path := way + path[1..];
      }
    }
  }

  /** Client d goes on waiting, and its StrongPut watches no attempt that took effect. */
  ghost predicate StillWaits(s: System, s': System, d: nat) {
    && d in s.clients && d in s'.clients && s'.clients[d].user == s.clients[d].user && !HasWon(s', d)
    && s'.versions == s.versions && s'.clients.Keys == s.clients.Keys
  }

  ghost predicate Waits(s: System, d: nat) {
    d in s.clients && (s.clients[d].user.Locking? || s.clients[d].user.Unlocking?) && !HasWon(s, d)
  }

  lemma UserWaits(s: System, s': System, c: nat, d: nat)
    requires Waits(s, d) && (CallLock(s, s', c) || CallUnlock(s, s', c))
    ensures StillWaits(s, s', d)
  {}

  lemma DaemonWaits(s: System, s': System, c: nat, d: nat)
    requires Waits(s, d) && (Choose(s, s', c) || exists ts :: Get(s, s', c, ts))
    ensures StillWaits(s, s', d)
  {
    hide Decide, ValueAt;
  }

  lemma AttemptWaits(s: System, s': System, c: nat, d: nat)
    requires Waits(s, d) && s.next !in s.won && Send(s, s', c)
    ensures StillWaits(s, s', d)
  {}

  lemma ReturnWaits(s: System, s': System, c: nat, success: bool, d: nat)
    requires Waits(s, d) && Return(s, s', c, success)
    ensures StillWaits(s, s', d)
  {
    if c == d { assert !success; }
  }

  /** A waiting client whose StrongPut watches no attempt that took effect goes on waiting,
      and watches none, unless the database serves one. */
  lemma StepWaits(s: System, s': System, d: nat)
    requires Inv(s) && Next(s, s') && (forall a :: !Serve(s, s', a)) && Waits(s, d)
    ensures StillWaits(s, s', d)
  {
    assert s.next !in s.won;
    hide Inv, Waits, StillWaits, CallLock, CallUnlock, Get, Choose, Send, Serve, Lose, Return;
    if c :| CallLock(s, s', c) { UserWaits(s, s', c, d); }
    else if c :| CallUnlock(s, s', c) { UserWaits(s, s', c, d); }
    else if c, ts :| Get(s, s', c, ts) { DaemonWaits(s, s', c, d); }
    else if c :| Choose(s, s', c) { DaemonWaits(s, s', c, d); }
    else if c :| Send(s, s', c) { AttemptWaits(s, s', c, d); }
    else if a :| Lose(s, s', a) { LoseWaits(s, s', a, d); }
    else if c, success :| Return(s, s', c, success) { ReturnWaits(s, s', c, success, d); }
  }

  lemma LoseWaits(s: System, s': System, a: nat, d: nat)
    requires Waits(s, d) && Lose(s, s', a)
    ensures StillWaits(s, s', d)
  {}

  /** What serving an attempt changes for a client that is waiting. */
  lemma ServedWaits(s: System, s': System, a: nat, d: nat)
    requires Inv(s) && Serve(s, s', a) && d in s.clients && !HasWon(s, d)
    requires Owner(s, d) <==> s.clients[d].user.Locking?
    requires s.clients[d].user.Locking? || s.clients[d].user.Unlocking?
    ensures d in s'.clients && s'.clients[d].user == s.clients[d].user && !HasWon(s', d)
    ensures Owner(s', d) <==> Owner(s, d)
  {
    InvAttempt(s, a);
    InvClient(s, d);
    var x := s.pending[a];
    if Live(s, x.call) { OwnerAfter(s, s', a, d); }
    hide Inv, Name, VersionsOk, CallOk, Owner;
  }

  /** A lock that its owner does not know of is never known of, nor given up. */
  lemma MissedStays(s: System, s': System, d: nat)
    requires Inv(s) && Missed(s, d) && Next(s, s')
    ensures Missed(s', d)
  {
    hide Inv, Next, Name;
    if a :| Serve(s, s', a) { ServedWaits(s, s', a, d); } else { StepWaits(s, s', d); }
  }

  /** Neither is an Unlock answered whose release took effect unseen. */
  ghost predicate Unanswered(s: System, c: nat) {
    c in s.clients && s.clients[c].user.Unlocking? && !Owner(s, c) && !HasWon(s, c)
  }

  lemma UnansweredStays(s: System, s': System, c: nat)
    requires Inv(s) && Unanswered(s, c) && Next(s, s')
    ensures Unanswered(s', c)
  {
    hide Inv, Next, Name;
    if a :| Serve(s, s', a) { ServedWaits(s, s', a, c); } else { StepWaits(s, s', c); }
  }

  /** While one client's lock goes unknown, no other's Lock returns. */
  lemma BlockedWaits(s: System, s': System, c: nat, d: nat)
    requires Inv(s) && Missed(s, d) && Next(s, s') && c in s.clients && s.clients[c].user.Locking?
    ensures c in s'.clients && s'.clients[c].user.Locking?
  {
    InvClient(s, c);
    IdsDiffer(c, d);
    hide Inv, Next, Name, VersionsOk, CallOk, LiveOk;
    if a :| Serve(s, s', a) {} else { StepWaits(s, s', c); }
  }

  lemma {:induction false} MissedForGood(path: seq<System>, s: System, t: System, c: nat, d: nat)
    requires Leads(path, s, t) && Inv(s) && Missed(s, d) && c in s.clients && s.clients[c].user.Locking?
    ensures c in t.clients && t.clients[c].user.Locking?
    decreases |path|
  {
    hide Missed, Next, Inv;
    if |path| > 1 {
      Advance(path, s, t);
      StepOk(s, path[1]);
      MissedStays(s, path[1], d);
      BlockedWaits(s, path[1], c, d);
      MissedForGood(path[1..], path[1], t, c, d);
    }
  }

  lemma Advance(path: seq<System>, s: System, t: System)
    requires Leads(path, s, t) && |path| > 1
    ensures Next(s, path[1]) && Leads(path[1..], path[1], t)
  {
    hide Next;
    assert Next(path[0], path[0 + 1]);
    forall i | 0 <= i < |path[1..]| - 1 ensures Next(path[1..][i], path[1..][i + 1]) {
      assert Next(path[i + 1], path[i + 1 + 1]);
    }
  }

  lemma {:induction false} UnansweredForGood(path: seq<System>, s: System, t: System, c: nat)
    requires Leads(path, s, t) && Inv(s) && Unanswered(s, c)
    ensures Unanswered(t, c)
    decreases |path|
  {
    hide Unanswered, Next, Inv;
    if |path| > 1 {
      Advance(path, s, t);
      StepOk(s, path[1]);
      UnansweredStays(s, path[1], c);
      UnansweredForGood(path[1..], path[1], t, c);
    }
  }

  /** At any moment of any run, a call of Lock can still return exactly if no client waits in
      Lock for a lock it has without watching the attempt that got it. */
  lemma LockReturns(run: seq<System>, c: nat)
    requires IsRun(run) && c in run[|run| - 1].clients && run[|run| - 1].clients[c].user.Locking?
    ensures CanBecome(run[|run| - 1], c, Inside) <==> !Blocked(run[|run| - 1])
  {
    RunOk(run);
    var s := run[|run| - 1];
    hide IsRun, Inv, Leads, Missed;
    if !Blocked(s) {
      var path, t := LockCanReturn(s, c);
      assert CanBecome(s, c, Inside);
    } else {
      var d :| Missed(s, d);
      forall path, t | Leads(path, s, t) ensures c in t.clients && !t.clients[c].user.Inside? {
        MissedForGood(path, s, t, c, d);
      }
    }
  }

  /** A call of Unlock can still return exactly if its client has not yet given the version up,
      or watches the attempt that did. */
  lemma UnlockReturns(run: seq<System>, c: nat)
    requires IsRun(run) && c in run[|run| - 1].clients && run[|run| - 1].clients[c].user.Unlocking?
    ensures CanBecome(run[|run| - 1], c, Outside) <==> Owner(run[|run| - 1], c) || HasWon(run[|run| - 1], c)
  {
    RunOk(run);
    var s := run[|run| - 1];
    hide IsRun, Inv, Leads, Owner, HasWon;
    if Owner(s, c) {
      var path, t := UnlockRound(s, c);
      assert CanBecome(s, c, Outside);
    } else if HasWon(s, c) {
      var t := WinnerReturns(s, c);
      assert CanBecome(s, c, Outside);
    } else {
      forall path, t | Leads(path, s, t) ensures c in t.clients && !t.clients[c].user.Outside? {
        UnansweredForGood(path, s, t, c);
      }
    }
  }

  /** Whenever a client can take the free lock or give its version up, the answer to its
      StrongPut may be lost, and then the call never returns. */
  lemma LostAnswer(s: System, c: nat) returns (path: seq<System>, t: System)
    requires Inv(s) && c in s.clients && s.clients[c].daemon.Polling?
    requires (s.clients[c].user.Locking? && |s.versions| % 2 == 0) || (s.clients[c].user.Unlocking? && Owner(s, c))
    ensures Leads(path, s, t) && if s.clients[c].user.Locking? then Missed(t, c) else Unanswered(t, c)
  {
    hide Inv, IsRound, Leads, Name;
    if s.clients[c].user.Locking? {
      path := FreeLockIsTaken(s, c, false);
    } else {
      path := OwnerReleases(s, c, false);
    }
    RoundLeads(path, c, false);
    t := path[5];
  }
}
