/** A mutex on a versioned register (net/locker.go): a client holds it while the
    register is at an odd version that the client wrote. */
module Lockers {
  import opened Wrappers
  import Decimal

  // ---------- one client ----------

  /** The fields of a ClientLocker; a channel is there while a call waits on it. */
  datatype Locker = Locker(id: nat, wantLock: bool, haveLock: bool, lockResChan: bool, unlockResChan: bool)

  /** A StrongPut of this value at this version. */
  datatype Call = Call(value: string, version: nat)

  function NewLocker(id: nat): Locker { Locker(id, false, false, false, false) }

  function Lock(l: Locker): Locker { l.(lockResChan := true, wantLock := true) }

  function Unlock(l: Locker): Locker { l.(unlockResChan := true, wantLock := false) }

  function Name(id: nat): string { Decimal.Itoa(id) }

  /** The node id in a value; what is no numeral reads as zero. */
  function NodeId(value: string): nat {
    match Decimal.Atoi(value)
    case Some(n) => n
    case None => 0
  }

  /** The daemon has read a value and its version: release, acquire, or do nothing. */
  function Decide(l: Locker, value: string, ts: nat): (Locker, Option<Call>) {
    if ts % 2 == 1 && NodeId(value) == l.id && !l.wantLock then (l.(haveLock := true), Some(Call(value, ts + 1)))
    else if ts % 2 == 0 && l.wantLock then (l, Some(Call(Name(l.id), ts + 1)))
    else (l, None)
  }

  /** The daemon's call for this version is over; true if a waiting call of the user returns. */
  function Finish(l: Locker, version: nat, success: bool): (Locker, bool) {
    if !success then (l, false)
    else if version % 2 == 0 then (l.(haveLock := false, unlockResChan := false), l.unlockResChan)
    else (l.(haveLock := true, lockResChan := false), l.lockResChan)
  }

  class ClientLocker {
    const id: nat
    var wantLock: bool
    var haveLock: bool
    var lockResChan: bool
    var unlockResChan: bool

    function State(): Locker
      reads this
    {
      Locker(id, wantLock, haveLock, lockResChan, unlockResChan)
    }

    constructor (id: nat)
      ensures State() == NewLocker(id)
    {
      this.id, wantLock, haveLock, lockResChan, unlockResChan := id, false, false, false, false;
    }

    /** Up to the point where the caller waits. */
    method StartLock()
      modifies this
      ensures State() == Lock(old(State()))
    {
      lockResChan := true;
      wantLock := true;
    }

    method StartUnlock()
      modifies this
      ensures State() == Unlock(old(State()))
    {
      unlockResChan := true;
      wantLock := false;
    }

    /** The daemon's loop from reading the register to writing it. */
    method AfterGet(value: string, ts: nat) returns (call: Option<Call>)
      modifies this
      ensures (State(), call) == Decide(old(State()), value, ts)
    {
      call := None;
      if ts % 2 == 1 && NodeId(value) == id && !wantLock {
        haveLock := true;
        call := Some(Call(value, ts + 1));
      }
      if ts % 2 == 0 && wantLock {
        call := Some(Call(Name(id), ts + 1));
      }
    }

    /** ... and what it does with the result. */
    method AfterPut(version: nat, success: bool) returns (signal: bool)
      modifies this
      ensures (State(), signal) == Finish(old(State()), version, success)
    {
      signal := false;
      if success && version % 2 == 0 {
        haveLock := false;
        if unlockResChan {
          signal := true;
          unlockResChan := false;
        }
      }
      if success && version % 2 == 1 {
        haveLock := true;
        if lockResChan {
          signal := true;
          lockResChan := false;
        }
      }
    }
  }

  // ---------- all clients and the register ----------

  /** Where the user of a client is: before Lock, waiting in it, between Lock and Unlock, or waiting in Unlock. */
  datatype User = Outside | Locking | Inside | Unlocking

  /** The daemon reads the register, has read it, or is in a StrongPut, of which it
      watches the latest attempt only. */
  datatype Daemon = Polling | Read(value: string, ts: nat) | Putting(call: Call, latest: Option<nat>)

  datatype Client = Client(user: User, locker: Locker, daemon: Daemon)

  /** One attempt of a StrongPut, on its way to the database. */
  datatype Attempt = Attempt(client: nat, call: Call)

  /** versions[i] is the value of version i + 1; attempts are numbered, and those
      that took effect are remembered. */
  datatype System = System(
    versions: seq<string>, clients: map<nat, Client>, pending: map<nat, Attempt>, won: map<nat, Attempt>, next: nat)

  ghost predicate Init(s: System) {
    && s.versions == [] && s.pending == map[] && s.won == map[] && s.next == 0
    && forall c :: c in s.clients ==> s.clients[c] == Client(Outside, NewLocker(c), Polling)
  }

  function ValueAt(s: System, ts: nat): string
    requires ts <= |s.versions|
  {
    if ts == 0 then "" else s.versions[ts - 1]
  }

  function With(s: System, c: nat, x: Client): System { s.(clients := s.clients[c := x]) }

  ghost predicate CallLock(s: System, s': System, c: nat) {
    && c in s.clients && s.clients[c].user.Outside?
    && s' == With(s, c, s.clients[c].(user := Locking, locker := Lock(s.clients[c].locker)))
  }

  ghost predicate CallUnlock(s: System, s': System, c: nat) {
    && c in s.clients && s.clients[c].user.Inside?
    && s' == With(s, c, s.clients[c].(user := Unlocking, locker := Unlock(s.clients[c].locker)))
  }

  /** A read may even return a version that is no longer the latest. */
  ghost predicate Get(s: System, s': System, c: nat, ts: nat) {
    && c in s.clients && s.clients[c].daemon.Polling? && ts <= |s.versions|
    && s' == With(s, c, s.clients[c].(daemon := Read(ValueAt(s, ts), ts)))
  }

  ghost predicate Choose(s: System, s': System, c: nat) {
    && c in s.clients && s.clients[c].daemon.Read?
    && var x := s.clients[c];
       var (l, call) := Decide(x.locker, x.daemon.value, x.daemon.ts);
       s' == With(s, c, x.(locker := l, daemon := if call.Some? then Putting(call.value, None) else Polling))
  }

  /** The client sends the call, for the first time or again, and forgets earlier attempts. */
  ghost predicate Send(s: System, s': System, c: nat) {
    && c in s.clients && s.clients[c].daemon.Putting?
    && var x := s.clients[c];
       s' == With(s, c, x.(daemon := x.daemon.(latest := Some(s.next)))).(
               pending := s.pending[s.next := Attempt(c, x.daemon.call)], next := s.next + 1)
  }

  /** The database handles an attempt, however late: a compare-and-set on the version. */
  ghost predicate Serve(s: System, s': System, a: nat) {
    && a in s.pending
    && var call := s.pending[a].call;
       var s1 := s.(pending := s.pending - {a});
       s' == if call.version == |s.versions| + 1
             then s1.(versions := s.versions + [call.value], won := s.won[a := s.pending[a]])
             else s1
  }

  ghost predicate Lose(s: System, s': System, a: nat) {
    a in s.pending && s' == s.(pending := s.pending - {a})
  }

  /** The call returns: as a success only if its latest attempt took effect. */
  ghost predicate Return(s: System, s': System, c: nat, success: bool) {
    && c in s.clients && s.clients[c].daemon.Putting?
    && (success ==> s.clients[c].daemon.latest.Some? && s.clients[c].daemon.latest.value in s.won)
    && var x := s.clients[c];
       var version := x.daemon.call.version;
       var (l, signal) := Finish(x.locker, version, success);
       var user := if !signal then x.user else if version % 2 == 0 then Outside else Inside;
       s' == With(s, c, Client(user, l, Polling))
  }

  ghost predicate Next(s: System, s': System) {
    || (exists c :: CallLock(s, s', c))
    || (exists c :: CallUnlock(s, s', c))
    || (exists c, ts :: Get(s, s', c, ts))
    || (exists c :: Choose(s, s', c))
    || (exists c :: Send(s, s', c))
    || (exists a :: Serve(s, s', a))
    || (exists a :: Lose(s, s', a))
    || (exists c, success :: Return(s, s', c, success))
  }

  ghost predicate IsRun(run: seq<System>) {
    |run| > 0 && Init(run[0]) && forall i :: 0 <= i < |run| - 1 ==> Next(run[i], run[i + 1])
  }

  // ---------- the invariant ----------

  /** Client c wrote the latest version, and it is odd. */
  predicate Owner(s: System, c: nat) {
    |s.versions| % 2 == 1 && s.versions[|s.versions| - 1] == Name(c)
  }

  ghost predicate NamesClient(s: System, value: string) { exists c :: c in s.clients && value == Name(c) }

  /** Odd versions carry the id of a client, even ones repeat the version before. */
  ghost predicate VersionsOk(s: System) {
    && (forall i :: 0 <= i < |s.versions| && i % 2 == 0 ==> NamesClient(s, s.versions[i]))
    && (forall i :: 0 <= i < |s.versions| && i % 2 == 1 ==> s.versions[i] == s.versions[i - 1])
  }

  /** A call acquires the version after an even one, or releases a version its client wrote. */
  ghost predicate CallOk(s: System, c: nat, call: Call) {
    && 1 <= call.version <= |s.versions| + 1 && call.value == Name(c)
    && (call.version % 2 == 0 ==> s.versions[call.version - 2] == Name(c))
  }

  predicate Live(s: System, call: Call) { call.version == |s.versions| + 1 }

  /** A call that can still take effect: to acquire while waiting for the lock, to
      release only when no longer inside. */
  ghost predicate LiveOk(s: System, c: nat, call: Call)
    requires c in s.clients
  {
    Live(s, call) ==> if call.version % 2 == 1 then s.clients[c].user.Locking?
                      else !s.clients[c].user.Locking? && !s.clients[c].user.Inside?
  }

  ghost predicate AttemptOk(s: System, a: nat) {
    && a in s.pending && a < s.next
    && var x := s.pending[a];
       x.client in s.clients && CallOk(s, x.client, x.call) && LiveOk(s, x.client, x.call)
  }

  ghost predicate LockerOk(c: nat, x: Client) {
    && x.locker.id == c
    && (x.locker.wantLock <==> x.user.Locking? || x.user.Inside?)
    && (x.locker.lockResChan <==> x.user.Locking?)
    && (x.locker.unlockResChan <==> x.user.Unlocking?)
    && (x.user.Inside? ==> x.locker.haveLock)
  }

  ghost predicate DaemonOk(s: System, c: nat, d: Daemon)
    requires c in s.clients
  {
    match d
    case Polling => true
    case Read(value, ts) => ts <= |s.versions| && value == ValueAt(s, ts)
    case Putting(call, latest) =>
      && CallOk(s, c, call) && LiveOk(s, c, call)
      && (latest.Some? ==>
            && latest.value < s.next
            && (latest.value in s.pending ==> s.pending[latest.value] == Attempt(c, call))
            && (latest.value in s.won ==> s.won[latest.value] == Attempt(c, call)))
      && (latest.Some? && latest.value in s.won ==>
            if call.version % 2 == 1 then s.clients[c].user.Locking? && Owner(s, c)
            else s.clients[c].user.Unlocking? && !Owner(s, c))
  }

  ghost predicate ClientOk(s: System, c: nat) {
    && c in s.clients && LockerOk(c, s.clients[c]) && DaemonOk(s, c, s.clients[c].daemon)
    && (s.clients[c].user.Inside? ==> Owner(s, c))
    && (s.clients[c].user.Outside? ==> !Owner(s, c))
  }

  ghost predicate Inv(s: System) {
    && VersionsOk(s)
    && (forall a :: a in s.pending ==> AttemptOk(s, a))
    && (forall a :: a in s.won ==> a < s.next && a !in s.pending)
    && (forall c :: c in s.clients ==> ClientOk(s, c))
  }

  lemma InitOk(s: System)
    requires Init(s)
    ensures Inv(s)
  {}

  lemma IdsDiffer(c: nat, d: nat)
    ensures Name(c) == Name(d) <==> c == d
  {
    if Name(c) == Name(d) { Decimal.Injective(c, d); }
  }

  lemma InvClient(s: System, c: nat)
    requires Inv(s) && c in s.clients
    ensures ClientOk(s, c) && VersionsOk(s)
  {}

  lemma InvAttempt(s: System, a: nat)
    requires Inv(s) && a in s.pending
    ensures AttemptOk(s, a)
  {}

  lemma NamesStay(s: System, s': System)
    requires s.clients.Keys == s'.clients.Keys
    ensures forall value :: NamesClient(s, value) ==> NamesClient(s', value)
  {}

  /** Each client's part depends only on the register, the attempts and the client itself. */
  lemma OtherClient(s: System, s': System, d: nat)
    requires ClientOk(s, d) && d in s'.clients && s'.clients[d] == s.clients[d]
    requires s'.versions == s.versions && s'.pending == s.pending && s'.won == s.won && s'.next == s.next
    ensures ClientOk(s', d)
  {
    hide Name;
  }

  /** A step of one client that leaves the register and the attempts alone. */
  lemma ClientStep(s: System, s': System, c: nat, x: Client)
    requires Inv(s) && c in s.clients && s' == With(s, c, x)
    requires LockerOk(c, x) && DaemonOk(s', c, x.daemon)
    requires (x.user.Inside? ==> Owner(s, c)) && (x.user.Outside? ==> !Owner(s, c))
    requires forall a :: a in s.pending && s.pending[a].client == c ==> LiveOk(s', c, s.pending[a].call)
    ensures Inv(s')
  {
    hide Name;
    forall a | a in s'.pending ensures AttemptOk(s', a) { InvAttempt(s, a); }
    forall d | d in s'.clients ensures ClientOk(s', d) {
      if d != c {
        InvClient(s, d);
        OtherClient(s, s', d);
      }
    }
    NamesStay(s, s');
    hide AttemptOk, ClientOk, LiveOk, DaemonOk, LockerOk;
  }

  /** A live release means the client wrote the latest version. */
  lemma LiveRelease(s: System, c: nat, call: Call)
    requires CallOk(s, c, call) && Live(s, call) && call.version % 2 == 0
    ensures Owner(s, c)
  {}

  /** Changing what the user of a client does keeps its live calls in order if it keeps
      them in order for every call its client could have live. */
  predicate UserMay(s: System, c: nat, from: User, to: User) {
    && (from.Locking? ==> to.Locking? || |s.versions| % 2 == 1)
    && (to.Locking? || to.Inside? ==> from.Locking? || from.Inside? || !Owner(s, c))
  }

  lemma UserStep(s: System, s': System, c: nat, call: Call)
    requires c in s.clients && c in s'.clients && s'.versions == s.versions
    requires CallOk(s, c, call) && LiveOk(s, c, call) && UserMay(s, c, s.clients[c].user, s'.clients[c].user)
    ensures CallOk(s', c, call) && LiveOk(s', c, call)
  {
    if Live(s, call) && call.version % 2 == 0 { LiveRelease(s, c, call); }
    hide Name;
  }

  lemma UserAttempts(s: System, s': System, c: nat)
    requires Inv(s) && c in s.clients && c in s'.clients && s'.versions == s.versions
    requires UserMay(s, c, s.clients[c].user, s'.clients[c].user)
    ensures forall a :: a in s.pending && s.pending[a].client == c ==> LiveOk(s', c, s.pending[a].call)
  {
    hide Inv, UserMay, CallOk, LiveOk;
    forall a | a in s.pending && s.pending[a].client == c ensures LiveOk(s', c, s.pending[a].call) {
      InvAttempt(s, a);
      UserStep(s, s', c, s.pending[a].call);
    }
  }

  lemma LockOk(s: System, s': System, c: nat)
    requires Inv(s) && CallLock(s, s', c)
    ensures Inv(s')
  {
    InvClient(s, c);
    hide Inv, Name, VersionsOk;
    UserAttempts(s, s', c);
    if s.clients[c].daemon.Putting? { UserStep(s, s', c, s.clients[c].daemon.call); }
    hide LiveOk, CallOk, UserMay;
    ClientStep(s, s', c, s'.clients[c]);
  }

  lemma UnlockOk(s: System, s': System, c: nat)
    requires Inv(s) && CallUnlock(s, s', c)
    ensures Inv(s')
  {
    InvClient(s, c);
    hide Inv, Name, VersionsOk;
    UserAttempts(s, s', c);
    if s.clients[c].daemon.Putting? { UserStep(s, s', c, s.clients[c].daemon.call); }
    hide LiveOk, CallOk, UserMay;
    ClientStep(s, s', c, s'.clients[c]);
  }

  lemma GetOk(s: System, s': System, c: nat, ts: nat)
    requires Inv(s) && Get(s, s', c, ts)
    ensures Inv(s')
  {
    InvClient(s, c);
    hide Inv, Name, VersionsOk;
    UserAttempts(s, s', c);
    hide LiveOk, CallOk, UserMay;
    ClientStep(s, s', c, s'.clients[c]);
  }

  /** The value of an odd version names its client. */
  lemma OddVersion(s: System, ts: nat, c: nat)
    requires VersionsOk(s) && 1 <= ts <= |s.versions| && ts % 2 == 1 && NodeId(s.versions[ts - 1]) == c
    ensures s.versions[ts - 1] == Name(c)
  {
    assert NamesClient(s, s.versions[ts - 1]);
    var d :| d in s.clients && s.versions[ts - 1] == Name(d);
    Decimal.RoundTrip(d);
  }

  lemma ReleaseOk(s: System, c: nat, x: Client)
    requires VersionsOk(s) && ClientOk(s, c) && x == s.clients[c] && x.daemon.Read? && !x.locker.wantLock
    requires x.daemon.ts % 2 == 1 && NodeId(x.daemon.value) == c
    ensures CallOk(s, c, Call(x.daemon.value, x.daemon.ts + 1)) && LiveOk(s, c, Call(x.daemon.value, x.daemon.ts + 1))
  {
    hide Name, NodeId, VersionsOk;
    assert !x.user.Locking? && !x.user.Inside? && 1 <= x.daemon.ts <= |s.versions|;
    assert x.daemon.value == s.versions[x.daemon.ts - 1];
    hide ClientOk;
    OddVersion(s, x.daemon.ts, c);
    assert (x.daemon.ts + 1) % 2 == 0;
  }

  lemma AcquireOk(s: System, c: nat, x: Client)
    requires ClientOk(s, c) && x == s.clients[c] && x.daemon.Read? && x.locker.wantLock && x.daemon.ts % 2 == 0
    ensures CallOk(s, c, Call(Name(c), x.daemon.ts + 1)) && LiveOk(s, c, Call(Name(c), x.daemon.ts + 1))
  {
    hide Name;
    if x.daemon.ts == |s.versions| { assert !Owner(s, c); }
  }

  /** A call is made only where it may be made, judged by what was read, perhaps long ago. */
  lemma DecisionOk(s: System, c: nat, x: Client)
    requires VersionsOk(s) && ClientOk(s, c) && x == s.clients[c] && x.daemon.Read?
    ensures var (l, call) := Decide(x.locker, x.daemon.value, x.daemon.ts);
            && LockerOk(c, x.(locker := l))
            && (call.Some? ==> CallOk(s, c, call.value) && LiveOk(s, c, call.value))
  {
    assert LockerOk(c, x);
    if x.daemon.ts % 2 == 1 && NodeId(x.daemon.value) == c && !x.locker.wantLock {
      ReleaseOk(s, c, x);
    } else if x.daemon.ts % 2 == 0 && x.locker.wantLock {
      AcquireOk(s, c, x);
    }
    hide Name, NodeId, VersionsOk, ClientOk, CallOk, LiveOk;
  }

  lemma ChooseOk(s: System, s': System, c: nat)
    requires Inv(s) && Choose(s, s', c)
    ensures Inv(s')
  {
    InvClient(s, c);
    hide Inv, Name;
    DecisionOk(s, c, s.clients[c]);
    hide VersionsOk, Decide;
    UserAttempts(s, s', c);
    var x := s'.clients[c];
    if x.daemon.Putting? { UserStep(s, s', c, x.daemon.call); }
    hide LiveOk, CallOk, UserMay;
    ClientStep(s, s', c, x);
  }

  lemma SendClient(s: System, s': System, c: nat, d: nat)
    requires Inv(s) && Send(s, s', c) && d in s.clients
    ensures ClientOk(s', d)
  {
    InvClient(s, d);
    assert s.next !in s.won && s.next !in s.pending by {
      if s.next in s.pending { InvAttempt(s, s.next); }
    }
    hide Inv, Name, VersionsOk;
    var x := s.clients[d];
    if x.daemon.Putting? { UserStep(s, s', d, x.daemon.call); }
    assert s'.clients[d].user == x.user && s'.clients[d].locker == x.locker && s'.versions == s.versions;
    assert LockerOk(d, s'.clients[d]) && (Owner(s', d) <==> Owner(s, d));
    assert d != c ==> s'.clients[d] == x;
    hide LiveOk, CallOk, LockerOk, UserMay, Owner;
    assert DaemonOk(s', d, s'.clients[d].daemon);
    hide DaemonOk, Send;
  }

  lemma SendAttempt(s: System, s': System, c: nat, a: nat)
    requires Inv(s) && Send(s, s', c) && a in s'.pending
    ensures AttemptOk(s', a)
  {
    InvClient(s, c);
    if a != s.next { InvAttempt(s, a); }
    hide Inv, Name, VersionsOk, ClientOk, LockerOk;
  }

  lemma SendOk(s: System, s': System, c: nat)
    requires Inv(s) && Send(s, s', c)
    ensures Inv(s')
  {
    hide Name, AttemptOk, ClientOk, LiveOk, DaemonOk, LockerOk;
    forall a | a in s'.pending ensures AttemptOk(s', a) { SendAttempt(s, s', c, a); }
    forall d | d in s'.clients ensures ClientOk(s', d) { SendClient(s, s', c, d); }
    NamesStay(s, s');
  }

  lemma ReturnOk(s: System, s': System, c: nat, success: bool)
    requires Inv(s) && Return(s, s', c, success)
    ensures Inv(s')
  {
    InvClient(s, c);
    hide Inv, Name, VersionsOk;
    UserAttempts(s, s', c);
    hide LiveOk, CallOk, UserMay;
    ClientStep(s, s', c, s'.clients[c]);
  }

  lemma DroppedClient(s: System, s': System, d: nat)
    requires ClientOk(s, d) && s' == s.(pending := s'.pending)
    requires forall a :: a in s'.pending ==> a in s.pending && s'.pending[a] == s.pending[a]
    ensures ClientOk(s', d)
  {
    hide Name;
  }

  lemma LoseOk(s: System, s': System, a: nat)
    requires Inv(s) && Lose(s, s', a)
    ensures Inv(s')
  {
    hide Name;
    forall b | b in s'.pending ensures AttemptOk(s', b) { InvAttempt(s, b); }
    forall d | d in s'.clients ensures ClientOk(s', d) {
      InvClient(s, d);
      DroppedClient(s, s', d);
    }
    NamesStay(s, s');
    hide AttemptOk, ClientOk, LiveOk, DaemonOk, LockerOk;
  }

  /** The register goes on to the next version: calls for it, and calls made before, can no longer take effect. */
  lemma CallAged(s: System, s': System, d: nat, call: Call)
    requires CallOk(s, d, call) && d in s'.clients && |s'.versions| == |s.versions| + 1
    requires s'.versions[..|s.versions|] == s.versions
    ensures CallOk(s', d, call) && LiveOk(s', d, call)
  {
    hide Name;
  }

  lemma ServeDaemon(s: System, s': System, a: nat, d: nat)
    requires Inv(s) && Serve(s, s', a) && Live(s, s.pending[a].call) && d in s.clients
    ensures DaemonOk(s', d, s.clients[d].daemon)
  {
    var x := s.pending[a];
    InvAttempt(s, a);
    InvClient(s, d);
    IdsDiffer(d, x.client);
    assert s'.versions[..|s.versions|] == s.versions;
    match s.clients[d].daemon
    case Polling =>
    case Read(value, ts) => hide Inv, Name;
    case Putting(call, latest) =>
      CallAged(s, s', d, call);
      OwnerAfter(s, s', a, d);
      assert a !in s.won;
      hide Inv, Name, CallOk, VersionsOk;
  }

  /** Who owns the register once a live attempt is served, and what its user is doing. */
  lemma OwnerAfter(s: System, s': System, a: nat, d: nat)
    requires Inv(s) && Serve(s, s', a) && Live(s, s.pending[a].call) && d in s.clients
    ensures var x := s.pending[a];
            && x.client in s.clients
            && (Owner(s', d) <==> d == x.client && x.call.version % 2 == 1)
            && (x.call.version % 2 == 1 ==> s.clients[x.client].user.Locking? && !Owner(s, d))
            && (x.call.version % 2 == 0 ==> s.clients[x.client].user.Unlocking? && (Owner(s, d) <==> d == x.client))
  {
    var x := s.pending[a];
    InvAttempt(s, a);
    InvClient(s, x.client);
    IdsDiffer(d, x.client);
    hide Inv, Name;
  }

  /** A version is written: by a client waiting for the lock, or by the owner giving it up. */
  lemma ServeClient(s: System, s': System, a: nat, d: nat)
    requires Inv(s) && Serve(s, s', a) && Live(s, s.pending[a].call) && d in s.clients
    ensures ClientOk(s', d)
  {
    InvClient(s, d);
    hide Inv, Name, VersionsOk;
    OwnerAfter(s, s', a, d);
    ServeDaemon(s, s', a, d);
    hide DaemonOk;
  }

  lemma VersionsGrow(s: System, s': System, value: string)
    requires VersionsOk(s) && s'.versions == s.versions + [value] && s'.clients == s.clients
    requires |s.versions| % 2 == 0 ==> NamesClient(s, value)
    requires |s.versions| % 2 == 1 ==> value == s.versions[|s.versions| - 1]
    ensures VersionsOk(s')
  {
    NamesStay(s, s');
    hide NamesClient;
  }

  lemma ServeVersions(s: System, s': System, a: nat)
    requires Inv(s) && Serve(s, s', a) && Live(s, s.pending[a].call)
    ensures VersionsOk(s')
  {
    InvAttempt(s, a);
    InvClient(s, s.pending[a].client);
    hide Inv, Name, VersionsOk, LiveOk, ClientOk;
    assert NamesClient(s, s.pending[a].call.value);
    VersionsGrow(s, s', s.pending[a].call.value);
  }

  lemma ServeOk(s: System, s': System, a: nat)
    requires Inv(s) && Serve(s, s', a)
    ensures Inv(s')
  {
    if Live(s, s.pending[a].call) {
      hide Name;
      forall b | b in s'.pending ensures AttemptOk(s', b) {
        InvAttempt(s, b);
        assert s'.versions[..|s.versions|] == s.versions;
        CallAged(s, s', s.pending[b].client, s.pending[b].call);
      }
      forall d | d in s'.clients ensures ClientOk(s', d) { ServeClient(s, s', a, d); }
      ServeVersions(s, s', a);
      InvAttempt(s, a);
      hide ClientOk, LiveOk, CallOk, VersionsOk, DaemonOk;
    } else {
      LoseOk(s, s', a);
    }
  }

  lemma StepOk(s: System, s': System)
    requires Inv(s) && Next(s, s')
    ensures Inv(s')
  {
    hide Inv, CallLock, CallUnlock, Get, Choose, Send, Serve, Lose, Return;
    if c :| CallLock(s, s', c) { LockOk(s, s', c); }
    else if c :| CallUnlock(s, s', c) { UnlockOk(s, s', c); }
    else if c, ts :| Get(s, s', c, ts) { GetOk(s, s', c, ts); }
    else if c :| Choose(s, s', c) { ChooseOk(s, s', c); }
    else if c :| Send(s, s', c) { SendOk(s, s', c); }
    else if a :| Serve(s, s', a) { ServeOk(s, s', a); }
    else if a :| Lose(s, s', a) { LoseOk(s, s', a); }
    else {
      var c, success :| Return(s, s', c, success);
      ReturnOk(s, s', c, success);
    }
  }

  lemma {:induction false} RunOk(run: seq<System>)
    requires IsRun(run)
    ensures Inv(run[|run| - 1])
  {
    hide Inv, Next;
    if |run| == 1 {
      InitOk(run[0]);
    } else {
      var shorter := run[..|run| - 1];
      forall i | 0 <= i < |shorter| - 1 ensures Next(shorter[i], shorter[i + 1]) { assert Next(run[i], run[i + 1]); }
      RunOk(shorter);
      assert Next(run[|run| - 2], run[|run| - 2 + 1]);
      StepOk(run[|run| - 2], run[|run| - 1]);
    }
  }

  // ---------- what the lock guarantees ----------

  /** At most one client is between Lock returning and calling Unlock; it wrote the latest version. */
  lemma MutualExclusion(run: seq<System>, c: nat, d: nat)
    requires IsRun(run)
    requires c in run[|run| - 1].clients && run[|run| - 1].clients[c].user.Inside?
    requires d in run[|run| - 1].clients && run[|run| - 1].clients[d].user.Inside?
    ensures c == d && Owner(run[|run| - 1], c)
  {
    RunOk(run);
    var s := run[|run| - 1];
    InvClient(s, c);
    InvClient(s, d);
    hide IsRun, Inv;
    IdsDiffer(c, d);
  }

  /** A new odd version is written by a client waiting in Lock; a new even version
      only by the client that wrote the version before, once it is not inside. */
  lemma VersionsAlternate(run: seq<System>, s': System)
    requires IsRun(run) && Next(run[|run| - 1], s') && |s'.versions| > |run[|run| - 1].versions|
    ensures var s := run[|run| - 1];
            && |s'.versions| == |s.versions| + 1
            && exists c :: c in s.clients && s'.versions[|s.versions|] == Name(c)
                 && if |s'.versions| % 2 == 1 then s.clients[c].user.Locking?
                    else Owner(s, c) && !s.clients[c].user.Inside? && !s.clients[c].user.Locking?
  {
    RunOk(run);
    var s := run[|run| - 1];
    Unchanged(s, s');
    hide IsRun, Inv, Next;
    var a :| Serve(s, s', a);
    assert Live(s, s.pending[a].call);
    InvAttempt(s, a);
    var c := s.pending[a].client;
    OwnerAfter(s, s', a, c);
    hide Name;
    assert c in s.clients && s'.versions[|s.versions|] == Name(c);
  }

  lemma Unchanged(s: System, s': System)
    requires Next(s, s') && s'.versions != s.versions
    ensures exists a :: Serve(s, s', a)
  {
    if c :| CallLock(s, s', c) {}
    else if c :| CallUnlock(s, s', c) {}
    else if c, ts :| Get(s, s', c, ts) {}
    else if c :| Choose(s, s', c) {}
    else if c :| Send(s, s', c) {}
    else if a :| Lose(s, s', a) {}
    else if c, success :| Return(s, s', c, success) {}
  }
}
