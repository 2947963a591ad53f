/** Clients of the mutex (module Lockers) that talk to a cluster (module Clusters): every
    run of both together is a run of the clients with a single register. */
module LockService {
  import opened Packet
  import opened Wrappers
  import opened Node
  import opened Ledgers
  import Invariants
  import opened Clusters
  import opened Runs
  import opened Theorems
  import Confirmed
  import Coordination
  import Handlers
  import Clients
  import Lockers

  /** One attempt of a strong write, and the id it was sent under. */
  datatype Asked = Asked(id: int, attempt: Lockers.Attempt)

  /** A cluster, the key of the lock, and its clients with all attempts they have made. */
  datatype Service = Service(cluster: Cluster, key: Key, clients: map<nat, Lockers.Client>, asked: seq<Asked>)

  function Text(v: Value): string { seq(|v|, i requires 0 <= i < |v| => v[i] as int as char) }

  /** The values acknowledged for a key, oldest first. */
  function Versions(trace: seq<Event>, key: Key): (versions: seq<string>)
    ensures |versions| == Acks(trace, key)
  {
    if trace == [] then []
    else
      var rest := trace[..|trace| - 1];
      Versions(rest, key) + if WriteOf(trace[|trace| - 1], key) then [Text(trace[|trace| - 1].answer.value)] else []
  }

  /** The register and its clients: an attempt has taken effect once it is acknowledged,
      and until then it still may. */
  function Register(j: Service): Lockers.System {
    var trace := j.cluster.trace;
    Lockers.System(Versions(trace, j.key), j.clients,
                   map a: nat | a < |j.asked| && !Succeeded(trace, j.asked[a].id) :: j.asked[a].attempt,
                   map a: nat | a < |j.asked| && Succeeded(trace, j.asked[a].id) :: j.asked[a].attempt,
                   |j.asked|)
  }

  ghost predicate Init(j: Service) {
    && Clusters.Init(j.cluster) && j.key != [] && j.asked == []
    && forall c :: c in j.clients ==>
         j.clients[c] == Lockers.Client(Lockers.Outside, Lockers.NewLocker(c), Lockers.Polling)
  }

  /** A client acts without the cluster. */
  ghost predicate Local(j: Service, j': Service, c: nat) {
    && j' == j.(clients := j'.clients)
    && (|| Lockers.CallLock(Register(j), Register(j'), c)
        || Lockers.CallUnlock(Register(j), Register(j'), c)
        || Lockers.Choose(Register(j), Register(j'), c))
  }

  /** A client has its read answered, with whatever any read of the key was ever answered. */
  ghost predicate Reads(j: Service, j': Service, c: nat, b: nat) {
    && c in j.clients && j.clients[c].daemon.Polling?
    && b < |j.cluster.trace| && j.cluster.trace[b].Returned? && j.cluster.trace[b].answer.key == j.key
    && var a := j.cluster.trace[b].answer;
       j' == j.(clients := j.clients[c := j.clients[c].(daemon := Lockers.Read(Text(a.value), a.timestamp))])
  }

  /** A client sends an attempt to the cluster. */
  ghost predicate Sends(j: Service, j': Service, c: nat, m: Message) {
    && c in j.clients && j.clients[c].daemon.Putting?
    && var x := j.clients[c];
       var call := x.daemon.call;
       && m.kind.ClientStrongWriteRequest? && m.key == j.key && Text(m.value) == call.value
       && m.timestamp == call.version
       && |j.cluster.trace| + 1 < TIMESTAMPS && Invoke(j.cluster, j'.cluster, m)
       && j' == Service(j'.cluster, j.key, j.clients[c := x.(daemon := x.daemon.(latest := Some(|j.asked|)))],
                        j.asked + [Asked(m.id, Lockers.Attempt(c, call))])
  }

  /** The call of a client returns: as a success only if its latest attempt was acknowledged. */
  ghost predicate Returns(j: Service, j': Service, c: nat, success: bool) {
    && j' == j.(clients := j'.clients)
    && c in j.clients && j.clients[c].daemon.Putting?
    && (success ==>
          && j.clients[c].daemon.latest.Some? && j.clients[c].daemon.latest.value < |j.asked|
          && Succeeded(j.cluster.trace, j.asked[j.clients[c].daemon.latest.value].id))
    && Lockers.Return(Register(j), Register(j'), c, success)
  }

  /** The cluster takes a step of its own, or another client asks it for something; only
      the clients of the lock write its key. */
  ghost predicate Serves(j: Service, j': Service) {
    && j' == j.(cluster := j'.cluster) && Clusters.Next(j.cluster, j'.cluster)
    && forall m :: Invoke(j.cluster, j'.cluster, m) ==> !(IsWrite(m) && m.key == j.key)
  }

  ghost predicate Next(j: Service, j': Service) {
    || (exists c :: Local(j, j', c))
    || (exists c, b :: Reads(j, j', c, b))
    || (exists c, m :: Sends(j, j', c, m))
    || (exists c, success :: Returns(j, j', c, success))
    || Serves(j, j')
  }

  ghost predicate IsRun(run: seq<Service>) {
    |run| > 0 && Init(run[0]) && forall i :: 0 <= i < |run| - 1 ==> Next(run[i], run[i + 1])
  }

  // ---------- what is known of the attempts ----------

  predicate Matches(m: Message, key: Key, x: Asked) {
    && m.id == x.id && m.kind.ClientStrongWriteRequest? && m.key == key
    && Text(m.value) == x.attempt.call.value && m.timestamp == x.attempt.call.version
  }

  predicate Writes(e: Event, key: Key) { e.Invoked? && IsWrite(e.request) && e.request.key == key }

  /** The attempts are the writes of the key that were asked for, each under its own id. */
  ghost predicate AskedOk(trace: seq<Event>, key: Key, asked: seq<Asked>) {
    && (forall a, b :: 0 <= a < b < |asked| ==> asked[a].id != asked[b].id)
    && (forall a :: 0 <= a < |asked| ==> SentAs(trace, key, asked[a]))
    && (forall i :: 0 <= i < |trace| && Writes(trace[i], key) ==> IsAttempt(trace[i].request, key, asked))
  }

  ghost predicate SentAs(trace: seq<Event>, key: Key, x: Asked) {
    exists i :: 0 <= i < |trace| && trace[i].Invoked? && Matches(trace[i].request, key, x)
  }

  ghost predicate IsAttempt(m: Message, key: Key, asked: seq<Asked>) {
    exists a :: 0 <= a < |asked| && Matches(m, key, asked[a])
  }

  // ---------- what a step adds to what clients see ----------

  /** One step shows clients at most one request or one answer. */
  ghost predicate Shows(s: Cluster, s': Cluster) {
    || s'.trace == s.trace
    || (exists m :: Invoke(s, s', m) && s'.trace == s.trace + [Invoked(m)])
    || (exists a :: s'.trace == s.trace + [Returned(a)])
  }

  ghost predicate AnswersOnce(trace: seq<Event>, trace': seq<Event>) {
    trace' == trace || exists a :: trace' == trace + [Returned(a)]
  }

  lemma ApplyAnswers(s: Cluster, p: int, e: Effect)
    requires 0 <= p < |s.nodes|
    ensures AnswersOnce(s.trace, Apply(s, p, e).trace)
  {
    if Answers(e) == [] { assert s.trace + [] == s.trace; }
  }

  /** A node takes its next request without answering anyone. */
  lemma TakeNextAnswers(s: Cluster, L: Ledger, L1: Ledger, p: int, m: Message, e: Effect, d: Choice)
    requires 0 <= p < |s.nodes| && Handlers.EffectOk(s.cfg, L, L1, p, m, e)
    ensures AnswersOnce(s.trace, Apply(Apply(s, p, e), p, TakeNext(e.node, d)).trace)
  {
    hide Handlers.EffectOk, Invariants.NodeOk, TakeNext;
    Handlers.EffectNode(s.cfg, L, L1, p, m, e);
    Handlers.IdleHasNoQuorum(s.cfg, L1, p, e.node);
    Confirmed.TakeNextQuiet(e.node, d);
    ApplyAnswers(s, p, e);
    assert Apply(s, p, e).trace + [] == Apply(s, p, e).trace;
  }

  lemma DeliverShows(s: Cluster, s': Cluster, L: Ledger, m: Message, c: Choice, d: Choice)
    requires Inv(s, L) && Deliver(s, s', m, c, d) && |s.trace| + 1 < TIMESTAMPS
    ensures AnswersOnce(s.trace, s'.trace)
  {
    hide Inv, Dispatch, TakeNext, ChoiceOk, LateStamp;
    hide PeersOk, Invariants.OnceOk, Coordination.Deliverable, Invariants.NodeOk;
    hide LedgerOk, Handlers.EffectOk;
    var p, s1 := m.dest, Consume(s, m);
    if !s.nodes[p].disabled {
      ConsumeOk(s, L, m);
      NodeAt(s1, L, p);
      var L1 := Coordination.DispatchOk(s.cfg, L, p, s1.nodes[p], m, c);
      TakeNextAnswers(s1, L, L1, p, m, Dispatch(s1.nodes[p], m, c), d);
    }
  }

  lemma StepShows(s: Cluster, s': Cluster, L: Ledger)
    requires Inv(s, L) && Clusters.Next(s, s')
    ensures Shows(s, s')
  {
    hide Inv, Deliver, Invoke, Timeout, TakeNext, Fail, Recover, StreamWrites, RequestTimeout, PeersOk, Answers;
    if m :| Invoke(s, s', m) {
      assert s'.trace == s.trace + [Invoked(m)] by { InvokeShows(s, s', m); }
    } else if m, c, d :| Deliver(s, s', m, c, d) {
      DeliverShows(s, s', L, m, c, d);
    } else if p, d :| Tick(s, s', p, d) {
      NodeAt(s, L, p);
      var L1 := Coordination.TimeoutOk(s.cfg, L, p, s.nodes[p]);
      TakeNextAnswers(s, L, L1, p, ZERO_MESSAGE, Timeout(s.nodes[p]), d);
    } else if p, m :| Expire(s, s', p, m) {
      ApplyAnswers(s, p, RequestTimeout(s.nodes[p], m));
    } else if p :| Crash(s, s', p) {
      ApplyAnswers(s, p, Silent(Fail(s.nodes[p])));
    } else if p :| Restart(s, s', p) {
      ApplyAnswers(s, p, Silent(Recover(s.nodes[p])));
    } else {
      var p :| Clusters.Propagate(s, s', p);
      ApplyAnswers(s, p, StreamWrites(s.nodes[p]));
    }
  }

  lemma InvokeShows(s: Cluster, s': Cluster, m: Message)
    requires Invoke(s, s', m)
    ensures s'.trace == s.trace + [Invoked(m)]
  {}

  // ---------- what an answer says ----------

  lemma AnswerOfRequest(run: seq<Cluster>, i: nat, b: nat)
    requires Clusters.IsRun(run) && i < |Last(run).trace| && b < |Last(run).trace|
    requires Last(run).trace[i].Invoked? && WriteDone(Last(run).trace[b])
    requires Last(run).trace[i].request.id == Last(run).trace[b].answer.id
    ensures var m, a := Last(run).trace[i].request, Last(run).trace[b].answer;
            a.key == m.key && a.value == m.value && IsWrite(m)
  {
    var L := RunOk(run);
    var s := Last(run);
    var m, a := s.trace[i].request, s.trace[b].answer;
    assert L.txs[m.id].request == m;
    assert Invariants.AnswerOk(s.cfg, L, a) && TxOk(s.cfg, L.history, m.id, L.txs[m.id]);
  }

  lemma {:induction false} VersionAt(trace: seq<Event>, key: Key, b: nat)
    requires b < |trace| && WriteOf(trace[b], key)
    ensures Acks(trace[..b], key) < |Versions(trace, key)|
    ensures Versions(trace, key)[Acks(trace[..b], key)] == Text(trace[b].answer.value)
  {
    var rest := trace[..|trace| - 1];
    if b < |trace| - 1 {
      VersionAt(rest, key, b);
      assert rest[..b] == trace[..b];
    } else {
      assert trace[..b] == rest;
    }
  }

  /** What a read of the lock's key was answered is a version of the register. */
  lemma ReadsAVersion(run: seq<Cluster>, key: Key, b: nat)
    requires Clusters.IsRun(run) && b < |Last(run).trace| && Last(run).trace[b].Returned?
    requires Last(run).trace[b].answer.key == key
    ensures var a, versions := Last(run).trace[b].answer, Versions(Last(run).trace, key);
            && a.timestamp <= |versions|
            && Text(a.value) == if a.timestamp == 0 then "" else versions[a.timestamp - 1]
  {
    var trace := Last(run).trace;
    var a := trace[b].answer;
    OnlyWritesAreVisible(run, |Last(run).nodes|, key, b);
    WritesConsecutive(run);
    hide Clusters.IsRun;
    if Stamped(a.timestamp, a.value) != ABSENT {
      var j :| 0 <= j < |trace| && WriteOf(trace[j], key) &&
          Stamped(trace[j].answer.timestamp, trace[j].answer.value) == Stamped(a.timestamp, a.value);
      VersionAt(trace, key, j);
      assert trace[j].answer.timestamp == Acks(trace[..j], key) + 1;
    }
  }

  // ---------- the register takes the cluster's steps ----------

  lemma SucceededGrows(trace: seq<Event>, e: Event, id: int)
    ensures Succeeded(trace + [e], id) <==> Succeeded(trace, id) || (WriteDone(e) && e.answer.id == id)
  {
    var all := trace + [e];
    if Succeeded(trace, id) {
      var i :| 0 <= i < |trace| && WriteDone(trace[i]) && trace[i].answer.id == id;
      assert WriteDone(all[i]) && all[i].answer.id == id;
    }
    if WriteDone(e) && e.answer.id == id { assert WriteDone(all[|trace|]) && all[|trace|].answer.id == id; }
  }

  lemma VersionsGrow(trace: seq<Event>, e: Event, key: Key)
    ensures Versions(trace + [e], key) == Versions(trace, key) + if WriteOf(e, key) then [Text(e.answer.value)] else []
  {
    assert (trace + [e])[..|trace + [e]| - 1] == trace;
  }

  /** The event is an answer to this attempt. */
  predicate Answered(e: Event, x: Asked) { WriteDone(e) && e.answer.id == x.id }

  /** Nothing changes for the lock's clients. */
  lemma SameRegister(j: Service, j': Service, e: Event)
    requires j' == j.(cluster := j'.cluster) && j'.cluster.trace == j.cluster.trace + [e]
    requires !WriteOf(e, j.key) && forall a :: 0 <= a < |j.asked| ==> !Answered(e, j.asked[a])
    ensures Register(j') == Register(j)
  {
    var trace := j.cluster.trace;
    hide Succeeded, Versions;
    VersionsGrow(trace, e, j.key);
    forall a: nat | a < |j.asked| ensures Succeeded(trace + [e], j.asked[a].id) <==> Succeeded(trace, j.asked[a].id) {
      SucceededGrows(trace, e, j.asked[a].id);
    }
    hide WriteOf, WriteDone;
    assert Register(j').pending == Register(j).pending && Register(j').won == Register(j).won;
  }

  /** An attempt takes effect. */
  lemma ServedRegister(j: Service, j': Service, e: Event, a: nat)
    requires j' == j.(cluster := j'.cluster) && j'.cluster.trace == j.cluster.trace + [e] && a < |j.asked|
    requires WriteOf(e, j.key) && Answered(e, j.asked[a]) && !Succeeded(j.cluster.trace, j.asked[a].id)
    requires forall b :: 0 <= b < |j.asked| && b != a ==> j.asked[b].id != j.asked[a].id
    requires var call := j.asked[a].attempt.call;
             Text(e.answer.value) == call.value && call.version == Acks(j.cluster.trace, j.key) + 1
    ensures Lockers.Serve(Register(j), Register(j'), a)
  {
    var trace := j.cluster.trace;
    var s, s' := Register(j), Register(j');
    hide Succeeded, Versions, Text;
    VersionsGrow(trace, e, j.key);
    forall b: nat | b < |j.asked|
      ensures Succeeded(trace + [e], j.asked[b].id) <==> Succeeded(trace, j.asked[b].id) || b == a
    {
      SucceededGrows(trace, e, j.asked[b].id);
    }
    hide WriteOf, WriteDone;
    assert s'.pending == s.pending - {a};
    assert s'.won == s.won[a := s.pending[a]];
  }

  lemma Joined(run: seq<Cluster>, s': Cluster)
    requires Clusters.IsRun(run) && Clusters.Next(Last(run), s')
    ensures Clusters.IsRun(run + [s']) && Last(run + [s']) == s'
  {
    hide Clusters.Next, Clusters.Init;
    var longer := run + [s'];
    forall i | 0 <= i < |longer| - 1 ensures Clusters.Next(longer[i], longer[i + 1]) {
      if i < |run| - 1 { assert Clusters.Next(run[i], run[i + 1]); }
    }
  }

  /** An attempt is acknowledged exactly when the register is one version short of it,
      with its value, and for the first time. */
  lemma AttemptAnswered(run: seq<Cluster>, key: Key, x: Asked, b: nat)
    requires Clusters.IsRun(run) && b < |Last(run).trace| && SentAs(Last(run).trace, key, x)
    requires Answered(Last(run).trace[b], x)
    ensures WriteOf(Last(run).trace[b], key) && Text(Last(run).trace[b].answer.value) == x.attempt.call.value
    ensures x.attempt.call.version == Acks(Last(run).trace[..b], key) + 1
    ensures !Succeeded(Last(run).trace[..b], x.id)
  {
    var trace := Last(run).trace;
    var i :| 0 <= i < |trace| && trace[i].Invoked? && Matches(trace[i].request, key, x);
    var m := trace[i].request;
    AnswerOfRequest(run, i, b);
    assert trace[i] == Invoked(m);
    Clients.StrongPutIsCompareAndSet(run, m, b);
    if Succeeded(trace[..b], x.id) {
      var b0 :| 0 <= b0 < b && WriteDone(trace[..b][b0]) && trace[..b][b0].answer.id == x.id;
      var i0 := AnswersFollowRequests(run, b0);
      StrongWrites(run, i0, b0, b);
      assert false;
    }
  }

  /** Only attempts write the lock's key. */
  lemma KeyAnswered(run: seq<Cluster>, key: Key, asked: seq<Asked>, b: nat) returns (a: nat)
    requires Clusters.IsRun(run) && b < |Last(run).trace| && WriteOf(Last(run).trace[b], key)
    requires AskedOk(Last(run).trace, key, asked)
    ensures a < |asked| && Answered(Last(run).trace[b], asked[a])
  {
    var i := AnswersFollowRequests(run, b);
    AnswerOfRequest(run, i, b);
    hide Clusters.IsRun;
    assert IsAttempt(Last(run).trace[i].request, key, asked);
    a :| 0 <= a < |asked| && Matches(Last(run).trace[i].request, key, asked[a]);
  }

  lemma AskedStays(trace: seq<Event>, e: Event, key: Key, asked: seq<Asked>)
    requires AskedOk(trace, key, asked) && (!Writes(e, key))
    ensures AskedOk(trace + [e], key, asked)
  {
    var all := trace + [e];
    hide Matches, IsAttempt, IsWrite;
    forall a | 0 <= a < |asked| ensures SentAs(all, key, asked[a]) {
      assert SentAs(trace, key, asked[a]);
      var i :| 0 <= i < |trace| && trace[i].Invoked? && Matches(trace[i].request, key, asked[a]);
      assert all[i] == trace[i];
    }
  }

  /** A step of the cluster is no step of the register, or serves one attempt. */
  lemma ServesOk(run: seq<Cluster>, j: Service, j': Service)
    requires Clusters.IsRun(run) && Last(run) == j.cluster && AskedOk(j.cluster.trace, j.key, j.asked) && Serves(j, j')
    ensures AskedOk(j'.cluster.trace, j.key, j.asked)
    ensures Register(j') == Register(j) || exists a :: Lockers.Serve(Register(j), Register(j'), a)
  {
    var s, s' := j.cluster, j'.cluster;
    var L := RunOk(run);
    StepShows(s, s', L);
    Joined(run, s');
    hide Clusters.IsRun, Clusters.Next, Inv, Register, AskedOk, Lockers.Serve, Invoke;
    if s'.trace == s.trace {
      SameTrace(j, j');
    } else if m :| Invoke(s, s', m) && s'.trace == s.trace + [Invoked(m)] {
      AskedStays(s.trace, Invoked(m), j.key, j.asked);
      SameRegister(j, j', Invoked(m));
    } else {
      var a :| s'.trace == s.trace + [Returned(a)];
      AskedStays(s.trace, Returned(a), j.key, j.asked);
      AnswerServed(run + [s'], j, j', Returned(a));
    }
  }

  lemma SameTrace(j: Service, j': Service)
    requires j' == j.(cluster := j'.cluster) && j'.cluster.trace == j.cluster.trace
    ensures Register(j') == Register(j)
  {}

  lemma AnswerServed(run: seq<Cluster>, j: Service, j': Service, e: Event)
    requires Clusters.IsRun(run) && Last(run) == j'.cluster && j' == j.(cluster := j'.cluster)
    requires j'.cluster.trace == j.cluster.trace + [e] && e.Returned? && AskedOk(j'.cluster.trace, j.key, j.asked)
    ensures Register(j') == Register(j) || exists a :: Lockers.Serve(Register(j), Register(j'), a)
  {
    var trace := j'.cluster.trace;
    var b := |j.cluster.trace|;
    assert trace[..b] == j.cluster.trace && trace[b] == e;
    hide Clusters.IsRun, Register, Lockers.Serve, Text, Succeeded, SentAs, Acks;
    if a: nat :| a < |j.asked| && Answered(e, j.asked[a]) {
      AttemptAnswered(run, j.key, j.asked[a], b);
      ServedRegister(j, j', e, a);
    } else {
      if WriteOf(e, j.key) { var a := KeyAnswered(run, j.key, j.asked, b); assert false; }
      SameRegister(j, j', e);
    }
  }

  // ---------- the clients' steps ----------

  lemma ReadsOk(run: seq<Cluster>, j: Service, j': Service, c: nat, b: nat) returns (ts: nat)
    requires Clusters.IsRun(run) && Last(run) == j.cluster && Reads(j, j', c, b)
    ensures Lockers.Get(Register(j), Register(j'), c, ts)
  {
    ts := j.cluster.trace[b].answer.timestamp;
    ReadsAVersion(run, j.key, b);
    hide Clusters.IsRun, Succeeded, Text;
  }

  lemma SentRegister(j: Service, j': Service, c: nat, m: Message)
    requires Sends(j, j', c, m) && !Succeeded(j'.cluster.trace, m.id)
    requires forall a :: 0 <= a < |j.asked| ==>
               (Succeeded(j'.cluster.trace, j.asked[a].id) <==> Succeeded(j.cluster.trace, j.asked[a].id))
    requires Versions(j'.cluster.trace, j.key) == Versions(j.cluster.trace, j.key)
    ensures Lockers.Send(Register(j), Register(j'), c)
  {
    var s, s' := Register(j), Register(j');
    hide Succeeded, Versions, Text, Invoke;
    assert s'.pending == s.pending[s.next := Lockers.Attempt(c, j.clients[c].daemon.call)];
    assert s'.won == s.won;
  }

  lemma AskedGrows(trace: seq<Event>, m: Message, key: Key, asked: seq<Asked>, x: Asked)
    requires AskedOk(trace, key, asked) && Matches(m, key, x)
    requires forall i :: 0 <= i < |trace| && trace[i].Invoked? ==> trace[i].request.id != m.id
    ensures AskedOk(trace + [Invoked(m)], key, asked + [x])
  {
    var all, more := trace + [Invoked(m)], asked + [x];
    forall a | 0 <= a < |asked| ensures SentAs(all, key, asked[a]) && asked[a].id != x.id {
      assert SentAs(trace, key, asked[a]);
      var i :| 0 <= i < |trace| && trace[i].Invoked? && Matches(trace[i].request, key, asked[a]);
      assert all[i] == trace[i];
    }
    assert SentAs(all, key, x) by { assert Matches(all[|trace|].request, key, x); }
    assert more[|asked|] == x;
    forall i | 0 <= i < |all| && Writes(all[i], key)
      ensures IsAttempt(all[i].request, key, more)
    {
      if i < |trace| {
        assert IsAttempt(trace[i].request, key, asked);
        var a :| 0 <= a < |asked| && Matches(trace[i].request, key, asked[a]);
        assert more[a] == asked[a];
      } else {
        assert Matches(m, key, more[|asked|]);
      }
    }
  }

  /** A request sent just now has not been acknowledged. */
  lemma NotYetAnswered(run: seq<Cluster>, m: Message)
    requires Clusters.IsRun(run) && NewId(Last(run), m.id)
    ensures !Succeeded(Last(run).trace, m.id)
  {
    var trace := Last(run).trace;
    if Succeeded(trace, m.id) {
      var b :| 0 <= b < |trace| && WriteDone(trace[b]) && trace[b].answer.id == m.id;
      var i := AnswersFollowRequests(run, b);
      assert false;
    }
  }

  lemma SendsOk(run: seq<Cluster>, j: Service, j': Service, c: nat, m: Message)
    requires Clusters.IsRun(run) && Last(run) == j.cluster && AskedOk(j.cluster.trace, j.key, j.asked)
    requires Sends(j, j', c, m)
    ensures AskedOk(j'.cluster.trace, j.key, j'.asked) && Lockers.Send(Register(j), Register(j'), c)
    ensures Clusters.Next(j.cluster, j'.cluster)
  {
    var trace, e := j.cluster.trace, Invoked(m);
    assert j'.cluster.trace == trace + [e];
    NotYetAnswered(run, m);
    hide Clusters.IsRun, AskedOk, Succeeded, Text;
    AskedGrows(trace, m, j.key, j.asked, Asked(m.id, Lockers.Attempt(c, j.clients[c].daemon.call)));
    SucceededGrows(trace, e, m.id);
    VersionsGrow(trace, e, j.key);
    forall a | 0 <= a < |j.asked| ensures Succeeded(trace + [e], j.asked[a].id) <==> Succeeded(trace, j.asked[a].id) {
      SucceededGrows(trace, e, j.asked[a].id);
    }
    SentRegister(j, j', c, m);
  }

  /** Every step of the whole is a step of the clients with their register, or none. */
  lemma StepOk(run: seq<Cluster>, j: Service, j': Service)
    requires Clusters.IsRun(run) && Last(run) == j.cluster && AskedOk(j.cluster.trace, j.key, j.asked) && Next(j, j')
    ensures AskedOk(j'.cluster.trace, j'.key, j'.asked)
    ensures j'.cluster == j.cluster || Clusters.Next(j.cluster, j'.cluster)
    ensures Register(j') == Register(j) || Lockers.Next(Register(j), Register(j'))
  {
    hide Clusters.IsRun, AskedOk, Register, Clusters.Next, Reads, Sends, Serves;
    hide Lockers.CallLock, Lockers.CallUnlock, Lockers.Choose, Lockers.Get, Lockers.Send, Lockers.Serve, Lockers.Return;
    if c :| Local(j, j', c) {
    } else if c, b :| Reads(j, j', c, b) {
      var ts := ReadsOk(run, j, j', c, b);
      OnlyClients(j, j', c, b);
    } else if c, m :| Sends(j, j', c, m) {
      SendsOk(run, j, j', c, m);
      SameKey(j, j', c, m);
    } else if c, success :| Returns(j, j', c, success) {
    } else {
      ServesOk(run, j, j');
      assert Serves(j, j');
      OnlyCluster(j, j');
    }
  }

  lemma OnlyClients(j: Service, j': Service, c: nat, b: nat)
    requires Reads(j, j', c, b)
    ensures j' == j.(clients := j'.clients)
  {}

  lemma SameKey(j: Service, j': Service, c: nat, m: Message)
    requires Sends(j, j', c, m)
    ensures j'.key == j.key
  {}

  lemma OnlyCluster(j: Service, j': Service)
    requires Serves(j, j')
    ensures j' == j.(cluster := j'.cluster) && Clusters.Next(j.cluster, j'.cluster)
  {}

  // ---------- whole runs ----------

  lemma StartOk(j: Service)
    requires Init(j)
    ensures Lockers.Init(Register(j)) && AskedOk(j.cluster.trace, j.key, j.asked)
  {}

  lemma Continued(r: seq<Lockers.System>, s': Lockers.System) returns (r': seq<Lockers.System>)
    requires Lockers.IsRun(r) && (s' == r[|r| - 1] || Lockers.Next(r[|r| - 1], s'))
    ensures Lockers.IsRun(r') && r'[|r'| - 1] == s'
  {
    hide Lockers.Next, Lockers.Init;
    r' := if s' == r[|r| - 1] then r else r + [s'];
    forall i | 0 <= i < |r'| - 1 ensures Lockers.Next(r'[i], r'[i + 1]) {
      if i < |r| - 1 { assert Lockers.Next(r[i], r[i + 1]); }
    }
  }

  /** A run of clients and cluster contains a run of the cluster, and is a run of the
      clients with a register that only a strong write changes. */
  lemma {:induction false} RunRefines(run: seq<Service>) returns (cluster: seq<Cluster>, r: seq<Lockers.System>)
    requires IsRun(run)
    ensures Clusters.IsRun(cluster) && Last(cluster) == run[|run| - 1].cluster
    ensures Lockers.IsRun(r) && r[|r| - 1] == Register(run[|run| - 1])
    ensures AskedOk(run[|run| - 1].cluster.trace, run[|run| - 1].key, run[|run| - 1].asked)
  {
    hide Next, AskedOk, Clusters.Next, Lockers.Next, Clusters.Init, Lockers.Init, Register;
    if |run| == 1 {
      StartOk(run[0]);
      cluster, r := [run[0].cluster], [Register(run[0])];
    } else {
      var shorter, j, j' := run[..|run| - 1], run[|run| - 2], run[|run| - 1];
      forall i | 0 <= i < |shorter| - 1 ensures Next(shorter[i], shorter[i + 1]) { assert Next(run[i], run[i + 1]); }
      cluster, r := RunRefines(shorter);
      assert Next(run[|run| - 2], run[|run| - 2 + 1]);
      StepOk(cluster, j, j');
      if j'.cluster != j.cluster {
        Joined(cluster, j'.cluster);
        cluster := cluster + [j'.cluster];
      }
      r := Continued(r, Register(j'));
    }
  }

  /** However the cluster delays, loses and repeats messages, at most one client is between
      Lock returning and calling Unlock, and the last write acknowledged for the lock's key is its own. */
  lemma OneHolder(run: seq<Service>, c: nat, d: nat)
    requires IsRun(run)
    requires var j := run[|run| - 1];
             c in j.clients && d in j.clients && j.clients[c].user.Inside? && j.clients[d].user.Inside?
    ensures c == d
    ensures var versions := Versions(run[|run| - 1].cluster.trace, run[|run| - 1].key);
            |versions| % 2 == 1 && versions[|versions| - 1] == Lockers.Name(c)
  {
    hide IsRun;
    var cluster, r := RunRefines(run);
    hide Lockers.IsRun, Clusters.IsRun;
    Lockers.MutualExclusion(r, c, d);
  }
}
