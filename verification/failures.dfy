/** Three runs of the program, each with one step that is not safe, in which a
    guarantee of module Theorems fails. */
module Failures {
  import opened Packet
  import opened Wrappers
  import opened StagedStore
  import opened Node
  import opened Ledgers
  import opened Clusters
  import opened Theorems
  import opened Programs

  // ---------- one write, its messages and its members ----------

  const KEY: Key := [1]
  const VALUE: Value := [9]
  const PAIR := Config(2, 1, 2, false)
  const TRIPLE := Config(3, 1, 3, false)
  const LOOSE := Config(3, 1, 2, true)

  function Write(cfg: Config, id: int): Message { Message(id, cfg.n, 0, ClientWriteRequest, KEY, VALUE, 0, true) }

  function LockFor(id: int, q: int): Message { Signal(id, 0, q, LockRequestNoTimeout, true) }

  function Lock(q: int): Message { LockFor(7, q) }

  function Grant(q: int): Message { Signal(7, q, 0, LockResponse, true) }

  function AskStamp(q: int): Message { Message(7, 0, q, TimestampRequest, KEY, [], 0, true) }

  function Stamp(q: int): Message { Message(7, q, 0, GetResponse, KEY, [], 0, true) }

  function AskPut(q: int): Message { Message(7, 0, q, PutRequest, KEY, VALUE, 1, true) }

  function Ack(q: int): Message { Message(7, q, 0, PutResponse, KEY, VALUE, 1, true) }

  function Unlock(q: int, ok: bool): Message { Signal(7, 0, q, UnlockRequest, ok) }

  function Success(cfg: Config): Message { Message(7, 0, cfg.n, ClientWriteResponse, KEY, VALUE, 1, true) }

  const STAGED: Store<Key, Stamped> := Store(map[], map[1 := (KEY, Stamped(1, VALUE))], 1)
  const COMMITTED: Store<Key, Stamped> := Store(map[KEY := Stamped(1, VALUE)], map[], 1)

  function Fresh(cfg: Config, q: int, timers: set<Message>): Node { New(q, cfg).(timers := timers) }

  function LockedBy7(cfg: Config, q: int, timers: set<Message>): Node {
    Fresh(cfg, q, timers).(mode := ProcessingWrite, currentTxid := 7, clientRequest := Lock(q))
  }

  function StagedBy7(cfg: Config, q: int, timers: set<Message>): Node {
    LockedBy7(cfg, q, timers).(store := STAGED, uncommittedTxid := 1, uncommittedKey := Some(KEY))
  }

  /** The nodes that node q asks: all the others, or in sloppy mode the next one. */
  function Others(cfg: Config, q: int): set<int> {
    if cfg.sloppy then {if q == 2 then 0 else q + 1} else (if cfg.n == 2 then {0, 1} else {0, 1, 2}) - {q}
  }

  /** A choice that draws them, and lets node q itself be the leader. */
  function Draw(cfg: Config, q: int): Choice { Choice(Others(cfg, q), ABSENT, q, 0) }

  predicate Small(cfg: Config) { cfg == PAIR || cfg == TRIPLE || cfg == LOOSE }

  lemma DrawOk(n: Node)
    requires Small(n.config) && 0 <= n.id < n.config.n
    requires n.lockRequests != [] ==> !IsRead(n.lockRequests[0])
    ensures PeersOk(n, Draw(n.config, n.id))
  {
    var cfg := n.config;
    assert cfg == PAIR ==> Others(cfg, n.id) == {1 - n.id};
    assert cfg == TRIPLE ==> Others(cfg, 0) == {1, 2} && Others(cfg, 1) == {0, 2} && Others(cfg, 2) == {0, 1};
  }

  // ---------- steps as updates of the cluster ----------

  predicate Repeatable(out: set<Message>) { forall m :: m in out ==> !OneShot(m) }

  lemma PlainSent(e: Effect)
    requires Repeatable(e.out)
    ensures Once(e.out) == {} && Sent(e) == Messages(e)
  {}

  ghost predicate Ready(s: Cluster, m: Message) {
    && Available(s, m) && Small(s.cfg) && |s.nodes| == s.cfg.n && |s.trace| + 1 < TIMESTAMPS
    && var n := s.nodes[m.dest];
       n.config == s.cfg && n.id == m.dest && !n.disabled && !n.mode.CoordinatingFastRead?
  }

  lemma NotReading(n: Node, m: Message, c: Choice)
    requires !n.mode.CoordinatingFastRead?
    ensures ChoiceOk(n, m, c)
  {}

  lemma TwoApplied(s: Cluster, p: int, e: Effect, f: Effect)
    requires 0 <= p < |s.nodes| && Repeatable(e.out) && f.reply == None
    ensures Apply(Apply(s, p, e), p, f) ==
            s.(nodes := s.nodes[p := f.node], net := s.net + Messages(e) + (f.out - Once(f.out)),
               once := s.once + multiset(Once(f.out)), trace := s.trace + Answers(e))
  {
    var s1 := Apply(s, p, e);
    PlainSent(e);
    assert Sent(f) == f.out - Once(f.out);
    assert s1.once == s.once && s1.trace + [] == s1.trace && s1.nodes[p := f.node] == s.nodes[p := f.node];
  }

  /** A message is handled, and then perhaps a queued request is taken. */
  lemma Taken(s: Cluster, m: Message, c: Choice, e: Effect, f: Effect) returns (s': Cluster)
    requires Ready(s, m) && Repeatable(e.out) && f.reply == None && PeersOk(e.node, c)
    requires var n := s.nodes[m.dest];
             Dispatch(n, m, c) == e && TakeNextShared(n, m, c, c) == f && e.node.id == n.id && e.node.config == s.cfg
    ensures s' == Consume(s, m).(nodes := s.nodes[m.dest := f.node], net := s.net + Messages(e) + (f.out - Once(f.out)),
                                 once := Consume(s, m).once + multiset(Once(f.out)), trace := s.trace + Answers(e))
    ensures Step(s, s') && (SafelyHandled(s.nodes[m.dest], m, c) ==> SafeStep(s, s'))
  {
    var n := s.nodes[m.dest];
    s' := Apply(Apply(Consume(s, m), m.dest, e), m.dest, f);
    hide Dispatch, TakeNextShared, PeersOk, LateStamp, Overwrites, Repeatable;
    assert ChoiceOk(n, m, c) by { NotReading(n, m, c); }
    hide ChoiceOk, SafelyHandled;
    assert Handle(s, s', m, c, c);
    if SafelyHandled(n, m, c) { assert HandleSafely(s, s', m, c, c); }
    hide Handle;
    TwoApplied(Consume(s, m), m.dest, e, f);
  }

  /** A message is handled, and no queued request is taken. */
  lemma Handled(s: Cluster, m: Message, e: Effect) returns (s': Cluster)
    requires Ready(s, m) && Repeatable(e.out)
    requires var n := s.nodes[m.dest];
             && Dispatch(n, m, Draw(s.cfg, m.dest)) == e && !Overwrites(n, m, Draw(s.cfg, m.dest))
             && e.node.id == n.id && e.node.config == s.cfg && (!e.node.mode.Idle? || e.node.lockRequests == [])
             && (e.node.lockRequests != [] ==> !IsRead(e.node.lockRequests[0]))
    ensures s' == Consume(s, m).(nodes := s.nodes[m.dest := e.node], net := s.net + Messages(e),
            trace := s.trace + Answers(e))
    ensures Step(s, s') && (!LateStamp(s.nodes[m.dest], m) ==> SafeStep(s, s'))
  {
    var n, c := s.nodes[m.dest], Draw(s.cfg, m.dest);
    hide Dispatch, PeersOk, LateStamp, Draw, Overwrites, Repeatable, ChoiceOk;
    assert TakeNextShared(n, m, c, c) == Silent(e.node);
    DrawOk(e.node);
    s' := Taken(s, m, c, e, Silent(e.node));
    assert Once({}) == {} && s.net + Messages(e) + ({} - Once({})) == s.net + Messages(e);
    assert Consume(s, m).once + multiset({}) == Consume(s, m).once;
  }

  /** The same if nothing sent is delivered only once. */
  lemma TakenPlainly(s: Cluster, m: Message, e: Effect, f: Effect) returns (s': Cluster)
    requires Ready(s, m) && Repeatable(e.out) && Repeatable(f.out) && f.reply == None
    requires var n, c := s.nodes[m.dest], Draw(s.cfg, m.dest);
             && Dispatch(n, m, c) == e && TakeNextShared(n, m, c, c) == f
             && e.node.id == n.id && e.node.config == s.cfg
             && (e.node.lockRequests != [] ==> !IsRead(e.node.lockRequests[0]))
    ensures s' == Consume(s, m).(nodes := s.nodes[m.dest := f.node], net := s.net + Messages(e) + f.out,
            trace := s.trace + Answers(e))
    ensures Step(s, s') && (SafelyHandled(s.nodes[m.dest], m, Draw(s.cfg, m.dest)) ==> SafeStep(s, s'))
  {
    hide Dispatch, TakeNextShared, SafelyHandled, Step, SafeStep, Draw, Messages, Answers, PeersOk;
    DrawOk(e.node);
    s' := Taken(s, m, Draw(s.cfg, m.dest), e, f);
    assert Once(f.out) == {};
    hide Consume, Repeatable, Once;
    assert f.out - {} == f.out;
    assert Consume(s, m).once + multiset({}) == Consume(s, m).once;
  }

  /** The same if a request joins the queue, is taken at once, and a lock is granted. */
  lemma TakenGranting(s: Cluster, m: Message, n1: Node, f: Effect, g: Message) returns (s': Cluster)
    requires Ready(s, m) && f.out == {g} && OneShot(g) && f.reply == None
    requires var n, c := s.nodes[m.dest], Draw(s.cfg, m.dest);
             && Dispatch(n, m, c) == Silent(n1) && TakeNextShared(n, m, c, c) == f && SafelyHandled(n, m, c)
             && n1.id == n.id && n1.config == s.cfg && n1.lockRequests != [] && !IsRead(n1.lockRequests[0])
    ensures s' == Consume(s, m).(nodes := s.nodes[m.dest := f.node], once := Consume(s, m).once + multiset{g})
    ensures Step(s, s') && SafeStep(s, s')
  {
    hide Dispatch, TakeNextShared, SafelyHandled, Step, SafeStep, Draw, PeersOk;
    DrawOk(n1);
    s' := Taken(s, m, Draw(s.cfg, m.dest), Silent(n1), f);
    assert Once(f.out) == {g};
    hide Consume, Once;
    assert s.net + {} + ({g} - {g}) == s.net;
    assert s.trace + [] == s.trace;
  }

  /** The internal timer of node 0 fires, and it is left with nothing to do. */
  lemma Ticked(s: Cluster, e: Effect) returns (s': Cluster)
    requires 0 < |s.nodes| && |s.trace| + 1 < TIMESTAMPS && !s.nodes[0].disabled
    requires Timeout(s.nodes[0]) == e && e.node.lockRequests == [] && Repeatable(e.out) && Answers(e) == []
    ensures s' == s.(nodes := s.nodes[0 := e.node], net := s.net + Messages(e))
    ensures Step(s, s') && SafeStep(s, s')
  {
    s' := Apply(s, 0, e);
    NothingApplied(s', 0);
    var d := Choice({}, ABSENT, 0, 0);
    assert TakeNext(e.node, d) == Silent(e.node);
    hide Timeout, TakeNext;
    assert Tick(s, s', 0, d);
    PlainSent(e);
    hide Repeatable, Messages, Answers;
    assert s.once + multiset({}) == s.once && s.trace + [] == s.trace;
  }

  lemma Asked(s: Cluster, m: Message) returns (s': Cluster)
    requires Invoke(s, s.(once := s.once + multiset{m}, trace := s.trace + [Invoked(m)]), m)
    requires |s.trace| + 1 < TIMESTAMPS
    ensures Step(s, s') && SafeStep(s, s') && s' == s.(once := s.once + multiset{m}, trace := s.trace + [Invoked(m)])
  {
    s' := s.(once := s.once + multiset{m}, trace := s.trace + [Invoked(m)]);
  }

  // ---------- what a member does ----------

  predicate Member(s: Cluster, q: int) { Small(s.cfg) && 0 < q < s.cfg.n == |s.nodes| && |s.trace| + 1 < TIMESTAMPS }

  lemma Locks(cfg: Config, q: int, timers: set<Message>, c: Choice)
    requires Small(cfg)
    ensures var n, m := Fresh(cfg, q, timers), Lock(q);
            && Dispatch(n, m, c) == Silent(Fresh(cfg, q, timers + {m}).(lockRequests := [m])) && SafelyHandled(n, m, c)
            && TakeNextShared(n, m, c, c) == Effect(LockedBy7(cfg, q, timers + {m}), {Grant(q)}, None)
  {
    assert Fresh(cfg, q, timers).lockRequests + [Lock(q)] == [Lock(q)];
  }

  lemma MemberLocks(s: Cluster, q: int, timers: set<Message>) returns (s': Cluster)
    requires Member(s, q) && s.nodes[q] == Fresh(s.cfg, q, timers) && Lock(q) in s.net
    ensures s' == s.(nodes := s.nodes[q := LockedBy7(s.cfg, q, timers + {Lock(q)})],
            once := s.once + multiset{Grant(q)})
    ensures Step(s, s') && SafeStep(s, s')
  {
    var m, c := Lock(q), Draw(s.cfg, q);
    Locks(s.cfg, q, timers, c);
    hide Dispatch, TakeNextShared, SafelyHandled, Step, SafeStep, Draw;
    var f := Effect(LockedBy7(s.cfg, q, timers + {m}), {Grant(q)}, None);
    s' := TakenGranting(s, m, Fresh(s.cfg, q, timers + {m}).(lockRequests := [m]), f, Grant(q));
    assert m.dest == q && Consume(s, m) == s;
    hide Fresh, LockedBy7, Lock, Grant, Consume;
  }

  lemma MemberStamps(s: Cluster, q: int, timers: set<Message>) returns (s': Cluster)
    requires Member(s, q) && s.nodes[q] == LockedBy7(s.cfg, q, timers) && AskStamp(q) in s.net
    ensures Step(s, s') && SafeStep(s, s') && s' == s.(net := s.net + {Stamp(q)})
  {
    s' := Handled(s, AskStamp(q), Effect(s.nodes[q], {Stamp(q)}, None));
    assert s.nodes[q := s.nodes[q]] == s.nodes;
  }

  lemma Stages(cfg: Config, q: int, timers: set<Message>, c: Choice)
    requires Small(cfg)
    ensures var n, m := LockedBy7(cfg, q, timers), AskPut(q);
            && Dispatch(n, m, c) == Effect(StagedBy7(cfg, q, timers), {Ack(q)}, None)
            && !Overwrites(n, m, c) && !LateStamp(n, m)
  {
    assert Put(Empty(), KEY, Stamped(1, VALUE)) == STAGED;
  }

  lemma MemberStages(s: Cluster, q: int, timers: set<Message>) returns (s': Cluster)
    requires Member(s, q) && s.nodes[q] == LockedBy7(s.cfg, q, timers) && AskPut(q) in s.net
    ensures s' == s.(nodes := s.nodes[q := StagedBy7(s.cfg, q, timers)], net := s.net + {Ack(q)})
    ensures Step(s, s') && SafeStep(s, s')
  {
    Stages(s.cfg, q, timers, Draw(s.cfg, q));
    hide Dispatch, Overwrites, LateStamp, Step, SafeStep, Draw, STAGED;
    s' := Handled(s, AskPut(q), Effect(StagedBy7(s.cfg, q, timers), {Ack(q)}, None));
  }

  /** An order to unlock that finds nothing to commit. */
  lemma MemberUnlocks(s: Cluster, q: int, m: Message) returns (s': Cluster)
    requires Member(s, q) && s.nodes[q].mode.ProcessingWrite? && s.nodes[q].currentTxid == 7 && m in s.net
    requires m == Unlock(q, m.ok) && s.nodes[q].lockRequests == [] && (m.ok ==> s.nodes[q].uncommittedTxid == 0)
    requires s.nodes[q].config == s.cfg && s.nodes[q].id == q && !s.nodes[q].disabled
    ensures s' == s.(nodes := s.nodes[q := s.nodes[q].(mode := Idle, currentTxid := -1,
            unlockTxids := s.nodes[q].unlockTxids + {7})],
                     net := s.net + {Signal(7, q, 0, UnlockAck, true)})
    ensures Step(s, s') && SafeStep(s, s')
  {
    var n := s.nodes[q];
    var e := Effect(n.(mode := Idle, currentTxid := -1, unlockTxids := n.unlockTxids + {7}),
        {Signal(7, q, 0, UnlockAck, true)}, None);
    s' := Handled(s, m, e);
  }

  // ---------- runs, built step by step ----------

  /** A run of the program in which every step but the k-th is safe. */
  ghost predicate UnsafeAt(run: seq<Cluster>, k: nat) {
    IsProgramRun(run) && forall i :: 0 <= i < |run| - 1 && i != k ==> SafeStep(run[i], run[i + 1])
  }

  lemma Extended(run: seq<Cluster>, k: nat, s': Cluster)
    requires UnsafeAt(run, k) && Step(Last(run), s') && (SafeStep(Last(run), s') || |run| == k + 1)
    ensures UnsafeAt(run + [s'], k) && Last(run + [s']) == s'
  {
    hide Step, SafeStep, Clusters.Init;
    var longer := run + [s'];
    forall i | 0 <= i < |longer| - 1
      ensures Step(longer[i], longer[i + 1])
      ensures i != k ==> SafeStep(longer[i], longer[i + 1])
    {
      if i < |run| - 1 { assert Step(run[i], run[i + 1]) && (i != k ==> SafeStep(run[i], run[i + 1])); }
    }
  }

  function Initial(cfg: Config): Cluster {
    Cluster(cfg, if cfg.n == 2 then [New(0, cfg), New(1, cfg)] else [New(0, cfg), New(1, cfg), New(2, cfg)], {},
        multiset{}, [])
  }

  lemma Begins(cfg: Config, k: nat) returns (run: seq<Cluster>)
    requires Small(cfg)
    ensures UnsafeAt(run, k) && |run| == 1 && Last(run) == Initial(cfg)
  {
    run := [Initial(cfg)];
  }

  // ---------- a coordinator with one other member ----------

  function Base(queue: seq<Message>, timers: set<Message>): Node {
    New(0, PAIR).(lockRequests := queue, timers := timers)
  }

  function Members(other: Message, mark: Message): Option<map<int, Message>> { Some(map[1 := other, 0 := mark]) }

  function Assembles(n: Node, id: int, queue: seq<Message>): Node {
    n.(lockRequests := queue, mode := AssemblingQuorum, currentTxid := id, clientRequest := Write(PAIR, id),
       quorumMembers := Members(LockFor(id, 1), Marker(TimestampRequest, 0)), numWaitingNodes := 1)
  }

  function Assembling(queue: seq<Message>, timers: set<Message>): Node { Assembles(Base(queue, timers), 7, queue) }

  function Stamping(queue: seq<Message>, timers: set<Message>): Node {
    Assembling(queue, timers).(mode := CoordinatingWrite, quorumMembers := Members(Grant(1), Marker(PutRequest, 0)))
  }

  function Putting(queue: seq<Message>, timers: set<Message>): Node {
    Stamping(queue, timers).(store := STAGED, uncommittedTxid := 1, uncommittedKey := Some(KEY),
                             quorumMembers := Members(Stamp(1), Marker(UnlockRequest, 1)))
  }

  function Done(queue: seq<Message>, timers: set<Message>): Node {
    Base(queue, timers).(clientRequest := Write(PAIR, 7), store := COMMITTED)
  }

  predicate Pair(s: Cluster) { s.cfg == PAIR && |s.nodes| == 2 && |s.trace| + 1 < TIMESTAMPS }

  predicate NoReads(queue: seq<Message>) { queue != [] ==> !IsRead(queue[0]) }

  /** A queued write is taken. */
  lemma PairTakes(n: Node, id: int, queue: seq<Message>, c: Choice)
    requires n.id == 0 && n.config == PAIR && n.mode.Idle? && n.quorumMembers.None? && id !in n.unlockTxids
    requires c.peers == {1}
    requires n.lockRequests == [Write(PAIR, id)] + queue
    ensures TakeNext(n, c) == Effect(Assembles(n, id, queue), {LockFor(id, 1)}, None)
  {
    assert n.lockRequests[1..] == queue;
    var n1 := n.(lockRequests := queue, currentTxid := id, clientRequest := Write(PAIR, id), mode := AssemblingQuorum);
    assert InitialMembers(n1, LockRequestNoTimeout, {1}) == map[1 := LockFor(id, 1), 0 := Marker(TimestampRequest, 0)];
    assert (set q | q in c.peers :: QuorumRequest(n1, q, LockRequestNoTimeout)) == {LockFor(id, 1)} by {
      assert QuorumRequest(n1, 1, LockRequestNoTimeout) == LockFor(id, 1);
    }
    assert TakeNext(n, c) == AssembleQuorum(n1, 2, LockRequestNoTimeout, c.peers);
  }

  lemma CountsGrant(queue: seq<Message>, timers: set<Message>, c: Choice)
    ensures var n, m := Assembling(queue, timers), Grant(1);
            && Dispatch(n, m, c) == Effect(Stamping(queue, timers), {AskStamp(1)}, None)
            && !Overwrites(n, m, c) && !LateStamp(n, m)
  {
    var n, m := Assembling(queue, timers), Grant(1);
    var n1 := n.(quorumMembers := Members(Grant(1), Marker(TimestampRequest, 0)), numWaitingNodes := 0);
    assert n.quorumMembers.value[1 := m] == n1.quorumMembers.value;
    assert Dispatch(n, m, c) == RequestTimestamps(n1.(mode := CoordinatingWrite));
    assert Peers(n1) == {1};
    assert RequestTimestamps(n1.(mode := CoordinatingWrite)).out == {AskStamp(1)};
    assert n1.quorumMembers.value[0 := Marker(PutRequest, 0)] == map[1 := Grant(1), 0 := Marker(PutRequest, 0)];
  }

  lemma PairGranted(s: Cluster, queue: seq<Message>, timers: set<Message>) returns (s': Cluster)
    requires Pair(s) && s.nodes[0] == Assembling(queue, timers) && Grant(1) in s.once && NoReads(queue)
    ensures s' == s.(nodes := s.nodes[0 := Stamping(queue, timers)], once := s.once - multiset{Grant(1)},
            net := s.net + {AskStamp(1)})
    ensures Step(s, s') && SafeStep(s, s')
  {
    CountsGrant(queue, timers, Draw(PAIR, 0));
    hide Dispatch, Overwrites, LateStamp, Step, SafeStep, Draw;
    s' := Handled(s, Grant(1), Effect(Stamping(queue, timers), {AskStamp(1)}, None));
  }

  lemma CountsStamp(queue: seq<Message>, timers: set<Message>, c: Choice)
    ensures var n, m := Stamping(queue, timers), Stamp(1);
            && Dispatch(n, m, c) == Effect(Putting(queue, timers), {AskPut(1)}, None)
            && !Overwrites(n, m, c) && !LateStamp(n, m)
  {
    var n, m := Stamping(queue, timers), Stamp(1);
    var n1 := n.(quorumMembers := Members(Stamp(1), Marker(PutRequest, 0)), numWaitingNodes := 0);
    assert n.quorumMembers.value[1 := m] == n1.quorumMembers.value;
    assert Dispatch(n, m, c) == StageWrite(n1);
    assert Peers(n1) == {1} && LatestTimestamp(0, n1.quorumMembers.value, {1}) == 0;
    assert PutRequestsTo(n1, 1) == {AskPut(1)};
    assert n1.quorumMembers.value[0 := Marker(UnlockRequest, 1)] == map[1 := Stamp(1), 0 := Marker(UnlockRequest, 1)];
    assert Put(n1.store, KEY, Stamped(1, VALUE)) == STAGED;
  }

  lemma PairStamped(s: Cluster, queue: seq<Message>, timers: set<Message>) returns (s': Cluster)
    requires Pair(s) && s.nodes[0] == Stamping(queue, timers) && Stamp(1) in s.net && NoReads(queue)
    ensures s' == s.(nodes := s.nodes[0 := Putting(queue, timers)], net := s.net + {AskPut(1)})
    ensures Step(s, s') && SafeStep(s, s')
  {
    CountsStamp(queue, timers, Draw(PAIR, 0));
    hide Dispatch, Overwrites, LateStamp, Step, SafeStep, Draw;
    s' := Handled(s, Stamp(1), Effect(Putting(queue, timers), {AskPut(1)}, None));
  }

  lemma LastVote(n: Node, queue: seq<Message>, timers: set<Message>, c: Choice)
    requires n == Putting(queue, timers)
    ensures Dispatch(n, Ack(1), c) == Effect(Done(queue, timers), {Unlock(1, true)}, Some(Success(PAIR)))
  {
    var n1 := n.(quorumMembers := Members(Ack(1), Marker(UnlockRequest, 1)), numWaitingNodes := 0);
    assert n.quorumMembers.value[1 := Ack(1)] == n1.quorumMembers.value;
    assert Dispatch(n, Ack(1), c) == CommitWrite(n1);
    assert Peers(n1) == {1};
    assert Commit(n1.store, KEY, 1) == COMMITTED;
    assert Unlocks(n1, 7, true) == {Unlock(1, true)};
  }

  /** The last vote commits the write. */
  lemma PairAcked(s: Cluster, timers: set<Message>) returns (s': Cluster)
    requires Pair(s) && s.nodes[0] == Putting([], timers) && Ack(1) in s.net
    ensures s' == s.(nodes := s.nodes[0 := Done([], timers)], net := s.net + {Unlock(1, true), Success(PAIR)},
                     trace := s.trace + [Returned(Success(PAIR))])
    ensures Step(s, s') && SafeStep(s, s')
  {
    LastVote(s.nodes[0], [], timers, Draw(PAIR, 0));
    hide Dispatch;
    s' := Handled(s, Ack(1), Effect(Done([], timers), {Unlock(1, true)}, Some(Success(PAIR))));
  }

  /** The last vote commits the write, and the same write is waiting in the queue. */
  lemma PairAckedAgain(s: Cluster, timers: set<Message>) returns (s': Cluster)
    requires Pair(s) && s.nodes[0] == Putting([Write(PAIR, 7)], timers) && Ack(1) in s.net
    ensures s' == s.(nodes := s.nodes[0 := Assembling([], timers).(store := COMMITTED)],
                     net := s.net + {Unlock(1, true), Success(PAIR), Lock(1)},
                     trace := s.trace + [Returned(Success(PAIR))])
    ensures Step(s, s') && SafeStep(s, s')
  {
    var m, c := Ack(1), Draw(PAIR, 0);
    TakesAgain(s.nodes[0], timers, c);
    hide Dispatch, TakeNextShared, SafelyHandled, Step, SafeStep, Draw;
    var e := Effect(Done([Write(PAIR, 7)], timers), {Unlock(1, true)}, Some(Success(PAIR)));
    var f := Effect(Assembling([], timers).(store := COMMITTED), {Lock(1)}, None);
    s' := TakenPlainly(s, m, e, f);
    assert m.dest == 0 && Consume(s, m) == s && Answers(e) == [Returned(Success(PAIR))];
    hide Assembling, Done, Lock, Unlock, Success, Consume, Answers;
    assert s.net + Messages(e) + f.out == s.net + {Unlock(1, true), Success(PAIR), Lock(1)};
  }

  lemma TakesAgain(n: Node, timers: set<Message>, c: Choice)
    requires n == Putting([Write(PAIR, 7)], timers) && c == Draw(PAIR, 0)
    ensures Dispatch(n, Ack(1), c) == Effect(Done([Write(PAIR, 7)], timers), {Unlock(1, true)}, Some(Success(PAIR)))
    ensures TakeNextShared(n, Ack(1), c, c) == Effect(Assembling([], timers).(store := COMMITTED), {Lock(1)}, None)
    ensures SafelyHandled(n, Ack(1), c)
  {
    var queue := [Write(PAIR, 7)];
    LastVote(n, queue, timers, c);
    hide Dispatch;
    assert c.peers == {1} && queue == [Write(PAIR, 7)] + [];
    PairTakes(Done(queue, timers), 7, [], c);
    hide TakeNext;
  }

  // ---------- stretches of a run with two nodes ----------

  predicate Grew(s: Cluster, s': Cluster) { s'.cfg == s.cfg && s.net <= s'.net && |s'.nodes| == |s.nodes| }

  /** The member locks, its grant is counted, and it is asked for its timestamp. */
  lemma Granting(run: seq<Cluster>, k: nat, queue: seq<Message>, timers: set<Message>) returns (r: seq<Cluster>)
    requires |run| > 0 && UnsafeAt(run, k) && Pair(Last(run)) && NoReads(queue) && Last(run).once == multiset{}
    requires Last(run).nodes == [Assembling(queue, timers), Fresh(PAIR, 1, {})] && Lock(1) in Last(run).net
    ensures UnsafeAt(r, k) && |r| == |run| + 2 && run == r[..|run|] && Grew(Last(run), Last(r))
    ensures AskStamp(1) in Last(r).net
    ensures Last(r).nodes == [Stamping(queue, timers), LockedBy7(PAIR, 1, {Lock(1)})]
    ensures Last(r).once == multiset{} && Last(r).trace == Last(run).trace
  {
    hide UnsafeAt, Step, SafeStep;
    var s := MemberLocks(Last(run), 1, {});
    Extended(run, k, s);
    r := run + [s];
    s := PairGranted(s, queue, timers);
    Extended(r, k, s);
    r := r + [s];
    assert {} + {Lock(1)} == {Lock(1)};
  }

  /** The timestamp is answered and chosen, and the write is staged and acknowledged. */
  lemma Staging(run: seq<Cluster>, k: nat, queue: seq<Message>, timers: set<Message>, locks: set<Message>)
    returns (r: seq<Cluster>)
    requires |run| > 0 && UnsafeAt(run, k) && Pair(Last(run)) && NoReads(queue)
    requires Last(run).nodes == [Stamping(queue, timers), LockedBy7(PAIR, 1, locks)] && AskStamp(1) in Last(run).net
    ensures UnsafeAt(r, k) && |r| == |run| + 3 && run == r[..|run|] && Grew(Last(run), Last(r)) && Ack(1) in Last(r).net
    ensures Last(r).nodes == [Putting(queue, timers), StagedBy7(PAIR, 1, locks)]
    ensures Last(r).once == Last(run).once && Last(r).trace == Last(run).trace
  {
    hide UnsafeAt, Step, SafeStep;
    var s := MemberStamps(Last(run), 1, locks);
    Extended(run, k, s);
    r := run + [s];
    s := PairStamped(s, queue, timers);
    Extended(r, k, s);
    r := r + [s];
    s := MemberStages(s, 1, locks);
    Extended(r, k, s);
    r := r + [s];
  }

  lemma PairReceives(n: Node, id: int, c: Choice)
    requires n == New(0, PAIR) && c == Draw(PAIR, 0)
    ensures var m := Write(PAIR, id);
            && Dispatch(n, m, c) == Silent(Base([m], {m})) && SafelyHandled(n, m, c)
            && TakeNextShared(n, m, c, c) == Effect(Assembles(Base([], {m}), id, []), {LockFor(id, 1)}, None)
  {
    var m := Write(PAIR, id);
    var n1 := Base([m], {m});
    assert [m] == [m] + [] && n.lockRequests + [m] == [m] && {} + {m} == {m};
    assert c.peers == {1};
    PairTakes(n1, id, [], c);
    hide Assembles, TakeNext, LockFor, LateStamp;
    assert Assembles(n1, id, []) == Assembles(Base([], {m}), id, []) by { SameQueue(m, id); }
    assert !LateStamp(n, m) by { NotLate(n, m); }
  }

  lemma SameQueue(m: Message, id: int)
    ensures Assembles(Base([m], {m}), id, []) == Assembles(Base([], {m}), id, [])
  {}

  lemma NotLate(n: Node, m: Message)
    requires !m.kind.GetResponse?
    ensures !LateStamp(n, m)
  {}

  /** The idle node 0 receives a write and begins it. */
  lemma PairBegins(s: Cluster, id: int) returns (s': Cluster)
    requires Pair(s) && s.nodes[0] == New(0, PAIR) && Write(PAIR, id) in s.once
    ensures s' == s.(nodes := s.nodes[0 := Assembles(Base([], {Write(PAIR, id)}), id, [])],
                     once := s.once - multiset{Write(PAIR, id)}, net := s.net + {LockFor(id, 1)})
    ensures Step(s, s') && SafeStep(s, s')
  {
    var n, m, c := s.nodes[0], Write(PAIR, id), Draw(PAIR, 0);
    PairReceives(n, id, c);
    hide Dispatch, TakeNextShared, SafelyHandled, Step, SafeStep, Draw;
    s' := TakenPlainly(s, m, Silent(Base([m], {m})), Effect(Assembles(Base([], {m}), id, []), {LockFor(id, 1)}, None));
    assert m.dest == 0 && Consume(s, m) == s.(once := s.once - multiset{m});
    hide Assembles, Base, LockFor, Write, Consume;
    assert s.net + {} == s.net && s.trace + [] == s.trace;
  }

  /** A client asks node 0 for a write, which begins. */
  lemma Beginning(k: nat, id: nat) returns (r: seq<Cluster>)
    ensures |r| == 3 && UnsafeAt(r, k) && Pair(Last(r)) && Last(r).once == multiset{} && LockFor(id, 1) in Last(r).net
    ensures Last(r).nodes == [Assembles(Base([], {Write(PAIR, id)}), id, []), Fresh(PAIR, 1, {})]
    ensures Last(r).trace == [Invoked(Write(PAIR, id))]
  {
    r := Begins(PAIR, k);
    hide UnsafeAt, Step, SafeStep;
    var s := Asked(Last(r), Write(PAIR, id));
    Extended(r, k, s);
    r := r + [s];
    s := PairBegins(s, id);
    Extended(r, k, s);
    r := r + [s];
  }

  // ---------- a locked member crashes before it has staged anything ----------

  const ONLY: set<Message> := {Write(PAIR, 7)}
  const LOCKS: set<Message> := {Lock(1)}

  /** The member crashes and recovers. */
  lemma Crashes(s: Cluster) returns (s1: Cluster, s2: Cluster)
    requires Pair(s) && s.nodes[1] == LockedBy7(PAIR, 1, LOCKS)
    ensures s1.trace == s.trace && s2 == s.(nodes := s.nodes[1 := Fresh(PAIR, 1, LOCKS)])
    ensures Stop(s, s1, 1) && Step(s, s1) && Step(s1, s2) && SafeStep(s1, s2)
  {
    s1 := s.(nodes := s.nodes[1 := Fresh(PAIR, 1, LOCKS).(disabled := true)]);
    s2 := s.(nodes := s.nodes[1 := Fresh(PAIR, 1, LOCKS)]);
    NodeChanged(s, 1, Fail(s.nodes[1]));
    NodeChanged(s1, 1, Recover(s1.nodes[1]));
    assert s1.nodes[1 := Recover(s1.nodes[1])] == s2.nodes;
    hide Fresh, Fail, Recover;
    assert Stop(s, s1, 1) && Restart(s1, s2, 1);
  }

  /** The member forgets its lock, and locks again when the request is sent again. */
  lemma LocksAgain(run: seq<Cluster>, k: nat) returns (r: seq<Cluster>)
    requires |run| == k + 1 && UnsafeAt(run, k) && Pair(Last(run)) && Lock(1) in Last(run).net
    requires Last(run).nodes[1] == LockedBy7(PAIR, 1, LOCKS) && Last(run).once == multiset{}
    ensures |r| == k + 4 && UnsafeAt(r, k) && r[..k + 1] == run && Stop(run[k], r[k + 1], 1)
    ensures Last(r) == Last(run).(once := multiset{Grant(1)})
  {
    var s := Last(run);
    var s1, s2 := Crashes(s);
    hide UnsafeAt, Step, SafeStep, Stop, Restart;
    Extended(run, k, s1);
    Extended(run + [s1], k, s2);
    var s3 := MemberLocks(s2, 1, LOCKS);
    assert LOCKS + {Lock(1)} == LOCKS && multiset{} + multiset{Grant(1)} == multiset{Grant(1)};
    Extended(run + [s1] + [s2], k, s3);
    r := run + [s1] + [s2] + [s3];
    hide LockedBy7, Fresh;
    assert s2.nodes[1 := LockedBy7(PAIR, 1, LOCKS)] == s.nodes;
  }

  lemma NodeChanged(s: Cluster, p: int, n: Node)
    requires 0 <= p < |s.nodes|
    ensures Apply(s, p, Silent(n)) == s.(nodes := s.nodes[p := n])
  {
    var e := Silent(n);
    assert Once(e.out) == {} && Sent(e) == {};
    assert s.net + {} == s.net && s.trace + [] == s.trace && s.once + multiset({}) == s.once;
  }

  /** The coordinator, past its locks, takes the second grant for a stray one. */
  lemma StrayGrant(s: Cluster) returns (s': Cluster)
    requires Pair(s) && s.nodes[0] == Stamping([], ONLY) && Grant(1) in s.once
    ensures s' == s.(once := s.once - multiset{Grant(1)}, net := s.net + {Unlock(1, false)})
    ensures Step(s, s') && SafeStep(s, s')
  {
    TakenForStray(Draw(PAIR, 0));
    hide Dispatch, Overwrites, LateStamp, Step, SafeStep, Draw, ONLY;
    s' := Handled(s, Grant(1), Effect(s.nodes[0], {Unlock(1, false)}, None));
    hide Stamping;
    assert s.nodes[0 := s.nodes[0]] == s.nodes;
  }

  lemma TakenForStray(c: Choice)
    ensures var n, m := Stamping([], ONLY), Grant(1);
            && Dispatch(n, m, c) == Effect(n, {Unlock(1, false)}, None)
            && !Overwrites(n, m, c) && !LateStamp(n, m)
  {}

  lemma GrantedTwice() returns (run: seq<Cluster>)
    ensures |run| == 9 && UnsafeAt(run, 4) && Pair(Last(run)) && Stop(run[4], run[5], 1) && Last(run).once == multiset{}
    ensures |run[4].nodes| == 2 && run[4].nodes[1].mode.ProcessingWrite? && run[4].nodes[1].uncommittedKey.None?
    ensures Last(run).nodes == [Stamping([], ONLY), LockedBy7(PAIR, 1, LOCKS)]
    ensures Last(run).trace == [Invoked(Write(PAIR, 7))]
    ensures Unlock(1, false) in Last(run).net && AskStamp(1) in Last(run).net
  {
    hide UnsafeAt, Step, SafeStep, Stop, Stamping, StagedBy7;
    run := Beginning(4, 7);
    run := Granting(run, 4, [], ONLY);
    run := LocksAgain(run, 4);
    var s := StrayGrant(Last(run));
    Extended(run, 4, s);
    run := run + [s];
  }

  /** A member that crashes while locked, with nothing staged, grants its lock twice. The
      second grant brings an order to abort, and the write that is then acknowledged to
      the client is not kept by one of the two nodes of its quorum. */
  lemma LostByACrash() returns (run: seq<Cluster>)
    ensures |run| == 14 && UnsafeAt(run, 4) && Stop(run[4], run[5], 1)
    ensures |run[4].nodes| == 2 && run[4].nodes[1].mode.ProcessingWrite? && run[4].nodes[1].uncommittedKey.None?
    ensures Last(run).trace == [Invoked(Write(PAIR, 7)), Returned(Success(PAIR))]
    ensures Unlock(1, false) in Last(run).net && Unlock(1, true) in Last(run).net
    ensures |Last(run).nodes| == 2 && !Keeps(Last(run).nodes[1], 7, KEY, Stamped(1, VALUE))
  {
    hide UnsafeAt, Step, SafeStep, Stop, Stamping;
    run := GrantedTwice();
    run := Staging(run, 4, [], ONLY, LOCKS);
    var s := MemberUnlocks(Last(run), 1, Unlock(1, false));
    Extended(run, 4, s);
    run := run + [s];
    s := PairAcked(s, ONLY);
    Extended(run, 4, s);
    run := run + [s];
  }

  // ---------- a request is overwritten in the queue ----------

  const FIRST_TWO: set<Message> := {Write(PAIR, 6), Write(PAIR, 7)}

  function Failure(id: int): Message { Message(id, 0, 2, ClientWriteResponse, KEY, VALUE, 0, false) }

  /** Write 6 is under way at node 0, and 7 waits behind it. */
  function Six(queue: seq<Message>, timers: set<Message>): Node { Assembles(Base(queue, timers), 6, queue) }

  /** Write 6 has been given up, and 7 still waits, as no message has arrived since. */
  function Waiting(): Node { Base([Write(PAIR, 7)], FIRST_TWO).(clientRequest := Write(PAIR, 6)) }

  lemma SevenWaits(s: Cluster) returns (s': Cluster)
    requires Pair(s) && s.nodes[0] == Six([], {Write(PAIR, 6)}) && Write(PAIR, 7) in s.once
    ensures s' == s.(nodes := s.nodes[0 := Six([Write(PAIR, 7)], FIRST_TWO)], once := s.once - multiset{Write(PAIR, 7)})
    ensures Step(s, s') && SafeStep(s, s')
  {
    var n, m, c := s.nodes[0], Write(PAIR, 7), Draw(PAIR, 0);
    var n1 := Six([m], FIRST_TWO);
    assert n.lockRequests + [m] == [m] && n.timers + {m} == FIRST_TWO;
    assert Dispatch(n, m, c) == Silent(n1) && !Overwrites(n, m, c) && !LateStamp(n, m);
    hide Dispatch, Overwrites, LateStamp, Step, SafeStep, Draw;
    s' := Handled(s, m, Silent(n1));
    hide Six;
    assert s.net + {} == s.net && s.trace + [] == s.trace;
  }

  lemma SixGivesUp(c: Choice)
    ensures RequestTimeout(Six([Write(PAIR, 7)], FIRST_TWO), Write(PAIR, 6)) ==
            Effect(Waiting(), {Signal(6, 0, 1, UnlockRequest, false)}, Some(Failure(6)))
  {
    assert Peers(Six([Write(PAIR, 7)], FIRST_TWO)) == {1};
  }

  lemma SixExpires(s: Cluster) returns (s': Cluster)
    requires Pair(s) && s.nodes[0] == Six([Write(PAIR, 7)], FIRST_TWO)
    ensures s' == s.(nodes := s.nodes[0 := Waiting()],
            net := s.net + {Signal(6, 0, 1, UnlockRequest, false), Failure(6)})
    ensures Step(s, s') && SafeStep(s, s')
  {
    var m, e := Write(PAIR, 6), RequestTimeout(s.nodes[0], Write(PAIR, 6));
    SixGivesUp(Draw(PAIR, 0));
    s' := Apply(s, 0, e);
    assert Expire(s, s', 0, m);
    hide RequestTimeout, Waiting, Six, FIRST_TWO;
    assert Once(e.out) == {} && Sent(e) == {Signal(6, 0, 1, UnlockRequest, false), Failure(6)};
    assert s.once + multiset({}) == s.once && s.trace + [] == s.trace;
  }

  lemma EightReceived(c: Choice)
    requires c == Draw(PAIR, 0)
    ensures var n, m := Waiting(), Write(PAIR, 8);
            && Dispatch(n, m, c) == Enqueue(n, m)
            && TakeNextShared(n, m, c, c) == Effect(Assembling([Write(PAIR, 7)], FIRST_TWO), {Lock(1)}, None)
  {
    var n, seven := Waiting(), Write(PAIR, 7);
    assert Overwritten(n).lockRequests == [seven] + [seven] && Overwritten(n).timers == FIRST_TWO;
    assert c.peers == {1};
    PairTakes(Overwritten(n), 7, [seven], c);
    hide TakeNext;
    assert Assembles(Overwritten(n), 7, [seven]) == Assembling([seven], FIRST_TWO);
  }

  lemma EightWaits()
    ensures var n1 := Enqueue(Waiting(), Write(PAIR, 8)).node;
            && Enqueue(Waiting(), Write(PAIR, 8)) == Silent(n1)
            && n1.id == 0 && n1.config == PAIR && n1.lockRequests != [] && !IsRead(n1.lockRequests[0])
  {}

  /** Write 8 is received into the variable that 7 is then taken into. */
  lemma EightIsLost(s: Cluster) returns (s': Cluster)
    requires Pair(s) && s.nodes[0] == Waiting() && Write(PAIR, 8) in s.once
    ensures s' == s.(nodes := s.nodes[0 := Assembling([Write(PAIR, 7)], FIRST_TWO)],
                     once := s.once - multiset{Write(PAIR, 8)}, net := s.net + {Lock(1)})
    ensures Step(s, s')
  {
    var m, c := Write(PAIR, 8), Draw(PAIR, 0);
    var e, f := Enqueue(s.nodes[0], m), Effect(Assembling([Write(PAIR, 7)], FIRST_TWO), {Lock(1)}, None);
    assert m.dest == 0 && Consume(s, m) == s.(once := s.once - multiset{m}) && Ready(s, m);
    EightWaits();
    hide Dispatch, TakeNextShared, SafelyHandled, Step, SafeStep, Draw, FIRST_TWO, Consume, Enqueue, Assembling, Ready;
    EightReceived(c);
    hide Write, Waiting;
    s' := TakenPlainly(s, m, e, f);
    hide Lock;
    assert s.net + {} + f.out == s.net + f.out && s.trace + [] == s.trace;
  }

  lemma GivesUpAgain(timers: set<Message>)
    ensures var n := Assembling([], timers).(store := COMMITTED);
            Timeout(n) == Effect(Done([], timers), {Unlock(1, false)}, Some(Failure(7)))
  {
    assert Peers(Assembling([], timers)) == {1};
  }

  /** The second start of write 7 finds its member locked by the first, and times out. */
  lemma SevenTimesOut(s: Cluster, timers: set<Message>) returns (s': Cluster)
    requires Pair(s) && s.nodes[0] == Assembling([], timers).(store := COMMITTED)
    ensures s' == s.(nodes := s.nodes[0 := Done([], timers)], net := s.net + {Unlock(1, false), Failure(7)})
    ensures Step(s, s') && SafeStep(s, s')
  {
    GivesUpAgain(timers);
    hide Timeout, Done, Step, SafeStep;
    assert Done([], timers).lockRequests == [] by { NothingWaits(timers); }
    s' := Ticked(s, Effect(Done([], timers), {Unlock(1, false)}, Some(Failure(7))));
  }

  lemma NothingWaits(timers: set<Message>)
    ensures Done([], timers).lockRequests == []
  {}

  /** Nothing that could still lead to the request's being handled. */
  predicate Gone(s: Cluster, m: Message) {
    m !in s.once && forall n :: n in s.nodes ==> m !in n.lockRequests && m !in n.timers && n.clientRequest != m
  }

  lemma SevenIsQueued() returns (run: seq<Cluster>)
    ensures |run| == 6 && UnsafeAt(run, 6) && Pair(Last(run)) && Last(run).once == multiset{}
    ensures Last(run).nodes == [Waiting(), Fresh(PAIR, 1, {})]
    ensures Last(run).trace == [Invoked(Write(PAIR, 6)), Invoked(Write(PAIR, 7))]
  {
    hide UnsafeAt, Step, SafeStep, Assembles, Waiting;
    run := Beginning(6, 6);
    var s := Asked(Last(run), Write(PAIR, 7));
    Extended(run, 6, s);
    run := run + [s];
    s := SevenWaits(s);
    Extended(run, 6, s);
    run := run + [s];
    s := SixExpires(s);
    Extended(run, 6, s);
    run := run + [s];
  }

  lemma SevenIsTakenAgain() returns (run: seq<Cluster>)
    ensures |run| == 8 && UnsafeAt(run, 6) && Pair(Last(run)) && Last(run).once == multiset{}
    ensures Lock(1) in Last(run).net
    ensures Last(run).nodes == [Assembling([Write(PAIR, 7)], FIRST_TWO), Fresh(PAIR, 1, {})]
    ensures Last(run).trace == [Invoked(Write(PAIR, 6)), Invoked(Write(PAIR, 7)), Invoked(Write(PAIR, 8))]
  {
    hide UnsafeAt, Step, SafeStep, Assembling, Waiting;
    run := SevenIsQueued();
    var s := Asked(Last(run), Write(PAIR, 8));
    Extended(run, 6, s);
    run := run + [s];
    s := EightIsLost(s);
    Extended(run, 6, s);
    run := run + [s];
  }

  /** A queued write is taken when another arrives: that one is lost, and the queued one is
      started twice. The members of an acknowledged write are told both to commit and to
      abort, its client is sent a failure too, and one of its two nodes does not keep it. */
  lemma LostByASharedVariable() returns (run: seq<Cluster>)
    ensures |run| == 16 && UnsafeAt(run, 6)
    ensures Last(run).trace == [Invoked(Write(PAIR, 6)), Invoked(Write(PAIR, 7)), Invoked(Write(PAIR, 8)),
            Returned(Success(PAIR))]
    ensures Unlock(1, true) in Last(run).net && Unlock(1, false) in Last(run).net && Failure(7) in Last(run).net
    ensures Gone(Last(run), Write(PAIR, 8))
    ensures |Last(run).nodes| == 2 && !Keeps(Last(run).nodes[1], 7, KEY, Stamped(1, VALUE))
  {
    hide UnsafeAt, Step, SafeStep;
    var queue := [Write(PAIR, 7)];
    run := SevenIsTakenAgain();
    run := Granting(run, 6, queue, FIRST_TWO);
    run := Staging(run, 6, queue, FIRST_TWO, LOCKS);
    var s := PairAckedAgain(Last(run), FIRST_TWO);
    Extended(run, 6, s);
    run := run + [s];
    s := SevenTimesOut(s, FIRST_TWO);
    Extended(run, 6, s);
    run := run + [s];
    s := MemberUnlocks(s, 1, Unlock(1, false));
    Extended(run, 6, s);
    run := run + [s];
  }

  // ---------- a timestamp is counted as a vote ----------

  /** Node 0 coordinates write 7 with two members, whose entries these are. */
  function Trio(mode: Mode, one: Message, two: Message, mark: Message, waiting: int): Node {
    New(0, TRIPLE).(timers := {Write(TRIPLE, 7)}, mode := mode, currentTxid := 7, clientRequest := Write(TRIPLE, 7),
                    quorumMembers := Some(map[1 := one, 2 := two, 0 := mark]), numWaitingNodes := waiting)
  }

  function TrioStart(): Node { Trio(AssemblingQuorum, Lock(1), Lock(2), Marker(TimestampRequest, 0), 2) }

  function TrioHalfLocked(): Node { Trio(AssemblingQuorum, Grant(1), Lock(2), Marker(TimestampRequest, 0), 1) }

  function TrioLocked(): Node { Trio(CoordinatingWrite, Grant(1), Grant(2), Marker(PutRequest, 0), 2) }

  function TrioHalfStamped(): Node { Trio(CoordinatingWrite, Stamp(1), Grant(2), Marker(PutRequest, 0), 1) }

  function TrioPutting(one: Message, waiting: int): Node {
    Trio(CoordinatingWrite, one, Stamp(2), Marker(UnlockRequest, 1), waiting)
      .(store := STAGED, uncommittedTxid := 1, uncommittedKey := Some(KEY))
  }

  function TrioDone(): Node {
    New(0, TRIPLE).(timers := {Write(TRIPLE, 7)}, clientRequest := Write(TRIPLE, 7), store := COMMITTED)
  }

  predicate Triple(s: Cluster) { s.cfg == TRIPLE && |s.nodes| == 3 && |s.trace| + 1 < TIMESTAMPS }

  /** What the coordinator does about each message in turn. */
  lemma TrioReceives(c: Choice)
    requires c == Draw(TRIPLE, 0)
    ensures var n, m := New(0, TRIPLE), Write(TRIPLE, 7);
            && Dispatch(n, m, c) == Silent(n.(lockRequests := [m], timers := {m})) && SafelyHandled(n, m, c)
            && TakeNextShared(n, m, c, c) == Effect(TrioStart(), {Lock(1), Lock(2)}, None)
  {
    var n, m := New(0, TRIPLE), Write(TRIPLE, 7);
    assert n.lockRequests + [m] == [m] && n.timers + {m} == {m} && [m][1..] == [];
    assert c.peers == {1, 2};
    var n1 := n.(timers := {m}, currentTxid := 7, clientRequest := m, mode := AssemblingQuorum);
    assert QuorumRequest(n1, 1, LockRequestNoTimeout) == Lock(1) &&
        QuorumRequest(n1, 2, LockRequestNoTimeout) == Lock(2);
    assert (set q | q in c.peers :: QuorumRequest(n1, q, LockRequestNoTimeout)) == {Lock(1), Lock(2)};
    assert InitialMembers(n1, LockRequestNoTimeout, c.peers) ==
        map[1 := Lock(1), 2 := Lock(2), 0 := Marker(TimestampRequest, 0)];
    assert TakeNextShared(n, m, c, c) == AssembleQuorum(n1, 3, LockRequestNoTimeout, c.peers);
  }

  /** A reply that the coordinator handles without taking anything from its queue. */
  ghost predicate Handles(n: Node, m: Message, e: Effect) {
    Dispatch(n, m, Draw(TRIPLE, 0)) == e && !Overwrites(n, m, Draw(TRIPLE, 0)) && !LateStamp(n, m)
  }

  lemma TrioFirstGrant()
    ensures Handles(TrioStart(), Grant(1), Silent(TrioHalfLocked()))
  {
    assert TrioStart().quorumMembers.value[1 := Grant(1)] == TrioHalfLocked().quorumMembers.value;
  }

  lemma TrioLastGrant()
    ensures Handles(TrioHalfLocked(), Grant(2), Effect(TrioLocked(), {AskStamp(1), AskStamp(2)}, None))
  {
    var n1, n2 := TrioHalfLocked(), Trio(CoordinatingWrite, Grant(1), Grant(2), Marker(TimestampRequest, 0), 0);
    assert n1.quorumMembers.value[2 := Grant(2)] == n2.quorumMembers.value;
    assert Dispatch(n1, Grant(2), Draw(TRIPLE, 0)) == RequestTimestamps(n2);
    assert Peers(n2) == {1, 2};
    assert RequestTimestamps(n2).out == {AskStamp(1), AskStamp(2)};
    assert n2.quorumMembers.value[0 := Marker(PutRequest, 0)] == TrioLocked().quorumMembers.value;
  }

  lemma TrioFirstStamp()
    ensures Handles(TrioLocked(), Stamp(1), Silent(TrioHalfStamped()))
  {
    assert TrioLocked().quorumMembers.value[1 := Stamp(1)] == TrioHalfStamped().quorumMembers.value;
  }

  function TrioStamped(): Node { Trio(CoordinatingWrite, Stamp(1), Stamp(2), Marker(PutRequest, 0), 0) }

  lemma TrioChooses()
    ensures StageWrite(TrioStamped()) == Effect(TrioPutting(Stamp(1), 2), {AskPut(1), AskPut(2)}, None)
  {
    var n1 := TrioStamped();
    assert Peers(n1) == {1, 2} && LatestTimestamp(0, n1.quorumMembers.value, {1, 2}) == 0;
    assert PutRequestsTo(n1, 1) == {AskPut(1), AskPut(2)};
    assert n1.quorumMembers.value[0 := Marker(UnlockRequest, 1)] == TrioPutting(Stamp(1), 2).quorumMembers.value;
    assert Put(n1.store, KEY, Stamped(1, VALUE)) == STAGED;
  }

  lemma TrioCountsStamp(c: Choice)
    ensures Dispatch(TrioHalfStamped(), Stamp(2), c) == StageWrite(TrioStamped())
    ensures !Overwrites(TrioHalfStamped(), Stamp(2), c) && !LateStamp(TrioHalfStamped(), Stamp(2))
  {
    assert TrioHalfStamped().quorumMembers.value[2 := Stamp(2)] == TrioStamped().quorumMembers.value;
    hide StageWrite;
  }

  lemma TrioLastStamp()
    ensures Handles(TrioHalfStamped(), Stamp(2), Effect(TrioPutting(Stamp(1), 2), {AskPut(1), AskPut(2)}, None))
  {
    hide StageWrite, TrioPutting, TrioStamped, TrioHalfStamped, Dispatch, Overwrites, LateStamp;
    TrioCountsStamp(Draw(TRIPLE, 0));
    TrioChooses();
  }

  lemma TrioFirstVote()
    ensures Handles(TrioPutting(Stamp(1), 2), Ack(1), Silent(TrioPutting(Ack(1), 1)))
  {
    assert TrioPutting(Stamp(1), 2).quorumMembers.value[1 := Ack(1)] == TrioPutting(Ack(1), 1).quorumMembers.value;
  }

  /** The timestamp, answered again, is counted in place of the vote of member 2. */
  lemma TrioLateStamp(c: Choice)
    ensures Dispatch(TrioPutting(Ack(1), 1), Stamp(1), c) ==
            Effect(TrioDone(), {Unlock(1, true), Unlock(2, true)}, Some(Success(TRIPLE)))
    ensures !Overwrites(TrioPutting(Ack(1), 1), Stamp(1), c) && LateStamp(TrioPutting(Ack(1), 1), Stamp(1))
  {
    hide CommitWrite, TrioDone;
    TrioConcludes();
    assert TrioPutting(Ack(1), 1).quorumMembers.value[1 := Stamp(1)] == TrioPutting(Stamp(1), 0).quorumMembers.value;
    assert Dispatch(TrioPutting(Ack(1), 1), Stamp(1), c) == CommitWrite(TrioPutting(Stamp(1), 0));
  }

  lemma TrioConcludes()
    ensures CommitWrite(TrioPutting(Stamp(1), 0)) ==
            Effect(TrioDone(), {Unlock(1, true), Unlock(2, true)}, Some(Success(TRIPLE)))
  {
    var n1 := TrioPutting(Stamp(1), 0);
    assert Peers(n1) == {1, 2} && Commit(n1.store, KEY, 1) == COMMITTED;
    assert Unlocks(n1, 7, true) == {Unlock(1, true), Unlock(2, true)};
  }

  /** The coordinator handles a reply. */
  lemma TrioStep(run: seq<Cluster>, k: nat, m: Message, e: Effect) returns (r: seq<Cluster>)
    requires |run| > 0 && UnsafeAt(run, k) && Triple(Last(run)) && Available(Last(run), m) && m.dest == 0
    requires var n := Last(run).nodes[0];
             && n.config == TRIPLE && n.id == 0 && !n.disabled && !n.mode.CoordinatingFastRead? && Repeatable(e.out)
             && Dispatch(n, m, Draw(TRIPLE, 0)) == e && !Overwrites(n, m, Draw(TRIPLE, 0))
             && (LateStamp(n, m) ==> |run| == k + 1)
             && e.node.id == 0 && e.node.config == TRIPLE && e.node.lockRequests == []
    ensures |r| == |run| + 1 && r[..|run|] == run && UnsafeAt(r, k)
    ensures var s := Last(run);
            Last(r) == Consume(s, m).(nodes := s.nodes[0 := e.node], net := s.net + Messages(e),
                trace := s.trace + Answers(e))
  {
    hide UnsafeAt, Step, SafeStep, Dispatch, Overwrites, LateStamp, Repeatable, Messages, Answers, Draw;
    var s := Handled(Last(run), m, e);
    Extended(run, k, s);
    r := run + [s];
  }

  lemma TrioAsks(k: nat) returns (r: seq<Cluster>)
    ensures |r| == 3 && UnsafeAt(r, k) && Triple(Last(r)) && Last(r).trace == [Invoked(Write(TRIPLE, 7))]
    ensures Last(r).nodes == [TrioStart(), Fresh(TRIPLE, 1, {}), Fresh(TRIPLE, 2, {})]
    ensures Last(r).once == multiset{} && Last(r).net == {Lock(1), Lock(2)}
  {
    r := Begins(TRIPLE, k);
    hide UnsafeAt, Step, SafeStep, TrioStart;
    var s := Asked(Last(r), Write(TRIPLE, 7));
    Extended(r, k, s);
    r := r + [s];
    s := TrioBegins(s);
    Extended(r, k, s);
    r := r + [s];
  }

  /** The three nodes lock for write 7. */
  lemma TrioLocks(k: nat) returns (r: seq<Cluster>)
    ensures |r| == 5 && UnsafeAt(r, k) && Triple(Last(r)) && Last(r).trace == [Invoked(Write(TRIPLE, 7))]
    ensures Last(r).nodes == [TrioStart(), LockedBy7(TRIPLE, 1, {Lock(1)}), LockedBy7(TRIPLE, 2, {Lock(2)})]
    ensures Last(r).once == multiset{Grant(1), Grant(2)}
  {
    hide UnsafeAt, Step, SafeStep, TrioStart, LockedBy7, Fresh;
    r := TrioAsks(k);
    var s := MemberLocks(Last(r), 1, {});
    Extended(r, k, s);
    r := r + [s];
    s := MemberLocks(s, 2, {});
    Extended(r, k, s);
    r := r + [s];
    assert {} + {Lock(1)} == {Lock(1)} && {} + {Lock(2)} == {Lock(2)};
  }

  lemma TrioBegins(s: Cluster) returns (s': Cluster)
    requires Triple(s) && s.nodes[0] == New(0, TRIPLE) && Write(TRIPLE, 7) in s.once
    ensures s' == s.(nodes := s.nodes[0 := TrioStart()], once := s.once - multiset{Write(TRIPLE, 7)},
            net := s.net + {Lock(1), Lock(2)})
    ensures Step(s, s') && SafeStep(s, s')
  {
    var n, m, c := s.nodes[0], Write(TRIPLE, 7), Draw(TRIPLE, 0);
    TrioReceives(c);
    hide Dispatch, TakeNextShared, SafelyHandled, Step, SafeStep, Draw;
    s' := TakenPlainly(s, m, Silent(n.(lockRequests := [m], timers := {m})),
        Effect(TrioStart(), {Lock(1), Lock(2)}, None));
    assert m.dest == 0 && Consume(s, m) == s.(once := s.once - multiset{m});
    hide TrioStart, Lock, Write, Consume;
    assert s.net + {} == s.net && s.trace + [] == s.trace;
  }

  function Trioed(n: Node): seq<Node> { [n, LockedBy7(TRIPLE, 1, {Lock(1)}), LockedBy7(TRIPLE, 2, {Lock(2)})] }

  /** Both grants are counted. */
  lemma TrioAllLocked(k: nat) returns (r: seq<Cluster>)
    ensures |r| == 7 && UnsafeAt(r, k) && Triple(Last(r)) && Last(r).trace == [Invoked(Write(TRIPLE, 7))]
    ensures Last(r).nodes == Trioed(TrioLocked()) && Last(r).once == multiset{}
    ensures {AskStamp(1), AskStamp(2)} <= Last(r).net
  {
    TrioFirstGrant();
    TrioLastGrant();
    hide UnsafeAt, Dispatch, Overwrites, LateStamp, LockedBy7, Draw;
    r := TrioLocks(k);
    r := TrioStep(r, k, Grant(1), Silent(TrioHalfLocked()));
    r := TrioStep(r, k, Grant(2), Effect(TrioLocked(), {AskStamp(1), AskStamp(2)}, None));
    hide TrioLocked, TrioHalfLocked, TrioStart;
  }

  /** Both members answer with their timestamps. */
  lemma TrioAllStamped(k: nat) returns (r: seq<Cluster>)
    ensures |r| == 9 && UnsafeAt(r, k) && Triple(Last(r)) && Last(r).trace == [Invoked(Write(TRIPLE, 7))]
    ensures Last(r).nodes == Trioed(TrioLocked()) && Last(r).once == multiset{} && {Stamp(1), Stamp(2)} <= Last(r).net
  {
    hide UnsafeAt, Step, SafeStep, LockedBy7, TrioLocked;
    r := TrioAllLocked(k);
    var s := MemberStamps(Last(r), 1, {Lock(1)});
    Extended(r, k, s);
    r := r + [s];
    s := MemberStamps(s, 2, {Lock(2)});
    Extended(r, k, s);
    r := r + [s];
  }

  /** Both timestamps are counted. */
  lemma TrioAllChosen(k: nat) returns (r: seq<Cluster>)
    ensures |r| == 11 && UnsafeAt(r, k) && Triple(Last(r)) && Last(r).trace == [Invoked(Write(TRIPLE, 7))]
    ensures Last(r).nodes == Trioed(TrioPutting(Stamp(1), 2)) && Last(r).once == multiset{}
    ensures {Stamp(1), AskPut(1)} <= Last(r).net
  {
    TrioFirstStamp();
    TrioLastStamp();
    hide UnsafeAt, Dispatch, Overwrites, LateStamp, LockedBy7, Draw;
    r := TrioAllStamped(k);
    r := TrioStep(r, k, Stamp(1), Silent(TrioHalfStamped()));
    r := TrioStep(r, k, Stamp(2), Effect(TrioPutting(Stamp(1), 2), {AskPut(1), AskPut(2)}, None));
    hide TrioLocked, TrioHalfStamped, TrioPutting;
  }

  /** Member 1 stages the write and its vote is counted. */
  lemma TrioOneVote(k: nat) returns (r: seq<Cluster>)
    ensures |r| == 13 && UnsafeAt(r, k) && Triple(Last(r)) && Last(r).trace == [Invoked(Write(TRIPLE, 7))]
    ensures Last(r).nodes == [TrioPutting(Ack(1), 1), StagedBy7(TRIPLE, 1, {Lock(1)}), LockedBy7(TRIPLE, 2, {Lock(2)})]
    ensures Last(r).once == multiset{} && Stamp(1) in Last(r).net
  {
    TrioFirstVote();
    hide UnsafeAt, Step, SafeStep, Dispatch, Overwrites, LateStamp, LockedBy7, StagedBy7, Draw;
    r := TrioAllChosen(k);
    var s := MemberStages(Last(r), 1, {Lock(1)});
    Extended(r, k, s);
    r := r + [s];
    r := TrioStep(r, k, Ack(1), Silent(TrioPutting(Ack(1), 1)));
  }

  // ---------- and the write is not where a reader looks ----------

  function Ask(): Message { Message(9, 3, 2, ClientReadRequest, KEY, [], 0, true) }

  function Answer(): Message { Message(9, 2, 3, ClientReadResponse, KEY, [], 0, true) }

  function Unaware(): Node {
    LockedBy7(TRIPLE, 2, {Lock(2)}).(mode := Idle, currentTxid := -1, unlockTxids := {7})
  }

  /** The repeated timestamp is the second vote. */
  lemma TrioCommits() returns (r: seq<Cluster>)
    ensures |r| == 14 && UnsafeAt(r, 12) && Triple(Last(r)) && Last(r).once == multiset{}
    ensures |r[12].nodes| == 3 && LateStamp(r[12].nodes[0], Stamp(1))
    ensures Last(r).trace == [Invoked(Write(TRIPLE, 7)), Returned(Success(TRIPLE))]
    ensures Last(r).nodes[2] == LockedBy7(TRIPLE, 2, {Lock(2)}) && Unlock(2, true) in Last(r).net
  {
    var run := TrioOneVote(12);
    TrioLateStamp(Draw(TRIPLE, 0));
    hide UnsafeAt, Step, SafeStep, Dispatch, Overwrites, LateStamp, StagedBy7, LockedBy7, Draw;
    var e := Effect(TrioDone(), {Unlock(1, true), Unlock(2, true)}, Some(Success(TRIPLE)));
    r := TrioStep(run, 12, Stamp(1), e);
    hide TrioDone, TrioPutting;
    assert r[12] == Last(run) && Answers(e) == [Returned(Success(TRIPLE))];
    hide Unlock, Success;
  }

  /** Member 2 obeys the order to commit, with nothing to commit. */
  lemma TrioUnlocks() returns (r: seq<Cluster>)
    ensures |r| == 15 && UnsafeAt(r, 12) && Triple(Last(r)) && Last(r).once == multiset{}
    ensures |r[12].nodes| == 3 && LateStamp(r[12].nodes[0], Stamp(1))
    ensures Last(r).trace == [Invoked(Write(TRIPLE, 7)), Returned(Success(TRIPLE))]
    ensures Last(r).nodes[2] == Unaware()
  {
    hide UnsafeAt, Step, SafeStep, LateStamp;
    r := TrioCommits();
    var s := MemberUnlocks(Last(r), 2, Unlock(2, true));
    Extended(r, 12, s);
    r := r + [s];
  }

  lemma ReadsNothing(s: Cluster) returns (s': Cluster)
    requires Triple(s) && s.nodes[2] == Unaware() && Ask() in s.once
    ensures s' == s.(once := s.once - multiset{Ask()}, net := s.net + {Answer()},
            trace := s.trace + [Returned(Answer())])
    ensures Step(s, s') && SafeStep(s, s')
  {
    var n, m, c := s.nodes[2], Ask(), Draw(TRIPLE, 2);
    assert Dispatch(n, m, c) == Effect(n, {}, Some(Answer())) && !Overwrites(n, m, c) && !LateStamp(n, m);
    hide Dispatch, Overwrites, LateStamp, Step, SafeStep, Draw;
    s' := Handled(s, m, Effect(n, {}, Some(Answer())));
    hide Unaware;
    assert s.nodes[2 := s.nodes[2]] == s.nodes;
  }

  /** A timestamp that is answered twice is counted as the vote of a member that has staged
      nothing. The write is acknowledged, and a read of that member that begins
      afterwards does not find it, although R + W > n. */
  lemma LostByALateStamp() returns (run: seq<Cluster>)
    ensures |run| == 17 && UnsafeAt(run, 12) && StrictConfig(Last(run).cfg)
    ensures |run[12].nodes| == 3 && LateStamp(run[12].nodes[0], Stamp(1))
    ensures var trace := Last(run).trace;
            && |trace| == 4 && WriteDone(trace[1]) && Precedes(trace, 1, 2) && AnsweredAt(trace, 2, 3)
            && trace[3].answer.timestamp < trace[1].answer.timestamp
    ensures |Last(run).nodes| == 3 && !Keeps(Last(run).nodes[2], 7, KEY, Stamped(1, VALUE))
  {
    hide UnsafeAt, Step, SafeStep, LateStamp;
    run := TrioUnlocks();
    var s := Asked(Last(run), Ask());
    Extended(run, 12, s);
    run := run + [s];
    s := ReadsNothing(s);
    Extended(run, 12, s);
    run := run + [s];
  }
}
