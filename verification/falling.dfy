/** A run of the program in sloppy mode, every step of it safe, at whose end a node that
    has acknowledged a write stores an older one, and no background round will send it
    anything. */
module Falling {
  import opened Packet
  import opened Wrappers
  import opened StagedStore
  import opened Node
  import opened Clusters
  import opened Theorems
  import opened Programs
  import opened Failures
  import Propagation

  // ---------- a write of node 2 and one other node ----------

  datatype Job = Job(id: nat, member: nat, value: Value, next: nat)

  const SEVEN := Job(7, 1, VALUE, 1)
  const EIGHT := Job(8, 0, [5], 2)

  predicate JobFits(j: Job) { j.member < 2 && j.next < TIMESTAMPS }

  function ToWrite(j: Job): Message { Message(j.id, 3, 2, ClientWriteRequest, KEY, j.value, 0, true) }

  function ToLock(j: Job): Message { Signal(j.id, 2, j.member, LockRequestNoTimeout, true) }

  function FromLock(j: Job): Message { Signal(j.id, j.member, 2, LockResponse, true) }

  function ToStamp(j: Job): Message { Message(j.id, 2, j.member, TimestampRequest, KEY, [], 0, true) }

  function FromStamp(j: Job): Message { Message(j.id, j.member, 2, GetResponse, KEY, [], 0, true) }

  function ToPut(j: Job): Message { Message(j.id, 2, j.member, PutRequest, KEY, j.value, j.next, true) }

  function FromPut(j: Job): Message { Message(j.id, j.member, 2, PutResponse, KEY, j.value, j.next, true) }

  function ToCommit(j: Job): Message { Signal(j.id, 2, j.member, UnlockRequest, true) }

  function FromCommit(j: Job): Message { Signal(j.id, j.member, 2, UnlockAck, true) }

  function Reply(j: Job): Message { Message(j.id, 2, 3, ClientWriteResponse, KEY, j.value, j.next, true) }

  /** A node with nothing to do. */
  predicate Free(n: Node, id: int) {
    && n.config == LOOSE && n.id == id && n.mode.Idle? && n.currentTxid == -1 && n.lockRequests == []
    && n.quorumMembers.None? && n.numWaitingNodes == 0 && n.uncommittedTxid == 0 && n.uncommittedKey.None?
    && n.unlockTxids == {} && !n.disabled && n.store.txid >= 0 && n.background.Some?
  }

  // ---------- the coordinator, from one step to the next ----------

  function Two(j: Job, other: Message, mark: Message): Option<map<int, Message>> {
    Some(map[j.member := other, 2 := mark])
  }

  function Gathering(n: Node, j: Job): Node {
    n.(timers := n.timers + {ToWrite(j)}, mode := AssemblingQuorum, currentTxid := j.id, clientRequest := ToWrite(j),
       quorumMembers := Two(j, ToLock(j), Marker(TimestampRequest, 0)), numWaitingNodes := 1)
  }

  function Asking(n: Node, j: Job): Node {
    Gathering(n, j).(mode := CoordinatingWrite, quorumMembers := Two(j, FromLock(j), Marker(PutRequest, 0)))
  }

  /** The store with the write staged. */
  function StagedIn(n: Node, j: Job): Store<Key, Stamped> { Put(n.store, KEY, Stamped(j.next, j.value)) }

  function Sharing(n: Node, j: Job): Node {
    Asking(n, j).(store := StagedIn(n, j), uncommittedTxid := StagedIn(n, j).txid, uncommittedKey := Some(KEY),
                  quorumMembers := Two(j, FromStamp(j), Marker(UnlockRequest, j.next)))
  }

  function Agreed(n: Node, j: Job): Node {
    Sharing(n, j).(numWaitingNodes := 0, quorumMembers := Two(j, FromPut(j), Marker(UnlockRequest, j.next)))
  }

  /** The coordinator once the write is acknowledged, with the write in its book. */
  function Settled(n: Node, j: Job): Node
    requires n.background.Some?
  {
    n.(timers := n.timers + {ToWrite(j)}, clientRequest := ToWrite(j),
       store := Commit(StagedIn(n, j), KEY, StagedIn(n, j).txid),
       background := Some(Propagation.Propagate(n.background.value, j.id, {j.member, 2}, KEY, j.value, j.next)))
  }

  // ---------- the member, from one step to the next ----------

  function Held(n: Node, j: Job): Node {
    n.(timers := n.timers + {ToLock(j)}, mode := ProcessingWrite, currentTxid := j.id, clientRequest := ToLock(j))
  }

  function Holding(n: Node, j: Job): Node {
    Held(n, j).(store := StagedIn(n, j), uncommittedTxid := StagedIn(n, j).txid, uncommittedKey := Some(KEY))
  }

  function Released(n: Node, j: Job): Node {
    n.(mode := Idle, currentTxid := -1, store := Commit(n.store, KEY, n.uncommittedTxid), uncommittedKey := None,
       uncommittedTxid := 0, unlockTxids := n.unlockTxids + {j.id})
  }

  // ---------- what a node does with a message ----------

  /** The message has this effect on the node it is for, and no request is taken afterwards. */
  ghost predicate Plainly(n: Node, m: Message, e: Effect) {
    && Awake(n, m.dest)
    && Dispatch(n, m, Draw(LOOSE, n.id)) == e && !Overwrites(n, m, Draw(LOOSE, n.id)) && !LateStamp(n, m)
    && e.node.id == n.id && e.node.config == n.config && e.node.lockRequests == [] && Repeatable(e.out)
  }

  predicate Awake(n: Node, id: int) { n.config == LOOSE && n.id == id && !n.disabled && !n.mode.CoordinatingFastRead? }

  lemma BeginsFor(n: Node, j: Job, c: Choice)
    requires Free(n, 2) && JobFits(j) && c == Choice({j.member}, ABSENT, 2, 0)
    ensures var m := ToWrite(j);
            && Dispatch(n, m, c) == Silent(n.(lockRequests := [m], timers := n.timers + {m})) && SafelyHandled(n, m, c)
            && TakeNextShared(n, m, c, c) == Effect(Gathering(n, j), {ToLock(j)}, None)
  {
    var m := ToWrite(j);
    assert n.lockRequests + [m] == [m] && [m][1..] == [];
    var n1 := n.(timers := n.timers + {m}, currentTxid := j.id, clientRequest := m, mode := AssemblingQuorum);
    assert QuorumRequest(n1, j.member, LockRequestNoTimeout) == ToLock(j);
    assert AskedOf(n1, c.peers, LockRequestNoTimeout) == map[j.member := ToLock(j)];
    assert QuorumRequests(n1, c.peers, LockRequestNoTimeout) == {ToLock(j)};
    assert InitialMembers(n1, LockRequestNoTimeout, c.peers)
        == map[j.member := ToLock(j), 2 := Marker(TimestampRequest, 0)];
    assert TakeNextShared(n, m, c, c) == AssembleQuorum(n1, 2, LockRequestNoTimeout, c.peers);
  }

  lemma CountsLock(n: Node, j: Job)
    requires Free(n, 2) && JobFits(j)
    ensures Plainly(Gathering(n, j), FromLock(j), Effect(Asking(n, j), {ToStamp(j)}, None))
  {
    var n1 := Gathering(n, j).(mode := CoordinatingWrite, numWaitingNodes := 0,
                               quorumMembers := Two(j, FromLock(j), Marker(TimestampRequest, 0)));
    assert Gathering(n, j).quorumMembers.value[j.member := FromLock(j)] == n1.quorumMembers.value;
    assert Dispatch(Gathering(n, j), FromLock(j), Draw(LOOSE, 2)) == RequestTimestamps(n1);
    assert Peers(n1) == {j.member};
    assert RequestTimestamps(n1).out == {ToStamp(j)};
    assert n1.quorumMembers.value[2 := Marker(PutRequest, 0)] == Asking(n, j).quorumMembers.value;
  }

  function AllAsked(n: Node, j: Job): Node {
    Asking(n, j).(numWaitingNodes := 0, quorumMembers := Two(j, FromStamp(j), Marker(PutRequest, 0)))
  }

  lemma ChoosesNext(n: Node, j: Job)
    requires Free(n, 2) && JobFits(j) && j.next == Read(n, KEY).timestamp + 1
    ensures StageWrite(AllAsked(n, j)) == Effect(Sharing(n, j), {ToPut(j)}, None)
  {
    var n1 := AllAsked(n, j);
    assert Peers(n1) == {j.member} && Read(n1, KEY) == Read(n, KEY);
    assert LatestTimestamp(Read(n1, KEY).timestamp, n1.quorumMembers.value, {j.member}) + 1 == j.next;
    assert PutRequestsTo(n1, j.next) == {ToPut(j)};
    assert n1.quorumMembers.value[2 := Marker(UnlockRequest, j.next)] == Sharing(n, j).quorumMembers.value;
  }

  lemma CountsStamps(n: Node, j: Job)
    requires Free(n, 2) && JobFits(j) && j.next == Read(n, KEY).timestamp + 1
    ensures Plainly(Asking(n, j), FromStamp(j), Effect(Sharing(n, j), {ToPut(j)}, None))
  {
    assert Asking(n, j).quorumMembers.value[j.member := FromStamp(j)] == AllAsked(n, j).quorumMembers.value;
    ChoosesNext(n, j);
    assert Sharing(n, j).id == 2 && Sharing(n, j).config == LOOSE && Sharing(n, j).lockRequests == [];
    hide StageWrite, Sharing, Read, StagedIn;
    assert Dispatch(Asking(n, j), FromStamp(j), Draw(LOOSE, 2)) == StageWrite(AllAsked(n, j));
  }

  lemma Concludes(n: Node, j: Job)
    requires Free(n, 2) && JobFits(j)
    ensures CommitWrite(Agreed(n, j)) == Effect(Settled(n, j), {ToCommit(j)}, Some(Reply(j)))
  {
    var n1 := Agreed(n, j);
    assert Peers(n1) == {j.member} && n1.quorumMembers.value.Keys == {j.member, 2};
    assert Unlocks(n1, j.id, true) == {ToCommit(j)};
  }

  lemma CountsVote(n: Node, j: Job)
    requires Free(n, 2) && JobFits(j)
    ensures Dispatch(Sharing(n, j), FromPut(j), Draw(LOOSE, 2)) == CommitWrite(Agreed(n, j))
    ensures !LateStamp(Sharing(n, j), FromPut(j))
  {
    hide CommitWrite, StagedIn;
    assert Sharing(n, j).quorumMembers.value[j.member := FromPut(j)] == Agreed(n, j).quorumMembers.value;
  }

  lemma CommitsAll(n: Node, j: Job)
    requires Free(n, 2) && JobFits(j)
    ensures Plainly(Sharing(n, j), FromPut(j), Effect(Settled(n, j), {ToCommit(j)}, Some(Reply(j))))
  {
    CountsVote(n, j);
    Concludes(n, j);
    hide CommitWrite, Dispatch, Agreed, StagedIn, LateStamp, Propagation.Propagate;
  }

  lemma LocksFor(n: Node, j: Job, c: Choice)
    requires Free(n, j.member)
    ensures var m := ToLock(j);
            && Dispatch(n, m, c) == Silent(n.(lockRequests := [m], timers := n.timers + {m})) && SafelyHandled(n, m, c)
            && TakeNextShared(n, m, c, c) == Effect(Held(n, j), {FromLock(j)}, None)
  {
    assert n.lockRequests + [ToLock(j)] == [ToLock(j)] && [ToLock(j)][1..] == [];
  }

  lemma TellsStamp(n: Node, j: Job)
    requires Free(n, j.member) && Read(n, KEY).timestamp == 0
    ensures Plainly(Held(n, j), ToStamp(j), Effect(Held(n, j), {FromStamp(j)}, None))
  {}

  lemma StagesFor(n: Node, j: Job)
    requires Free(n, j.member)
    ensures Plainly(Held(n, j), ToPut(j), Effect(Holding(n, j), {FromPut(j)}, None))
  {}

  lemma ObeysOrder(n: Node, j: Job)
    requires Awake(n, j.member) && n.mode.ProcessingWrite? && n.currentTxid == j.id
    requires n.uncommittedTxid > 0 && n.uncommittedKey == Some(KEY) && n.lockRequests == []
    ensures Plainly(n, ToCommit(j), Effect(Released(n, j), {FromCommit(j)}, None))
  {}

  // ---------- runs, built step by step ----------

  ghost predicate AllSafe(run: seq<Cluster>) {
    IsProgramRun(run) && forall i :: 0 <= i < |run| - 1 ==> SafeStep(run[i], run[i + 1])
  }

  lemma Extend(run: seq<Cluster>, s': Cluster)
    requires AllSafe(run) && Step(Last(run), s') && SafeStep(Last(run), s')
    ensures AllSafe(run + [s']) && Last(run + [s']) == s'
  {
    hide Step, SafeStep, Clusters.Init;
    var longer := run + [s'];
    forall i | 0 <= i < |longer| - 1 ensures Step(longer[i], longer[i + 1]) && SafeStep(longer[i], longer[i + 1]) {
      if i < |run| - 1 { assert Step(run[i], run[i + 1]) && SafeStep(run[i], run[i + 1]); }
    }
  }

  predicate Room(s: Cluster) { s.cfg == LOOSE && |s.nodes| == 3 && |s.trace| + 1 < TIMESTAMPS }

  lemma Delivers(run: seq<Cluster>, m: Message, e: Effect) returns (r: seq<Cluster>)
    requires AllSafe(run) && Room(Last(run)) && Available(Last(run), m)
    requires Plainly(Last(run).nodes[m.dest], m, e)
    ensures AllSafe(r) && |r| == |run| + 1 && run <= r
    ensures var s := Last(run);
            Last(r) == Consume(s, m).(nodes := s.nodes[m.dest := e.node], net := s.net + Messages(e),
                                      trace := s.trace + Answers(e))
  {
    hide Dispatch, Overwrites, LateStamp, Step, SafeStep, Draw, Repeatable;
    var s := Handled(Last(run), m, e);
    Extend(run, s);
    r := run + [s];
    hide AllSafe;
  }

  /** A round of node 2's propagater that leaves its book as it is. */
  lemma Streams(run: seq<Cluster>) returns (r: seq<Cluster>)
    requires AllSafe(run) && Room(Last(run))
    requires var n := Last(run).nodes[2];
             StreamWrites(n).node == n && StreamWrites(n).reply == None && Repeatable(StreamWrites(n).out)
    ensures AllSafe(r) && |r| == |run| + 1 && run <= r
    ensures Last(r) == Last(run).(net := Last(run).net + StreamWrites(Last(run).nodes[2]).out)
  {
    var s := Last(run);
    var e := StreamWrites(s.nodes[2]);
    PlainSent(e);
    var s' := Apply(s, 2, e);
    hide StreamWrites, Repeatable;
    assert s.nodes[2 := s.nodes[2]] == s.nodes && s.trace + [] == s.trace && s.once + multiset({}) == s.once;
    assert Clusters.Propagate(s, s', 2);
    hide AllSafe, Apply;
    Extend(run, s');
    r := run + [s'];
  }

  // ---------- a whole write ----------

  function Nodes(s: Cluster, j: Job, n: Node, b: Node): seq<Node>
    requires |s.nodes| == 3 && JobFits(j)
  {
    s.nodes[2 := n][j.member := b]
  }

  lemma NodesSet(s: Cluster, j: Job, n: Node, b: Node, n': Node, b': Node)
    requires |s.nodes| == 3 && JobFits(j)
    ensures Nodes(s, j, n, b)[2] == n && Nodes(s, j, n, b)[j.member] == b && |Nodes(s, j, n, b)| == 3
    ensures Nodes(s, j, n, b)[2 := n'] == Nodes(s, j, n', b) && Nodes(s, j, n, b)[j.member := b'] == Nodes(s, j, n, b')
    ensures Nodes(s, j, s.nodes[2], s.nodes[j.member]) == s.nodes
  {}

  /** Nodes 2 and j.member are free, and nothing is in flight that is delivered only once. */
  predicate Open(s: Cluster, j: Job) {
    && Room(s) && JobFits(j) && |s.trace| + 3 < TIMESTAMPS && s.once == multiset{} && NewId(s, j.id)
    && Free(s.nodes[2], 2) && Free(s.nodes[j.member], j.member)
    && j.next == Read(s.nodes[2], KEY).timestamp + 1 && Read(s.nodes[j.member], KEY).timestamp == 0
  }

  lemma DrawsMember(n: Node, j: Job)
    requires n.config == LOOSE && n.id == 2 && JobFits(j)
    ensures PeersOk(n.(lockRequests := [ToWrite(j)]), Choice({j.member}, ABSENT, 2, 0))
  {}

  lemma CallConsumed(s: Cluster, j: Job)
    requires s.once == multiset{ToWrite(j)}
    ensures Consume(s, ToWrite(j)) == s.(once := multiset{})
  {}

  lemma Starts(s: Cluster, j: Job) returns (s': Cluster)
    requires Room(s) && JobFits(j) && Free(s.nodes[2], 2) && s.once == multiset{ToWrite(j)}
    ensures s' == s.(nodes := s.nodes[2 := Gathering(s.nodes[2], j)], once := multiset{}, net := s.net + {ToLock(j)})
    ensures Step(s, s') && SafeStep(s, s')
  {
    var n, m, c := s.nodes[2], ToWrite(j), Choice({j.member}, ABSENT, 2, 0);
    hide Dispatch, TakeNextShared, SafelyHandled, Step, SafeStep, PeersOk, Gathering, Consume;
    var e, f := Silent(n.(lockRequests := [m], timers := n.timers + {m})), Effect(Gathering(n, j), {ToLock(j)}, None);
    BeginsFor(n, j, c);
    DrawsMember(e.node, j);
    CallConsumed(s, j);
    assert Once(f.out) == {};
    hide Free, Once;
    s' := Taken(s, m, c, e, f);
    assert s.net + {} + ({ToLock(j)} - {}) == s.net + {ToLock(j)} && s.trace + [] == s.trace;
  }

  lemma Grants(s: Cluster, j: Job) returns (s': Cluster)
    requires Room(s) && JobFits(j) && Free(s.nodes[j.member], j.member) && ToLock(j) in s.net
    ensures s' == s.(nodes := s.nodes[j.member := Held(s.nodes[j.member], j)], once := s.once + multiset{FromLock(j)})
    ensures Step(s, s') && SafeStep(s, s')
  {
    var n, m := s.nodes[j.member], ToLock(j);
    LocksFor(n, j, Draw(LOOSE, j.member));
    assert m.dest == j.member && Consume(s, m) == s;
    hide Dispatch, TakeNextShared, SafelyHandled, Step, SafeStep, Draw, Held, Consume;
    s' := TakenGranting(s, m, n.(lockRequests := [m], timers := n.timers + {m}),
                        Effect(Held(n, j), {FromLock(j)}, None), FromLock(j));
  }

  /** The write is asked for, and its member is locked. */
  lemma LockedRun(run: seq<Cluster>, j: Job) returns (r: seq<Cluster>)
    requires AllSafe(run) && Open(Last(run), j)
    ensures AllSafe(r) && |r| == |run| + 3
    ensures var s := Last(run);
            && Last(r).nodes == Nodes(s, j, Gathering(s.nodes[2], j), Held(s.nodes[j.member], j))
            && Last(r).cfg == s.cfg && Last(r).once == multiset{FromLock(j)} && s.net <= Last(r).net
            && Last(r).trace == s.trace + [Invoked(ToWrite(j))]
  {
    var s := Last(run);
    hide AllSafe, Step, SafeStep, Gathering, Held, Read, NewId;
    var s1 := Asked(s, ToWrite(j));
    Extend(run, s1);
    r := run + [s1];
    var s2 := Starts(s1, j);
    Extend(r, s2);
    r := r + [s2];
    var s3 := Grants(s2, j);
    Extend(r, s3);
    r := r + [s3];
    NodesSet(s, j, s.nodes[2], s.nodes[j.member], Gathering(s.nodes[2], j), s.nodes[j.member]);
  }

  /** The member's lock is counted. */
  lemma AskingRun(run: seq<Cluster>, j: Job) returns (r: seq<Cluster>)
    requires AllSafe(run) && Open(Last(run), j)
    ensures AllSafe(r) && |r| == |run| + 4
    ensures var s := Last(run);
            && Last(r).nodes == Nodes(s, j, Asking(s.nodes[2], j), Held(s.nodes[j.member], j))
            && Last(r).cfg == s.cfg && Last(r).once == multiset{} && s.net + {ToStamp(j)} <= Last(r).net
            && Last(r).trace == s.trace + [Invoked(ToWrite(j))]
  {
    var s := Last(run);
    var n, b := s.nodes[2], s.nodes[j.member];
    hide AllSafe, Gathering, Asking, Held, Read, NewId, Plainly, Nodes, Free;
    CountsLock(n, j);
    NodesSet(s, j, Gathering(n, j), Held(b, j), Asking(n, j), Held(b, j));
    r := LockedRun(run, j);
    r := Delivers(r, FromLock(j), Effect(Asking(n, j), {ToStamp(j)}, None));
  }

  /** The member's timestamp is counted, and the write staged by the coordinator. */
  lemma StampedRun(run: seq<Cluster>, j: Job) returns (r: seq<Cluster>)
    requires AllSafe(run) && Open(Last(run), j)
    ensures AllSafe(r) && |r| == |run| + 6
    ensures var s := Last(run);
            && Last(r).nodes == Nodes(s, j, Sharing(s.nodes[2], j), Held(s.nodes[j.member], j))
            && Last(r).cfg == s.cfg && Last(r).once == multiset{} && s.net + {ToPut(j)} <= Last(r).net
            && Last(r).trace == s.trace + [Invoked(ToWrite(j))]
  {
    var s := Last(run);
    var n, b := s.nodes[2], s.nodes[j.member];
    hide AllSafe, Asking, Sharing, Held, Read, NewId, Plainly, Nodes, Free;
    TellsStamp(b, j);
    CountsStamps(n, j);
    NodesSet(s, j, Asking(n, j), Held(b, j), Sharing(n, j), Held(b, j));
    r := AskingRun(run, j);
    r := Delivers(r, ToStamp(j), Effect(Held(b, j), {FromStamp(j)}, None));
    r := Delivers(r, FromStamp(j), Effect(Sharing(n, j), {ToPut(j)}, None));
  }

  /** The member stages the write. */
  lemma HeldRun(run: seq<Cluster>, j: Job) returns (r: seq<Cluster>)
    requires AllSafe(run) && Open(Last(run), j)
    ensures AllSafe(r) && |r| == |run| + 7
    ensures var s := Last(run);
            && Last(r).nodes == Nodes(s, j, Sharing(s.nodes[2], j), Holding(s.nodes[j.member], j))
            && Last(r).cfg == s.cfg && Last(r).once == multiset{} && s.net + {FromPut(j)} <= Last(r).net
            && Last(r).trace == s.trace + [Invoked(ToWrite(j))]
  {
    var s := Last(run);
    var n, b := s.nodes[2], s.nodes[j.member];
    hide AllSafe, Sharing, Held, Holding, Read, NewId, Plainly, Nodes, Free;
    StagesFor(b, j);
    NodesSet(s, j, Sharing(n, j), Held(b, j), Sharing(n, j), Holding(b, j));
    r := StampedRun(run, j);
    r := Delivers(r, ToPut(j), Effect(Holding(b, j), {FromPut(j)}, None));
  }

  /** The coordinator counts its vote and acknowledges the write. */
  lemma WrittenRun(run: seq<Cluster>, j: Job) returns (r: seq<Cluster>)
    requires AllSafe(run) && Open(Last(run), j)
    ensures AllSafe(r) && |r| == |run| + 8
    ensures var s := Last(run);
            && Last(r).nodes == Nodes(s, j, Settled(s.nodes[2], j), Holding(s.nodes[j.member], j))
            && Last(r).cfg == s.cfg && Last(r).once == multiset{} && s.net + {ToCommit(j)} <= Last(r).net
            && Last(r).trace == s.trace + [Invoked(ToWrite(j)), Returned(Reply(j))]
  {
    var s := Last(run);
    var n, b := s.nodes[2], s.nodes[j.member];
    hide AllSafe, Sharing, Holding, Settled, Read, NewId, Plainly, Nodes, Free;
    CommitsAll(n, j);
    NodesSet(s, j, Sharing(n, j), Holding(b, j), Settled(n, j), Holding(b, j));
    r := HeldRun(run, j);
    r := Delivers(r, FromPut(j), Effect(Settled(n, j), {ToCommit(j)}, Some(Reply(j))));
    assert [Invoked(ToWrite(j))] + [Returned(Reply(j))] == [Invoked(ToWrite(j)), Returned(Reply(j))];
  }

  // ---------- the propagater gives a write up, and its last node falls behind ----------

  function ToSync(): Message { Message(8, 2, 1, BackgroundWriteRequest, KEY, [5], 2, true) }

  function FromSync(): Message { Message(8, 1, 2, BackgroundWriteResponse, KEY, [5], 2, true) }

  function ToRead(): Message { Message(9, 3, 1, ClientReadRequest, KEY, [], 0, true) }

  function FromRead(): Message { Message(9, 1, 3, ClientReadResponse, KEY, VALUE, 1, true) }

  function Writer(): Node { Settled(Settled(New(2, LOOSE), SEVEN), EIGHT) }

  /** The coordinator once node 1 has confirmed write 8: three nodes have. */
  function Relieved(): Node {
    Writer().(background := Some(Propagation.Response(Writer().background.value, FromSync())))
  }

  function Late(): Node { Holding(New(1, LOOSE), SEVEN) }

  function Synced(): Node { Absorb(Late(), ToSync()) }

  function Fallen(): Node { Released(Synced(), SEVEN) }

  function Done8(): Node { Released(Holding(New(0, LOOSE), EIGHT), EIGHT) }

  predicate Resting(n: Node) { n.mode.Idle? && !n.disabled && n.uncommittedKey.None? && n.lockRequests == [] }

  lemma BookOfTwo()
    ensures Writer().background.Some?
    ensures var b := Writer().background.value;
            && b.criticalSize == 3 && b.n == 3 && b.id == 2
            && b.transactions == map[7 := Propagation.Transaction(KEY, VALUE, 1, 2, {1, 2}),
                                     8 := Propagation.Transaction(KEY, [5], 2, 2, {0, 2})]
  {
    assert |{1, 2}| == 2 && |{0, 2}| == 2;
  }

  lemma RoundOf(b: Propagation.Book)
    requires forall id :: id in b.transactions ==> Propagation.Outstanding(b, id)
    ensures Propagation.Retire(b) == b
  {
    assert Propagation.Retire(b).transactions == b.transactions;
  }

  lemma AsksNodeOne()
    ensures StreamWrites(Writer()).node == Writer() && ToSync() in StreamWrites(Writer()).out
    ensures Repeatable(StreamWrites(Writer()).out) && StreamWrites(Writer()).reply == None
  {
    BookOfTwo();
    var b := Writer().background.value;
    hide Writer;
    RoundOf(b);
    assert Propagation.WriteRequest(b, 8, 1) == ToSync();
  }

  lemma Syncs()
    ensures Plainly(Late(), ToSync(), Effect(Synced(), {FromSync()}, None))
    ensures Read(Synced(), KEY).timestamp == 2
  {}

  lemma GivesUp()
    ensures Plainly(Writer(), FromSync(), Silent(Relieved())) && Resting(Relieved())
    ensures forall m :: m in StreamWrites(Relieved()).out ==> m.dest == 0
  {
    BookOfTwo();
    assert Awake(Writer(), 2) && Resting(Writer());
    hide Writer;
    assert {0, 2} + {1} == {0, 1, 2};
  }

  lemma Falls8()
    ensures Plainly(Synced(), ToCommit(SEVEN), Effect(Fallen(), {FromCommit(SEVEN)}, None))
    ensures Read(Fallen(), KEY) == Stamped(1, VALUE) && Fallen().mode.Idle? && Fallen().uncommittedKey.None?
  {}

  lemma ReadsOld()
    ensures Plainly(Fallen(), ToRead(), Effect(Fallen(), {}, Some(FromRead())))
  {}

  // ---------- the run ----------

  lemma Opens()
    ensures Open(Initial(LOOSE), SEVEN)
    ensures var n := Settled(New(2, LOOSE), SEVEN); Free(n, 2) && Read(n, KEY).timestamp == 1
    ensures Free(New(0, LOOSE), 0) && Read(New(0, LOOSE), KEY).timestamp == 0
  {}

  function FirstNode(): Node { Holding(New(0, LOOSE), EIGHT) }

  function BothAcked(): seq<Event> {
    [Invoked(ToWrite(SEVEN)), Returned(Reply(SEVEN)), Invoked(ToWrite(EIGHT)), Returned(Reply(EIGHT))]
  }

  /** Two writes of one key are acknowledged, and the member of the first is still locked. */
  lemma TwoWrites() returns (r: seq<Cluster>)
    ensures AllSafe(r) && |r| == 17 && Room(Last(r)) && Last(r).once == multiset{} && ToCommit(SEVEN) in Last(r).net
    ensures Last(r).nodes == [FirstNode(), Late(), Writer()] && ToCommit(EIGHT) in Last(r).net
    ensures Last(r).trace == BothAcked()
  {
    Opens();
    hide SafeStep, Step, Holding, Settled, Free, Read;
    r := [Initial(LOOSE)];
    r := WrittenRun(r, SEVEN);
    hide AllSafe;
    r := WrittenRun(r, EIGHT);
  }

  ghost predicate Stands(run: seq<Cluster>, nodes: seq<Node>) {
    && AllSafe(run) && Room(Last(run)) && Last(run).once == multiset{} && Last(run).trace == BothAcked()
    && Last(run).nodes == nodes
  }

  lemma Tells(run: seq<Cluster>, nodes: seq<Node>, m: Message, e: Effect) returns (r: seq<Cluster>)
    requires Stands(run, nodes) && |nodes| == 3 && 0 <= m.dest < 3 && m in Last(run).net && !OneShot(m)
    requires Plainly(nodes[m.dest], m, e) && e.reply == None
    ensures |r| == |run| + 1 && run <= r && Stands(r, nodes[m.dest := e.node]) && Last(r).net == Last(run).net + e.out
  {
    hide AllSafe, Plainly, Awake;
    r := Delivers(run, m, e);
    assert BothAcked() + [] == BothAcked();
  }

  /** Node 1 acknowledges the second write. */
  lemma SyncedRun() returns (r: seq<Cluster>)
    ensures |r| == 19 && Stands(r, [FirstNode(), Synced(), Writer()])
    ensures {ToCommit(SEVEN), ToCommit(EIGHT), FromSync()} <= Last(r).net
  {
    hide AllSafe, Plainly, Holding, Synced, Writer, Late, StreamWrites, Repeatable, Read;
    AsksNodeOne();
    Syncs();
    r := TwoWrites();
    r := Streams(r);
    assert Stands(r, [FirstNode(), Late(), Writer()]);
    hide FirstNode, BothAcked, Stands;
    r := Tells(r, [FirstNode(), Late(), Writer()], ToSync(), Effect(Synced(), {FromSync()}, None));
  }

  lemma LastEffects()
    ensures Plainly(Writer(), FromSync(), Silent(Relieved()))
    ensures Plainly(Synced(), ToCommit(SEVEN), Effect(Fallen(), {FromCommit(SEVEN)}, None))
    ensures Plainly(FirstNode(), ToCommit(EIGHT), Effect(Done8(), {FromCommit(EIGHT)}, None))
  {
    GivesUp();
    Falls8();
    ObeysOrder(FirstNode(), EIGHT);
    hide Plainly, StreamWrites, Relieved, Fallen;
  }

  /** The propagater that has waited for it gives the write up, and the orders to commit arrive. */
  lemma OrdersRun(run: seq<Cluster>) returns (r: seq<Cluster>)
    requires |run| == 19 && Stands(run, [FirstNode(), Synced(), Writer()])
    requires {ToCommit(SEVEN), ToCommit(EIGHT), FromSync()} <= Last(run).net
    ensures |r| == 22 && run <= r && Last(run).net <= Last(r).net && Stands(r, [Done8(), Fallen(), Relieved()])
  {
    LastEffects();
    hide Stands, Plainly, FirstNode, Synced, Relieved, Fallen, Done8, Writer, Read, StreamWrites;
    var a, b, c := FirstNode(), Synced(), Writer();
    assert [a, b, c][2 := Relieved()] == [a, b, Relieved()];
    assert [a, b, Relieved()][1 := Fallen()] == [a, Fallen(), Relieved()];
    assert [a, Fallen(), Relieved()][0 := Done8()] == [Done8(), Fallen(), Relieved()];
    r := Tells(run, [FirstNode(), Synced(), Writer()], FromSync(), Silent(Relieved()));
    r := Tells(r, [FirstNode(), Synced(), Relieved()], ToCommit(SEVEN), Effect(Fallen(), {FromCommit(SEVEN)}, None));
    r := Tells(r, [FirstNode(), Fallen(), Relieved()], ToCommit(EIGHT), Effect(Done8(), {FromCommit(EIGHT)}, None));
  }

  // ---------- and its clients still read the first write ----------

  lemma NineIsNew(s: Cluster)
    requires s.trace == BothAcked()
    ensures NewId(s, 9)
  {}

  lemma ReadRun(run: seq<Cluster>) returns (r: seq<Cluster>)
    requires |run| > 0 && Stands(run, [Done8(), Fallen(), Relieved()])
    ensures AllSafe(r) && |r| == |run| + 2 && run <= r && Last(r).nodes == [Done8(), Fallen(), Relieved()]
    ensures Last(run).net <= Last(r).net && Last(r).trace == BothAcked() + [Invoked(ToRead()), Returned(FromRead())]
  {
    hide AllSafe, Step, SafeStep, Plainly, Fallen, Relieved, Done8, NewId;
    ReadsOld();
    NineIsNew(Last(run));
    var s := Asked(Last(run), ToRead());
    Extend(run, s);
    r := run + [s];
    hide BothAcked;
    r := Delivers(r, ToRead(), Effect(Fallen(), {}, Some(FromRead())));
    assert BothAcked() + [Invoked(ToRead())] + [Returned(FromRead())]
        == BothAcked() + [Invoked(ToRead()), Returned(FromRead())];
  }

  lemma LastNodes()
    ensures Resting(Done8()) && Resting(Fallen()) && Resting(Relieved())
    ensures Read(Synced(), KEY).timestamp == 2 && Read(Fallen(), KEY).timestamp == 1
    ensures StreamWrites(Done8()).out == {} && StreamWrites(Fallen()).out == {}
    ensures forall m :: m in StreamWrites(Relieved()).out ==> m.dest == 0
  {
    Syncs();
    Falls8();
    GivesUp();
    hide Relieved, Plainly;
  }

  /** In sloppy mode, with every step safe: node 1 has acknowledged write 8 and stored its
      timestamp, and the propagater has given the write up. The node then commits write 7,
      answers the older value to a read that begins afterwards, and no round of any node
      sends it anything. */
  lemma OlderForGood() returns (run: seq<Cluster>)
    ensures AllSafe(run) && |run| == 24 && |run[18].nodes| == |Last(run).nodes| == 3
    ensures FromSync() in Last(run).net
    ensures Read(run[18].nodes[1], KEY).timestamp == 2 && Read(Last(run).nodes[1], KEY).timestamp == 1
    ensures forall q :: 0 <= q < 3 ==> Resting(Last(run).nodes[q])
    ensures forall q, m :: 0 <= q < 3 && m in StreamWrites(Last(run).nodes[q]).out ==> m.dest != 1
    ensures var trace := Last(run).trace;
            && |trace| == 6 && WriteDone(trace[3]) && Precedes(trace, 3, 4) && AnsweredAt(trace, 4, 5)
            && trace[5].answer.timestamp < trace[3].answer.timestamp
  {
    run := SyncedRun();
    LastNodes();
    hide AllSafe, Plainly, FirstNode, Synced, Writer, Read, StreamWrites;
    run := OrdersRun(run);
    run := ReadRun(run);
  }
}
