/** One database node as an event-driven state machine (dbnode/dbnode.go).
    Every handler is a function from a node and a message to the node's next
    value and what it sends; class Dbnode.Dbnode implements these functions. */
module Node {
  import opened Packet
  import opened Wrappers
  import opened StagedStore
  import Propagation

  /** A stored value behind its Lamport timestamp, as decodeTimestampVal returns it. */
  datatype Stamped = Stamped(timestamp: nat, value: Value)

  const ABSENT := Stamped(0, [])

  /** Timestamps are unsigned 64 bit numbers. */
  const TIMESTAMPS: nat := 0x1_0000_0000_0000_0000

  function Successor(timestamp: nat): nat { (timestamp + 1) % TIMESTAMPS }

  datatype Config = Config(n: nat, r: nat, w: nat, sloppy: bool)

  datatype Mode = Idle | AssemblingQuorum | CoordinatingWrite | ProcessingWrite | CoordinatingFastRead

  /** exited stands for log.Fatal or a nil map write. */
  datatype Node = Node(
    id: int,
    config: Config,
    mode: Mode,
    currentTxid: int,
    lockRequests: seq<Message>,
    timers: set<Message>,
    clientRequest: Message,
    quorumMembers: Option<map<int, Message>>,
    numWaitingNodes: int,
    uncommittedTxid: int,
    uncommittedKey: Option<Key>,
    unlockTxids: set<int>,
    disabled: bool,
    exited: bool,
    store: Store<Key, Stamped>,
    background: Option<Propagation.Book>)

  /** What a handler does: the new node, the messages sent to nodes (and a
      request passed on), and the answer to a client, if any. */
  datatype Effect = Effect(node: Node, out: set<Message>, reply: Option<Message>)

  /** All that a handler sends. */
  function Messages(e: Effect): set<Message> { e.out + if e.reply.Some? then {e.reply.value} else {} }

  /** What the code leaves to chance or to code outside this model: the quorum
      drawn, the order in which replies are scanned, the elected leader, and
      where the elector forwards a write request. */
  datatype Choice = Choice(peers: set<int>, latest: Stamped, leader: int, target: int)

  function New(id: int, config: Config): Node {
    Node(id, config, Idle, -1, [], {}, ZERO_MESSAGE, None, 0, 0, None, {}, false, false,
         StagedStore.Empty(),
         if config.sloppy then Some(Propagation.NewBook(id, config.n, config.r)) else None)
  }

  function Silent(n: Node): Effect { Effect(n, {}, None) }

  function Exit(n: Node): Effect { Silent(n.(exited := true)) }

  function Lookup(members: Option<map<int, Message>>, q: int): Message {
    if members.Some? && q in members.value then members.value[q] else ZERO_MESSAGE
  }

  function OrAbsent(v: Option<Stamped>): Stamped {
    match v
    case None => ABSENT
    case Some(v) => v
  }

  function Read(n: Node, key: Key): Stamped { OrAbsent(Get(n.store, key)) }

  function Peers(n: Node): set<int>
    requires n.quorumMembers.Some?
  {
    n.quorumMembers.value.Keys - {n.id}
  }

  function Unlocks(n: Node, id: int, ok: bool): set<Message>
    requires n.quorumMembers.Some?
  {
    set q | q in Peers(n) :: Signal(id, n.id, q, UnlockRequest, ok)
  }

  function ToClient(n: Node, kind: Kind, value: Value, timestamp: nat, ok: bool): Message {
    var r := n.clientRequest;
    Message(r.id, n.id, r.src, kind, r.key, value, timestamp, ok)
  }

  function Reset(n: Node): Node {
    n.(mode := Idle, currentTxid := -1, quorumMembers := None, numWaitingNodes := 0)
  }

  // ---------- abortProcessing, assembleQuorum, continueProcessing ----------

  function RolledBack(n: Node): Node {
    if n.uncommittedTxid > 0
    then n.(store := Rollback(n.store, n.uncommittedTxid), uncommittedTxid := 0, uncommittedKey := None)
    else n
  }

  function AbortUnlocks(n: Node): set<Message> {
    if n.quorumMembers.Some? then Unlocks(n, n.clientRequest.id, false) else {}
  }

  function Abort(n: Node): Effect {
    match n.mode
    case AssemblingQuorum | CoordinatingWrite =>
      Effect(Reset(RolledBack(n)), AbortUnlocks(n),
             Some(ToClient(n, ClientWriteResponse, n.clientRequest.value, n.clientRequest.timestamp, false)))
    case ProcessingWrite =>
      Effect(Reset(RolledBack(n)),
             AbortUnlocks(n) + {Signal(n.clientRequest.id, n.id, n.clientRequest.src, UnlockAck, false)}, None)
    case _ => Effect(Reset(RolledBack(n)), AbortUnlocks(n), None)
  }

  function QuorumRequest(n: Node, q: int, kind: Kind): Message {
    var r := n.clientRequest;
    if kind.GetRequest? then Message(r.id, n.id, q, kind, r.key, r.value, 0, true)
    else Signal(r.id, n.id, q, kind, true)
  }

  function Marker(kind: Kind, timestamp: nat): Message { ZERO_MESSAGE.(kind := kind, timestamp := timestamp) }

  function AskedOf(n: Node, peers: set<int>, kind: Kind): map<int, Message> {
    map q | q in peers :: QuorumRequest(n, q, kind)
  }

  function QuorumRequests(n: Node, peers: set<int>, kind: Kind): set<Message> {
    set q | q in peers :: QuorumRequest(n, q, kind)
  }

  /** The coordinator's own entry records its next step. */
  function InitialMembers(n: Node, kind: Kind, peers: set<int>): map<int, Message> {
    var asked := AskedOf(n, peers, kind);
    if kind.LockRequestNoTimeout? then asked[n.id := Marker(TimestampRequest, 0)] else asked
  }

  function AssembleQuorum(n: Node, size: nat, kind: Kind, peers: set<int>): Effect {
    Effect(n.(quorumMembers := Some(InitialMembers(n, kind, peers)), numWaitingNodes := size as int - 1),
           QuorumRequests(n, peers, kind), None)
  }

  /** Some newest value among the local one and the replies; with equal
      timestamps it may be any of them. */
  ghost predicate IsLatest(local: Stamped, replies: map<int, Message>, best: Stamped) {
    && local.timestamp <= best.timestamp
    && (forall q :: q in replies ==> replies[q].timestamp <= best.timestamp)
    && (best == local || exists q :: q in replies && best == Stamped(replies[q].timestamp, replies[q].value))
  }

  /** A choice the code could make: the newest reply once m is counted, and a
      quorum of the size the next queued request needs, without the node itself. */
  ghost predicate ChoiceOk(n: Node, m: Message, c: Choice) {
    n.mode.CoordinatingFastRead? && n.quorumMembers.Some? && m.kind.GetResponse? ==>
      IsLatest(Read(n, n.clientRequest.key), n.quorumMembers.value[m.src := m], c.latest)
  }

  /** The one reply the vote count does not survive: a timestamp answered again by
      a member that has already staged the write. */
  predicate LateStamp(n: Node, m: Message) {
    && m.kind.GetResponse? && m.ok && n.mode.CoordinatingWrite? && n.currentTxid == m.id
    && Lookup(n.quorumMembers, n.id).kind.UnlockRequest? && Lookup(n.quorumMembers, m.src).kind.PutResponse?
  }

  predicate PeersOk(n: Node, c: Choice) {
    n.lockRequests != [] ==>
      && (forall q :: q in c.peers ==> 0 <= q < n.config.n && q != n.id)
      && |c.peers| == (if IsRead(n.lockRequests[0]) then n.config.r else n.config.w) - 1
  }

  function FinishRead(n: Node, latest: Stamped): Effect {
    Effect(Reset(n), {}, Some(ToClient(n, ClientReadResponse, latest.value, latest.timestamp, true)))
  }

  function RequestTimestamps(n: Node): Effect
    requires n.quorumMembers.Some?
  {
    Effect(n.(quorumMembers := Some(n.quorumMembers.value[n.id := Marker(PutRequest, 0)]),
              numWaitingNodes := n.config.w as int - 1),
           set q | q in Peers(n) ::
             Message(n.clientRequest.id, n.id, q, TimestampRequest, n.clientRequest.key, [], 0, true),
           None)
  }

  ghost function MaxOf(s: set<nat>): (m: nat)
    requires s != {}
    ensures m in s && forall x :: x in s ==> x <= m
  {
    var y :| y in s;
    if s == {y} then y else
      var m := MaxOf(s - {y});
      assert s == (s - {y}) + {y};
      if m < y then y else m
  }

  ghost function LatestTimestamp(local: nat, replies: map<int, Message>, peers: set<int>): (t: nat)
    requires peers <= replies.Keys
    ensures local <= t && forall q :: q in peers ==> replies[q].timestamp <= t
    ensures t == local || exists q :: q in peers && replies[q].timestamp == t
  {
    var stamps := {local} + set q | q in peers :: replies[q].timestamp;
    assert forall q :: q in peers ==> replies[q].timestamp in stamps;
    MaxOf(stamps)
  }

  /** The node once it has chosen a timestamp and staged the write. */
  function Staged(n: Node, next: nat): Node
    requires n.quorumMembers.Some?
  {
    var store := Put(n.store, n.clientRequest.key, Stamped(next, n.clientRequest.value));
    n.(store := store, uncommittedTxid := store.txid, uncommittedKey := Some(n.clientRequest.key),
       quorumMembers := Some(n.quorumMembers.value[n.id := Marker(UnlockRequest, next)]),
       numWaitingNodes := n.config.w as int - 1)
  }

  function PutRequestsTo(n: Node, next: nat): set<Message>
    requires n.quorumMembers.Some?
  {
    set q | q in Peers(n) :: Message(n.clientRequest.id, n.id, q, PutRequest, n.clientRequest.key,
        n.clientRequest.value, next, true)
  }

  ghost function StageWrite(n: Node): Effect
    requires n.quorumMembers.Some?
  {
    var r := n.clientRequest;
    var replies := n.quorumMembers.value;
    var next := Successor(LatestTimestamp(Read(n, r.key).timestamp, replies, Peers(n)));
    if r.kind.ClientStrongWriteRequest? && r.timestamp != next then
      Abort(n.(clientRequest := r.(timestamp := next)))
    else
      Effect(Staged(n, next), PutRequestsTo(n, next), None)
  }

  /** In sloppy mode, the write is handed to the propagater. */
  function Announced(n: Node, timestamp: nat): Node
    requires n.quorumMembers.Some?
  {
    var r := n.clientRequest;
    match n.background
    case None => n
    case Some(b) =>
      n.(background := Some(Propagation.Propagate(b, r.id, n.quorumMembers.value.Keys, r.key, r.value, timestamp)))
  }

  /** The write is committed here: the members, the client and the propagater are told. */
  function Concluded(n: Node): Effect
    requires n.quorumMembers.Some?
  {
    var timestamp := Lookup(n.quorumMembers, n.id).timestamp;
    Effect(Reset(Announced(n, timestamp)), Unlocks(n, n.clientRequest.id, true),
           Some(ToClient(n, ClientWriteResponse, n.clientRequest.value, timestamp, true)))
  }

  function CommitWrite(n: Node): Effect
    requires n.quorumMembers.Some?
  {
    if n.uncommittedKey.None? || !CanCommit(n.store, n.uncommittedKey.value, n.uncommittedTxid) then Abort(n)
    else Concluded(n.(store := Commit(n.store, n.uncommittedKey.value, n.uncommittedTxid),
                      uncommittedKey := None, uncommittedTxid := 0))
  }

  ghost function CoordinateWrite(n: Node): Effect {
    match Lookup(n.quorumMembers, n.id).kind
    case TimestampRequest => RequestTimestamps(n)
    case PutRequest => StageWrite(n)
    case UnlockRequest => CommitWrite(n)
    case _ => Silent(n)
  }

  ghost function Continue(n: Node, c: Choice): Effect {
    match n.mode
    case CoordinatingFastRead =>
      if n.quorumMembers.None? then AssembleQuorum(n, n.config.r, GetRequest, c.peers) else FinishRead(n, c.latest)
    case CoordinatingWrite => CoordinateWrite(n)
    case AssemblingQuorum =>
      if n.quorumMembers.None? then AssembleQuorum(n, n.config.w, LockRequestNoTimeout, c.peers)
      else CoordinateWrite(n.(mode := CoordinatingWrite))
    case _ => Silent(n)
  }

  /** Each member's first reply of the awaited kind counts; the last one
      continues the transaction. */
  ghost function CountReply(n: Node, m: Message, c: Choice): Effect {
    if !m.ok then Abort(n)
    else if Lookup(n.quorumMembers, m.src).kind == m.kind then Silent(n)
    else if n.quorumMembers.None? then Exit(n)
    else
      var n1 := n.(quorumMembers := Some(n.quorumMembers.value[m.src := m]), numWaitingNodes := n.numWaitingNodes - 1);
      if n1.numWaitingNodes == 0 then Continue(n1, c) else Silent(n1)
  }

  // ---------- the handlers ----------

  function Enqueue(n: Node, m: Message): Effect {
    Silent(n.(lockRequests := n.lockRequests + [m], timers := n.timers + {m}))
  }

  function HandleClientWrite(n: Node, m: Message, c: Choice): Effect {
    if c.leader == n.id then Enqueue(n, m) else Effect(n, {m.(dest := c.target)}, None)
  }

  function ProcessLocalRead(n: Node, m: Message): Effect {
    if n.uncommittedKey.Some? && |n.uncommittedKey.value| > 0 then Effect(n, {m}, None) else
      var v := Read(n, m.key);
      Effect(n, {}, Some(Message(m.id, n.id, m.src, ClientReadResponse, m.key, v.value, v.timestamp, true)))
  }

  ghost function HandleLockRes(n: Node, m: Message, c: Choice): Effect {
    if n.currentTxid == m.id && n.mode.AssemblingQuorum? then CountReply(n, m, c)
    else if m.ok then Effect(n, {Signal(m.id, n.id, m.src, UnlockRequest, false)}, None)
    else Silent(n)
  }

  function CommitStaged(n: Node, m: Message): Node {
    if n.currentTxid == m.id && n.uncommittedTxid > 0 && m.ok
    then
      var store :=
        if n.uncommittedKey.Some? then Commit(n.store, n.uncommittedKey.value, n.uncommittedTxid) else n.store;
      n.(store := store, uncommittedKey := None, uncommittedTxid := 0)
    else n
  }

  function HandleUnlockReq(n: Node, m: Message): Effect {
    var n1 := CommitStaged(n, m);
    var n2 := if n.currentTxid == m.id then n1.(mode := Idle, currentTxid := -1) else n1;
    Effect(n2.(unlockTxids := n2.unlockTxids + {m.id}), {Signal(m.id, n.id, m.src, UnlockAck, true)}, None)
  }

  function HandleGetReq(n: Node, m: Message): Effect {
    var res := if n.uncommittedKey.None?
               then var v := Read(n, m.key);
                    Message(m.id, n.id, m.src, GetResponse, m.key, v.value, v.timestamp, true)
               else Message(m.id, n.id, m.src, GetResponse, m.key, [], 0, false);
    Effect(n, {res}, None)
  }

  ghost function HandleGetRes(n: Node, m: Message, c: Choice): Effect {
    if n.currentTxid == m.id && (n.mode.CoordinatingWrite? || n.mode.CoordinatingFastRead?)
    then CountReply(n, m, c) else Silent(n)
  }

  function HandlePutReq(n: Node, m: Message): Effect {
    var locked := n.mode.ProcessingWrite? && n.currentTxid == m.id;
    var store := if locked then Put(n.store, m.key, Stamped(m.timestamp, m.value)) else n.store;
    var ok := locked && store.txid > 0;
    var n1 := if locked then n.(store := store, uncommittedTxid := store.txid) else n;
    var n2 := if ok then n1.(uncommittedKey := Some(m.key)) else n1;
    Effect(n2, {Message(m.id, n.id, m.src, PutResponse, m.key, m.value, m.timestamp, ok)}, None)
  }

  ghost function HandlePutRes(n: Node, m: Message, c: Choice): Effect {
    if n.currentTxid == m.id && n.mode.CoordinatingWrite? then CountReply(n, m, c) else Silent(n)
  }

  function HandleTimestampReq(n: Node, m: Message): Effect {
    var timestamp := if n.mode.ProcessingWrite? && n.currentTxid == m.id then Read(n, m.key).timestamp else 0;
    Effect(n, {Message(m.id, n.id, m.src, GetResponse, m.key, [], timestamp, true)}, None)
  }

  /** Two values at one timestamp are a fatal inconsistency. */
  predicate Inconsistent(n: Node, m: Message) {
    m.timestamp == Read(n, m.key).timestamp && m.value != Read(n, m.key).value
  }

  /** Store a value at once, by a Put and a Commit, if it is newer. */
  function Absorb(n: Node, m: Message): Node {
    if m.timestamp <= Read(n, m.key).timestamp then n else
      var store := Put(n.store, m.key, Stamped(m.timestamp, m.value));
      n.(store := Commit(store, m.key, store.txid))
  }

  function HandleBackgroundWriteReq(n: Node, m: Message): Effect {
    var v := Read(n, m.key);
    if Inconsistent(n, m) then Exit(n)
    else if m.timestamp >= v.timestamp then
      Effect(Absorb(n, m),
             {Message(m.id, n.id, m.src, BackgroundWriteResponse, m.key, m.value, m.timestamp, true)}, None)
    else
      Effect(n, {Message(m.id, n.id, m.src, BackgroundWriteResponse, m.key, v.value, v.timestamp, false)}, None)
  }

  function HandleBackgroundWriteRes(n: Node, m: Message): Effect {
    if n.background.None? || Propagation.Conflict(n.background.value, m) then Exit(n) else
      var n1 := n.(background := Some(Propagation.Response(n.background.value, m)));
      if m.ok then Silent(n1) else if Inconsistent(n1, m) then Exit(n1) else Silent(Absorb(n1, m))
  }

  ghost function Dispatch(n: Node, m: Message, c: Choice): Effect {
    match m.kind
    case ClientWriteRequest | ClientStrongWriteRequest => HandleClientWrite(n, m, c)
    case ClientReadRequest => if n.config.r == 1 then ProcessLocalRead(n, m) else Enqueue(n, m)
    case LockRequestNoTimeout => Enqueue(n, m)
    case LockResponse => HandleLockRes(n, m, c)
    case UnlockRequest => HandleUnlockReq(n, m)
    case UnlockAck => Silent(n)
    case GetRequest => HandleGetReq(n, m)
    case GetResponse => HandleGetRes(n, m, c)
    case PutRequest => HandlePutReq(n, m)
    case PutResponse => HandlePutRes(n, m, c)
    case TimestampRequest => HandleTimestampReq(n, m)
    case BackgroundWriteRequest => HandleBackgroundWriteReq(n, m)
    case BackgroundWriteResponse => HandleBackgroundWriteRes(n, m)
    case _ => Exit(n)
  }

  ghost function Start(n: Node, m: Message, c: Choice): Effect {
    var n1 := n.(currentTxid := m.id, clientRequest := m);
    match m.kind
    case ClientReadRequest => Continue(n1.(mode := CoordinatingFastRead), c)
    case ClientWriteRequest | ClientStrongWriteRequest => Continue(n1.(mode := AssemblingQuorum), c)
    case LockRequestNoTimeout =>
      Effect(n1.(mode := ProcessingWrite), {Signal(m.id, n.id, m.src, LockResponse, true)}, None)
    case _ => Exit(n1)
  }

  /** After each message, an idle node takes the oldest request waiting for it,
      unless that transaction was already told to unlock. */
  ghost function TakeNext(n: Node, c: Choice): Effect {
    if !n.mode.Idle? || n.lockRequests == [] then Silent(n) else
      var n1 := n.(lockRequests := n.lockRequests[1..]);
      if n.lockRequests[0].id in n.unlockTxids then Silent(n1) else Start(n1, n.lockRequests[0], c)
  }

  // ---------- the variable that a queued request shares ----------

  /** Whether handling m puts it into the queue. */
  predicate Queues(n: Node, m: Message, c: Choice) {
    || (IsWrite(m) && c.leader == n.id)
    || (IsRead(m) && n.config.r != 1)
    || m.kind.LockRequestNoTimeout?
  }

  /** A request joins the queue of an idle node that has another request waiting. */
  predicate Overwrites(n: Node, m: Message, c: Choice) {
    Queues(n, m, c) && n.mode.Idle? && n.lockRequests != []
  }

  /** The queue holds the address of the variable m was received in, and so does m's
      timer. Taking the head assigns it to that variable: m is gone, and the head is
      both taken and last in the queue. */
  function Overwritten(n: Node): Node
    requires n.lockRequests != []
  {
    n.(lockRequests := n.lockRequests + [n.lockRequests[0]], timers := n.timers + {n.lockRequests[0]})
  }

  /** What a node does after it has handled m, with queue entries as the program keeps them. */
  ghost function TakeNextShared(n: Node, m: Message, c: Choice, d: Choice): Effect {
    if Overwrites(n, m, c) then TakeNext(Overwritten(n), d) else TakeNext(Dispatch(n, m, c).node, d)
  }

  // ---------- timers, failures, background rounds ----------

  function Timeout(n: Node): Effect {
    if n.mode.CoordinatingWrite? || n.mode.AssemblingQuorum? then Abort(n) else Silent(n)
  }

  function Refusal(n: Node, m: Message): Message {
    var kind := if IsRead(m) then ClientReadResponse else if IsWrite(m) then ClientWriteResponse else LockResponse;
    Message(m.id, n.id, m.src, kind, m.key, m.value, 0, false)
  }

  function Without(q: seq<Message>, m: Message): (r: seq<Message>)
    requires m in q
    ensures multiset(r) == multiset(q) - multiset{m}
  {
    assert q == [q[0]] + q[1..];
    if q[0] == m then q[1..] else [q[0]] + Without(q[1..], m)
  }

  /** A request has waited too long: drop it from the queue, or abort it. */
  function RequestTimeout(n: Node, m: Message): Effect {
    if m in n.lockRequests then
      var n1 := n.(lockRequests := Without(n.lockRequests, m));
      if IsClientRequest(m) then Effect(n1, {}, Some(Refusal(n, m))) else Effect(n1, {Refusal(n, m)}, None)
    else if m.id == n.currentTxid && IsClientRequest(m) then Abort(n)
    else Silent(n)
  }

  function Fail(n: Node): Node {
    var n1 := n.(disabled := true);
    if n.mode.CoordinatingWrite? || n.mode.AssemblingQuorum? then n1
    else n1.(mode := Idle, currentTxid := -1, clientRequest := ZERO_MESSAGE, quorumMembers := None)
  }

  function Recover(n: Node): Node { n.(disabled := false) }

  function StreamWrites(n: Node): Effect {
    match n.background
    case None => Silent(n)
    case Some(b) => Effect(n.(background := Some(Propagation.Retire(b))), Propagation.Requests(b), None)
  }
}
