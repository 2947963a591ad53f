/** What can still succeed: from every state of every run a write can be driven through all
    its phases with any quorum, and a read with any members that have nothing staged. */
module Progress {
  import opened Packet
  import opened Wrappers
  import opened Sets
  import opened Node
  import opened Ledgers
  import opened Invariants
  import opened Handlers
  import opened Coordination
  import opened Clusters
  import opened Runs
  import opened Theorems
  import opened Locking
  import opened FailedWrites
  import opened Calming
  import OwnWrites
  import StagedStore
  import Propagation

  // ---------- one step ----------

  const ANY := Choice({}, ABSENT, 0, 0)

  /** Node p has become n, and this has been sent and seen by clients. */
  ghost predicate Acted(s: Cluster, s': Cluster, p: int, n: Node, out: set<Message>, events: seq<Event>) {
    && 0 <= p < |s.nodes| && s'.nodes == s.nodes[p := n] && s'.cfg == s.cfg
    && s.net <= s'.net && s'.trace == s.trace + events
    && forall x :: x in out ==> if OneShot(x) then x in s'.once else x in s'.net
  }

  lemma OneEffect(s: Cluster, p: int, e: Effect)
    requires 0 <= p < |s.nodes|
    ensures Acted(s, Apply(s, p, e), p, e.node, e.out, Answers(e))
  {
    forall x | x in e.out && OneShot(x) ensures x in Apply(s, p, e).once { assert x in Once(e.out); }
  }

  lemma SecondEffect(s: Cluster, s1: Cluster, p: int, e: Effect, f: Effect, out: set<Message>)
    requires 0 <= p < |s.nodes| && s1 == s.(once := s1.once) && Answers(f) == []
    requires out == e.out + f.out
    ensures Acted(s, Apply(Apply(s1, p, e), p, f), p, f.node, out, Answers(e))
  {
    OneEffect(s1, p, e);
    OneEffect(Apply(s1, p, e), p, f);
    var s2, s3 := Apply(s1, p, e), Apply(Apply(s1, p, e), p, f);
    assert forall x :: x in s2.once ==> x in s3.once;
    hide Answers, Apply;
  }

  /** A node handles a message and then takes its next request. */
  lemma Acts(run: seq<Cluster>, m: Message, c: Choice, d: Choice, e: Effect, f: Effect)
    returns (more: seq<Cluster>)
    requires |run| > 0 && IsRun(run) && |Last(run).trace| + 1 < TIMESTAMPS && Available(Last(run), m)
    requires var n := Last(run).nodes[m.dest];
             && !n.disabled && !LateStamp(n, m) && ChoiceOk(n, m, c)
             && e == Dispatch(n, m, c) && PeersOk(e.node, d) && f == TakeNext(e.node, d)
    requires Answers(f) == []
    ensures Leads(run, more) && Acted(Last(run), Last(more), m.dest, f.node, e.out + f.out, Answers(e))
  {
    hide IsRun, Dispatch, TakeNext, LateStamp, ChoiceOk, PeersOk, Answers, Acted, Apply;
    more := Handled(run, m, c, d, e, f);
    SecondEffect(Last(run), Consume(Last(run), m), m.dest, e, f, e.out + f.out);
  }

  /** A node handles a message and takes no request after it. */
  lemma ActsAlone(run: seq<Cluster>, m: Message, c: Choice, e: Effect) returns (more: seq<Cluster>)
    requires |run| > 0 && IsRun(run) && |Last(run).trace| + 1 < TIMESTAMPS && Available(Last(run), m)
    requires var n := Last(run).nodes[m.dest];
             !n.disabled && !LateStamp(n, m) && ChoiceOk(n, m, c) && e == Dispatch(n, m, c)
    requires e.node.lockRequests == []
    ensures Leads(run, more) && Acted(Last(run), Last(more), m.dest, e.node, e.out, Answers(e))
  {
    hide IsRun, Dispatch, LateStamp, ChoiceOk, Answers, Acted;
    TakesNothingNow(e.node, ANY);
    NoAnswer(e.node);
    hide TakeNext;
    assert e.out + {} == e.out;
    more := Acts(run, m, c, ANY, e, Silent(e.node));
  }

  lemma NoAnswer(n: Node)
    ensures Answers(Silent(n)) == []
  {}

  // ---------- the phases of a write ----------

  /** The write m is at its coordinator, and its members are Q; no other node is busy. */
  ghost predicate Setting(s: Cluster, m: Message, Q: set<int>) {
    && 0 <= m.dest < |s.nodes| && InRange(Q, |s.nodes|) && m.dest !in Q && Q != {} && |Q| == s.cfg.w - 1
    && IsWrite(m) && m.key != [] && m.src == s.cfg.n
    && forall q :: 0 <= q < |s.nodes| && q != m.dest && q !in Q ==> Free(s.nodes[q])
  }

  /** The coordinator has replies of this kind from A, and waits for those of the others in Q. */
  ghost predicate Collects(n: Node, m: Message, Q: set<int>, A: set<int>, kind: Kind, own: Message) {
    && n.currentTxid == m.id && n.clientRequest == m && n.id == m.dest && !n.disabled && n.lockRequests == []
    && n.quorumMembers.Some? && n.quorumMembers.value.Keys == Q + {m.dest} && n.quorumMembers.value[m.dest] == own
    && A <= Q && n.numWaitingNodes == |Q - A|
    && forall q :: q in Q ==> (n.quorumMembers.value[q].kind == kind <==> q in A)
  }

  predicate Held(n: Node, t: int) { Locked(n, t) && !n.disabled && n.lockRequests == [] }

  ghost predicate Stages(n: Node, m: Message, next: nat) { HasStaged(n, m.key, Stamped(next, m.value)) }

  function LockOf(m: Message, q: int): Message { Signal(m.id, m.dest, q, LockRequestNoTimeout, true) }

  function StampOf(m: Message, q: int): Message { Message(m.id, m.dest, q, TimestampRequest, m.key, [], 0, true) }

  function PutOf(m: Message, q: int, next: nat): Message {
    Message(m.id, m.dest, q, PutRequest, m.key, m.value, next, true)
  }

  function CommitOf(m: Message, q: int): Message { Signal(m.id, m.dest, q, UnlockRequest, true) }

  ghost predicate Locks(s: Cluster, m: Message, Q: set<int>, A: set<int>) {
    && Setting(s, m, Q) && Q - A != {} && s.nodes[m.dest].mode.AssemblingQuorum?
    && Collects(s.nodes[m.dest], m, Q, A, LockResponse, Marker(TimestampRequest, 0))
    && (forall q :: q in A ==> Held(s.nodes[q], m.id))
    && (forall q :: q in Q - A ==>
          Free(s.nodes[q]) && m.id !in s.nodes[q].unlockTxids && LockOf(m, q) in s.net)
  }

  ghost predicate Stamps(s: Cluster, m: Message, Q: set<int>, A: set<int>) {
    && Setting(s, m, Q) && Q - A != {} && s.nodes[m.dest].mode.CoordinatingWrite?
    && Collects(s.nodes[m.dest], m, Q, A, GetResponse, Marker(PutRequest, 0))
    && (forall q :: q in Q ==> Held(s.nodes[q], m.id) && StampOf(m, q) in s.net)
  }

  ghost predicate Puts(s: Cluster, m: Message, Q: set<int>, A: set<int>, next: nat) {
    && Setting(s, m, Q) && Q - A != {} && s.nodes[m.dest].mode.CoordinatingWrite?
    && Collects(s.nodes[m.dest], m, Q, A, PutResponse, Marker(UnlockRequest, next))
    && Stages(s.nodes[m.dest], m, next)
    && (forall q :: q in A ==> Stages(s.nodes[q], m, next))
    && (forall q :: q in Q ==> Held(s.nodes[q], m.id) && PutOf(m, q, next) in s.net)
  }

  /** What a node has once it has committed the write: nothing is left staged. */
  predicate Stored(n: Node, m: Message, next: nat) {
    Free(n) && n.uncommittedKey.None? && Read(n, m.key) == Stamped(next, m.value)
  }

  ghost predicate Commits(s: Cluster, m: Message, Q: set<int>, A: set<int>, next: nat) {
    && Setting(s, m, Q) && A <= Q && Stored(s.nodes[m.dest], m, next)
    && (forall q :: q in A ==> Stored(s.nodes[q], m, next))
    && (forall q :: q in Q - A ==>
          Held(s.nodes[q], m.id) && Stages(s.nodes[q], m, next) && CommitOf(m, q) in s.net)
  }

  // ---------- counting replies ----------

  lemma Fewer(Q: set<int>, A: set<int>, q: int)
    requires A <= Q && q in Q - A
    ensures Q - (A + {q}) == (Q - A) - {q} && |Q - (A + {q})| == |Q - A| - 1
    ensures |Q - (A + {q})| == 0 <==> A + {q} == Q
  {
    assert Q - (A + {q}) == (Q - A) - {q};
    if |Q - (A + {q})| == 0 { assert Q == A + {q}; }
  }

  lemma CountsOne(n: Node, m: Message, Q: set<int>, A: set<int>, kind: Kind, own: Message, x: Message)
    requires Collects(n, m, Q, A, kind, own) && x.src in Q - A && x.kind == kind && m.dest !in Q
    ensures Collects(Counted(n, x), m, Q, A + {x.src}, kind, own)
    ensures Lookup(n.quorumMembers, x.src).kind != kind
    ensures Counted(n, x).numWaitingNodes == 0 <==> A + {x.src} == Q
  {
    Fewer(Q, A, x.src);
  }

  lemma PeersAre(n: Node, m: Message, Q: set<int>, A: set<int>, kind: Kind, own: Message)
    requires Collects(n, m, Q, A, kind, own) && m.dest !in Q
    ensures Peers(n) == Q
  {}

  // ---------- locks ----------

  lemma LocksAt(n: Node, x: Message, c: Choice, d: Choice)
    requires Free(n) && x.kind.LockRequestNoTimeout? && x.id !in n.unlockTxids
    ensures var e := Dispatch(n, x, c);
            && Answers(e) == [] && e.out == {}
            && TakeNext(e.node, d).out == {Signal(x.id, n.id, x.src, LockResponse, true)}
            && Held(TakeNext(e.node, d).node, x.id) && Answers(TakeNext(e.node, d)) == []
            && e.node.config == n.config && e.node.id == n.id
  {}

  /** Members of a phase other than the ones that act stay as they are. */
  lemma SettingStays(s: Cluster, s': Cluster, m: Message, Q: set<int>, q: int, n: Node)
    requires Setting(s, m, Q) && (q in Q || q == m.dest) && 0 <= q < |s.nodes|
    requires s'.nodes == s.nodes[q := n] && s'.cfg == s.cfg
    ensures Setting(s', m, Q)
  {
    hide Free;
  }

  /** One more member locks. */
  lemma LockOne(run: seq<Cluster>, m: Message, Q: set<int>, A: set<int>, q: int) returns (more: seq<Cluster>)
    requires |run| > 0 && IsRun(run) && |Last(run).trace| + 1 < TIMESTAMPS && Locks(Last(run), m, Q, A) && q in Q - A
    ensures Leads(run, more)
    ensures Last(more).trace == Last(run).trace && Last(more).cfg == Last(run).cfg
    ensures Setting(Last(more), m, Q) && Held(Last(more).nodes[q], m.id)
    ensures Last(more).nodes == Last(run).nodes[q := Last(more).nodes[q]] && Last(run).net <= Last(more).net
    ensures Signal(m.id, q, m.dest, LockResponse, true) in Last(more).once
  {
    NodeFacts(run, q);
    hide IsRun, Dispatch, TakeNext, Setting, Collects;
    var s := Last(run);
    var n, x := s.nodes[q], LockOf(m, q);
    var e := Dispatch(n, x, ANY);
    LocksAt(n, x, ANY, ANY);
    var d := SomeDraw(s.cfg, e.node);
    LocksAt(n, x, ANY, d);
    more := Acts(run, x, ANY, d, e, TakeNext(e.node, d));
    SettingStays(s, Last(more), m, Q, q, TakeNext(e.node, d).node);
  }

  lemma LastGrant(n: Node, m: Message, Q: set<int>, A: set<int>, y: Message)
    requires Collects(n, m, Q, A, LockResponse, Marker(TimestampRequest, 0)) && n.mode.AssemblingQuorum?
    requires y.kind.LockResponse? && y.ok && y.id == m.id && y.src in Q - A && m.dest !in Q
    ensures A + {y.src} != Q ==> Dispatch(n, y, ANY) == Silent(Counted(n, y))
    ensures A + {y.src} == Q ==> Dispatch(n, y, ANY) == RequestTimestamps(Counted(n, y).(mode := CoordinatingWrite))
  {
    CountsOne(n, m, Q, A, LockResponse, Marker(TimestampRequest, 0), y);
    Counts(n, y, ANY);
    Continues(Counted(n, y), ANY);
    hide CountReply, Continue;
  }

  /** The coordinator asks for timestamps, and waits for all of them. */
  lemma AsksForStamps(n: Node, m: Message, Q: set<int>)
    requires Collects(n, m, Q, Q, LockResponse, Marker(TimestampRequest, 0)) && n.config.w - 1 == |Q| && m.dest !in Q
    ensures var e := RequestTimestamps(n.(mode := CoordinatingWrite));
            && e.node.mode.CoordinatingWrite? && Collects(e.node, m, Q, {}, GetResponse, Marker(PutRequest, 0))
            && (forall q :: q in Q ==> StampOf(m, q) in e.out) && Answers(e) == []
  {
    PeersAre(n, m, Q, Q, LockResponse, Marker(TimestampRequest, 0));
    assert Q - {} == Q;
    var e := RequestTimestamps(n.(mode := CoordinatingWrite));
    forall q | q in Q ensures StampOf(m, q) in e.out {}
  }

  /** The coordinator once A have granted their locks. */
  ghost predicate Granted(n: Node, m: Message, Q: set<int>, A: set<int>) {
    if A == Q then n.mode.CoordinatingWrite? && Collects(n, m, Q, {}, GetResponse, Marker(PutRequest, 0))
    else n.mode.AssemblingQuorum? && Collects(n, m, Q, A, LockResponse, Marker(TimestampRequest, 0))
  }

  lemma GrantEffect(n: Node, m: Message, Q: set<int>, A: set<int>, y: Message)
    requires Collects(n, m, Q, A, LockResponse, Marker(TimestampRequest, 0)) && n.mode.AssemblingQuorum?
    requires y.kind.LockResponse? && y.ok && y.id == m.id && y.src in Q - A && m.dest !in Q && n.config.w - 1 == |Q|
    ensures var e := Dispatch(n, y, ANY);
            && Granted(e.node, m, Q, A + {y.src}) && Answers(e) == [] && e.node.lockRequests == []
            && (A + {y.src} == Q ==> forall u :: u in Q ==> StampOf(m, u) in e.out)
    ensures !n.disabled && !LateStamp(n, y) && ChoiceOk(n, y, ANY)
  {
    LastGrant(n, m, Q, A, y);
    hide Dispatch;
    CountsOne(n, m, Q, A, LockResponse, Marker(TimestampRequest, 0), y);
    hide Counted;
    if A + {y.src} == Q {
      AsksForStamps(Counted(n, y), m, Q);
      hide RequestTimestamps;
    }
  }

  /** The coordinator counts a grant. */
  lemma GrantTaken(run: seq<Cluster>, m: Message, Q: set<int>, A: set<int>, q: int)
    returns (more: seq<Cluster>, n': Node)
    requires |run| > 0 && IsRun(run) && |Last(run).trace| + 1 < TIMESTAMPS && Setting(Last(run), m, Q) && q in Q - A
    requires Last(run).nodes[m.dest].mode.AssemblingQuorum?
    requires Collects(Last(run).nodes[m.dest], m, Q, A, LockResponse, Marker(TimestampRequest, 0))
    requires Signal(m.id, q, m.dest, LockResponse, true) in Last(run).once
    ensures Leads(run, more) && Acted(Last(run), Last(more), m.dest, n', {}, []) && Granted(n', m, Q, A + {q})
    ensures A + {q} == Q ==> forall u :: u in Q ==> StampOf(m, u) in Last(more).net
  {
    hide IsRun, Dispatch, Granted, LateStamp, ChoiceOk, Free, Collects, Answers;
    NodeFacts(run, m.dest);
    var n, y := Last(run).nodes[m.dest], Signal(m.id, q, m.dest, LockResponse, true);
    GrantEffect(n, m, Q, A, y);
    n' := Dispatch(n, y, ANY).node;
    hide Setting;
    more := ActsAlone(run, y, ANY, Dispatch(n, y, ANY));
  }

  /** Nodes p and q have acted. */
  ghost predicate Others(s: Cluster, s': Cluster, p: int, q: int) {
    && |s'.nodes| == |s.nodes| && s.net <= s'.net && s'.cfg == s.cfg
    && forall u :: 0 <= u < |s.nodes| && u != p && u != q ==> s'.nodes[u] == s.nodes[u]
  }

  lemma SettingKept(s: Cluster, s': Cluster, m: Message, Q: set<int>, q: int)
    requires Setting(s, m, Q) && q in Q && Others(s, s', m.dest, q)
    ensures Setting(s', m, Q)
  {
    hide Free;
  }

  lemma GrantedOn(s: Cluster, s': Cluster, m: Message, Q: set<int>, A: set<int>, q: int)
    requires Locks(s, m, Q, A) && q in Q - A && Others(s, s', m.dest, q) && A + {q} != Q
    requires Held(s'.nodes[q], m.id) && Granted(s'.nodes[m.dest], m, Q, A + {q})
    ensures Locks(s', m, Q, A + {q})
  {
    Fewer(Q, A, q);
    hide Collects, Free, Held;
    SettingKept(s, s', m, Q, q);
  }

  lemma AllGranted(s: Cluster, s': Cluster, m: Message, Q: set<int>, A: set<int>, q: int)
    requires Locks(s, m, Q, A) && q in Q - A && Others(s, s', m.dest, q) && A + {q} == Q
    requires Held(s'.nodes[q], m.id) && Granted(s'.nodes[m.dest], m, Q, Q)
    requires forall u :: u in Q ==> StampOf(m, u) in s'.net
    ensures Stamps(s', m, Q, {})
  {
    hide Collects, Free, Held;
    SettingKept(s, s', m, Q, q);
    assert Q - {} == Q;
  }

  /** A member's lock and its grant. */
  lemma GrantOne(run: seq<Cluster>, m: Message, Q: set<int>, A: set<int>, q: int) returns (more: seq<Cluster>)
    requires |run| > 0 && IsRun(run) && |Last(run).trace| + 1 < TIMESTAMPS && Locks(Last(run), m, Q, A) && q in Q - A
    ensures Leads(run, more) && Last(more).trace == Last(run).trace
    ensures if A + {q} == Q then Stamps(Last(more), m, Q, {}) else Locks(Last(more), m, Q, A + {q})
  {
    hide IsRun, Free, Collects, Held, Granted;
    var one := LockOne(run, m, Q, A, q);
    assert |one| > 0 && Last(one).nodes[m.dest] == Last(run).nodes[m.dest];
    hide Setting;
    var n';
    more, n' := GrantTaken(one, m, Q, A, q);
    LeadsOn(run, one, more);
    assert Others(Last(run), Last(more), m.dest, q);
    if A + {q} == Q {
      AllGranted(Last(run), Last(more), m, Q, A, q);
    } else {
      GrantedOn(Last(run), Last(more), m, Q, A, q);
    }
  }

  // ---------- timestamps ----------

  function StampFrom(m: Message, q: int, timestamp: nat): Message {
    Message(m.id, q, m.dest, GetResponse, m.key, [], timestamp, true)
  }

  lemma StampsAt(n: Node, m: Message, q: int)
    requires Held(n, m.id) && n.id == q
    ensures Dispatch(n, StampOf(m, q), ANY) == Effect(n, {StampFrom(m, q, Read(n, m.key).timestamp)}, None)
    ensures Answers(Dispatch(n, StampOf(m, q), ANY)) == []
  {}

  /** A member tells its timestamp, and nothing else changes. */
  lemma StampGiven(run: seq<Cluster>, m: Message, Q: set<int>, A: set<int>, q: int)
    returns (more: seq<Cluster>, y: Message)
    requires |run| > 0 && IsRun(run) && |Last(run).trace| + 1 < TIMESTAMPS && Stamps(Last(run), m, Q, A) && q in Q - A
    ensures Leads(run, more) && y.kind.GetResponse? && y.ok && y.id == m.id && y.src == q && y.dest == m.dest
    ensures y in Last(more).net && Acted(Last(run), Last(more), q, Last(run).nodes[q], {}, [])
  {
    hide IsRun, Dispatch, Collects, Free;
    NodeFacts(run, q);
    var n, x := Last(run).nodes[q], StampOf(m, q);
    StampsAt(n, m, q);
    y := StampFrom(m, q, Read(n, m.key).timestamp);
    more := ActsAlone(run, x, ANY, Effect(n, {y}, None));
  }

  /** What the write may be proposed under: a strong write asks for it. */
  predicate Wants(m: Message, next: nat) { m.kind.ClientStrongWriteRequest? ==> m.timestamp == next }

  /** The coordinator once A have told their timestamps. */
  ghost predicate StampedBy(n: Node, m: Message, Q: set<int>, A: set<int>, next: nat) {
    n.mode.CoordinatingWrite?
    && if A == Q then Collects(n, m, Q, {}, PutResponse, Marker(UnlockRequest, next)) && Stages(n, m, next)
       else Collects(n, m, Q, A, GetResponse, Marker(PutRequest, 0))
  }

  lemma StampCounted(n: Node, m: Message, Q: set<int>, A: set<int>, y: Message)
    requires Collects(n, m, Q, A, GetResponse, Marker(PutRequest, 0)) && n.mode.CoordinatingWrite?
    requires y.kind.GetResponse? && y.ok && y.id == m.id && y.src in Q - A && m.dest !in Q
    ensures A + {y.src} != Q ==> Dispatch(n, y, ANY) == Silent(Counted(n, y))
    ensures A + {y.src} == Q ==> LastTimestamp(n, y)
    ensures !n.disabled && !LateStamp(n, y) && ChoiceOk(n, y, ANY)
  {
    CountsOne(n, m, Q, A, GetResponse, Marker(PutRequest, 0), y);
    Counts(n, y, ANY);
    hide CountReply, Continue;
  }

  lemma StagesAll(n: Node, m: Message, Q: set<int>, next: nat)
    requires Collects(n, m, Q, Q, GetResponse, Marker(PutRequest, 0)) && n.config.w - 1 == |Q| && m.dest !in Q
    requires n.mode.CoordinatingWrite? && StagingOk(n) && m.key != []
    ensures var e := Effect(Staged(n, next), PutRequestsTo(n, next), None);
            && StampedBy(e.node, m, Q, Q, next) && (forall q :: q in Q ==> PutOf(m, q, next) in e.out)
            && Answers(e) == [] && e.node.lockRequests == []
  {
    PeersAre(n, m, Q, Q, GetResponse, Marker(PutRequest, 0));
    assert Q - {} == Q;
    var e := Effect(Staged(n, next), PutRequestsTo(n, next), None);
    forall q | q in Q ensures PutOf(m, q, next) in e.out {}
  }

  lemma StampEffect(s: Cluster, L: Ledger, m: Message, Q: set<int>, A: set<int>, y: Message, next: nat)
    requires Inv(s, L) && Setting(s, m, Q) && |s.trace| + 1 < TIMESTAMPS && s.nodes[m.dest].mode.CoordinatingWrite?
    requires Collects(s.nodes[m.dest], m, Q, A, GetResponse, Marker(PutRequest, 0))
    requires s.nodes[m.dest].config == s.cfg
    requires y.kind.GetResponse? && y.ok && y.id == m.id && y.src in Q - A && y.dest == m.dest && y in s.net
    requires next == Acks(s.trace, m.key) + 1 && Wants(m, next)
    ensures var e := Dispatch(s.nodes[m.dest], y, ANY);
            && StampedBy(e.node, m, Q, A + {y.src}, next) && Answers(e) == [] && e.node.lockRequests == []
            && (A + {y.src} == Q ==> forall u :: u in Q ==> PutOf(m, u, next) in e.out)
    ensures var n := s.nodes[m.dest]; !n.disabled && !LateStamp(n, y) && ChoiceOk(n, y, ANY)
  {
    hide Inv, Dispatch, LateStamp, ChoiceOk, Free, Acks, LastTimestamp, DoesWith;
    var n := s.nodes[m.dest];
    StampCounted(n, m, Q, A, y);
    CountsOne(n, m, Q, A, GetResponse, Marker(PutRequest, 0), y);
    if A + {y.src} == Q {
      JudgedEffect(s, L, m.dest, n, y, ANY);
      CountedStaging(n, y);
      Proposes(Counted(n, y), m, next, Dispatch(n, y, ANY));
      hide Counted, Collects;
      StagesAll(Counted(n, y), m, Q, next);
    }
  }

  lemma Proposes(n: Node, m: Message, next: nat, e: Effect)
    requires n.quorumMembers.Some? && n.clientRequest == m && DoesWith(n, next, e) && Wants(m, next)
    ensures e == Effect(Staged(n, next), PutRequestsTo(n, next), None)
  {
    hide Abort, Staged, PutRequestsTo;
  }

  lemma StampTaken(run: seq<Cluster>, m: Message, Q: set<int>, A: set<int>, y: Message, next: nat)
    returns (more: seq<Cluster>, n': Node)
    requires |run| > 0 && IsRun(run) && |Last(run).trace| + 1 < TIMESTAMPS && Stamps(Last(run), m, Q, A)
    requires y.kind.GetResponse? && y.ok && y.id == m.id && y.src in Q - A && y.dest == m.dest && y in Last(run).net
    requires next == Acks(Last(run).trace, m.key) + 1 && Wants(m, next)
    ensures Leads(run, more) && Acted(Last(run), Last(more), m.dest, n', {}, [])
    ensures StampedBy(n', m, Q, A + {y.src}, next)
    ensures A + {y.src} == Q ==> forall u :: u in Q ==> PutOf(m, u, next) in Last(more).net
  {
    hide IsRun, Inv, Dispatch, Collects, Free, Acks, StampedBy, LateStamp, ChoiceOk, Held;
    NodeFacts(run, m.dest);
    var L := RunOk(run);
    StampEffect(Last(run), L, m, Q, A, y, next);
    var n := Last(run).nodes[m.dest];
    n' := Dispatch(n, y, ANY).node;
    more := ActsAlone(run, y, ANY, Dispatch(n, y, ANY));
  }

  lemma StampedOn(s: Cluster, s': Cluster, m: Message, Q: set<int>, A: set<int>, q: int, next: nat)
    requires Stamps(s, m, Q, A) && q in Q - A && Others(s, s', m.dest, q) && s'.nodes[q] == s.nodes[q]
    requires StampedBy(s'.nodes[m.dest], m, Q, A + {q}, next)
    requires A + {q} == Q ==> forall u :: u in Q ==> PutOf(m, u, next) in s'.net
    ensures if A + {q} == Q then Puts(s', m, Q, {}, next) else Stamps(s', m, Q, A + {q})
  {
    Fewer(Q, A, q);
    hide Collects, Free, Held, Stages;
    SettingKept(s, s', m, Q, q);
    assert Q - {} == Q;
  }

  lemma StampOne(run: seq<Cluster>, m: Message, Q: set<int>, A: set<int>, q: int, next: nat)
    returns (more: seq<Cluster>)
    requires |run| > 0 && IsRun(run) && |Last(run).trace| + 1 < TIMESTAMPS && Stamps(Last(run), m, Q, A) && q in Q - A
    requires next == Acks(Last(run).trace, m.key) + 1 && Wants(m, next)
    ensures Leads(run, more) && Last(more).trace == Last(run).trace
    ensures if A + {q} == Q then Puts(Last(more), m, Q, {}, next) else Stamps(Last(more), m, Q, A + {q})
  {
    hide IsRun, Free, Collects, Held, StampedBy, Acks, Wants;
    var one, y := StampGiven(run, m, Q, A, q);
    assert Last(one).nodes == Last(run).nodes && Last(one).trace == Last(run).trace;
    assert Stamps(Last(one), m, Q, A);
    hide Setting;
    var n';
    more, n' := StampTaken(one, m, Q, A, y, next);
    LeadsOn(run, one, more);
    assert Others(Last(run), Last(more), m.dest, q);
    StampedOn(Last(run), Last(more), m, Q, A, q, next);
  }

  // ---------- votes ----------

  function AckFrom(m: Message, q: int, next: nat): Message {
    Message(m.id, q, m.dest, PutResponse, m.key, m.value, next, true)
  }

  lemma StagesAt(n: Node, m: Message, q: int, next: nat)
    requires Held(n, m.id) && n.id == q && StagingOk(n)
    ensures var e := Dispatch(n, PutOf(m, q, next), ANY);
            && e.out == {AckFrom(m, q, next)} && Answers(e) == []
            && Held(e.node, m.id) && Stages(e.node, m, next)
  {}

  /** A member stages the write and votes for it. */
  lemma PutStagedAt(run: seq<Cluster>, m: Message, Q: set<int>, A: set<int>, q: int, next: nat)
    returns (more: seq<Cluster>, n': Node)
    requires |run| > 0 && IsRun(run) && |Last(run).trace| + 1 < TIMESTAMPS
    requires Puts(Last(run), m, Q, A, next) && q in Q - A
    ensures Leads(run, more) && AckFrom(m, q, next) in Last(more).net
    ensures Acted(Last(run), Last(more), q, n', {}, []) && Held(n', m.id) && Stages(n', m, next)
  {
    hide IsRun, Dispatch, Collects, Free, Stages, StagingOk;
    NodeFacts(run, q);
    StagingFacts(run, q);
    var n, x := Last(run).nodes[q], PutOf(m, q, next);
    StagesAt(n, m, q, next);
    n' := Dispatch(n, x, ANY).node;
    more := ActsAlone(run, x, ANY, Dispatch(n, x, ANY));
  }

  lemma StagingFacts(run: seq<Cluster>, q: nat)
    requires |run| > 0 && IsRun(run) && q < |Last(run).nodes|
    ensures StagingOk(Last(run).nodes[q])
  {
    hide IsRun, Inv;
    var L := RunOk(run);
    NodeAt(Last(run), L, q);
    NodeStaging(Last(run).cfg, L, q, Last(run).nodes[q]);
    hide NodeOk, LedgerOk;
  }

  /** The answer that the client gets. */
  function Success(m: Message, next: nat): Message {
    Message(m.id, m.dest, m.src, ClientWriteResponse, m.key, m.value, next, true)
  }

  /** The coordinator once A have voted for the write. */
  ghost predicate VotedBy(n: Node, m: Message, Q: set<int>, A: set<int>, next: nat) {
    if A == Q then Stored(n, m, next)
    else n.mode.CoordinatingWrite? && Collects(n, m, Q, A, PutResponse, Marker(UnlockRequest, next)) && Stages(n, m, next)
  }

  lemma VoteCounted(n: Node, m: Message, Q: set<int>, A: set<int>, q: int, next: nat)
    requires Collects(n, m, Q, A, PutResponse, Marker(UnlockRequest, next)) && n.mode.CoordinatingWrite?
    requires q in Q - A && m.dest !in Q
    ensures var y := AckFrom(m, q, next);
            && Dispatch(n, y, ANY) == (if A + {q} == Q then CommitWrite(Counted(n, y)) else Silent(Counted(n, y)))
            && !n.disabled && !LateStamp(n, y) && ChoiceOk(n, y, ANY)
  {
    var y := AckFrom(m, q, next);
    CountsOne(n, m, Q, A, PutResponse, Marker(UnlockRequest, next), y);
    Counts(n, y, ANY);
    Continues(Counted(n, y), ANY);
    hide CountReply, Continue, CommitWrite;
  }

  lemma CommitsAll(n: Node, m: Message, Q: set<int>, next: nat)
    requires Collects(n, m, Q, Q, PutResponse, Marker(UnlockRequest, next)) && m.dest !in Q && Stages(n, m, next)
    ensures var e := CommitWrite(n);
            && Stored(e.node, m, next) && Answers(e) == [Returned(Success(m, next))]
            && forall q :: q in Q ==> CommitOf(m, q) in e.out
  {
    PeersAre(n, m, Q, Q, PutResponse, Marker(UnlockRequest, next));
    var e := CommitWrite(n);
    assert e == Concluded(n.(store := StagedStore.Commit(n.store, n.uncommittedKey.value, n.uncommittedTxid),
                             uncommittedKey := None, uncommittedTxid := 0));
    hide CommitWrite, Propagation.Propagate;
    forall q | q in Q ensures CommitOf(m, q) in e.out {}
  }

  lemma VoteEffect(n: Node, m: Message, Q: set<int>, A: set<int>, q: int, next: nat)
    requires Collects(n, m, Q, A, PutResponse, Marker(UnlockRequest, next)) && n.mode.CoordinatingWrite?
    requires q in Q - A && m.dest !in Q && Stages(n, m, next)
    ensures var e := Dispatch(n, AckFrom(m, q, next), ANY);
            && VotedBy(e.node, m, Q, A + {q}, next) && e.node.lockRequests == []
            && Answers(e) == (if A + {q} == Q then [Returned(Success(m, next))] else [])
            && (A + {q} == Q ==> forall u :: u in Q ==> CommitOf(m, u) in e.out)
  {
    var y := AckFrom(m, q, next);
    VoteCounted(n, m, Q, A, q, next);
    CountsOne(n, m, Q, A, PutResponse, Marker(UnlockRequest, next), y);
    assert Stages(Counted(n, y), m, next);
    hide Dispatch, Counted, CommitWrite;
    if A + {q} == Q { CommitsAll(Counted(n, y), m, Q, next); }
  }

  lemma VoteTaken(run: seq<Cluster>, m: Message, Q: set<int>, A: set<int>, q: int, next: nat)
    returns (more: seq<Cluster>, n': Node)
    requires |run| > 0 && IsRun(run) && |Last(run).trace| + 1 < TIMESTAMPS && Setting(Last(run), m, Q) && q in Q - A
    requires Last(run).nodes[m.dest].mode.CoordinatingWrite? && AckFrom(m, q, next) in Last(run).net
    requires Collects(Last(run).nodes[m.dest], m, Q, A, PutResponse, Marker(UnlockRequest, next))
    requires Stages(Last(run).nodes[m.dest], m, next)
    ensures Leads(run, more) && VotedBy(n', m, Q, A + {q}, next)
    ensures Acted(Last(run), Last(more), m.dest, n', {}, if A + {q} == Q then [Returned(Success(m, next))] else [])
    ensures A + {q} == Q ==> forall u :: u in Q ==> CommitOf(m, u) in Last(more).net
  {
    hide IsRun, Dispatch, Collects, Free, VotedBy, LateStamp, ChoiceOk, Answers, Stages;
    var n, y := Last(run).nodes[m.dest], AckFrom(m, q, next);
    VoteCounted(n, m, Q, A, q, next);
    VoteEffect(n, m, Q, A, q, next);
    n' := Dispatch(n, y, ANY).node;
    more := ActsAlone(run, y, ANY, Dispatch(n, y, ANY));
  }

  lemma VotedOn(s: Cluster, s': Cluster, m: Message, Q: set<int>, A: set<int>, q: int, next: nat)
    requires Puts(s, m, Q, A, next) && q in Q - A && Others(s, s', m.dest, q)
    requires Held(s'.nodes[q], m.id) && Stages(s'.nodes[q], m, next)
    requires VotedBy(s'.nodes[m.dest], m, Q, A + {q}, next)
    requires A + {q} == Q ==> forall u :: u in Q ==> CommitOf(m, u) in s'.net
    ensures if A + {q} == Q then Commits(s', m, Q, {}, next) else Puts(s', m, Q, A + {q}, next)
  {
    Fewer(Q, A, q);
    hide Collects, Free, Held, Stages, Stored;
    SettingKept(s, s', m, Q, q);
    assert Q - {} == Q;
  }

  lemma VoteOne(run: seq<Cluster>, m: Message, Q: set<int>, A: set<int>, q: int, next: nat)
    returns (more: seq<Cluster>)
    requires |run| > 0 && IsRun(run) && |Last(run).trace| + 1 < TIMESTAMPS
    requires Puts(Last(run), m, Q, A, next) && q in Q - A
    ensures Leads(run, more)
    ensures if A + {q} == Q then
              Commits(Last(more), m, Q, {}, next) && Last(more).trace == Last(run).trace + [Returned(Success(m, next))]
            else Puts(Last(more), m, Q, A + {q}, next) && Last(more).trace == Last(run).trace
  {
    hide IsRun, Free, Collects, Held, VotedBy, Stages;
    var n1, n2;
    var one;
    one, n1 := PutStagedAt(run, m, Q, A, q, next);
    SettingStays(Last(run), Last(one), m, Q, q, n1);
    assert Last(one).nodes[m.dest] == Last(run).nodes[m.dest] && Last(one).trace == Last(run).trace;
    hide Setting;
    more, n2 := VoteTaken(one, m, Q, A, q, next);
    LeadsOn(run, one, more);
    assert Others(Last(run), Last(more), m.dest, q);
    VotedOn(Last(run), Last(more), m, Q, A, q, next);
  }

  // ---------- unlocks ----------

  lemma CommitsAt(n: Node, m: Message, q: int, next: nat)
    requires Held(n, m.id) && Stages(n, m, next)
    ensures var e := Dispatch(n, CommitOf(m, q), ANY);
            Stored(e.node, m, next) && Answers(e) == [] && e.node.lockRequests == []
  {}

  lemma CommitOne(run: seq<Cluster>, m: Message, Q: set<int>, A: set<int>, q: int, next: nat)
    returns (more: seq<Cluster>)
    requires |run| > 0 && IsRun(run) && |Last(run).trace| + 1 < TIMESTAMPS
    requires Commits(Last(run), m, Q, A, next) && q in Q - A
    ensures Leads(run, more) && Last(more).trace == Last(run).trace && Commits(Last(more), m, Q, A + {q}, next)
  {
    hide IsRun, Free, Dispatch, Stages;
    var n, x := Last(run).nodes[q], CommitOf(m, q);
    CommitsAt(n, m, q, next);
    var e := Dispatch(n, x, ANY);
    more := ActsAlone(run, x, ANY, e);
    SettingStays(Last(run), Last(more), m, Q, q, e.node);
    hide Setting, Stored, Held;
    assert Q - (A + {q}) <= Q - A;
  }

  // ---------- whole phases ----------

  lemma {:induction false} AllGrant(run: seq<Cluster>, m: Message, Q: set<int>, A: set<int>) returns (more: seq<Cluster>)
    requires |run| > 0 && IsRun(run) && |Last(run).trace| + 1 < TIMESTAMPS && Locks(Last(run), m, Q, A)
    ensures Leads(run, more) && Last(more).trace == Last(run).trace && Stamps(Last(more), m, Q, {})
    decreases |Q - A|
  {
    var q := Member(Q - A);
    Fewer(Q, A, q);
    hide IsRun, Locks, Stamps;
    more := GrantOne(run, m, Q, A, q);
    if A + {q} != Q {
      var one := more;
      more := AllGrant(one, m, Q, A + {q});
      LeadsOn(run, one, more);
    }
  }

  lemma {:induction false} AllStamp(run: seq<Cluster>, m: Message, Q: set<int>, A: set<int>, next: nat)
    returns (more: seq<Cluster>)
    requires |run| > 0 && IsRun(run) && |Last(run).trace| + 1 < TIMESTAMPS && Stamps(Last(run), m, Q, A)
    requires next == Acks(Last(run).trace, m.key) + 1 && Wants(m, next)
    ensures Leads(run, more) && Last(more).trace == Last(run).trace && Puts(Last(more), m, Q, {}, next)
    decreases |Q - A|
  {
    var q := Member(Q - A);
    Fewer(Q, A, q);
    hide IsRun, Stamps, Puts, Acks, Wants;
    more := StampOne(run, m, Q, A, q, next);
    if A + {q} != Q {
      var one := more;
      more := AllStamp(one, m, Q, A + {q}, next);
      LeadsOn(run, one, more);
    }
  }

  lemma {:induction false} AllVote(run: seq<Cluster>, m: Message, Q: set<int>, A: set<int>, next: nat)
    returns (more: seq<Cluster>)
    requires |run| > 0 && IsRun(run) && |Last(run).trace| + 1 < TIMESTAMPS && Puts(Last(run), m, Q, A, next)
    ensures Leads(run, more) && Last(more).trace == Last(run).trace + [Returned(Success(m, next))]
    ensures Commits(Last(more), m, Q, {}, next)
    decreases |Q - A|
  {
    var q := Member(Q - A);
    Fewer(Q, A, q);
    hide IsRun, Puts, Commits;
    more := VoteOne(run, m, Q, A, q, next);
    if A + {q} != Q {
      var one := more;
      more := AllVote(one, m, Q, A + {q}, next);
      LeadsOn(run, one, more);
    }
  }

  lemma {:induction false} AllCommit(run: seq<Cluster>, m: Message, Q: set<int>, A: set<int>, next: nat)
    returns (more: seq<Cluster>)
    requires |run| > 0 && IsRun(run) && |Last(run).trace| + 1 < TIMESTAMPS && Commits(Last(run), m, Q, A, next)
    ensures Leads(run, more) && Last(more).trace == Last(run).trace && Commits(Last(more), m, Q, Q, next)
    decreases |Q - A|
  {
    assert A <= Q;
    hide IsRun, Commits;
    if Q - A == {} {
      assert forall q :: q in Q ==> q in A || q in Q - A;
      assert A == Q;
      more := run;
      LeadsNowhere(run);
    } else {
      var q := Member(Q - A);
      Fewer(Q, A, q);
      var one := CommitOne(run, m, Q, A, q, next);
      more := AllCommit(one, m, Q, A + {q}, next);
      LeadsOn(run, one, more);
    }
  }

  // ---------- from a system at rest ----------

  /** A client's request that has not been made yet, for these nodes. */
  ghost predicate Possible(s: Cluster, m: Message, Q: set<int>, size: nat) {
    && m.src == s.cfg.n && m.key != [] && m.id >= 0 && NewId(s, m.id)
    && 0 <= m.dest < |s.nodes| && InRange(Q, |s.nodes|) && m.dest !in Q && |Q| == size - 1
  }

  lemma NeverUnlocked(run: seq<Cluster>, id: int, q: nat)
    requires |run| > 0 && IsRun(run) && NewId(Last(run), id) && q < |Last(run).nodes|
    ensures id !in Last(run).nodes[q].unlockTxids
  {
    hide IsRun;
    var L := RunOk(run);
    var s := Last(run);
    NodeAt(s, L, q);
    assert RequestsKnown(L, s.trace);
    assert ReleasedOk(L, q, s.nodes[q]);
    hide Inv, NodeOk, LedgerOk;
    assert id in L.txs ==> Asked(s.trace, id);
  }

  /** The client makes its request. */
  lemma Requested(run: seq<Cluster>, m: Message, Q: set<int>, size: nat) returns (more: seq<Cluster>)
    requires |run| > 0 && IsRun(run) && |Last(run).trace| + 1 < TIMESTAMPS && Possible(Last(run), m, Q, size)
    requires IsClientRequest(m)
    ensures Leads(run, more) && m in Last(more).once && Last(more).trace == Last(run).trace + [Invoked(m)]
    ensures Last(more).nodes == Last(run).nodes && Last(more).cfg == Last(run).cfg
  {
    hide IsRun, NewId;
    var s := Last(run);
    var s' := s.(once := s.once + multiset{m}, trace := s.trace + [Invoked(m)]);
    assert Invoke(s, s', m);
    hide Deliver, Invoke, Tick, Expire, Crash, Restart;
    more := Stepped(run, s');
  }

  function LeadBy(p: int): Choice { Choice({}, ABSENT, p, 0) }

  function Drawing(Q: set<int>): Choice { Choice(Q, ABSENT, 0, 0) }

  lemma WriteStarts(n: Node, m: Message, Q: set<int>)
    requires Free(n) && n.id == m.dest && n.quorumMembers.None? && m.id !in n.unlockTxids && IsWrite(m)
    requires InRange(Q, n.config.n) && m.dest !in Q && |Q| == n.config.w - 1
    ensures var e := Dispatch(n, m, LeadBy(m.dest));
            var f := TakeNext(e.node, Drawing(Q));
            && Answers(e) == [] && Answers(f) == [] && PeersOk(e.node, Drawing(Q))
            && f.node.mode.AssemblingQuorum?
            && Collects(f.node, m, Q, {}, LockResponse, Marker(TimestampRequest, 0))
            && forall q :: q in Q ==> LockOf(m, q) in e.out + f.out
  {
    assert Q - {} == Q;
    var e := Dispatch(n, m, LeadBy(m.dest));
    assert e.node.lockRequests == [m];
    var f := TakeNext(e.node, Drawing(Q));
    forall q | q in Q ensures LockOf(m, q) in f.out {}
  }

  lemma WriteBegins(run: seq<Cluster>, m: Message, Q: set<int>) returns (more: seq<Cluster>)
    requires |run| > 0 && IsRun(run) && |Last(run).trace| + 2 < TIMESTAMPS && Calm(Last(run)) && IsWrite(m)
    requires Possible(Last(run), m, Q, Last(run).cfg.w)
    ensures Leads(run, more) && Last(more).trace == Last(run).trace + [Invoked(m)] && Locks(Last(more), m, Q, {})
  {
    hide IsRun, Free, Dispatch, TakeNext, Collects, PeersOk;
    var one := Requested(run, m, Q, Last(run).cfg.w);
    NodeFacts(run, m.dest);
    NeverUnlocked(run, m.id, m.dest);
    var s := Last(one);
    var n := s.nodes[m.dest];
    FreeIsUp(n);
    WriteStarts(n, m, Q);
    var e := Dispatch(n, m, LeadBy(m.dest));
    var f := TakeNext(e.node, Drawing(Q));
    more := Acts(one, m, LeadBy(m.dest), Drawing(Q), e, f);
    LeadsOn(run, one, more);
    forall q | q in Q ensures m.id !in s.nodes[q].unlockTxids { NeverUnlocked(run, m.id, q); }
    hide NewId;
    LocksNow(s, Last(more), m, Q, f.node);
  }

  lemma FreeIsUp(n: Node)
    requires Free(n)
    ensures !n.disabled && n.mode.Idle?
  {}

  lemma LocksNow(s: Cluster, s': Cluster, m: Message, Q: set<int>, n: Node)
    requires Calm(s) && 0 <= m.dest < |s.nodes| && s'.nodes == s.nodes[m.dest := n] && s'.cfg == s.cfg
    requires InRange(Q, |s.nodes|) && m.dest !in Q && |Q| == s.cfg.w - 1 > 0
    requires IsWrite(m) && m.key != [] && m.src == s.cfg.n
    requires n.mode.AssemblingQuorum? && Collects(n, m, Q, {}, LockResponse, Marker(TimestampRequest, 0))
    requires forall q :: q in Q ==> m.id !in s.nodes[q].unlockTxids && LockOf(m, q) in s'.net
    ensures Locks(s', m, Q, {})
  {
    hide Collects, Free;
    assert Q - {} == Q;
  }

  ghost predicate AllStored(s: Cluster, m: Message, nodes: set<int>, next: nat) {
    forall q :: q in nodes ==> 0 <= q < |s.nodes| && Stored(s.nodes[q], m, next)
  }

  lemma AcksOf(trace: seq<Event>, e: Event, key: Key)
    requires !WriteDone(e)
    ensures Acks(trace + [e], key) == Acks(trace, key)
  {
    assert (trace + [e])[..|trace|] == trace;
  }

  /** A system at rest can serve any write with any quorum: the client is told of success, at one
      more than the number of writes of the key acknowledged before, and each node of the quorum
      stores the write. A strong write has to ask for this timestamp. */
  lemma WriteCanSucceed(run: seq<Cluster>, m: Message, Q: set<int>) returns (more: seq<Cluster>)
    requires |run| > 0 && IsRun(run) && |Last(run).trace| + 3 < TIMESTAMPS && Calm(Last(run)) && IsWrite(m)
    requires Possible(Last(run), m, Q, Last(run).cfg.w) && Wants(m, Acks(Last(run).trace, m.key) + 1)
    ensures Leads(run, more) && Calm(Last(more))
    ensures var next := Acks(Last(run).trace, m.key) + 1;
            && Last(more).trace == Last(run).trace + [Invoked(m), Returned(Success(m, next))]
            && AllStored(Last(more), m, Q + {m.dest}, next)
  {
    hide IsRun, Calm, Possible, Acks, Locks, Stamps, Puts, Wants;
    var next := Acks(Last(run).trace, m.key) + 1;
    AcksOf(Last(run).trace, Invoked(m), m.key);
    var a := WriteBegins(run, m, Q);
    var b := AllGrant(a, m, Q, {});
    var c := AllStamp(b, m, Q, {}, next);
    var d := AllVote(c, m, Q, {}, next);
    more := AllCommit(d, m, Q, {}, next);
    LeadsOn(run, a, b);
    LeadsOn(run, b, c);
    LeadsOn(run, c, d);
    LeadsOn(run, d, more);
    CommittedCalm(Last(more), m, Q, next);
    hide Commits;
    assert [Invoked(m), Returned(Success(m, next))] == [Invoked(m)] + [Returned(Success(m, next))];
  }

  lemma CommittedCalm(s: Cluster, m: Message, Q: set<int>, next: nat)
    requires Commits(s, m, Q, Q, next)
    ensures Calm(s) && AllStored(s, m, Q + {m.dest}, next)
  {
    hide Stages, Held;
  }

  // ---------- from anywhere ----------

  lemma {:induction false} SettledAcks(trace: seq<Event>, more: seq<Event>, key: Key)
    requires trace <= more && forall i :: |trace| <= i < |more| ==> ReadAnswered(more[i])
    ensures Acks(more, key) == Acks(trace, key)
  {
    if |more| == |trace| {
      assert more == trace;
    } else {
      var shorter, e := more[..|more| - 1], more[|more| - 1];
      assert ReadAnswered(e) && shorter + [e] == more;
      SettledAcks(trace, shorter, key);
      AcksOf(shorter, e, key);
    }
  }

  lemma StillNew(s: Cluster, s': Cluster, id: int)
    requires NewId(s, id) && Settles(s, s')
    ensures NewId(s', id)
  {
    hide Effort;
    forall i | 0 <= i < |s'.trace| && s'.trace[i].Invoked? ensures s'.trace[i].request.id != id {
      assert i < |s.trace| && s'.trace[i] == s.trace[i];
    }
  }

  /** The program is never wedged: in every state of every run, whatever was lost, refused or
      left locked, every write can still succeed with every quorum, and the system be at rest. */
  lemma NeverWedged(run: seq<Cluster>, m: Message, Q: set<int>) returns (more: seq<Cluster>)
    requires |run| > 0 && IsRun(run) && |Last(run).trace| + Effort(Last(run).nodes) + 3 < TIMESTAMPS && IsWrite(m)
    requires Possible(Last(run), m, Q, Last(run).cfg.w) && Wants(m, Acks(Last(run).trace, m.key) + 1)
    ensures Leads(run, more) && Calm(Last(more)) && Last(run).trace <= Last(more).trace
    ensures var next := Acks(Last(run).trace, m.key) + 1;
            && |Last(more).trace| > 0 && Last(more).trace[|Last(more).trace| - 1] == Returned(Success(m, next))
            && AllStored(Last(more), m, Q + {m.dest}, next)
  {
    hide IsRun, Calm, Acks, Wants, NewId, Effort;
    var rest := CanComeToRest(run);
    StillNew(Last(run), Last(rest), m.id);
    SettledAcks(Last(run).trace, Last(rest).trace, m.key);
    more := WriteCanSucceed(rest, m, Q);
    LeadsOn(run, rest, more);
  }

  // ---------- reads ----------

  function GetOf(m: Message, q: int): Message { Message(m.id, m.dest, q, GetRequest, m.key, m.value, 0, true) }

  function ValueFrom(m: Message, q: int, v: Stamped): Message {
    Message(m.id, q, m.dest, GetResponse, m.key, v.value, v.timestamp, true)
  }

  /** The reader m.dest has the values of A, as these nodes store them, and waits for the others of Q. */
  ghost predicate Gathers(s: Cluster, n: Node, m: Message, Q: set<int>, A: set<int>) {
    && n.mode.CoordinatingFastRead? && n.currentTxid == m.id && n.clientRequest == m && n.id == m.dest
    && !n.disabled && n.lockRequests == [] && n.quorumMembers.Some? && n.quorumMembers.value.Keys == Q
    && A <= Q && n.numWaitingNodes == |Q - A|
    && (forall q :: q in Q ==> (n.quorumMembers.value[q].kind.GetResponse? <==> q in A))
    && InRange(Q, |s.nodes|)
    && (forall q :: q in A ==> n.quorumMembers.value[q] == ValueFrom(m, q, Read(s.nodes[q], m.key)))
  }

  ghost predicate Unstaged(s: Cluster, Q: set<int>) {
    forall q :: q in Q ==> 0 <= q < |s.nodes| && s.nodes[q].uncommittedKey.None?
  }

  /** A read under way: only its coordinator is busy. */
  ghost predicate Gets(s: Cluster, m: Message, Q: set<int>, A: set<int>) {
    && 0 <= m.dest < |s.nodes| && m.dest !in Q && Q - A != {} && Gathers(s, s.nodes[m.dest], m, Q, A)
    && Unstaged(s, Q) && (forall q :: 0 <= q < |s.nodes| && q != m.dest ==> Free(s.nodes[q]))
    && forall q :: q in Q ==> GetOf(m, q) in s.net
  }

  lemma GivesAt(n: Node, m: Message, q: int)
    requires Free(n) && n.id == q && n.uncommittedKey.None?
    ensures Dispatch(n, GetOf(m, q), ANY) == Effect(n, {ValueFrom(m, q, Read(n, m.key))}, None)
    ensures Answers(Dispatch(n, GetOf(m, q), ANY)) == []
  {}

  lemma ValueGiven(run: seq<Cluster>, m: Message, Q: set<int>, A: set<int>, q: int) returns (more: seq<Cluster>)
    requires |run| > 0 && IsRun(run) && |Last(run).trace| + 1 < TIMESTAMPS && Gets(Last(run), m, Q, A) && q in Q - A
    ensures Leads(run, more) && ValueFrom(m, q, Read(Last(run).nodes[q], m.key)) in Last(more).net
    ensures Acted(Last(run), Last(more), q, Last(run).nodes[q], {}, [])
  {
    hide IsRun, Dispatch, Gathers, Read;
    var n, x := Last(run).nodes[q], GetOf(m, q);
    NodeFacts(run, q);
    GivesAt(n, m, q);
    more := ActsAlone(run, x, ANY, Effect(n, {ValueFrom(m, q, Read(n, m.key))}, None));
  }

  /** The answer is the newest value stored at these nodes. */
  ghost predicate NewestOf(s: Cluster, nodes: set<int>, key: Key, v: Stamped) {
    && (exists q :: q in nodes && 0 <= q < |s.nodes| && Read(s.nodes[q], key) == v)
    && forall q :: q in nodes && 0 <= q < |s.nodes| ==> Read(s.nodes[q], key).timestamp <= v.timestamp
  }

  function Answer(m: Message, v: Stamped): Message {
    Message(m.id, m.dest, m.src, ClientReadResponse, m.key, v.value, v.timestamp, true)
  }

  lemma ValueCounted(s: Cluster, n: Node, m: Message, Q: set<int>, A: set<int>, q: int, c: Choice)
    requires Gathers(s, n, m, Q, A) && q in Q - A
    ensures var y := ValueFrom(m, q, Read(s.nodes[q], m.key));
            && (A + {q} != Q ==> Dispatch(n, y, c) == Silent(Counted(n, y)))
            && (A + {q} == Q ==> Dispatch(n, y, c) == FinishRead(Counted(n, y), c.latest))
            && Gathers(s, Counted(n, y), m, Q, A + {q}) && !LateStamp(n, y)
  {
    var y := ValueFrom(m, q, Read(s.nodes[q], m.key));
    Fewer(Q, A, q);
    Counts(n, y, c);
    Continues(Counted(n, y), c);
    hide CountReply, Continue, Read;
  }

  /** What the coordinator answers once it has all values. */
  lemma NewestChosen(s: Cluster, n: Node, m: Message, Q: set<int>, v: Stamped)
    requires 0 <= m.dest < |s.nodes| && m.dest !in Q && Gathers(s, n, m, Q, Q)
    requires IsLatest(Read(s.nodes[m.dest], m.key), n.quorumMembers.value, v)
    ensures NewestOf(s, Q + {m.dest}, m.key, v)
  {
    hide Read;
    var replies := n.quorumMembers.value;
    forall q | q in Q + {m.dest} && 0 <= q < |s.nodes| ensures Read(s.nodes[q], m.key).timestamp <= v.timestamp {
      if q in Q { assert replies[q].timestamp <= v.timestamp; }
    }
    if Read(s.nodes[m.dest], m.key) == v {
      assert m.dest in Q + {m.dest};
    } else {
      var q :| q in replies && v == Stamped(replies[q].timestamp, replies[q].value);
      assert q in Q + {m.dest} && Read(s.nodes[q], m.key) == v;
    }
  }

  lemma GathersAlike(s: Cluster, s': Cluster, n: Node, m: Message, Q: set<int>, A: set<int>)
    requires Gathers(s, n, m, Q, A) && |s'.nodes| == |s.nodes| && m.dest !in Q
    requires forall q :: 0 <= q < |s.nodes| && q != m.dest ==> s'.nodes[q] == s.nodes[q]
    ensures Gathers(s', n, m, Q, A)
  {
    hide Read;
  }

  /** Every node still stores for the key what it stored. */
  ghost predicate SameReads(s: Cluster, s': Cluster, key: Key) {
    |s'.nodes| == |s.nodes| && forall q :: 0 <= q < |s.nodes| ==> Read(s'.nodes[q], key) == Read(s.nodes[q], key)
  }

  lemma SameReadsOn(a: Cluster, b: Cluster, c: Cluster, key: Key)
    requires SameReads(a, b, key) && SameReads(b, c, key)
    ensures SameReads(a, c, key)
  {}

  lemma NewestSame(s: Cluster, s': Cluster, nodes: set<int>, key: Key, v: Stamped)
    requires SameReads(s, s', key) && NewestOf(s', nodes, key, v)
    ensures NewestOf(s, nodes, key, v)
  {
    hide Read;
    var q :| q in nodes && 0 <= q < |s'.nodes| && Read(s'.nodes[q], key) == v;
    assert Read(s.nodes[q], key) == v;
  }

  lemma GetsMore(s: Cluster, s': Cluster, m: Message, Q: set<int>, A: set<int>, q: int, n: Node)
    requires Gets(s, m, Q, A) && q in Q - A && A + {q} != Q && Gathers(s, n, m, Q, A + {q})
    requires s'.nodes == s.nodes[m.dest := n] && s.net <= s'.net
    requires Read(n, m.key) == Read(s.nodes[m.dest], m.key)
    ensures Gets(s', m, Q, A + {q}) && SameReads(s, s', m.key)
  {
    Fewer(Q, A, q);
    GathersAlike(s, s', n, m, Q, A + {q});
    hide Gathers, Free, Read;
  }

  /** A reply and the choice that the coordinator makes when it has them all. */
  lemma ValueChoice(s: Cluster, m: Message, Q: set<int>, A: set<int>, q: int) returns (c: Choice)
    requires Gets(s, m, Q, A) && q in Q - A
    ensures var n, y := s.nodes[m.dest], ValueFrom(m, q, Read(s.nodes[q], m.key));
            && !n.disabled && ChoiceOk(n, y, c) && n.quorumMembers.Some? && Counted(n, y).quorumMembers.Some?
            && IsLatest(Read(n, m.key), Counted(n, y).quorumMembers.value, c.latest)
  {
    hide Read, Free;
    var n, y := s.nodes[m.dest], ValueFrom(m, q, Read(s.nodes[q], m.key));
    var latest := SomeLatest(Read(n, m.key), n.quorumMembers.value[q := y]);
    hide IsLatest;
    c := Choice({}, latest, 0, 0);
  }

  lemma CountedSame(n: Node, y: Message, key: Key)
    requires n.quorumMembers.Some?
    ensures Read(Counted(n, y), key) == Read(n, key) && Answers(Silent(Counted(n, y))) == []
  {}

  /** One more value is counted. */
  lemma ValueTaken(run: seq<Cluster>, m: Message, Q: set<int>, A: set<int>, q: int) returns (more: seq<Cluster>)
    requires |run| > 0 && IsRun(run) && |Last(run).trace| + 1 < TIMESTAMPS && Gets(Last(run), m, Q, A) && q in Q - A
    requires A + {q} != Q && ValueFrom(m, q, Read(Last(run).nodes[q], m.key)) in Last(run).net
    ensures Leads(run, more) && Last(more).trace == Last(run).trace && Gets(Last(more), m, Q, A + {q})
    ensures SameReads(Last(run), Last(more), m.key)
  {
    hide IsRun, Dispatch, Read, LateStamp, ChoiceOk, Free, IsLatest;
    var s := Last(run);
    var n, y := s.nodes[m.dest], ValueFrom(m, q, Read(s.nodes[q], m.key));
    var c := ValueChoice(s, m, Q, A, q);
    ValueCounted(s, n, m, Q, A, q, c);
    CountedSame(n, y, m.key);
    assert n.lockRequests == [];
    hide Gathers, Answers;
    more := ActsAlone(run, y, c, Silent(Counted(n, y)));
    GetsMore(s, Last(more), m, Q, A, q, Counted(n, y));
  }

  lemma Finishes(n: Node, m: Message, v: Stamped)
    requires n.clientRequest == m && n.id == m.dest && !n.disabled && n.lockRequests == []
    ensures var e := FinishRead(n, v);
            && Free(e.node) && Answers(e) == [Returned(Answer(m, v))] && Read(e.node, m.key) == Read(n, m.key)
            && e.node.lockRequests == []
  {}

  /** The last value is counted, and the client answered. */
  lemma LastValueTaken(run: seq<Cluster>, m: Message, Q: set<int>, A: set<int>, q: int)
    returns (more: seq<Cluster>, v: Stamped)
    requires |run| > 0 && IsRun(run) && |Last(run).trace| + 1 < TIMESTAMPS && Gets(Last(run), m, Q, A) && q in Q - A
    requires A + {q} == Q && ValueFrom(m, q, Read(Last(run).nodes[q], m.key)) in Last(run).net
    ensures Leads(run, more) && Last(more).trace == Last(run).trace + [Returned(Answer(m, v))]
    ensures Calm(Last(more)) && NewestOf(Last(run), Q + {m.dest}, m.key, v)
  {
    hide IsRun, Dispatch, Read, LateStamp, ChoiceOk, Free, IsLatest, FinishRead;
    var s := Last(run);
    var n, y := s.nodes[m.dest], ValueFrom(m, q, Read(s.nodes[q], m.key));
    var c := ValueChoice(s, m, Q, A, q);
    v := c.latest;
    ValueCounted(s, n, m, Q, A, q, c);
    CountedSame(n, y, m.key);
    NewestChosen(s, Counted(n, y), m, Q, v);
    Finishes(Counted(n, y), m, v);
    hide Gathers, Answers, Counted;
    more := ActsAlone(run, y, c, Dispatch(n, y, c));
  }

  lemma {:induction false} AllGet(run: seq<Cluster>, m: Message, Q: set<int>, A: set<int>)
    returns (more: seq<Cluster>, v: Stamped)
    requires |run| > 0 && IsRun(run) && |Last(run).trace| + 1 < TIMESTAMPS && Gets(Last(run), m, Q, A)
    ensures Leads(run, more) && Last(more).trace == Last(run).trace + [Returned(Answer(m, v))]
    ensures Calm(Last(more)) && NewestOf(Last(run), Q + {m.dest}, m.key, v)
    decreases |Q - A|
  {
    var q := Member(Q - A);
    Fewer(Q, A, q);
    hide IsRun, Free, Read, NewestOf;
    var one := ValueGiven(run, m, Q, A, q);
    assert Last(one).nodes == Last(run).nodes && Last(one).trace == Last(run).trace;
    SameGets(Last(run), Last(one), m, Q, A);
    hide Gets, Calm;
    if A + {q} == Q {
      more, v := LastValueTaken(one, m, Q, A, q);
    } else {
      var two := ValueTaken(one, m, Q, A, q);
      more, v := AllGet(two, m, Q, A + {q});
      LeadsOn(one, two, more);
      NewestSame(Last(one), Last(two), Q + {m.dest}, m.key, v);
    }
    LeadsOn(run, one, more);
    NewestSame(Last(run), Last(one), Q + {m.dest}, m.key, v);
  }

  lemma SameGets(s: Cluster, s': Cluster, m: Message, Q: set<int>, A: set<int>)
    requires Gets(s, m, Q, A) && s'.nodes == s.nodes && s.net <= s'.net
    ensures Gets(s', m, Q, A) && SameReads(s, s', m.key)
  {
    hide Read, Free;
  }

  lemma ReadStarts(s: Cluster, n: Node, m: Message, Q: set<int>)
    requires |s.nodes| == n.config.n && Free(n) && n.id == m.dest && n.quorumMembers.None? && m.id !in n.unlockTxids && IsRead(m)
    requires InRange(Q, n.config.n) && m.dest !in Q && |Q| == n.config.r - 1 && n.config.r > 1
    ensures var e := Dispatch(n, m, ANY);
            var f := TakeNext(e.node, Drawing(Q));
            && Answers(e) == [] && Answers(f) == [] && PeersOk(e.node, Drawing(Q))
            && Read(f.node, m.key) == Read(n, m.key)
            && Gathers(s, f.node, m, Q, {})
            && forall q :: q in Q ==> GetOf(m, q) in e.out + f.out
  {
    assert Q - {} == Q;
    var e := Dispatch(n, m, ANY);
    assert e.node.lockRequests == [m];
    var f := TakeNext(e.node, Drawing(Q));
    forall q | q in Q ensures GetOf(m, q) in f.out {}
  }

  lemma ReadBegins(run: seq<Cluster>, m: Message, Q: set<int>) returns (more: seq<Cluster>)
    requires |run| > 0 && IsRun(run) && |Last(run).trace| + 2 < TIMESTAMPS && Calm(Last(run)) && IsRead(m)
    requires Possible(Last(run), m, Q, Last(run).cfg.r) && Unstaged(Last(run), Q) && Last(run).cfg.r > 1
    ensures Leads(run, more) && Last(more).trace == Last(run).trace + [Invoked(m)] && Gets(Last(more), m, Q, {})
    ensures SameReads(Last(run), Last(more), m.key)
  {
    hide IsRun, Free, Dispatch, TakeNext, Gathers, PeersOk, Read;
    var one := Requested(run, m, Q, Last(run).cfg.r);
    NodeFacts(run, m.dest);
    NeverUnlocked(run, m.id, m.dest);
    var s := Last(one);
    var n := s.nodes[m.dest];
    FreeIsUp(n);
    ReadStarts(s, n, m, Q);
    var e := Dispatch(n, m, ANY);
    var f := TakeNext(e.node, Drawing(Q));
    more := Acts(one, m, ANY, Drawing(Q), e, f);
    LeadsOn(run, one, more);
    hide NewId;
    GetsNow(s, Last(more), m, Q, f.node);
  }

  lemma GetsNow(s: Cluster, s': Cluster, m: Message, Q: set<int>, n: Node)
    requires Calm(s) && 0 <= m.dest < |s.nodes| && s'.nodes == s.nodes[m.dest := n] && m.dest !in Q && Q != {}
    requires Gathers(s, n, m, Q, {}) && Unstaged(s, Q) && forall q :: q in Q ==> GetOf(m, q) in s'.net
    requires Read(n, m.key) == Read(s.nodes[m.dest], m.key)
    ensures Gets(s', m, Q, {}) && SameReads(s, s', m.key)
  {
    GathersAlike(s, s', n, m, Q, {});
    hide Gathers, Free, Read;
    assert Q - {} == Q;
  }

  lemma AnswersAlone(n: Node, m: Message)
    requires Free(n) && n.id == m.dest && n.config.r == 1 && n.uncommittedKey.None? && IsRead(m)
    ensures var e := Dispatch(n, m, ANY);
            e.node == n && Answers(e) == [Returned(Answer(m, Read(n, m.key)))] && e.node.lockRequests == []
  {}

  /** With R = 1 the coordinator answers from its own store. */
  lemma LocalAnswer(run: seq<Cluster>, m: Message) returns (more: seq<Cluster>, v: Stamped)
    requires |run| > 0 && IsRun(run) && |Last(run).trace| + 2 < TIMESTAMPS && Calm(Last(run)) && IsRead(m)
    requires Possible(Last(run), m, {}, 1) && Last(run).cfg.r == 1 && Unstaged(Last(run), {m.dest})
    ensures Leads(run, more) && Calm(Last(more)) && NewestOf(Last(run), {m.dest}, m.key, v)
    ensures Last(more).trace == Last(run).trace + [Invoked(m), Returned(Answer(m, v))]
  {
    hide IsRun, Free, Dispatch, Read, NewId;
    var one := Requested(run, m, {}, 1);
    NodeFacts(run, m.dest);
    var n := Last(one).nodes[m.dest];
    FreeIsUp(n);
    AnswersAlone(n, m);
    v := Read(n, m.key);
    more := ActsAlone(one, m, ANY, Dispatch(n, m, ANY));
    LeadsOn(run, one, more);
    assert m.dest in {m.dest} && Read(Last(run).nodes[m.dest], m.key) == v;
    hide Answers;
    assert [Invoked(m), Returned(Answer(m, v))] == [Invoked(m)] + [Returned(Answer(m, v))];
  }

  /** The nodes whose staging can get in the way of a read: its members, or with R = 1 its coordinator. */
  function Asking(cfg: Config, m: Message, Q: set<int>): set<int> { if cfg.r == 1 then {m.dest} else Q }

  /** A system at rest can serve any read with any members that have nothing left staged: the
      client gets the newest value that the coordinator and the members store. */
  lemma ReadCanSucceed(run: seq<Cluster>, m: Message, Q: set<int>) returns (more: seq<Cluster>, v: Stamped)
    requires |run| > 0 && IsRun(run) && |Last(run).trace| + 2 < TIMESTAMPS && Calm(Last(run)) && IsRead(m)
    requires Possible(Last(run), m, Q, Last(run).cfg.r) && Unstaged(Last(run), Asking(Last(run).cfg, m, Q))
    ensures Leads(run, more) && Calm(Last(more)) && NewestOf(Last(run), Q + {m.dest}, m.key, v)
    ensures Last(more).trace == Last(run).trace + [Invoked(m), Returned(Answer(m, v))]
  {
    hide IsRun, Calm, NewestOf, Unstaged, SameReads, Gets, NewId;
    if Last(run).cfg.r == 1 {
      assert Q == {} && Q + {m.dest} == {m.dest};
      more, v := LocalAnswer(run, m);
    } else {
      NodeFacts(run, m.dest);
      var one := ReadBegins(run, m, Q);
      more, v := AllGet(one, m, Q, {});
      LeadsOn(run, one, more);
      NewestSame(Last(run), Last(one), Q + {m.dest}, m.key, v);
      assert [Invoked(m), Returned(Answer(m, v))] == [Invoked(m)] + [Returned(Answer(m, v))];
    }
  }

  lemma NewAfter(s: Cluster, s': Cluster, m: Message, a: Message, id: int)
    requires NewId(s, id) && id != m.id && s'.trace == s.trace + [Invoked(m), Returned(a)]
    ensures NewId(s', id)
  {}

  lemma NewestIsStored(s: Cluster, m: Message, nodes: set<int>, all: set<int>, next: nat, v: Stamped)
    requires AllStored(s, m, all, next) && nodes <= all && NewestOf(s, nodes, m.key, v)
    ensures v == Stamped(next, m.value)
  {
    hide Free, Read;
    var q :| q in nodes && 0 <= q < |s.nodes| && Read(s.nodes[q], m.key) == v;
    assert Stored(s.nodes[q], m, next);
  }

  lemma AskingStored(s: Cluster, m: Message, Q: set<int>, all: set<int>, w: Message, next: nat)
    requires AllStored(s, w, all, next) && Q + {m.dest} <= all
    ensures Unstaged(s, Asking(s.cfg, m, Q))
  {
    hide Read, Free;
  }

  /** In every state of every run a write can still succeed and then be read back, by every
      coordinator and members from its quorum, whatever earlier writes have left staged there. */
  lemma WriteThenRead(run: seq<Cluster>, m: Message, Q: set<int>, r: Message, P: set<int>) returns (more: seq<Cluster>)
    requires |run| > 0 && IsRun(run) && |Last(run).trace| + Effort(Last(run).nodes) + 5 < TIMESTAMPS && IsWrite(m)
    requires Possible(Last(run), m, Q, Last(run).cfg.w) && Wants(m, Acks(Last(run).trace, m.key) + 1)
    requires IsRead(r) && Possible(Last(run), r, P, Last(run).cfg.r) && r.id != m.id && r.key == m.key
    requires P + {r.dest} <= Q + {m.dest}
    ensures Leads(run, more) && Calm(Last(more)) && Last(run).trace <= Last(more).trace
    ensures var v := Stamped(Acks(Last(run).trace, m.key) + 1, m.value);
            |Last(more).trace| > 0 && Last(more).trace[|Last(more).trace| - 1] == Returned(Answer(r, v))
  {
    hide IsRun, Calm, Acks, Wants, NewId, Effort, AllStored, NewestOf, Unstaged;
    var next := Acks(Last(run).trace, m.key) + 1;
    var rest := CanComeToRest(run);
    StillNew(Last(run), Last(rest), m.id);
    StillNew(Last(run), Last(rest), r.id);
    SettledAcks(Last(run).trace, Last(rest).trace, m.key);
    var written := WriteCanSucceed(rest, m, Q);
    SameConfiguration(rest, written);
    NewAfter(Last(rest), Last(written), m, Success(m, next), r.id);
    AskingStored(Last(written), r, P, Q + {m.dest}, m, next);
    var v;
    more, v := ReadCanSucceed(written, r, P);
    NewestIsStored(Last(written), m, P + {r.dest}, Q + {m.dest}, next, v);
    LeadsOn(run, rest, written);
    LeadsOn(run, written, more);
  }

  lemma SameConfiguration(run: seq<Cluster>, more: seq<Cluster>)
    requires |run| > 0 && Leads(run, more)
    ensures |more| > 0 && Last(more).cfg == Last(run).cfg && |Last(more).nodes| == |Last(run).nodes|
  {
    hide IsRun;
    assert more[|run| - 1] == Last(run);
    OwnWrites.SameConfig(more, |run| - 1, |more| - 1);
    RunShape(run);
    RunShape(more);
  }

  lemma RunShape(run: seq<Cluster>)
    requires |run| > 0 && IsRun(run)
    ensures |Last(run).nodes| == Last(run).cfg.n
  {
    hide IsRun, Inv;
    var L := RunOk(run);
    NodesInConfig(Last(run), L);
  }
}
