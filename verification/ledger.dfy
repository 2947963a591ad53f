/** An auxiliary record of a run: for each transaction, how far it has come and
    which nodes have locked, answered, staged and unlocked; and the sequence of
    writes decided so far. Invariants of nodes and messages are stated against
    it, so that each handler can be checked without looking at other nodes. */
module Ledgers {
  import opened Packet
  import opened Node
  import opened Sets

  datatype Stage =
    | InTransit(msg: Message)
    | Queued
    | Reading
    | Assembling
    | Stamping    // coordinatingWrite, waiting for timestamps
    | Putting     // coordinatingWrite, waiting for writes to be staged
    | Committed
    | Finished    // over, and not committed

  datatype Tx = Tx(
    request: Message,
    since: nat,          // how many writes were decided when the client asked
    stage: Stage,
    coord: int,
    members: set<int>,   // the peers in its quorum
    granted: set<int>,   // members that have locked for it
    answered: set<int>,  // members whose grant the coordinator has counted
    staged: set<int>,    // members that have staged its write
    released: set<int>,  // members that were told to unlock
    timestamp: nat,
    index: nat)          // position among the decided writes

  datatype Decision = Decision(txid: int, key: Key, timestamp: nat, value: Value, quorum: set<int>)

  datatype Ledger = Ledger(txs: map<int, Tx>, history: seq<Decision>)

  // ---------- decided writes ----------

  /** How many writes of a key are decided. */
  function Version(h: seq<Decision>, key: Key): nat {
    if h == [] then 0
    else Version(h[..|h| - 1], key) + if h[|h| - 1].key == key then 1 else 0
  }

  ghost predicate Recorded(h: seq<Decision>, key: Key, v: Stamped) {
    exists i :: 0 <= i < |h| && h[i].key == key && h[i].timestamp == v.timestamp && h[i].value == v.value
  }

  ghost predicate Genuine(h: seq<Decision>, key: Key, v: Stamped) {
    v == ABSENT || Recorded(h, key, v)
  }

  /** A timestamp no older than any of the first `upto` decided writes of the
      key in which node q took part. */
  ghost predicate Covers(h: seq<Decision>, q: int, key: Key, upto: nat, timestamp: nat) {
    forall i :: 0 <= i < upto && i < |h| && h[i].key == key && q in h[i].quorum ==> h[i].timestamp <= timestamp
  }

  lemma VersionBound(h: seq<Decision>, key: Key)
    ensures Version(h, key) <= |h|
  {
    if h != [] { VersionBound(h[..|h| - 1], key); }
  }

  lemma VersionGrows(h: seq<Decision>, key: Key, i: nat)
    requires i <= |h|
    ensures Version(h[..i], key) <= Version(h, key)
  {
    if i < |h| {
      VersionGrows(h[..|h| - 1], key, i);
      assert h[..|h| - 1][..i] == h[..i];
    } else {
      assert h[..i] == h;
    }
  }

  /** The i-th decided write of a key carries timestamp i. */
  ghost predicate Numbered(h: seq<Decision>) {
    forall i :: 0 <= i < |h| ==> h[i].timestamp == Version(h[..i], h[i].key) + 1
  }

  lemma {:induction false} LastWrite(h: seq<Decision>, key: Key) returns (i: nat)
    requires Numbered(h) && Version(h, key) > 0
    ensures i < |h| && h[i].key == key && h[i].timestamp == Version(h, key)
  {
    i := |h| - 1;
    if h[i].key != key {
      var g := h[..i];
      forall j | 0 <= j < |g| ensures g[j].timestamp == Version(g[..j], g[j].key) + 1 {
        assert g[..j] == h[..j] && g[j] == h[j];
      }
      i := LastWrite(g, key);
    }
  }

  lemma NumberedOrder(h: seq<Decision>, i: nat, j: nat)
    requires Numbered(h) && i < j < |h| && h[i].key == h[j].key
    ensures h[i].timestamp < h[j].timestamp
  {
    var g := h[..j];
    var key := h[i].key;
    assert g[..i + 1][..i] == h[..i];
    assert g[..i + 1][i] == h[i];
    assert Version(g[..i + 1], key) == Version(h[..i], key) + 1 by {
      assert g[..i + 1][..|g[..i + 1]| - 1] == h[..i];
    }
    VersionGrows(g, key, i + 1);
  }

  /** A value and its timestamp determine each other. */
  lemma RecordedUnique(h: seq<Decision>, key: Key, v: Stamped, u: Stamped)
    requires Numbered(h) && Genuine(h, key, v) && Genuine(h, key, u) && v.timestamp == u.timestamp
    ensures v == u
  {
    if v != ABSENT {
      var i :| 0 <= i < |h| && h[i].key == key && h[i].timestamp == v.timestamp && h[i].value == v.value;
      if u != ABSENT {
        var j :| 0 <= j < |h| && h[j].key == key && h[j].timestamp == u.timestamp && h[j].value == u.value;
        if i < j { NumberedOrder(h, i, j); } else if j < i { NumberedOrder(h, j, i); }
      }
    }
  }

  lemma RecordedBound(h: seq<Decision>, key: Key, v: Stamped)
    requires Numbered(h) && Genuine(h, key, v)
    ensures v.timestamp <= Version(h, key)
    ensures v == ABSENT || v.timestamp > 0
  {
    if v != ABSENT {
      var i :| 0 <= i < |h| && h[i].key == key && h[i].timestamp == v.timestamp && h[i].value == v.value;
      assert h[..i + 1][..i] == h[..i];
      assert Version(h[..i + 1], key) == Version(h[..i], key) + 1 by {
        assert h[..i + 1][..|h[..i + 1]| - 1] == h[..i];
      }
      VersionGrows(h, key, i + 1);
    }
  }

  // ---------- transactions ----------

  predicate InProgress(x: Tx) { x.stage.Stamping? || x.stage.Putting? }

  predicate Active(x: Tx) { x.stage.Reading? || x.stage.Assembling? || InProgress(x) }

  predicate Begun(x: Tx) { !x.stage.InTransit? && !x.stage.Queued? }

  predicate Over(x: Tx) { x.stage.Committed? || x.stage.Finished? }

  predicate Chosen(x: Tx) { x.stage.Putting? || Over(x) }

  /** Node q is committed to no other write than x. */
  predicate Holds(x: Tx, q: int) {
    (q in x.granted && q !in x.released) || (q == x.coord && InProgress(x))
  }

  function Quorum(x: Tx): set<int> { x.members + {x.coord} }

  function DecisionOf(t: int, x: Tx): Decision {
    Decision(t, x.request.key, x.timestamp, x.request.value, Quorum(x))
  }

  ghost predicate TxOk(cfg: Config, h: seq<Decision>, t: int, x: Tx) {
    && x.request.id == t >= 0 && IsClientRequest(x.request) && x.request.src == cfg.n && x.request.key != []
    && x.since <= |h|
    && x.coord !in x.members && InRange(x.members, cfg.n)
    && (!x.stage.InTransit? ==> 0 <= x.coord < cfg.n)
    && (x.stage.InTransit? ==> SameRequest(x.stage.msg, x.request))
    && (!Begun(x) ==> x.members == {})
    && x.answered <= x.granted <= x.members && x.staged <= x.granted
    && (x.granted != {} ==> IsWrite(x.request))
    && (x.stage.Reading? ==> IsRead(x.request) && |x.members| == cfg.r - 1)
    && (x.stage.Assembling? || InProgress(x) || x.stage.Committed? ==> IsWrite(x.request) && |x.members| == cfg.w - 1)
    && (InProgress(x) || x.stage.Committed? ==> x.answered == x.members)
    && x.released <= x.members && (x.released != {} ==> Over(x))
    && (x.staged != {} ==> Chosen(x))
    && (x.stage.Putting? ==> x.timestamp == Version(h, x.request.key) + 1)
    && (x.stage.Putting? || x.stage.Committed? ==>
          (x.request.kind.ClientStrongWriteRequest? ==> x.timestamp == x.request.timestamp))
    && (x.stage.Committed? ==>
          x.staged == x.members && x.since <= x.index < |h| && h[x.index] == DecisionOf(t, x))
  }

  ghost predicate DecisionOk(L: Ledger, i: nat)
    requires i < |L.history|
  {
    var d := L.history[i];
    d.txid in L.txs && L.txs[d.txid].stage.Committed? && L.txs[d.txid].index == i
  }

  /** No node holds for two transactions. */
  ghost predicate Exclusive(L: Ledger) {
    forall q, t, u :: t in L.txs && u in L.txs && Holds(L.txs[t], q) && Holds(L.txs[u], q) ==> t == u
  }

  /** A node still locked by a decided write took part in no later one. */
  ghost predicate Latest(L: Ledger) {
    forall t, q, j :: t in L.txs && L.txs[t].stage.Committed? && Holds(L.txs[t], q) && L.txs[t].index < j < |L.history|
      ==> q !in L.history[j].quorum
  }

  ghost predicate LedgerOk(cfg: Config, L: Ledger) {
    && (forall t :: t in L.txs ==> TxOk(cfg, L.history, t, L.txs[t]))
    && (forall i :: 0 <= i < |L.history| ==> DecisionOk(L, i))
    && Numbered(L.history)
    && Exclusive(L)
    && Latest(L)
  }

  // ---------- how the record may change while one node acts ----------

  predicate StageStep(a: Stage, b: Stage) {
    || a == b
    || (a.InTransit? && (b.InTransit? || b.Queued?))
    || (a.Queued? && (b.Reading? || b.Assembling? || b.Finished?))
    || (a.Reading? && b.Finished?)
    || (a.Assembling? && (b.Stamping? || b.Finished?))
    || (a.Stamping? && (b.Putting? || b.Finished?))
    || (a.Putting? && (b.Committed? || b.Finished?))
  }

  predicate SameButFor(a: set<int>, b: set<int>, p: int) { a <= b <= a + {p} }

  ghost predicate TxEvolves(t: int, x: Tx, y: Tx, p: int, used: Message) {
    && y.request == x.request && y.since == x.since
    && (!x.stage.InTransit? ==> y.coord == x.coord)
    && (Begun(x) ==> y.members == x.members)
    && SameButFor(x.granted, y.granted, p) && SameButFor(x.staged, y.staged, p) && SameButFor(x.released, y.released, p)
    && StageStep(x.stage, y.stage)
    && (y.stage != x.stage && !y.stage.InTransit? ==> y.coord == p)
    && (x.stage.InTransit? && y.stage != x.stage ==> IsClientRequest(used) && x.stage == InTransit(used))
    && (y.answered == x.answered || (IsGrant(used) && used.id == t && y.answered == x.answered + {used.src}))
    && (y.answered != x.answered ==> y.coord == p)
    && (Chosen(x) ==> y.timestamp == x.timestamp)
    && (x.stage.Committed? ==> y.index == x.index)
  }

  ghost predicate FreshTx(L: Ledger, t: int, y: Tx) {
    && y.stage.InTransit? && y.members == y.granted == y.answered == y.staged == y.released == {}
    && y.since == |L.history|
  }

  ghost predicate Extends(h: seq<Decision>, g: seq<Decision>) {
    |h| <= |g| && g[..|h|] == h
  }

  /** The part the other nodes of its quorum play in a new decision. */
  ghost predicate DecidedBy(L: Ledger, d: Decision, p: int) {
    && d.txid in L.txs
    && (forall t :: t in L.txs ==> !InProgress(L.txs[t]))
    && (forall q :: q in d.quorum && q != p ==>
          Holds(L.txs[d.txid], q) && q in L.txs[d.txid].staged && q in L.txs[d.txid].members)
  }

  /** Stands for the acting party when a client sends a request. */
  const CLIENT := -1

  ghost predicate Evolves(L: Ledger, L': Ledger, p: int, used: Message) {
    && (forall t :: t in L.txs ==> t in L'.txs && TxEvolves(t, L.txs[t], L'.txs[t], p, used))
    && (forall t :: t in L'.txs && t !in L.txs ==> p == CLIENT && FreshTx(L, t, L'.txs[t]))
    && Extends(L.history, L'.history)
    && (|L'.history| > |L.history| ==>
          |L'.history| == |L.history| + 1 && DecidedBy(L', L'.history[|L.history|], p))
  }

  // ---------- write quorums exclude each other ----------

  lemma QuorumSize(cfg: Config, h: seq<Decision>, t: int, x: Tx)
    requires TxOk(cfg, h, t, x) && Begun(x)
    ensures InRange(Quorum(x), cfg.n) && |Quorum(x)| == |x.members| + 1
  {}

  predicate ValidConfig(cfg: Config) {
    1 <= cfg.r <= cfg.n && 2 <= cfg.w <= cfg.n && 2 * cfg.w > cfg.n
  }

  predicate StrictConfig(cfg: Config) { ValidConfig(cfg) && cfg.r + cfg.w > cfg.n }

  lemma AllHold(cfg: Config, L: Ledger, t: int, q: int)
    requires LedgerOk(cfg, L) && t in L.txs && InProgress(L.txs[t]) && q in Quorum(L.txs[t])
    ensures Holds(L.txs[t], q)
  {
    assert TxOk(cfg, L.history, t, L.txs[t]);
  }

  /** At most one write is between having all its locks and deciding. */
  lemma MutualExclusion(cfg: Config, L: Ledger, t: int, u: int)
    requires ValidConfig(cfg) && LedgerOk(cfg, L)
    requires t in L.txs && u in L.txs && InProgress(L.txs[t]) && InProgress(L.txs[u])
    ensures t == u
  {
    QuorumSize(cfg, L.history, t, L.txs[t]);
    QuorumSize(cfg, L.history, u, L.txs[u]);
    var q := Overlap(Quorum(L.txs[t]), Quorum(L.txs[u]), cfg.n);
    AllHold(cfg, L, t, q);
    AllHold(cfg, L, u, q);
  }

  // ---------- the ways one transaction advances ----------

  function Update(L: Ledger, t: int, x: Tx): Ledger { L.(txs := L.txs[t := x]) }

  /** Changing one transaction, with no new decision, keeps the record sound if
      the new entry is sound and holds no node it did not hold before, except
      nodes nobody holds. */
  lemma UpdateOk(cfg: Config, L: Ledger, t: int, y: Tx)
    requires LedgerOk(cfg, L) && TxOk(cfg, L.history, t, y)
    requires t in L.txs ==> (L.txs[t].stage.Committed? ==> y.stage.Committed? && y.index == L.txs[t].index)
    requires y.stage.Committed? ==> t in L.txs && L.txs[t].stage.Committed? && forall q :: Holds(y, q) ==>
              Holds(L.txs[t], q)
    requires forall q :: Holds(y, q) ==>
              (t in L.txs && Holds(L.txs[t], q)) || (forall u :: u in L.txs ==> !Holds(L.txs[u], q))
    ensures LedgerOk(cfg, Update(L, t, y))
  {
    var L' := Update(L, t, y);
    forall i | 0 <= i < |L'.history| ensures DecisionOk(L', i) {
      assert DecisionOk(L, i);
    }
    forall q, u, v | u in L'.txs && v in L'.txs && Holds(L'.txs[u], q) && Holds(L'.txs[v], q) ensures u == v {
      if u != t { assert u in L.txs && L.txs[u] == L'.txs[u]; }
      if v != t { assert v in L.txs && L.txs[v] == L'.txs[v]; }
    }
    forall u, q, j | u in L'.txs && L'.txs[u].stage.Committed? && Holds(L'.txs[u], q) &&
        L'.txs[u].index < j < |L'.history|
      ensures q !in L'.history[j].quorum
    {
      assert u in L.txs && L.txs[u].stage.Committed? && L.txs[u].index == L'.txs[u].index;
      assert Holds(L.txs[u], q);
    }
  }


  lemma UpdateEvolves(L: Ledger, t: int, y: Tx, p: int, used: Message)
    requires t in L.txs && TxEvolves(t, L.txs[t], y, p, used)
    ensures Evolves(L, Update(L, t, y), p, used)
  {}

  lemma StutterEvolves(L: Ledger, p: int, used: Message)
    ensures Evolves(L, L, p, used)
  {}

  /** A client sends a request under a fresh id. */
  function Issue(L: Ledger, m: Message): Ledger {
    Update(L, m.id, Tx(m, |L.history|, InTransit(m), -1, {}, {}, {}, {}, {}, 0, 0))
  }

  lemma IssueOk(cfg: Config, L: Ledger, m: Message, used: Message)
    requires LedgerOk(cfg, L) && m.id !in L.txs && m.id >= 0 && IsClientRequest(m) && m.src == cfg.n && m.key != []
    ensures LedgerOk(cfg, Issue(L, m)) && Evolves(L, Issue(L, m), CLIENT, used)
  {
    UpdateOk(cfg, L, m.id, Issue(L, m).txs[m.id]);
    hide LedgerOk;
    assert FreshTx(L, m.id, Issue(L, m).txs[m.id]);
    forall t | t in L.txs ensures TxEvolves(t, L.txs[t], Issue(L, m).txs[t], CLIENT, used) {}
    hide TxEvolves, FreshTx;
  }

  /** A request is passed on to another node. */
  function PassOn(L: Ledger, m: Message, target: int): Ledger
    requires m.id in L.txs
  {
    Update(L, m.id, L.txs[m.id].(stage := InTransit(m.(dest := target))))
  }

  lemma PassOnOk(cfg: Config, L: Ledger, m: Message, target: int, p: int)
    requires LedgerOk(cfg, L) && m.id in L.txs && L.txs[m.id].stage == InTransit(m) && IsClientRequest(m)
    ensures LedgerOk(cfg, PassOn(L, m, target)) && Evolves(L, PassOn(L, m, target), p, m)
  {
    var y := PassOn(L, m, target).txs[m.id];
    UpdateOk(cfg, L, m.id, y);
    UpdateEvolves(L, m.id, y, p, m);
  }

  /** A request joins the queue of the node that will coordinate it. */
  function Accept(L: Ledger, m: Message, p: int): Ledger
    requires m.id in L.txs
  {
    Update(L, m.id, L.txs[m.id].(stage := Queued, coord := p))
  }

  lemma AcceptOk(cfg: Config, L: Ledger, m: Message, p: int)
    requires LedgerOk(cfg, L) && m.id in L.txs && L.txs[m.id].stage == InTransit(m) && IsClientRequest(m)
    requires 0 <= p < cfg.n
    ensures LedgerOk(cfg, Accept(L, m, p)) && Evolves(L, Accept(L, m, p), p, m)
  {
    var y := Accept(L, m, p).txs[m.id];
    UpdateOk(cfg, L, m.id, y);
    UpdateEvolves(L, m.id, y, p, m);
  }

  /** The coordinator draws a quorum. */
  function Begin(L: Ledger, t: int, peers: set<int>): Ledger
    requires t in L.txs
  {
    Update(L, t, L.txs[t].(stage := if IsRead(L.txs[t].request) then Reading else Assembling, members := peers))
  }

  lemma BeginOk(cfg: Config, L: Ledger, t: int, peers: set<int>, used: Message)
    requires LedgerOk(cfg, L) && t in L.txs && L.txs[t].stage.Queued?
    requires InRange(peers, cfg.n) && L.txs[t].coord !in peers
    requires |peers| == (if IsRead(L.txs[t].request) then cfg.r else cfg.w) - 1
    ensures LedgerOk(cfg, Begin(L, t, peers)) && Evolves(L, Begin(L, t, peers), L.txs[t].coord, used)
  {
    var y := Begin(L, t, peers).txs[t];
    UpdateOk(cfg, L, t, y);
    UpdateEvolves(L, t, y, L.txs[t].coord, used);
  }

  /** The coordinator gives up, or a read is over. */
  function Finish(L: Ledger, t: int): Ledger
    requires t in L.txs
  {
    Update(L, t, L.txs[t].(stage := Finished))
  }

  lemma FinishOk(cfg: Config, L: Ledger, t: int, used: Message)
    requires LedgerOk(cfg, L) && t in L.txs && (L.txs[t].stage.Queued? || Active(L.txs[t]))
    ensures LedgerOk(cfg, Finish(L, t)) && Evolves(L, Finish(L, t), L.txs[t].coord, used)
  {
    var y := Finish(L, t).txs[t];
    UpdateOk(cfg, L, t, y);
    UpdateEvolves(L, t, y, L.txs[t].coord, used);
  }

  /** Member p locks for t. */
  function Grant(L: Ledger, t: int, p: int): Ledger
    requires t in L.txs
  {
    Update(L, t, L.txs[t].(granted := L.txs[t].granted + {p}))
  }

  lemma GrantOk(cfg: Config, L: Ledger, t: int, p: int, used: Message)
    requires LedgerOk(cfg, L) && t in L.txs && p in L.txs[t].members && IsWrite(L.txs[t].request)
    requires forall u :: u in L.txs ==> !Holds(L.txs[u], p)
    requires p !in L.txs[t].granted
    ensures LedgerOk(cfg, Grant(L, t, p)) && Evolves(L, Grant(L, t, p), p, used)
  {
    var x := L.txs[t];
    assert TxOk(cfg, L.history, t, x);
    UpdateOk(cfg, L, t, Grant(L, t, p).txs[t]);
    UpdateEvolves(L, t, Grant(L, t, p).txs[t], p, used);
  }

  /** The coordinator counts a grant; with all of them it starts to write. */
  function Count(L: Ledger, t: int, q: int): Ledger
    requires t in L.txs
  {
    var x := L.txs[t];
    var answered := x.answered + {q};
    Update(L, t, x.(answered := answered, stage := if answered == x.members then Stamping else x.stage))
  }

  lemma CountOk(cfg: Config, L: Ledger, t: int, used: Message)
    requires LedgerOk(cfg, L) && t in L.txs && L.txs[t].stage.Assembling?
    requires IsGrant(used) && used.id == t && used.src in L.txs[t].granted && used.src !in L.txs[t].answered
    requires forall u :: u in L.txs ==> !Holds(L.txs[u], L.txs[t].coord)
    ensures LedgerOk(cfg, Count(L, t, used.src)) && Evolves(L, Count(L, t, used.src), L.txs[t].coord, used)
  {
    var x, y := L.txs[t], Count(L, t, used.src).txs[t];
    assert TxOk(cfg, L.history, t, x);
    UpdateOk(cfg, L, t, y);
    UpdateEvolves(L, t, y, x.coord, used);
  }

  /** The coordinator has chosen the timestamp. */
  function Choose(L: Ledger, t: int): Ledger
    requires t in L.txs
  {
    Update(L, t, L.txs[t].(stage := Putting, timestamp := Version(L.history, L.txs[t].request.key) + 1))
  }

  lemma ChooseOk(cfg: Config, L: Ledger, t: int, used: Message)
    requires LedgerOk(cfg, L) && t in L.txs && L.txs[t].stage.Stamping?
    requires L.txs[t].request.kind.ClientStrongWriteRequest? ==>
               L.txs[t].request.timestamp == Version(L.history, L.txs[t].request.key) + 1
    ensures LedgerOk(cfg, Choose(L, t)) && Evolves(L, Choose(L, t), L.txs[t].coord, used)
  {
    var x, y := L.txs[t], Choose(L, t).txs[t];
    assert TxOk(cfg, L.history, t, x);
    UpdateOk(cfg, L, t, y);
    UpdateEvolves(L, t, y, x.coord, used);
  }

  /** Member p stages the write. */
  function StageAt(L: Ledger, t: int, p: int): Ledger
    requires t in L.txs
  {
    Update(L, t, L.txs[t].(staged := L.txs[t].staged + {p}))
  }

  lemma StageOk(cfg: Config, L: Ledger, t: int, p: int, used: Message)
    requires LedgerOk(cfg, L) && t in L.txs && Chosen(L.txs[t]) && p in L.txs[t].granted
    ensures LedgerOk(cfg, StageAt(L, t, p)) && Evolves(L, StageAt(L, t, p), p, used)
  {
    var x, y := L.txs[t], StageAt(L, t, p).txs[t];
    assert TxOk(cfg, L.history, t, x);
    UpdateOk(cfg, L, t, y);
    UpdateEvolves(L, t, y, p, used);
  }

  /** Member p is told to unlock. */
  function Release(L: Ledger, t: int, p: int): Ledger
    requires t in L.txs
  {
    Update(L, t, L.txs[t].(released := L.txs[t].released + {p}))
  }

  lemma ReleaseOk(cfg: Config, L: Ledger, t: int, p: int, used: Message)
    requires LedgerOk(cfg, L) && t in L.txs && Over(L.txs[t]) && p in L.txs[t].members
    ensures LedgerOk(cfg, Release(L, t, p)) && Evolves(L, Release(L, t, p), p, used)
  {
    var x, y := L.txs[t], Release(L, t, p).txs[t];
    assert TxOk(cfg, L.history, t, x);
    UpdateOk(cfg, L, t, y);
    UpdateEvolves(L, t, y, p, used);
  }

  /** The coordinator commits: the write is decided. */
  function Decide(L: Ledger, t: int): Ledger
    requires t in L.txs
  {
    var y := L.txs[t].(stage := Committed, index := |L.history|);
    Ledger(L.txs[t := y], L.history + [DecisionOf(t, y)])
  }

  lemma DecideTxOk(cfg: Config, L: Ledger, t: int, u: int)
    requires ValidConfig(cfg) && LedgerOk(cfg, L) && t in L.txs && L.txs[t].stage.Putting?
    requires L.txs[t].staged == L.txs[t].members
    requires u in L.txs
    ensures TxOk(cfg, Decide(L, t).history, u, Decide(L, t).txs[u])
    ensures !InProgress(Decide(L, t).txs[u])
  {
    assert TxOk(cfg, L.history, t, L.txs[t]);
    assert TxOk(cfg, L.history, u, L.txs[u]);
    if u != t && InProgress(L.txs[u]) { MutualExclusion(cfg, L, t, u); }
  }

  lemma DecideNumbered(L: Ledger, t: int)
    requires Numbered(L.history) && t in L.txs && L.txs[t].timestamp == Version(L.history, L.txs[t].request.key) + 1
    ensures Numbered(Decide(L, t).history)
  {
    var h, g := L.history, Decide(L, t).history;
    forall i | 0 <= i < |g| ensures g[i].timestamp == Version(g[..i], g[i].key) + 1 {
      if i < |h| { assert g[..i] == h[..i]; } else { assert g[..i] == h; }
    }
  }

  lemma DecideLatest(cfg: Config, L: Ledger, t: int, u: int, q: int, j: nat)
    requires LedgerOk(cfg, L) && t in L.txs && L.txs[t].stage.Putting?
    requires u in L.txs
    requires Decide(L, t).txs[u].stage.Committed? && Holds(Decide(L, t).txs[u], q)
    requires Decide(L, t).txs[u].index < j < |Decide(L, t).history|
    ensures q !in Decide(L, t).history[j].quorum
  {
    assert u != t && Holds(L.txs[u], q);
    if j == |L.history| && q in Quorum(L.txs[t]) { AllHold(cfg, L, t, q); }
  }

  lemma DecideExclusive(cfg: Config, L: Ledger, t: int)
    requires LedgerOk(cfg, L) && t in L.txs && L.txs[t].stage.Putting?
    ensures Exclusive(Decide(L, t))
  {
    var L' := Decide(L, t);
    forall q, u, v | u in L'.txs && v in L'.txs && Holds(L'.txs[u], q) && Holds(L'.txs[v], q) ensures u == v {
      assert Holds(L.txs[u], q) && Holds(L.txs[v], q);
    }
  }

  /** Every other node of its quorum has staged the write just decided, and still holds it. */
  lemma DecidedByAll(cfg: Config, L: Ledger, t: int)
    requires ValidConfig(cfg) && LedgerOk(cfg, L) && t in L.txs && L.txs[t].stage.Putting?
    requires L.txs[t].staged == L.txs[t].members
    ensures DecidedBy(Decide(L, t), Decide(L, t).history[|L.history|], L.txs[t].coord)
  {
    var L', x := Decide(L, t), L.txs[t];
    forall u | u in L'.txs ensures !InProgress(L'.txs[u]) { DecideTxOk(cfg, L, t, u); }
    assert TxOk(cfg, L.history, t, x);
    hide LedgerOk, InProgress;
    forall q | q in L'.history[|L.history|].quorum && q != x.coord
      ensures Holds(L'.txs[t], q) && q in L'.txs[t].staged && q in L'.txs[t].members
    {
      assert q in x.members && x.released == {};
    }
  }

  lemma DecideTxEvolves(cfg: Config, L: Ledger, t: int, u: int, used: Message)
    requires LedgerOk(cfg, L) && t in L.txs && L.txs[t].stage.Putting? && u in L.txs
    ensures TxEvolves(u, L.txs[u], Decide(L, t).txs[u], L.txs[t].coord, used)
  {}

  lemma DecideEvolves(cfg: Config, L: Ledger, t: int, used: Message)
    requires ValidConfig(cfg) && LedgerOk(cfg, L) && t in L.txs && L.txs[t].stage.Putting?
    requires L.txs[t].staged == L.txs[t].members
    ensures Evolves(L, Decide(L, t), L.txs[t].coord, used)
  {
    var L', p := Decide(L, t), L.txs[t].coord;
    assert L'.history[..|L.history|] == L.history;
    assert Extends(L.history, L'.history) && |L'.history| == |L.history| + 1 && L'.txs.Keys == L.txs.Keys;
    hide Extends, TxEvolves, FreshTx, DecidedBy, LedgerOk;
    DecidedByAll(cfg, L, t);
    forall u | u in L.txs ensures TxEvolves(u, L.txs[u], L'.txs[u], p, used) { DecideTxEvolves(cfg, L, t, u, used); }
    hide Decide;
  }

  lemma DecideOk(cfg: Config, L: Ledger, t: int, used: Message)
    requires ValidConfig(cfg) && LedgerOk(cfg, L) && t in L.txs && L.txs[t].stage.Putting?
    requires L.txs[t].staged == L.txs[t].members
    ensures LedgerOk(cfg, Decide(L, t)) && Evolves(L, Decide(L, t), L.txs[t].coord, used)
  {
    var L' := Decide(L, t);
    assert forall u :: u in L'.txs ==> TxOk(cfg, L'.history, u, L'.txs[u]) by {
      forall u | u in L'.txs ensures TxOk(cfg, L'.history, u, L'.txs[u]) { DecideTxOk(cfg, L, t, u); }
    }
    assert forall i :: 0 <= i < |L'.history| ==> DecisionOk(L', i) by {
      forall i | 0 <= i < |L'.history| ensures DecisionOk(L', i) {
        if i < |L.history| { assert DecisionOk(L, i); }
      }
    }
    assert TxOk(cfg, L.history, t, L.txs[t]);
    DecideNumbered(L, t);
    DecideExclusive(cfg, L, t);
    forall u, q, j | u in L'.txs && L'.txs[u].stage.Committed? && Holds(L'.txs[u], q) &&
        L'.txs[u].index < j < |L'.history|
      ensures q !in L'.history[j].quorum
    {
      DecideLatest(cfg, L, t, u, q, j);
    }
    DecideEvolves(cfg, L, t, used);
  }
}
