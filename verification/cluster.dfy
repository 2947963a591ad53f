/** The whole system: nodes, messages in flight, and what clients observe.
    Messages are lost, delayed and reordered at will, and all but client requests
    and granted locks may also be delivered any number of times. */
module Clusters {
  import opened Packet
  import opened Node
  import opened Ledgers

  /** What a client sees: it sends a request, or a successful answer is sent to it. */
  datatype Event = Invoked(request: Message) | Returned(answer: Message)

  datatype Cluster = Cluster(
    cfg: Config, nodes: seq<Node>, net: set<Message>, once: multiset<Message>, trace: seq<Event>)

  function Once(out: set<Message>): set<Message> { set m | m in out && OneShot(m) }

  /** A write the client is told has succeeded. */
  predicate WriteDone(e: Event) { e.Returned? && e.answer.kind.ClientWriteResponse? }

  predicate WriteOf(e: Event, key: Key) { WriteDone(e) && e.answer.key == key }

  /** How many writes of a key have been acknowledged. */
  function Acks(trace: seq<Event>, key: Key): nat {
    if trace == [] then 0
    else Acks(trace[..|trace| - 1], key) + if WriteOf(trace[|trace| - 1], key) then 1 else 0
  }

  function Answers(e: Effect): seq<Event> {
    if e.reply.Some? && e.reply.value.ok then [Returned(e.reply.value)] else []
  }

  function Sent(e: Effect): set<Message> {
    e.out - Once(e.out) + if e.reply.Some? then {e.reply.value} else {}
  }

  function Apply(s: Cluster, p: int, e: Effect): Cluster
    requires 0 <= p < |s.nodes|
  {
    s.(nodes := s.nodes[p := e.node], net := s.net + Sent(e), once := s.once + multiset(Once(e.out)),
       trace := s.trace + Answers(e))
  }

  ghost predicate Init(s: Cluster) {
    && ValidConfig(s.cfg) && |s.nodes| == s.cfg.n
    && (forall i :: 0 <= i < s.cfg.n ==> s.nodes[i] == New(i, s.cfg))
    && s.net == {} && s.once == multiset{} && s.trace == []
  }

  predicate NewId(s: Cluster, id: int) {
    forall i :: 0 <= i < |s.trace| && s.trace[i].Invoked? ==> s.trace[i].request.id != id
  }

  ghost predicate Invoke(s: Cluster, s': Cluster, m: Message) {
    && IsClientRequest(m) && m.src == s.cfg.n && m.key != [] && m.id >= 0 && NewId(s, m.id)
    && s' == s.(once := s.once + multiset{m}, trace := s.trace + [Invoked(m)])
  }

  predicate Available(s: Cluster, m: Message) {
    0 <= m.dest < |s.nodes| && if OneShot(m) then m in s.once else m in s.net
  }

  function Consume(s: Cluster, m: Message): Cluster {
    if OneShot(m) then s.(once := s.once - multiset{m}) else s
  }

  /** A node handles a message and then, if idle, takes the next queued request. */
  ghost predicate Deliver(s: Cluster, s': Cluster, m: Message, c: Choice, d: Choice) {
    && Available(s, m)
    && var n, s1 := s.nodes[m.dest], Consume(s, m);
       if n.disabled then s' == s1
       else
         && !LateStamp(n, m) && ChoiceOk(n, m, c)
         && PeersOk(Dispatch(n, m, c).node, d)
         && s' == Apply(Apply(s1, m.dest, Dispatch(n, m, c)), m.dest, TakeNext(Dispatch(n, m, c).node, d))
  }

  ghost predicate Tick(s: Cluster, s': Cluster, p: int, d: Choice) {
    && 0 <= p < |s.nodes| && !s.nodes[p].disabled
    && PeersOk(Timeout(s.nodes[p]).node, d)
    && s' == Apply(Apply(s, p, Timeout(s.nodes[p])), p, TakeNext(Timeout(s.nodes[p]).node, d))
  }

  ghost predicate Expire(s: Cluster, s': Cluster, p: int, m: Message) {
    && 0 <= p < |s.nodes| && !s.nodes[p].disabled && m in s.nodes[p].timers
    && s' == Apply(s, p, RequestTimeout(s.nodes[p], m))
  }

  /** A node may crash unless a write of another node has it locked. */
  ghost predicate Crash(s: Cluster, s': Cluster, p: int) {
    && 0 <= p < |s.nodes| && !s.nodes[p].disabled && !s.nodes[p].mode.ProcessingWrite?
    && s' == Apply(s, p, Silent(Fail(s.nodes[p])))
  }

  ghost predicate Restart(s: Cluster, s': Cluster, p: int) {
    0 <= p < |s.nodes| && s.nodes[p].disabled && s' == Apply(s, p, Silent(Recover(s.nodes[p])))
  }

  ghost predicate Propagate(s: Cluster, s': Cluster, p: int) {
    0 <= p < |s.nodes| && s' == Apply(s, p, StreamWrites(s.nodes[p]))
  }

  /** One step, in a run short enough that no timestamp wraps around. */
  ghost predicate Next(s: Cluster, s': Cluster) {
    && |s.trace| + 1 < TIMESTAMPS
    && (|| (exists m :: Invoke(s, s', m))
        || (exists m, c, d :: Deliver(s, s', m, c, d))
        || (exists p, d :: Tick(s, s', p, d))
        || (exists p, m :: Expire(s, s', p, m))
        || (exists p :: Crash(s, s', p))
        || (exists p :: Restart(s, s', p))
        || (exists p :: Propagate(s, s', p)))
  }

  ghost predicate IsRun(run: seq<Cluster>) {
    && |run| > 0 && Init(run[0])
    && (forall i :: 0 <= i < |run| - 1 ==> Next(run[i], run[i + 1]))
  }
}

/** Every run keeps the invariant. */
module Runs {
  import opened Packet
  import opened Node
  import opened Ledgers
  import opened Invariants
  import opened Handlers
  import opened Coordination
  import opened Clusters

  /** Answers sent before a request count as decided when it begins. */
  ghost predicate Before(L: Ledger, answer: Message, request: Message) {
    request.id in L.txs && L.txs[request.id].since <= |L.history| && answer.key == request.key ==>
      answer.timestamp <= Version(L.history[..L.txs[request.id].since], request.key)
  }

  ghost predicate Ordered(L: Ledger, trace: seq<Event>) {
    forall i, j :: 0 <= i < j < |trace| && trace[i].Returned? && trace[j].Invoked? ==>
      Before(L, trace[i].answer, trace[j].request)
  }

  ghost predicate RequestsKnown(L: Ledger, trace: seq<Event>) {
    && (forall j :: 0 <= j < |trace| && trace[j].Invoked? ==>
          trace[j].request.id in L.txs && L.txs[trace[j].request.id].request == trace[j].request)
    && (forall t :: t in L.txs ==> Asked(trace, t))
  }

  ghost predicate AnswersSound(cfg: Config, L: Ledger, trace: seq<Event>) {
    forall j :: 0 <= j < |trace| && trace[j].Returned? ==>
      && trace[j].answer.ok && (trace[j].answer.kind.ClientReadResponse? || trace[j].answer.kind.ClientWriteResponse?)
      && AnswerOk(cfg, L, trace[j].answer)
  }

  /** Acknowledged writes carry consecutive timestamps per key. */
  ghost predicate Consecutive(trace: seq<Event>) {
    forall j :: 0 <= j < |trace| && WriteDone(trace[j]) ==>
      trace[j].answer.timestamp == Acks(trace[..j], trace[j].answer.key) + 1
  }

  ghost predicate Acknowledges(e: Event, d: Decision) {
    && WriteDone(e) && e.answer.id == d.txid && e.answer.key == d.key
    && e.answer.timestamp == d.timestamp && e.answer.value == d.value
  }

  ghost predicate Acknowledged(trace: seq<Event>, d: Decision) {
    exists j :: 0 <= j < |trace| && Acknowledges(trace[j], d)
  }

  /** The decided writes are the acknowledged ones. */
  ghost predicate DecidedAcked(L: Ledger, trace: seq<Event>) {
    && (forall k :: Acks(trace, k) == Version(L.history, k))
    && (forall i :: 0 <= i < |L.history| ==> Acknowledged(trace, L.history[i]))
  }

  ghost predicate Asked(trace: seq<Event>, id: int) {
    exists i :: 0 <= i < |trace| && trace[i].Invoked? && trace[i].request.id == id
  }

  /** Every answer follows its request. */
  ghost predicate Causal(trace: seq<Event>) {
    forall j :: 0 <= j < |trace| && trace[j].Returned? ==> Asked(trace[..j], trace[j].answer.id)
  }

  ghost predicate TraceOk(cfg: Config, L: Ledger, trace: seq<Event>) {
    && |L.history| <= |trace| && Causal(trace)
    && RequestsKnown(L, trace) && AnswersSound(cfg, L, trace) && Ordered(L, trace)
    && Consecutive(trace) && DecidedAcked(L, trace)
  }

  ghost predicate NodesOk(s: Cluster, L: Ledger) {
    |s.nodes| == s.cfg.n && forall p :: 0 <= p < |s.nodes| ==> NodeOk(s.cfg, L, p, s.nodes[p])
  }

  ghost predicate NetOk(s: Cluster, L: Ledger) {
    && (forall m :: m in s.net ==> !OneShot(m) && MessageOk(s.cfg, L, m))
    && (forall m :: m in s.once ==> OneShot(m) && OnceOk(s.cfg, L, m) && s.once[m] == 1)
  }

  /** Every member of a write that is over has been told so. */
  ghost predicate UnlocksSent(s: Cluster, L: Ledger) {
    forall t, q :: t in L.txs && WriteOver(L.txs[t]) && q in L.txs[t].members ==> Told(t, L.txs[t].coord, q, s.net)
  }

  ghost predicate FailureSent(net: set<Message>, t: int) { exists m :: m in net && IsFailure(m, t) }

  /** Every write that is over without being committed has been answered with a failure. */
  ghost predicate FailuresSent(s: Cluster, L: Ledger) {
    forall t :: t in L.txs && WriteFailed(L.txs[t]) ==> FailureSent(s.net, t)
  }

  ghost predicate Inv(s: Cluster, L: Ledger) {
    && ValidConfig(s.cfg) && LedgerOk(s.cfg, L) && NodesOk(s, L) && NetOk(s, L) && TraceOk(s.cfg, L, s.trace)
    && UnlocksSent(s, L) && FailuresSent(s, L)
  }

  // ---------- the trace ----------

  lemma BeforeStable(cfg: Config, L: Ledger, L': Ledger, p: int, used: Message, a: Message, m: Message)
    requires LedgerOk(cfg, L) && Evolves(L, L', p, used) && m.id in L.txs && Before(L, a, m)
    ensures Before(L', a, m)
  {
    assert TxEvolves(m.id, L.txs[m.id], L'.txs[m.id], p, used) && TxOk(cfg, L.history, m.id, L.txs[m.id]);
    VersionStable(L.history, L'.history, m.key, L.txs[m.id].since);
    hide LedgerOk, Evolves;
  }

  lemma OrderedStable(cfg: Config, L: Ledger, L': Ledger, p: int, used: Message, trace: seq<Event>)
    requires LedgerOk(cfg, L) && Evolves(L, L', p, used)
    requires RequestsKnown(L, trace) && Ordered(L, trace)
    ensures Ordered(L', trace)
  {
    hide LedgerOk, Evolves, Before;
    forall i, j | 0 <= i < j < |trace| && trace[i].Returned? && trace[j].Invoked?
      ensures Before(L', trace[i].answer, trace[j].request)
    {
      BeforeStable(cfg, L, L', p, used, trace[i].answer, trace[j].request);
    }
  }

  /** A step of a node keeps the requests known. */
  lemma KnownStable(L: Ledger, L': Ledger, p: int, used: Message, trace: seq<Event>)
    requires Evolves(L, L', p, used) && p != CLIENT && RequestsKnown(L, trace)
    ensures RequestsKnown(L', trace)
  {
    forall j | 0 <= j < |trace| && trace[j].Invoked?
      ensures trace[j].request.id in L'.txs && L'.txs[trace[j].request.id].request == trace[j].request
    {
      var t := trace[j].request.id;
      assert TxEvolves(t, L.txs[t], L'.txs[t], p, used);
    }
    hide Evolves;
  }

  lemma AnswersStable(cfg: Config, L: Ledger, L': Ledger, p: int, used: Message, trace: seq<Event>)
    requires LedgerOk(cfg, L) && Evolves(L, L', p, used) && AnswersSound(cfg, L, trace)
    ensures AnswersSound(cfg, L', trace)
  {
    hide AnswerOk, LedgerOk, Evolves;
    forall j | 0 <= j < |trace| && trace[j].Returned? ensures AnswerOk(cfg, L', trace[j].answer) {
      AnswerStable(cfg, L, L', p, used, trace[j].answer);
    }
  }

  lemma AcksAppend(trace: seq<Event>, more: seq<Event>, key: Key)
    requires |more| <= 1
    ensures Acks(trace + more, key) == Acks(trace, key) + if |more| == 1 && WriteOf(more[0], key) then 1 else 0
  {
    if |more| == 1 {
      assert (trace + more)[..|trace + more| - 1] == trace;
    } else {
      assert trace + more == trace;
    }
  }

  /** A successful write answer given while a write is decided reports that decision. */
  lemma DecidedAnswer(cfg: Config, L: Ledger, L': Ledger, r: Message)
    requires LedgerOk(cfg, L') && |L'.history| == |L.history| + 1 && L'.history[..|L.history|] == L.history
    requires r.kind.ClientWriteResponse? && r.ok && MessageOk(cfg, L', r) && L'.txs[r.id].index == |L.history|
    ensures Acknowledges(Returned(r), L'.history[|L.history|])
    ensures r.timestamp == Version(L.history, r.key) + 1
  {
    assert AnswerOk(cfg, L', r) && TxOk(cfg, L'.history, r.id, L'.txs[r.id]);
    assert Numbered(L'.history);
    hide LedgerOk;
  }

  lemma HistoryStep(L: Ledger, L': Ledger, p: int, used: Message)
    requires Evolves(L, L', p, used)
    ensures L.history <= L'.history && |L'.history| <= |L.history| + 1
    ensures L'.history == L.history || L'.history == L.history + [L'.history[|L.history|]]
  {
    var h, h' := L.history, L'.history;
    assert h'[..|h|] == h && |h'| <= |h| + 1;
    hide Evolves;
    assert h' == h || h' == h'[..|h|] + [h'[|h|]];
  }

  lemma WriteAnswer(cfg: Config, L: Ledger, L': Ledger, p: int, used: Message, e: Effect)
    requires LedgerOk(cfg, L') && Evolves(L, L', p, used) && ReplySound(cfg, L, L', e.reply)
    ensures |L'.history| <= |L.history| + 1 && |L'.history| - |L.history| <= |Answers(e)|
    ensures L'.history == L.history ==> |Answers(e)| == 1 ==> !WriteDone(Answers(e)[0])
    ensures L'.history != L.history ==>
              && L'.history == L.history + [L'.history[|L.history|]]
              && |Answers(e)| == 1 && Acknowledges(Answers(e)[0], L'.history[|L.history|])
              && Answers(e)[0].answer.timestamp == Version(L.history, Answers(e)[0].answer.key) + 1
  {
    hide LedgerOk, Evolves, MessageOk, Version, AnswerOk;
    HistoryStep(L, L', p, used);
    if |L'.history| > |L.history| { DecidedAnswer(cfg, L, L', e.reply.value); }
    hide Acknowledges;
  }

  lemma VersionAppend(h: seq<Decision>, d: Decision, key: Key)
    ensures Version(h + [d], key) == Version(h, key) + if d.key == key then 1 else 0
  {
    assert (h + [d])[..|h + [d]| - 1] == h;
  }

  lemma AcksStable(cfg: Config, L: Ledger, L': Ledger, p: int, used: Message, trace: seq<Event>, e: Effect)
    requires LedgerOk(cfg, L') && Evolves(L, L', p, used) && ReplySound(cfg, L, L', e.reply)
    requires Consecutive(trace) && DecidedAcked(L, trace)
    ensures Consecutive(trace + Answers(e)) && DecidedAcked(L', trace + Answers(e))
  {
    hide LedgerOk, Evolves, ReplySound;
    var all := trace + Answers(e);
    WriteAnswer(cfg, L, L', p, used, e);
    forall j | 0 <= j < |all| && WriteDone(all[j])
      ensures all[j].answer.timestamp == Acks(all[..j], all[j].answer.key) + 1
    {
      if j < |trace| { assert all[..j] == trace[..j]; } else { assert all[..j] == trace; }
    }
    forall k ensures Acks(all, k) == Version(L'.history, k) {
      AcksAppend(trace, Answers(e), k);
      if L'.history != L.history { VersionAppend(L.history, L'.history[|L.history|], k); }
    }
    forall i | 0 <= i < |L'.history| ensures Acknowledged(all, L'.history[i]) {
      if i < |L.history| {
        AckStays(trace, Answers(e), L.history[i]);
      } else {
        assert Acknowledges(all[|trace|], L'.history[i]);
      }
    }
  }

  lemma AckStays(trace: seq<Event>, more: seq<Event>, d: Decision)
    requires Acknowledged(trace, d)
    ensures Acknowledged(trace + more, d)
  {
    var j :| 0 <= j < |trace| && Acknowledges(trace[j], d);
    assert Acknowledges((trace + more)[j], d);
  }

  lemma TraceStable(cfg: Config, L: Ledger, L': Ledger, p: int, used: Message, trace: seq<Event>, e: Effect)
    requires LedgerOk(cfg, L) && LedgerOk(cfg, L') && Evolves(L, L', p, used) && p != CLIENT
    requires TraceOk(cfg, L, trace) && ReplySound(cfg, L, L', e.reply)
    ensures TraceOk(cfg, L', trace + Answers(e))
  {
    hide LedgerOk, Evolves, Before, AnswerOk, DecidedAcked, Consecutive;
    OrderedStable(cfg, L, L', p, used, trace);
    KnownStable(L, L', p, used, trace);
    AnswersStable(cfg, L, L', p, used, trace);
    AcksStable(cfg, L, L', p, used, trace, e);
    WriteAnswer(cfg, L, L', p, used, e);
    var all := trace + Answers(e);
    assert forall j :: 0 <= j < |trace| ==> all[j] == trace[j];
    assert Ordered(L', all) && AnswersSound(cfg, L', all);
    KnownGrows(L', trace, Answers(e));
    forall i | 0 <= i < |Answers(e)| ensures Answers(e)[i].answer.id in L'.txs {
      assert all[|trace| + i] == Answers(e)[i];
      AnswerKnown(cfg, L', Answers(e)[i].answer);
    }
    CausalGrows(L', trace, Answers(e));
  }

  lemma AnswerKnown(cfg: Config, L: Ledger, a: Message)
    requires AnswerOk(cfg, L, a)
    ensures a.id in L.txs
  {}

  lemma KnownGrows(L: Ledger, trace: seq<Event>, more: seq<Event>)
    requires RequestsKnown(L, trace) && (forall i :: 0 <= i < |more| ==> more[i].Returned?)
    ensures RequestsKnown(L, trace + more)
  {
    forall t | t in L.txs ensures Asked(trace + more, t) {
      var i :| 0 <= i < |trace| && trace[i].Invoked? && trace[i].request.id == t;
      assert (trace + more)[i] == trace[i];
    }
  }

  lemma CausalGrows(L: Ledger, trace: seq<Event>, more: seq<Event>)
    requires RequestsKnown(L, trace) && Causal(trace) && |more| <= 1
    requires forall i :: 0 <= i < |more| ==> more[i].Invoked? || more[i].answer.id in L.txs
    ensures Causal(trace + more)
  {
    var all := trace + more;
    forall j | 0 <= j < |all| && all[j].Returned? ensures Asked(all[..j], all[j].answer.id) {
      if j < |trace| { assert all[..j] == trace[..j]; } else { assert all[..j] == trace; }
    }
  }

  // ---------- one step ----------

  lemma NodesStable(s: Cluster, L: Ledger, L': Ledger, p: int, used: Message, e: Effect)
    requires LedgerOk(s.cfg, L) && NodesOk(s, L) && 0 <= p < |s.nodes| && EffectOk(s.cfg, L, L', p, used, e)
    ensures NodesOk(Apply(s, p, e), L')
  {
    hide NodeOk, LedgerOk, Evolves;
    var s' := Apply(s, p, e);
    forall q | 0 <= q < |s'.nodes| ensures NodeOk(s.cfg, L', q, s'.nodes[q]) {
      if q != p { NodeStable(s.cfg, L, L', p, used, q, s.nodes[q]); }
    }
  }

  lemma NetStable(s: Cluster, L: Ledger, L': Ledger, p: int, used: Message, e: Effect)
    requires LedgerOk(s.cfg, L) && NetOk(s, L) && 0 <= p < |s.nodes| && EffectOk(s.cfg, L, L', p, used, e)
    ensures forall m :: m in Apply(s, p, e).net ==> !OneShot(m) && MessageOk(s.cfg, L', m)
  {
    hide NodeOk, LedgerOk, Evolves, MessageOk, OnceOk, OneShot;
    forall m | m in Apply(s, p, e).net ensures !OneShot(m) && MessageOk(s.cfg, L', m) {
      if m in s.net {
        MessageStable(s.cfg, L, L', p, used, m);
      } else {
        AnswerNotOnce(m);
        if m in e.out { assert SendOk(s.cfg, L, L', used, m); }
      }
    }
  }

  lemma AnswerNotOnce(m: Message)
    ensures m.kind.ClientReadResponse? || m.kind.ClientWriteResponse? ==> !OneShot(m)
  {}

  lemma OnceNetStable(s: Cluster, L: Ledger, L': Ledger, p: int, used: Message, e: Effect)
    requires LedgerOk(s.cfg, L) && NetOk(s, L) && 0 <= p < |s.nodes| && EffectOk(s.cfg, L, L', p, used, e)
    requires OneShot(used) ==> OnceOk(s.cfg, L, used) && used !in s.once
    ensures forall m :: m in Apply(s, p, e).once ==> OneShot(m) && OnceOk(s.cfg, L', m) && Apply(s, p, e).once[m] == 1
  {
    hide NodeOk, LedgerOk, Evolves, MessageOk, OnceOk, OneShot;
    var s' := Apply(s, p, e);
    forall m | m in s'.once ensures OneShot(m) && OnceOk(s.cfg, L', m) && s'.once[m] == 1 {
      assert m in s.once || m in Once(e.out);
      if m in s.once { OnceStable(s.cfg, L, L', p, used, m); }
      if m in Once(e.out) { assert SendOk(s.cfg, L, L', used, m); }
    }
  }

  lemma EffectParts(cfg: Config, L: Ledger, L': Ledger, p: int, used: Message, e: Effect)
    requires EffectOk(cfg, L, L', p, used, e)
    ensures LedgerOk(cfg, L') && Evolves(L, L', p, used) && ReplySound(cfg, L, L', e.reply)
  {
    hide LedgerOk, NodeOk, ReplySound;
  }

  lemma UnlocksStable(s: Cluster, L: Ledger, L': Ledger, p: int, used: Message, e: Effect)
    requires UnlocksSent(s, L) && 0 <= p < |s.nodes| && EffectOk(s.cfg, L, L', p, used, e) && p != CLIENT
    ensures UnlocksSent(Apply(s, p, e), L')
  {
    assert Evolves(L, L', p, used) && MembersTold(L, L', p, e.out);
    forall t, q | t in L'.txs && WriteOver(L'.txs[t]) && q in L'.txs[t].members
      ensures Told(t, L'.txs[t].coord, q, Apply(s, p, e).net)
    {
      assert t in L.txs && TxEvolves(t, L.txs[t], L'.txs[t], p, used);
      if Over(L.txs[t]) {
        assert Told(t, L.txs[t].coord, q, s.net);
      } else {
        assert Told(t, p, q, e.out);
      }
    }
    hide EffectOk;
  }

  lemma FailuresStable(s: Cluster, L: Ledger, L': Ledger, p: int, used: Message, e: Effect)
    requires FailuresSent(s, L) && 0 <= p < |s.nodes| && EffectOk(s.cfg, L, L', p, used, e) && p != CLIENT
    ensures FailuresSent(Apply(s, p, e), L')
  {
    assert Evolves(L, L', p, used) && FailureTold(L, L', e.reply);
    hide EffectOk;
    var net := Apply(s, p, e).net;
    forall t | t in L'.txs && WriteFailed(L'.txs[t]) ensures FailureSent(net, t) {
      assert t in L.txs && TxEvolves(t, L.txs[t], L'.txs[t], p, used);
      if L.txs[t].stage.Finished? {
        var m :| m in s.net && IsFailure(m, t);
        assert m in net;
      } else {
        assert e.reply.value in net && IsFailure(e.reply.value, t);
      }
    }
  }

  lemma ApplyOk(s: Cluster, L: Ledger, L': Ledger, p: int, used: Message, e: Effect)
    requires Inv(s, L) && 0 <= p < |s.nodes| && EffectOk(s.cfg, L, L', p, used, e)
    requires OneShot(used) ==> OnceOk(s.cfg, L, used) && used !in s.once
    ensures Inv(Apply(s, p, e), L')
  {
    hide LedgerOk, EffectOk, Evolves, NodesOk, TraceOk, OnceOk, ReplySound, MessageOk, OneShot, UnlocksSent;
    hide FailuresSent;
    UnlocksStable(s, L, L', p, used, e);
    FailuresStable(s, L, L', p, used, e);
    EffectParts(s.cfg, L, L', p, used, e);
    NodesStable(s, L, L', p, used, e);
    NetStable(s, L, L', p, used, e);
    OnceNetStable(s, L, L', p, used, e);
    TraceStable(s.cfg, L, L', p, used, s.trace, e);
  }

  lemma InitOk(s: Cluster)
    requires Init(s)
    ensures Inv(s, Ledger(map[], []))
  {
    var L := Ledger(map[], []);
    forall p | 0 <= p < |s.nodes| ensures NodeOk(s.cfg, L, p, s.nodes[p]) {
      assert s.nodes[p] == New(p, s.cfg);
    }
  }

  lemma AnswerBound(cfg: Config, L: Ledger, a: Message)
    requires LedgerOk(cfg, L) && AnswerOk(cfg, L, a) && (a.kind.ClientReadResponse? || a.kind.ClientWriteResponse?)
    ensures a.timestamp <= Version(L.history, a.key)
    ensures Genuine(L.history, a.key, Stamped(a.timestamp, a.value))
  {
    assert TxOk(cfg, L.history, a.id, L.txs[a.id]);
    RecordedBound(L.history, a.key, Stamped(a.timestamp, a.value));
    hide LedgerOk;
  }

  lemma InvokeKnown(L: Ledger, trace: seq<Event>, m: Message)
    requires RequestsKnown(L, trace) && m.id !in L.txs
    ensures RequestsKnown(Issue(L, m), trace + [Invoked(m)])
  {
    var L', all := Issue(L, m), trace + [Invoked(m)];
    forall t | t in L'.txs ensures Asked(all, t) {
      if t == m.id {
        assert all[|trace|].request.id == t;
      } else {
        var j :| 0 <= j < |trace| && trace[j].Invoked? && trace[j].request.id == t;
        assert all[j].request.id == t;
      }
    }
  }

  /** Whatever was answered before counts as decided when the new request begins. */
  lemma InvokeOrdered(cfg: Config, L: Ledger, trace: seq<Event>, m: Message)
    requires LedgerOk(cfg, L) && Ordered(L, trace) && AnswersSound(cfg, L, trace) && RequestsKnown(L, trace)
    requires LedgerOk(cfg, Issue(L, m)) && Evolves(L, Issue(L, m), CLIENT, ZERO_MESSAGE)
    ensures Ordered(Issue(L, m), trace + [Invoked(m)]) && AnswersSound(cfg, Issue(L, m), trace + [Invoked(m)])
  {
    hide LedgerOk, Evolves, Before, AnswerOk, Version;
    var L', all := Issue(L, m), trace + [Invoked(m)];
    OrderedStable(cfg, L, L', CLIENT, ZERO_MESSAGE, trace);
    AnswersStable(cfg, L, L', CLIENT, ZERO_MESSAGE, trace);
    hide RequestsKnown;
    forall i | 0 <= i < |trace| && trace[i].Returned? ensures Before(L', trace[i].answer, m) {
      AnswerBound(cfg, L', trace[i].answer);
      BeforeNow(L', trace[i].answer, m);
    }
  }

  lemma InvokeTrace(s: Cluster, L: Ledger, m: Message)
    requires LedgerOk(s.cfg, L) && TraceOk(s.cfg, L, s.trace) && NewId(s, m.id)
    requires LedgerOk(s.cfg, Issue(L, m)) && Evolves(L, Issue(L, m), CLIENT, ZERO_MESSAGE) && m.id !in L.txs
    ensures TraceOk(s.cfg, Issue(L, m), s.trace + [Invoked(m)])
  {
    hide LedgerOk, Evolves, Ordered, AnswersSound, RequestsKnown, Consecutive, DecidedAcked, Causal;
    InvokeOrdered(s.cfg, L, s.trace, m);
    InvokeKnown(L, s.trace, m);
    InvokeAcks(L, s.trace, m);
    CausalGrows(L, s.trace, [Invoked(m)]);
  }

  lemma BeforeNow(L: Ledger, a: Message, m: Message)
    requires m.id in L.txs && L.txs[m.id].since == |L.history| && a.timestamp <= Version(L.history, a.key)
    ensures Before(L, a, m)
  {
    assert L.history[..|L.history|] == L.history;
  }

  lemma InvokeAcks(L: Ledger, trace: seq<Event>, m: Message)
    requires Consecutive(trace) && DecidedAcked(L, trace)
    ensures Consecutive(trace + [Invoked(m)]) && DecidedAcked(Issue(L, m), trace + [Invoked(m)])
  {
    var all := trace + [Invoked(m)];
    forall j | 0 <= j < |all| && WriteDone(all[j])
      ensures all[j].answer.timestamp == Acks(all[..j], all[j].answer.key) + 1
    {
      assert all[..j] == trace[..j];
    }
    forall k ensures Acks(all, k) == Version(L.history, k) { AcksAppend(trace, [Invoked(m)], k); }
    forall i | 0 <= i < |L.history|
      ensures Acknowledged(all, L.history[i])
    {
      AckStays(trace, [Invoked(m)], L.history[i]);
    }
  }

  lemma InvokeNet(s: Cluster, s': Cluster, L: Ledger, m: Message)
    requires LedgerOk(s.cfg, L) && NodesOk(s, L) && NetOk(s, L) && Invoke(s, s', m) && m.id !in L.txs
    requires LedgerOk(s.cfg, Issue(L, m)) && Evolves(L, Issue(L, m), CLIENT, ZERO_MESSAGE)
    ensures NodesOk(s', Issue(L, m)) && NetOk(s', Issue(L, m))
  {
    hide NodeOk, LedgerOk, Evolves, MessageOk;
    var L' := Issue(L, m);
    forall q | 0 <= q < |s.nodes| ensures NodeOk(s.cfg, L', q, s.nodes[q]) {
      NodeStable(s.cfg, L, L', CLIENT, ZERO_MESSAGE, q, s.nodes[q]);
    }
    forall x | x in s.net ensures MessageOk(s.cfg, L', x) { MessageStable(s.cfg, L, L', CLIENT, ZERO_MESSAGE, x); }
    forall x | x in s'.once ensures OneShot(x) && OnceOk(s.cfg, L', x) && s'.once[x] == 1 {
      if x in s.once { OnceStable(s.cfg, L, L', CLIENT, ZERO_MESSAGE, x); }
      assert m !in s.once;
    }
  }

  lemma InvokeOk(s: Cluster, s': Cluster, L: Ledger, m: Message) returns (L': Ledger)
    requires Inv(s, L) && Invoke(s, s', m)
    ensures Inv(s', L')
  {
    L' := Issue(L, m);
    assert m.id !in L.txs;
    hide NodesOk, NetOk, TraceOk, UnlocksSent, FailuresSent;
    IssueOk(s.cfg, L, m, ZERO_MESSAGE);
    hide LedgerOk, Evolves;
    InvokeNet(s, s', L, m);
    InvokeTrace(s, L, m);
    InvokeUnlocks(s, s', L, m);
    InvokeFailures(s, s', L, m);
  }

  lemma InvokeUnlocks(s: Cluster, s': Cluster, L: Ledger, m: Message)
    requires UnlocksSent(s, L) && s'.net == s.net && m.id !in L.txs
    ensures UnlocksSent(s', Issue(L, m))
  {}

  lemma InvokeFailures(s: Cluster, s': Cluster, L: Ledger, m: Message)
    requires FailuresSent(s, L) && s'.net == s.net && m.id !in L.txs
    ensures FailuresSent(s', Issue(L, m))
  {
    hide FailureSent;
  }

  lemma NodeAt(s: Cluster, L: Ledger, p: int)
    requires Inv(s, L) && 0 <= p < |s.nodes|
    ensures NodeOk(s.cfg, L, p, s.nodes[p]) && ValidConfig(s.cfg) && LedgerOk(s.cfg, L)
    ensures |L.history| <= |s.trace|
  {
    assert NodeOk(s.cfg, L, p, s.nodes[p]);
    hide NodeOk, LedgerOk;
  }

  lemma NetMessage(s: Cluster, L: Ledger, m: Message)
    requires Inv(s, L) && m in s.net
    ensures MessageOk(s.cfg, L, m)
  {
    hide MessageOk, LedgerOk, NodesOk, TraceOk, UnlocksSent, FailuresSent;
  }

  /** A message about to be handled is sound, and a one-shot message is gone afterwards. */
  lemma ConsumeOk(s: Cluster, L: Ledger, m: Message)
    requires Inv(s, L) && Available(s, m)
    ensures Inv(Consume(s, m), L) && Deliverable(s.cfg, L, m)
    ensures OneShot(m) ==> OnceOk(s.cfg, L, m) && m !in Consume(s, m).once
  {
    hide LedgerOk, NodesOk, TraceOk, MessageOk, OnceOk, Told, FailureSent;
    var s1 := Consume(s, m);
    assert forall x :: x in s1.once ==> x in s.once;
    SameNodes(s, s1, L);
  }

  lemma SameNodes(s: Cluster, s1: Cluster, L: Ledger)
    requires NodesOk(s, L) && s1.nodes == s.nodes && s1.cfg == s.cfg
    ensures NodesOk(s1, L)
  {}

  /** Inv does not say who acts next, so a node may act again at once. */
  lemma TakeNextStep(s: Cluster, L: Ledger, p: int, d: Choice) returns (L': Ledger)
    requires Inv(s, L) && 0 <= p < |s.nodes| && PeersOk(s.nodes[p], d)
    ensures Inv(Apply(s, p, TakeNext(s.nodes[p], d)), L')
  {
    hide Inv, NodeOk, LedgerOk, EffectOk, PeersOk, TakeNext;
    NodeAt(s, L, p);
    L' := TakeNextOk(s.cfg, L, p, s.nodes[p], d);
    ApplyOk(s, L, L', p, ZERO_MESSAGE, TakeNext(s.nodes[p], d));
  }

  lemma DeliverOk(s: Cluster, s': Cluster, L: Ledger, m: Message, c: Choice, d: Choice) returns (L': Ledger)
    requires Inv(s, L) && Deliver(s, s', m, c, d) && |s.trace| + 1 < TIMESTAMPS
    ensures Inv(s', L')
  {
    hide Inv, NodeOk, LedgerOk, EffectOk, PeersOk, TakeNext, Dispatch, Deliverable, ChoiceOk, LateStamp, OnceOk;
    ConsumeOk(s, L, m);
    L' := L;
    var p, s1 := m.dest, Consume(s, m);
    if !s.nodes[p].disabled {
      NodeAt(s1, L, p);
      var e := Dispatch(s1.nodes[p], m, c);
      var L1 := DispatchOk(s.cfg, L, p, s1.nodes[p], m, c);
      ApplyOk(s1, L, L1, p, m, e);
      L' := TakeNextStep(Apply(s1, p, e), L1, p, d);
    }
  }

  lemma TickOk(s: Cluster, s': Cluster, L: Ledger, p: int, d: Choice) returns (L': Ledger)
    requires Inv(s, L) && Tick(s, s', p, d)
    ensures Inv(s', L')
  {
    hide Inv, NodeOk, LedgerOk, EffectOk, PeersOk, TakeNext, Timeout;
    NodeAt(s, L, p);
    var e := Timeout(s.nodes[p]);
    var L1 := TimeoutOk(s.cfg, L, p, s.nodes[p]);
    ApplyOk(s, L, L1, p, ZERO_MESSAGE, e);
    L' := TakeNextStep(Apply(s, p, e), L1, p, d);
  }

  /** Every step of a run keeps the invariant. */
  lemma StepOk(s: Cluster, s': Cluster, L: Ledger) returns (L': Ledger)
    requires Inv(s, L) && Next(s, s')
    ensures Inv(s', L')
  {
    hide Inv, NodeOk, LedgerOk, EffectOk, Deliver, Tick, Fail, Recover, StreamWrites, RequestTimeout, Invoke;
    if m :| Invoke(s, s', m) {
      L' := InvokeOk(s, s', L, m);
    } else if m, c, d :| Deliver(s, s', m, c, d) {
      L' := DeliverOk(s, s', L, m, c, d);
    } else if p, d :| Tick(s, s', p, d) {
      L' := TickOk(s, s', L, p, d);
    } else if p, m :| Expire(s, s', p, m) {
      NodeAt(s, L, p);
      L' := RequestTimeoutOk(s.cfg, L, p, s.nodes[p], m);
      ApplyOk(s, L, L', p, ZERO_MESSAGE, RequestTimeout(s.nodes[p], m));
    } else if p :| Crash(s, s', p) {
      NodeAt(s, L, p);
      L' := FailOk(s.cfg, L, p, s.nodes[p], ZERO_MESSAGE);
      ApplyOk(s, L, L', p, ZERO_MESSAGE, Silent(Fail(s.nodes[p])));
    } else if p :| Restart(s, s', p) {
      NodeAt(s, L, p);
      L' := L;
      RecoverOk(s.cfg, L, p, s.nodes[p], ZERO_MESSAGE);
      ApplyOk(s, L, L', p, ZERO_MESSAGE, Silent(Recover(s.nodes[p])));
    } else {
      var p :| Propagate(s, s', p);
      NodeAt(s, L, p);
      L' := StreamWritesOk(s.cfg, L, p, s.nodes[p], ZERO_MESSAGE);
      ApplyOk(s, L, L', p, ZERO_MESSAGE, StreamWrites(s.nodes[p]));
    }
  }

  /** The invariant holds at the end of every run. */
  lemma {:induction false} RunOk(run: seq<Cluster>) returns (L: Ledger)
    requires IsRun(run)
    ensures Inv(run[|run| - 1], L)
  {
    hide Inv, Next;
    if |run| == 1 {
      InitOk(run[0]);
      L := Ledger(map[], []);
    } else {
      var shorter := run[..|run| - 1];
      forall i | 0 <= i < |shorter| - 1 ensures Next(shorter[i], shorter[i + 1]) {
        assert Next(run[i], run[i + 1]);
      }
      var L0 := RunOk(shorter);
      assert Next(run[|run| - 2], run[|run| - 2 + 1]);
      L := StepOk(run[|run| - 2], run[|run| - 1], L0);
    }
  }
}
