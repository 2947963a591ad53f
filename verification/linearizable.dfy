/** In strict mode each key is a linearizable register: the completed operations on
    it can be put in one order that respects real time and in which every read
    returns what the last write before it wrote. */
module Linearizability {
  import opened Packet
  import opened Node
  import opened Ledgers
  import opened Clusters
  import opened Runs
  import opened Theorems

  predicate Completed(trace: seq<Event>, key: Key, b: nat) {
    b < |trace| && trace[b].Returned? && trace[b].answer.key == key
  }

  predicate AllCompleted(trace: seq<Event>, key: Key, order: seq<nat>) {
    forall x :: 0 <= x < |order| ==> Completed(trace, key, order[x])
  }

  function Result(trace: seq<Event>, b: nat): Stamped
    requires b < |trace| && trace[b].Returned?
  {
    Stamped(trace[b].answer.timestamp, trace[b].answer.value)
  }

  /** The content of a register after these operations, in this order. */
  function Register(trace: seq<Event>, key: Key, order: seq<nat>): Stamped
    requires AllCompleted(trace, key, order)
  {
    if order == [] then ABSENT
    else if WriteDone(trace[order[|order| - 1]]) then Result(trace, order[|order| - 1])
    else Register(trace, key, order[..|order| - 1])
  }

  /** Each completed operation occurs exactly once. */
  ghost predicate Lists(trace: seq<Event>, key: Key, order: seq<nat>) {
    && (forall b: nat :: b in order <==> Completed(trace, key, b))
    && (forall x, y :: 0 <= x < y < |order| ==> order[x] != order[y])
  }

  /** An operation that finished before another began comes first. */
  ghost predicate RespectsTime(trace: seq<Event>, order: seq<nat>) {
    forall x, y, i: nat ::
      0 <= x < |order| && 0 <= y < |order| && Precedes(trace, order[x], i) && AnsweredAt(trace, i, order[y]) ==> x < y
  }

  /** A read returns the register's content; a write replaces it under the next timestamp. */
  ghost predicate LegalAt(trace: seq<Event>, key: Key, order: seq<nat>, x: nat)
    requires AllCompleted(trace, key, order) && x < |order|
  {
    if WriteDone(trace[order[x]])
    then Result(trace, order[x]).timestamp == Register(trace, key, order[..x]).timestamp + 1
    else Result(trace, order[x]) == Register(trace, key, order[..x])
  }

  ghost predicate Legal(trace: seq<Event>, key: Key, order: seq<nat>) {
    AllCompleted(trace, key, order) && forall x :: 0 <= x < |order| ==> LegalAt(trace, key, order, x)
  }

  // ---------- the order: by timestamp, a write before its reads, then as answered ----------

  predicate Less(trace: seq<Event>, a: nat, b: nat)
    requires a < |trace| && trace[a].Returned? && b < |trace| && trace[b].Returned?
  {
    || trace[a].answer.timestamp < trace[b].answer.timestamp
    || (trace[a].answer.timestamp == trace[b].answer.timestamp
        && if WriteDone(trace[a]) == WriteDone(trace[b]) then a < b else WriteDone(trace[a]))
  }

  ghost predicate Sorted(trace: seq<Event>, key: Key, order: seq<nat>) {
    AllCompleted(trace, key, order) && forall x, y :: 0 <= x < y < |order| ==> Less(trace, order[x], order[y])
  }

  lemma Earlier(trace: seq<Event>, key: Key, order: seq<nat>, x: nat, y: nat)
    requires Sorted(trace, key, order) && x < |order| && y < |order| && Less(trace, order[x], order[y])
    ensures x < y
  {}

  lemma {:induction false} Inserted(trace: seq<Event>, key: Key, order: seq<nat>, b: nat) returns (more: seq<nat>)
    requires Sorted(trace, key, order) && Completed(trace, key, b) && b !in order
    ensures Sorted(trace, key, more) && forall c: nat :: c in more <==> c in order || c == b
  {
    if order == [] || Less(trace, b, order[0]) {
      more := [b] + order;
    } else {
      assert order == [order[0]] + order[1..];
      var rest := Inserted(trace, key, order[1..], b);
      more := [order[0]] + rest;
      forall y | 0 <= y < |rest| ensures Less(trace, order[0], rest[y]) { assert rest[y] in rest; }
    }
  }

  lemma {:induction false} Arranged(trace: seq<Event>, key: Key, n: nat) returns (order: seq<nat>)
    requires n <= |trace|
    ensures Sorted(trace, key, order) && forall b: nat :: b in order <==> b < n && Completed(trace, key, b)
  {
    if n == 0 {
      order := [];
    } else {
      order := Arranged(trace, key, n - 1);
      if Completed(trace, key, n - 1) { order := Inserted(trace, key, order, n - 1); }
    }
  }

  // ---------- why the order is legal ----------

  lemma {:induction false} RegisterHolds(trace: seq<Event>, key: Key, order: seq<nat>, y: nat)
    requires AllCompleted(trace, key, order) && y < |order| && WriteDone(trace[order[y]])
    requires forall z :: y < z < |order| ==> !WriteDone(trace[order[z]])
    ensures Register(trace, key, order) == Result(trace, order[y])
  {
    if y < |order| - 1 { RegisterHolds(trace, key, order[..|order| - 1], y); }
  }

  lemma {:induction false} RegisterEmpty(trace: seq<Event>, key: Key, order: seq<nat>)
    requires AllCompleted(trace, key, order) && forall z :: 0 <= z < |order| ==> !WriteDone(trace[order[z]])
    ensures Register(trace, key, order) == ABSENT
  {
    if order != [] { RegisterEmpty(trace, key, order[..|order| - 1]); }
  }

  lemma {:induction false} LastAck(trace: seq<Event>, key: Key, n: nat) returns (i: nat)
    requires n <= |trace| && Acks(trace[..n], key) > 0
    ensures i < n && WriteOf(trace[i], key) && Acks(trace[..i], key) + 1 == Acks(trace[..n], key)
  {
    assert trace[..n][..n - 1] == trace[..n - 1];
    if WriteOf(trace[n - 1], key) { i := n - 1; } else { i := LastAck(trace, key, n - 1); }
  }

  /** The write whose result the register must hold just before operation b. */
  ghost predicate HeldBefore(trace: seq<Event>, key: Key, b: nat, j: nat)
    requires Completed(trace, key, b)
  {
    && j < |trace| && WriteOf(trace[j], key)
    && if WriteDone(trace[b]) then Result(trace, j).timestamp + 1 == Result(trace, b).timestamp
       else Result(trace, j) == Result(trace, b)
  }

  ghost predicate Grounded(trace: seq<Event>, key: Key) {
    && Consecutive(trace)
    && forall b: nat :: Completed(trace, key, b) && !WriteDone(trace[b]) ==>
         Result(trace, b) == ABSENT || WasWritten(trace, key, Result(trace, b))
  }

  lemma Source(trace: seq<Event>, key: Key, b: nat) returns (j: nat)
    requires Grounded(trace, key) && Completed(trace, key, b)
    requires if WriteDone(trace[b]) then trace[b].answer.timestamp > 1 else Result(trace, b) != ABSENT
    ensures HeldBefore(trace, key, b, j)
  {
    if WriteDone(trace[b]) {
      j := LastAck(trace, key, b);
    } else {
      j :| 0 <= j < |trace| && WriteOf(trace[j], key) &&
          Stamped(trace[j].answer.timestamp, trace[j].answer.value) == Result(trace, b);
    }
  }

  lemma DistinctWrites(trace: seq<Event>, key: Key, a: nat, b: nat)
    requires Consecutive(trace) && Completed(trace, key, a) && Completed(trace, key, b) && WriteDone(trace[a])
    requires WriteDone(trace[b])
    requires trace[a].answer.timestamp == trace[b].answer.timestamp
    ensures a == b
  {
    if a < b { NumberedWrites(trace, a, b); } else if b < a { NumberedWrites(trace, b, a); }
  }

  /** No write comes between operation b and the write whose result it needs. */
  lemma NothingBetween(trace: seq<Event>, key: Key, order: seq<nat>, x: nat, y: nat, z: nat)
    requires Grounded(trace, key) && Sorted(trace, key, order) && y < z < x < |order|
    requires HeldBefore(trace, key, order[x], order[y])
    ensures !WriteDone(trace[order[z]])
  {
    assert Less(trace, order[y], order[z]) && Less(trace, order[z], order[x]);
    if WriteDone(trace[order[z]]) {
      if trace[order[z]].answer.timestamp == trace[order[y]].answer.timestamp {
        DistinctWrites(trace, key, order[z], order[y]);
      } else {
        DistinctWrites(trace, key, order[z], order[x]);
      }
      assert false;
    }
  }

  lemma SortedLegal(trace: seq<Event>, key: Key, order: seq<nat>, x: nat)
    requires Grounded(trace, key) && Sorted(trace, key, order) && x < |order|
    requires forall b: nat :: b in order <==> Completed(trace, key, b)
    ensures LegalAt(trace, key, order, x)
  {
    var b, before := order[x], order[..x];
    if if WriteDone(trace[b]) then trace[b].answer.timestamp > 1 else Result(trace, b) != ABSENT {
      var j := Source(trace, key, b);
      assert Completed(trace, key, j) && j in order;
      var y :| 0 <= y < |order| && order[y] == j;
      Earlier(trace, key, order, y, x);
      forall z | y < z < |before| ensures !WriteDone(trace[before[z]]) { NothingBetween(trace, key, order, x, y, z); }
      RegisterHolds(trace, key, before, y);
    } else {
      forall z | 0 <= z < |before| ensures !WriteDone(trace[before[z]]) { NothingBefore(trace, key, order, x, z); }
      RegisterEmpty(trace, key, before);
    }
  }

  lemma NothingBefore(trace: seq<Event>, key: Key, order: seq<nat>, x: nat, z: nat)
    requires Grounded(trace, key) && Sorted(trace, key, order) && z < x < |order|
    requires if WriteDone(trace[order[x]]) then trace[order[x]].answer.timestamp <= 1
             else Result(trace, order[x]) == ABSENT
    ensures !WriteDone(trace[order[z]])
  {
    assert Less(trace, order[z], order[x]);
    if WriteDone(trace[order[z]]) {
      DistinctWrites(trace, key, order[z], order[x]);
      assert false;
    }
  }

  /** What the runs of the protocol give this module. */
  lemma RunGrounded(run: seq<Cluster>, key: Key)
    requires IsRun(run)
    ensures Grounded(Last(run).trace, key)
  {
    var trace := Last(run).trace;
    WritesConsecutive(run);
    forall b: nat | Completed(trace, key, b)
      ensures Result(trace, b) == ABSENT || WasWritten(trace, key, Result(trace, b))
    {
      OnlyWritesAreVisible(run, |Last(run).nodes|, key, b);
    }
  }

  lemma SortedRespectsTime(run: seq<Cluster>, key: Key, order: seq<nat>, x: nat, y: nat, i: nat)
    requires IsRun(run) && StrictConfig(Last(run).cfg) && Sorted(Last(run).trace, key, order) && x < |order|
    requires y < |order|
    requires Precedes(Last(run).trace, order[x], i) && AnsweredAt(Last(run).trace, i, order[y])
    ensures x < y
  {
    RealTimeOrder(run, order[x], i, order[y]);
    Earlier(Last(run).trace, key, order, x, y);
  }

  lemma Linearizable(run: seq<Cluster>, key: Key) returns (order: seq<nat>)
    requires IsRun(run) && StrictConfig(Last(run).cfg)
    ensures Lists(Last(run).trace, key, order) && RespectsTime(Last(run).trace, order)
    ensures Legal(Last(run).trace, key, order)
  {
    var trace := Last(run).trace;
    order := Arranged(trace, key, |trace|);
    RunGrounded(run, key);
    hide IsRun, Consecutive, Grounded;
    forall x | 0 <= x < |order| ensures LegalAt(trace, key, order, x) { SortedLegal(trace, key, order, x); }
    forall x, y, i: nat | 0 <= x < |order| && 0 <= y < |order| && Precedes(trace, order[x], i) &&
        AnsweredAt(trace, i, order[y])
      ensures x < y
    {
      SortedRespectsTime(run, key, order, x, y, i);
    }
    forall x, y | 0 <= x < y < |order| ensures order[x] != order[y] { assert Less(trace, order[x], order[y]); }
  }
}
