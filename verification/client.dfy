/** The client's retry loops (net/client.go), and what a call's result says about
    the writes its attempts asked for. */
module Clients {
  import opened Packet
  import opened Ledgers
  import Invariants
  import opened Clusters
  import opened Runs
  import opened Theorems

  datatype PutResponse = Error | Success | Unknown

  /** What happens to one attempt before its timer runs out. */
  datatype Outcome = Answered(msg: Message) | TimedOut

  predicate Succeeds(o: Outcome) { o.Answered? && o.msg.ok }

  function WriteAttempt(client: int, id: int, dest: int, key: Key, value: Value, strong: bool, ts: nat): Message {
    Message(id, client, dest, if strong then ClientStrongWriteRequest else ClientWriteRequest, key, value, ts, true)
  }

  function ReadAttempt(client: int, id: int, dest: int, key: Key): Message {
    Message(id, client, dest, ClientReadRequest, key, [], 0, true)
  }

  class Client {
    const numNodes: nat
    const numAttempts: nat
    var responseChans: set<int>
    var sent: seq<Message>

    constructor (numNodes: nat, numAttempts: nat)
      ensures this.numNodes == numNodes && this.numAttempts == numAttempts && responseChans == {} && sent == []
    {
      this.numNodes, this.numAttempts, responseChans, sent := numNodes, numAttempts, {}, [];
    }

    /** ids, dests and outcomes are what the id stream, the random choice of a node
        and the network have in store for the attempts of this call. */
    method Put(key: Key, value: Value, strong: bool, ts: nat, ids: seq<int>, dests: seq<int>, outcomes: seq<Outcome>)
      returns (resType: PutResponse, timestamp: nat, attempts: nat)
      requires |ids| == |dests| == |outcomes| == numAttempts
      modifies this
      ensures attempts <= numAttempts
      ensures sent == old(sent) + seq(attempts, i requires 0 <= i < attempts =>
                WriteAttempt(numNodes, ids[i], dests[i], key, value, strong, ts))
      ensures resType.Success? ==> attempts > 0 && Succeeds(outcomes[attempts - 1])
      ensures resType.Success? ==> timestamp == outcomes[attempts - 1].msg.timestamp
      ensures forall i :: 0 <= i < attempts && (i < attempts - 1 || !resType.Success?) ==> !Succeeds(outcomes[i])
      ensures !resType.Success? ==> attempts == numAttempts && timestamp == 0
      ensures resType.Unknown? <==> !resType.Success? && attempts > 0 && outcomes[attempts - 1].TimedOut?
    {
      resType, timestamp, attempts := Error, 0, 0;
      while attempts < numAttempts
        invariant attempts <= numAttempts && !resType.Success? && timestamp == 0
        invariant sent == old(sent) + seq(attempts, i requires 0 <= i < attempts =>
                    WriteAttempt(numNodes, ids[i], dests[i], key, value, strong, ts))
        invariant forall i :: 0 <= i < attempts ==> !Succeeds(outcomes[i])
        invariant resType.Unknown? <==> attempts > 0 && outcomes[attempts - 1].TimedOut?
      {
        var id := ids[attempts];
        responseChans := responseChans + {id};
        sent := sent + [WriteAttempt(numNodes, id, dests[attempts], key, value, strong, ts)];
        attempts := attempts + 1;
        match outcomes[attempts - 1] {
          case Answered(msg) =>
            if msg.ok { return Success, msg.timestamp, attempts; }
            resType := Error;
            responseChans := responseChans - {id};
          case TimedOut =>
            resType := Unknown;
        }
      }
    }

    method Get(key: Key, ids: seq<int>, dests: seq<int>, outcomes: seq<Outcome>)
      returns (value: Value, timestamp: nat, ok: bool, attempts: nat)
      requires |ids| == |dests| == |outcomes| == numAttempts
      modifies this
      ensures attempts <= numAttempts
      ensures sent == old(sent) + seq(attempts,
              i requires 0 <= i < attempts => ReadAttempt(numNodes, ids[i], dests[i], key))
      ensures ok <==> exists i :: 0 <= i < numAttempts && Succeeds(outcomes[i])
      ensures ok ==> attempts > 0 && Succeeds(outcomes[attempts - 1]) && forall i :: 0 <= i < attempts - 1 ==>
              !Succeeds(outcomes[i])
      ensures ok ==> value == outcomes[attempts - 1].msg.value && timestamp == outcomes[attempts - 1].msg.timestamp
      ensures !ok ==> value == [] && timestamp == 0 && attempts == numAttempts
    {
      attempts := 0;
      while attempts < numAttempts
        invariant attempts <= numAttempts
        invariant sent == old(sent) + seq(attempts,
            i requires 0 <= i < attempts => ReadAttempt(numNodes, ids[i], dests[i], key))
        invariant forall i :: 0 <= i < attempts ==> !Succeeds(outcomes[i])
      {
        var id := ids[attempts];
        responseChans := responseChans + {id};
        sent := sent + [ReadAttempt(numNodes, id, dests[attempts], key)];
        attempts := attempts + 1;
        if outcomes[attempts - 1].Answered? {
          var msg := outcomes[attempts - 1].msg;
          if msg.ok { return msg.value, msg.timestamp, true, attempts; }
          responseChans := responseChans - {id};
        }
      }
      return [], 0, false, attempts;
    }
  }

  // ---------- what a call means for the cluster it talks to ----------

  /** The attempt under this id was sent, and what is seen of it happened in the run. */
  ghost predicate Seen(run: seq<Cluster>, m: Message, o: Outcome) {
    && |run| > 0
    && (exists i :: 0 <= i < |Last(run).trace| && Last(run).trace[i] == Invoked(m))
    && (o.Answered? ==> o.msg.kind.ClientWriteResponse? && o.msg.id == m.id)
    && (Succeeds(o) ==> exists j :: 0 <= j < |Last(run).trace| && Last(run).trace[j] == Returned(o.msg))
    && (o.Answered? && !o.msg.ok ==> o.msg in Last(run).net)
  }

  lemma StrongSuccess(run: seq<Cluster>, m: Message, j: nat)
    requires IsRun(run) && j < |Last(run).trace| && WriteDone(Last(run).trace[j])
    requires Last(run).trace[j].answer.id == m.id
    requires exists i :: 0 <= i < |Last(run).trace| && Last(run).trace[i] == Invoked(m)
    requires m.kind.ClientStrongWriteRequest?
    ensures Last(run).trace[j].answer.timestamp == m.timestamp && Last(run).trace[j].answer.key == m.key
  {
    var L := RunOk(run);
    var s := Last(run);
    var i :| 0 <= i < |s.trace| && s.trace[i] == Invoked(m);
    assert s.trace[i].request == m && L.txs[m.id].request == m;
    assert Invariants.AnswerOk(s.cfg, L, s.trace[j].answer) && TxOk(s.cfg, L.history, m.id, L.txs[m.id]);
  }

  /** A strong write is a compare-and-set on the number of writes of the key: when it
      is acknowledged, exactly one write less than it asked for was acknowledged before. */
  lemma StrongPutIsCompareAndSet(run: seq<Cluster>, m: Message, j: nat)
    requires IsRun(run) && j < |Last(run).trace| && WriteDone(Last(run).trace[j])
    requires Last(run).trace[j].answer.id == m.id
    requires exists i :: 0 <= i < |Last(run).trace| && Last(run).trace[i] == Invoked(m)
    requires m.kind.ClientStrongWriteRequest?
    ensures Acks(Last(run).trace[..j], m.key) + 1 == m.timestamp
  {
    StrongSuccess(run, m, j);
    WritesAreNumbered(run, j);
  }

  /** Of all attempts of a strong call at most one ever commits, however many were
      made and whatever became of their answers. */
  lemma AtMostOneAttemptCommits(run: seq<Cluster>, a: Message, b: Message)
    requires IsRun(run) && a.kind.ClientStrongWriteRequest? && b.kind.ClientStrongWriteRequest?
    requires a.key == b.key && a.timestamp == b.timestamp && a.id != b.id
    requires exists i :: 0 <= i < |Last(run).trace| && Last(run).trace[i] == Invoked(a)
    requires exists i :: 0 <= i < |Last(run).trace| && Last(run).trace[i] == Invoked(b)
    ensures !(Succeeded(Last(run).trace, a.id) && Succeeded(Last(run).trace, b.id))
  {
    var trace := Last(run).trace;
    if Succeeded(trace, a.id) && Succeeded(trace, b.id) {
      var i :| 0 <= i < |trace| && WriteDone(trace[i]) && trace[i].answer.id == a.id;
      var j :| 0 <= j < |trace| && WriteDone(trace[j]) && trace[j].answer.id == b.id;
      StrongSuccess(run, a, i);
      StrongSuccess(run, b, j);
      WritesConsecutive(run);
      hide IsRun, Consecutive;
      if i < j { NumberedWrites(trace, i, j); } else { NumberedWrites(trace, j, i); }
    }
  }

  /** An attempt seen to succeed has committed; one seen to fail never has, so a call
      that is not successful hides a commit only behind an attempt that timed out. */
  lemma ResultIsTrue(run: seq<Cluster>, m: Message, o: Outcome)
    requires IsRun(run) && IsWrite(m) && Seen(run, m, o)
    ensures Succeeds(o) ==> Succeeded(Last(run).trace, m.id)
    ensures Succeeded(Last(run).trace, m.id) ==> Succeeds(o) || o.TimedOut?
  {
    var trace := Last(run).trace;
    if Succeeds(o) {
      var j :| 0 <= j < |trace| && trace[j] == Returned(o.msg);
      assert WriteDone(trace[j]) && trace[j].answer.id == m.id;
    }
    if Succeeded(trace, m.id) && o.Answered? && !o.msg.ok {
      var j :| 0 <= j < |trace| && WriteDone(trace[j]) && trace[j].answer.id == m.id;
      FailureIsFinal(run, o.msg, j);
    }
  }
}
