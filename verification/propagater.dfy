/** Background propagation of committed writes (dbnode/backgroundWriter.go). */
module Propagation {
  import opened Packet
  import Sets

  datatype Transaction = Transaction(key: Key, value: Value, timestamp: nat, numConfirmedNodes: int, nodes: set<int>)

  /** The propagater's fields as a value; criticalSize is n - R + 1. */
  datatype Book = Book(id: int, n: nat, criticalSize: int, transactions: map<int, Transaction>)

  function NewBook(id: int, n: nat, r: nat): Book { Book(id, n, n as int - r as int + 1, map[]) }

  function Propagate(b: Book, id: int, quorum: set<int>, key: Key, value: Value, timestamp: nat): Book {
    b.(transactions := b.transactions[id := Transaction(key, value, timestamp, |quorum|, quorum)])
  }

  /** A negative reply must carry a newer timestamp; otherwise the process exits. */
  predicate Conflict(b: Book, m: Message) {
    m.id in b.transactions && !m.ok && m.timestamp <= b.transactions[m.id].timestamp
  }

  function Acknowledge(t: Transaction, src: int): Transaction {
    if src in t.nodes then t
    else t.(nodes := t.nodes + {src}, numConfirmedNodes := t.numConfirmedNodes + 1)
  }

  function Response(b: Book, m: Message): Book {
    if m.id !in b.transactions then b
    else if !m.ok then b.(transactions := b.transactions - {m.id})
    else
      var t := Acknowledge(b.transactions[m.id], m.src);
      if m.src !in b.transactions[m.id].nodes && t.numConfirmedNodes >= b.criticalSize
      then b.(transactions := b.transactions - {m.id})
      else b.(transactions := b.transactions[m.id := t])
  }

  predicate Outstanding(b: Book, id: int) {
    id in b.transactions && b.transactions[id].numConfirmedNodes < b.criticalSize
  }

  /** One round of the main loop retires confirmed entries ... */
  function Retire(b: Book): Book {
    b.(transactions := map id | id in b.transactions && Outstanding(b, id) :: b.transactions[id])
  }

  function WriteRequest(b: Book, id: int, node: int): Message
    requires id in b.transactions
  {
    var t := b.transactions[id];
    Message(id, b.id, node, BackgroundWriteRequest, t.key, t.value, t.timestamp, true)
  }

  /** ... and asks every node not yet confirmed to store the rest. */
  function Requests(b: Book): set<Message> {
    set id, node | id in b.transactions && Outstanding(b, id) && 0 <= node < b.n && node !in b.transactions[id].nodes
      :: WriteRequest(b, id, node)
  }

  function Elements(s: seq<Message>): set<Message> { set m | m in s }

  lemma ElementsAppend(s: seq<Message>, u: seq<Message>)
    ensures Elements(s + u) == Elements(s) + Elements(u)
  {}

  /** The requests of one entry to nodes below `upto`. */
  function RequestsUpTo(b: Book, id: int, upto: int): set<Message>
    requires id in b.transactions
  {
    set node | 0 <= node < upto && node !in b.transactions[id].nodes :: WriteRequest(b, id, node)
  }

  /** The requests of entries already visited. */
  ghost function Answering(b: Book, rest: set<int>): set<Message> {
    set m | m in Requests(b) && m.id !in rest
  }

  class Propagater {
    const id: int
    const n: nat
    const criticalSize: int
    var transactions: map<int, Transaction>

    constructor (id: int, numNodes: nat, rqs: nat)
      ensures State() == NewBook(id, numNodes, rqs)
    {
      this.id, n, criticalSize, transactions := id, numNodes, numNodes - rqs + 1, map[];
    }

    ghost function State(): Book
      reads this
    {
      Book(id, n, criticalSize, transactions)
    }

    method PropagateTransaction(id: int, quorumMembers: map<int, Message>, key: Key, value: Value, timestamp: nat)
      modifies this
      ensures State() == Propagate(old(State()), id, quorumMembers.Keys, key, value, timestamp)
    {
      var t := Transaction(key, value, timestamp, |quorumMembers.Keys|, {});
      var rest := quorumMembers.Keys;
      while rest != {}
        invariant rest <= quorumMembers.Keys && transactions == old(transactions)
        invariant t == Transaction(key, value, timestamp, |quorumMembers.Keys|, quorumMembers.Keys - rest)
      {
        ghost var some := Sets.Member(rest);
        var node :| node in rest;
        t := t.(nodes := t.nodes + {node});
        rest := rest - {node};
      }
      assert quorumMembers.Keys - {} == quorumMembers.Keys;
      transactions := transactions[id := t];
    }

    /** Returns true where the process would stop. */
    method HandleResponse(msg: Message) returns (fatal: bool)
      modifies this
      ensures fatal <==> !msg.kind.BackgroundWriteResponse? || Conflict(old(State()), msg)
      ensures State() == if fatal then old(State()) else Response(old(State()), msg)
    {
      if !msg.kind.BackgroundWriteResponse? { return true; }
      if msg.id !in transactions { return false; }
      var t := transactions[msg.id];
      if msg.ok && msg.src !in t.nodes {
        t := t.(nodes := t.nodes + {msg.src}, numConfirmedNodes := t.numConfirmedNodes + 1);
        transactions := transactions[msg.id := t];
        if t.numConfirmedNodes >= criticalSize { transactions := transactions - {msg.id}; }
      }
      if !msg.ok {
        if msg.timestamp <= t.timestamp { return true; }
        transactions := transactions - {msg.id};
      }
      return false;
    }

    method RequestWrites(id: int) returns (sent: seq<Message>)
      requires id in transactions
      ensures Elements(sent) == RequestsUpTo(State(), id, n)
    {
      var t := transactions[id];
      sent := [];
      var node := 0;
      while node < n
        invariant 0 <= node <= n
        invariant Elements(sent) == RequestsUpTo(State(), id, node)
      {
        if node !in t.nodes {
          var m := Message(id, this.id, node, BackgroundWriteRequest, t.key, t.value, t.timestamp, true);
          ElementsAppend(sent, [m]);
          assert RequestsUpTo(State(), id, node + 1) == RequestsUpTo(State(), id, node) + {m};
          sent := sent + [m];
        } else {
          assert RequestsUpTo(State(), id, node + 1) == RequestsUpTo(State(), id, node);
        }
        node := node + 1;
      }
    }

    /** The body of the main loop. */
    method StreamWrites() returns (sent: seq<Message>)
      modifies this
      ensures State() == Retire(old(State()))
      ensures Elements(sent) == Requests(old(State()))
    {
      ghost var b := State();
      sent := [];
      var rest := transactions.Keys;
      while rest != {}
        invariant rest <= transactions.Keys <= b.transactions.Keys
        invariant forall id :: id in transactions ==> transactions[id] == b.transactions[id]
        invariant forall id :: id in b.transactions && id !in rest ==> (id in transactions <==> Outstanding(b, id))
        invariant Elements(sent) == Answering(b, rest)
      {
        ghost var some := Sets.Member(rest);
        var id :| id in rest;
        if transactions[id].numConfirmedNodes >= criticalSize {
          transactions := transactions - {id};
          assert Answering(b, rest - {id}) == Answering(b, rest);
        } else {
          var more := RequestWrites(id);
          ElementsAppend(sent, more);
          assert RequestsUpTo(State(), id, n) == RequestsUpTo(b, id, n);
          assert Answering(b, rest - {id}) == Answering(b, rest) + RequestsUpTo(b, id, n);
          sent := sent + more;
        }
        rest := rest - {id};
      }
      assert Answering(b, {}) == Requests(b);
      assert transactions.Keys == Retire(b).transactions.Keys;
      assert forall id :: id in transactions ==> transactions[id] == Retire(b).transactions[id];
    }
  }
}
