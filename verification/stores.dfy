/** Both local stores over whole runs: they give the answers of one map with staged
    writes, and so the same answers as each other. */
module Stores {
  import opened Packet
  import opened Wrappers
  import opened StagedStore
  import opened Pages
  import opened Persistent
  import MemStore

  datatype Op =
    | GetOp(key: Key)
    | PutOp(key: Key, value: Value)
    | CommitOp(key: Key, id: int)
    | RollbackOp(id: int)

  datatype Answer = Found(value: Option<Value>) | Staged(id: int) | Done(ok: bool) | Nothing

  // ---------- one step of the specification and of each store ----------

  function Step(s: Store<Key, Value>, op: Op): (Store<Key, Value>, Answer) {
    match op
    case GetOp(k) => (s, Found(Get(s, k)))
    case PutOp(k, v) => (Put(s, k, v), Staged(NextTxid(s.txid)))
    case CommitOp(k, id) => (Commit(s, k, id), Done(CanCommit(s, k, id)))
    case RollbackOp(id) => (Rollback(s, id), Nothing)
  }

  function MemStep(s: Store<Key, Value>, op: Op): (Store<Key, Value>, Answer) {
    match op
    case CommitOp(k, id) =>
      var (t, ok) := MemStore.MemCommit(s, k, id);
      (t, Done(ok))
    case _ => Step(s, op)
  }

  function DiskStep(d: Disk, hash: Hash, op: Op): (Disk, Answer) {
    match op
    case GetOp(k) => (d, Found(DiskGet(d, hash, k)))
    case PutOp(k, v) => (DiskPut(d, hash, k, v), Staged(NextTxid(d.txid)))
    case CommitOp(k, id) =>
      var (d', ok) := DiskCommit(d, hash, k, id);
      (d', Done(ok))
    case RollbackOp(id) => (DiskRollback(d, id), Nothing)
  }

  /** What the stores demand of their callers: lengths that fit; a commit under the key that
      was staged, which makes no staged write stale that is committed later. */
  ghost predicate Allowed(s: Store<Key, Value>, hash: Hash, op: Op, later: set<int>) {
    match op
    case PutOp(k, v) => Fits(k) && Fits(v)
    case CommitOp(k, id) =>
      if id in s.staged then s.staged[id].0 == k && forall other :: other in later ==> !MakesStale(s, hash, id, other)
      else k != []
    case _ => true
  }

  /** The ids that these operations commit. */
  function Committing(ops: seq<Op>): set<int> {
    set op | op in ops && op.CommitOp? :: op.id
  }

  // ---------- runs ----------

  function After(ops: seq<Op>): Store<Key, Value> {
    if ops == [] then StagedStore.Empty() else Step(After(ops[..|ops| - 1]), ops[|ops| - 1]).0
  }

  function MemAfter(ops: seq<Op>): Store<Key, Value> {
    if ops == [] then StagedStore.Empty() else MemStep(MemAfter(ops[..|ops| - 1]), ops[|ops| - 1]).0
  }

  function DiskAfter(ops: seq<Op>, hash: Hash): Disk {
    if ops == [] then EMPTY else DiskStep(DiskAfter(ops[..|ops| - 1], hash), hash, ops[|ops| - 1]).0
  }

  ghost predicate AllowedAt(ops: seq<Op>, hash: Hash, i: nat)
    requires i < |ops|
  {
    Allowed(After(ops[..i]), hash, ops[i], Committing(ops[i + 1..]))
  }

  ghost predicate AllowedRun(ops: seq<Op>, hash: Hash) { forall i :: 0 <= i < |ops| ==> AllowedAt(ops, hash, i) }

  lemma KeepLess(d: Disk, hash: Hash, s: Store<Key, Value>, keep: set<int>, less: set<int>)
    requires Refines(d, hash, s, keep) && less <= keep
    ensures Refines(d, hash, s, less)
  {
    hide WellFormed, DiskGet, UpToDate, TxName;
  }

  lemma StepsAgree(d: Disk, s: Store<Key, Value>, hash: Hash, op: Op, keep: set<int>, later: set<int>)
    requires Refines(d, hash, s, keep) && Allowed(s, hash, op, later) && later <= keep
    requires (op.CommitOp? ==> op.id in keep)
    ensures Refines(DiskStep(d, hash, op).0, hash, Step(s, op).0, later)
    ensures DiskStep(d, hash, op).1 == Step(s, op).1 && MemStep(s, op) == Step(s, op)
  {
    assert d.txid == s.txid && forall k :: DiskGet(d, hash, k) == Get(s, k);
    assert forall id :: TxName(id) in d.files <==> id in s.staged;
    KeepLess(d, hash, s, keep, later);
    hide Refines, DiskGet, TxName, MakesStale;
    match op
    case GetOp(k) =>
    case PutOp(k, v) => PutRefines(d, hash, s, later, k, v);
    case CommitOp(k, id) =>
      if id in s.staged {
        KeepLess(d, hash, s, keep, later + {id});
        assert !MakesStale(s, hash, id, id) by { NotItself(s, hash, id); }
        CommitRefines(d, hash, s, later + {id}, k, id);
        KeepLess(DiskCommit(d, hash, k, id).0, hash, Commit(s, k, id), later + {id}, later);
      }
    case RollbackOp(id) => RollbackRefines(d, hash, s, later, id);
  }

  lemma NotItself(s: Store<Key, Value>, hash: Hash, id: int)
    ensures !MakesStale(s, hash, id, id)
  {}

  /** Both stores hold what the map holds after n operations, and the directory all that is still to be committed. */
  ghost predicate AgreeAt(ops: seq<Op>, hash: Hash, n: nat)
    requires n <= |ops|
  {
    && Refines(DiskAfter(ops[..n], hash), hash, After(ops[..n]), Committing(ops[n..]))
    && MemAfter(ops[..n]) == After(ops[..n])
  }

  predicate AnsweredAlike(ops: seq<Op>, hash: Hash, i: nat)
    requires i < |ops|
  {
    DiskStep(DiskAfter(ops[..i], hash), hash, ops[i]).1 == Step(After(ops[..i]), ops[i]).1 ==
        MemStep(MemAfter(ops[..i]), ops[i]).1
  }

  lemma NextAgrees(ops: seq<Op>, hash: Hash, i: nat)
    requires i < |ops| && AgreeAt(ops, hash, i) && AllowedAt(ops, hash, i)
    ensures AgreeAt(ops, hash, i + 1) && AnsweredAlike(ops, hash, i)
  {
    hide Refines, Allowed;
    StillToCommit(ops, i);
    hide Committing;
    StepsAgree(DiskAfter(ops[..i], hash), After(ops[..i]), hash, ops[i], Committing(ops[i..]),
        Committing(ops[i + 1..]));
    hide DiskStep, Step, MemStep;
    assert ops[..i + 1][..i] == ops[..i];
  }

  /** Over every allowed run, for every hash function, the directory refines the map,
      the trie holds it, and each operation is answered alike by both. */
  lemma {:induction false} StoresAgree(ops: seq<Op>, hash: Hash, n: nat)
    requires AllowedRun(ops, hash) && n <= |ops|
    ensures AgreeAt(ops, hash, n) && forall i :: 0 <= i < n ==> AnsweredAlike(ops, hash, i)
  {
    hide AnsweredAlike, AllowedAt, AgreeAt;
    if n == 0 {
      FirstAgrees(ops, hash);
    } else {
      StoresAgree(ops, hash, n - 1);
      NextAgrees(ops, hash, n - 1);
    }
  }

  lemma FirstAgrees(ops: seq<Op>, hash: Hash)
    ensures AgreeAt(ops, hash, 0)
  {
    hide Refines;
    EmptyRefines(hash, Committing(ops));
    assert ops[0..] == ops;
  }

  lemma StillToCommit(ops: seq<Op>, i: nat)
    requires i < |ops|
    ensures Committing(ops[i + 1..]) <= Committing(ops[i..])
    ensures ops[i].CommitOp? ==> ops[i].id in Committing(ops[i..])
  {
    assert ops[i..] == [ops[i]] + ops[i + 1..];
  }

  // ---------- which hash functions need no such care ----------

  /** Lengths that fit, and commits under the key that was staged: all that a caller who knows
      nothing of pages can see to. */
  ghost predicate WellUsed(ops: seq<Op>) {
    forall i :: 0 <= i < |ops| ==>
      && (ops[i].PutOp? ==> Fits(ops[i].key) && Fits(ops[i].value))
      && (ops[i].CommitOp? ==> WellUsedCommit(After(ops[..i]), ops[i].key, ops[i].id))
  }

  predicate WellUsedCommit(s: Store<Key, Value>, key: Key, id: int) {
    if id in s.staged then s.staged[id].0 == key else key != []
  }

  /** No two keys that fit a page have the same hash. */
  ghost predicate NoCollisions(hash: Hash) {
    forall k, l :: Fits(k) && Fits(l) && hash(k) == hash(l) ==> k == l
  }

  lemma {:induction false} StagedFits(ops: seq<Op>, n: nat)
    requires WellUsed(ops) && n <= |ops|
    ensures forall id :: id in After(ops[..n]).staged ==> Fits(After(ops[..n]).staged[id].0)
  {
    if n > 0 {
      StagedFits(ops, n - 1);
      assert ops[..n][..n - 1] == ops[..n - 1];
    }
  }

  /** Without collisions no commit makes another write stale. */
  lemma CollisionFreeIsAllowed(ops: seq<Op>, hash: Hash)
    requires WellUsed(ops) && NoCollisions(hash)
    ensures AllowedRun(ops, hash)
  {
    forall k, l | Fits(k) && Fits(l) && PageName(hash, k) == PageName(hash, l) ensures k == l {
      PagesAreHashes(hash, k, l);
    }
    forall i | 0 <= i < |ops| ensures AllowedAt(ops, hash, i) {
      StagedFits(ops, i);
      hide After, PageName, Fits, Committing;
    }
  }

  /** Two keys of one page are written together, and the first is read. */
  function Collision(k: Key, l: Key): seq<Op> {
    [PutOp(k, [1]), PutOp(l, [2]), CommitOp(k, 1), CommitOp(l, 2), GetOp(k)]
  }

  lemma CollisionWellUsed(k: Key, l: Key)
    requires Fits(k) && Fits(l)
    ensures WellUsed(Collision(k, l)) && |Collision(k, l)| == 5
    ensures var s := After(Collision(k, l)[..2]);
            && s == Store(map[], map[1 := (k, [1]), 2 := (l, [2])], 2)
            && After(Collision(k, l)[..4]) == Commit(Commit(s, k, 1), l, 2)
  {
    var ops := Collision(k, l);
    assert ops[..1][..0] == [] && ops[..2][..1] == ops[..1] && ops[..3][..2] == ops[..2] && ops[..4][..3] == ops[..3];
    var s := After(ops[..2]);
    assert After(ops[..0]) == StagedStore.Empty() && ops[0].PutOp?;
    assert After(ops[..1]) == Store(map[], map[1 := (k, [1])], 1);
    assert s == Store(map[], map[1 := (k, [1]), 2 := (l, [2])], 2);
    assert After(ops[..3]) == Commit(s, k, 1);
  }

  lemma PutsAllowed(ops: seq<Op>, hash: Hash, i: nat)
    requires i < |ops| && ops[i].PutOp? && Fits(ops[i].key) && Fits(ops[i].value)
    ensures AllowedAt(ops, hash, i)
  {
    hide Fits, After, Committing;
  }

  lemma PutsAgree(ops: seq<Op>, hash: Hash)
    requires |ops| >= 2 && ops[0].PutOp? && Fits(ops[0].key) && Fits(ops[0].value)
    requires ops[1].PutOp? && Fits(ops[1].key) && Fits(ops[1].value)
    ensures AgreeAt(ops, hash, 2)
  {
    hide AgreeAt, AllowedAt, Fits, AnsweredAlike;
    PutsAllowed(ops, hash, 0);
    PutsAllowed(ops, hash, 1);
    FirstAgrees(ops, hash);
    NextAgrees(ops, hash, 0);
    NextAgrees(ops, hash, 1);
  }

  lemma CollisionPending(k: Key, l: Key)
    ensures |Collision(k, l)| == 5 && {1, 2} <= Committing(Collision(k, l)[2..])
  {
    var rest := Collision(k, l)[2..];
    assert rest[0] == CommitOp(k, 1) && rest[1] == CommitOp(l, 2);
    assert rest[0] in rest && rest[1] in rest;
    hide Collision;
  }

  lemma CollisionCommits(k: Key, l: Key, hash: Hash)
    ensures var ops := Collision(k, l);
            |ops| == 5 && DiskAfter(ops[..4], hash)
            == DiskCommit(DiskCommit(DiskAfter(ops[..2], hash), hash, k, 1).0, hash, l, 2).0
  {
    var ops := Collision(k, l);
    assert ops[..4][..3] == ops[..3] && ops[..3][..2] == ops[..2];
    assert ops[..4][3] == CommitOp(l, 2) && ops[..3][2] == CommitOp(k, 1);
    hide DiskCommit;
    assert DiskAfter(ops[..3], hash) == DiskCommit(DiskAfter(ops[..2], hash), hash, k, 1).0;
    assert DiskAfter(ops[..4], hash) == DiskCommit(DiskAfter(ops[..3], hash), hash, l, 2).0;
    hide Collision;
  }

  lemma CollisionStale(k: Key, l: Key, hash: Hash, s: Store<Key, Value>)
    requires s == Store(map[], map[1 := (k, [1]), 2 := (l, [2])], 2)
    requires k != l && PageName(hash, k) == PageName(hash, l)
    ensures MakesStale(s, hash, 1, 2) && Get(Commit(Commit(s, k, 1), l, 2), k) == Some([1])
  {
    hide PageName;
  }

  lemma CollisionDisagrees(k: Key, l: Key, hash: Hash)
    requires Fits(k) && Fits(l) && k != l && PageName(hash, k) == PageName(hash, l)
    ensures |Collision(k, l)| == 5 && !AnsweredAlike(Collision(k, l), hash, 4)
  {
    var ops := Collision(k, l);
    assert ops[0] == PutOp(k, [1]) && ops[1] == PutOp(l, [2]) && ops[4] == GetOp(k);
    hide Collision, DiskAfter, After, AllowedAt;
    CollisionWellUsed(k, l);
    PutsAgree(ops, hash);
    CollisionPending(k, l);
    CollisionCommits(k, l, hash);
    var d, s := DiskAfter(ops[..2], hash), After(ops[..2]);
    CollisionStale(k, l, hash, s);
    hide Refines, DiskCommit, DiskGet, PageName, MakesStale, Fits, Committing;
    CommitUndone(d, hash, s, Committing(ops[2..]), 1, 2);
  }

  /** The stores answer every run of such a caller alike exactly if no two keys have the same hash. */
  lemma HashesThatAgree(hash: Hash)
    ensures NoCollisions(hash) <==> forall ops, i :: WellUsed(ops) && 0 <= i < |ops| ==> AnsweredAlike(ops, hash, i)
  {
    hide AnsweredAlike, WellUsed, AllowedRun, Fits, PageName, Collision;
    if NoCollisions(hash) {
      forall ops, i | WellUsed(ops) && 0 <= i < |ops| ensures AnsweredAlike(ops, hash, i) {
        CollisionFreeIsAllowed(ops, hash);
        StoresAgree(ops, hash, |ops|);
      }
    } else {
      var k, l :| Fits(k) && Fits(l) && hash(k) == hash(l) && k != l;
      PagesAreHashes(hash, k, l);
      CollisionWellUsed(k, l);
      CollisionDisagrees(k, l, hash);
    }
  }

  // ---------- what a run leaves readable ----------

  function Puts(ops: seq<Op>): nat {
    if ops == [] then 0 else Puts(ops[..|ops| - 1]) + if ops[|ops| - 1].PutOp? then 1 else 0
  }

  /** The write staged under an id: the id-th put, if it is neither committed nor rolled back. */
  function Pending(ops: seq<Op>, id: int): Option<(Key, Value)> {
    if ops == [] then None else
      var op, rest := ops[|ops| - 1], ops[..|ops| - 1];
      if op.PutOp? && id == Puts(ops) then Some((op.key, op.value))
      else if op.RollbackOp? && op.id == id then None
      else if op.CommitOp? && op.id == id && Pending(rest, id).Some? && Pending(rest, id).value.0 == op.key then None
      else Pending(rest, id)
  }

  /** The value of a key's last commit. */
  function LastCommitted(ops: seq<Op>, key: Key): Option<Value> {
    if ops == [] then None else
      var op, rest := ops[|ops| - 1], ops[..|ops| - 1];
      if op.CommitOp? && op.key == key && Pending(rest, op.id).Some? && Pending(rest, op.id).value.0 == key
      then Some(Pending(rest, op.id).value.1)
      else LastCommitted(rest, key)
  }

  /** A read returns the value last committed for its key; writes staged or rolled back are invisible. */
  lemma {:induction false} ReadsLastCommitted(ops: seq<Op>, key: Key, id: int)
    ensures Get(After(ops), key) == LastCommitted(ops, key)
    ensures After(ops).txid == Puts(ops)
    ensures (if id in After(ops).staged then Some(After(ops).staged[id]) else None) == Pending(ops, id)
  {
    if ops != [] {
      var op, rest := ops[|ops| - 1], ops[..|ops| - 1];
      ReadsLastCommitted(rest, key, id);
      if op.CommitOp? { ReadsLastCommitted(rest, key, op.id); }
    }
  }
}
