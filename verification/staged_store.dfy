/** The contract shared by both local stores (datastore/store.go): a map from
    keys to committed values, plus writes that are staged until committed. */
module StagedStore {
  import opened Wrappers

  datatype Store<K(==), V> = Store(committed: map<K, V>, staged: map<int, (K, V)>, txid: int)

  /** The transaction counter skips the value zero. */
  function NextTxid(txid: int): int {
    if txid + 1 == 0 then txid + 2 else txid + 1
  }

  function Empty<K(==), V>(): Store<K, V> { Store(map[], map[], 0) }

  function Get<K(==), V>(s: Store<K, V>, k: K): Option<V> {
    if k in s.committed then Some(s.committed[k]) else None
  }

  function Put<K(==), V>(s: Store<K, V>, k: K, v: V): Store<K, V> {
    var id := NextTxid(s.txid);
    s.(staged := s.staged[id := (k, v)], txid := id)
  }

  predicate CanCommit<K(==), V>(s: Store<K, V>, k: K, id: int) {
    id in s.staged && s.staged[id].0 == k
  }

  /** Committing under the wrong key or an unknown id changes nothing. */
  function Commit<K(==), V>(s: Store<K, V>, k: K, id: int): Store<K, V> {
    if CanCommit(s, k, id)
    then s.(committed := s.committed[k := s.staged[id].1], staged := s.staged - {id})
    else s
  }

  function Rollback<K(==), V>(s: Store<K, V>, id: int): Store<K, V> {
    s.(staged := s.staged - {id})
  }
}
