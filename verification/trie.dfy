/** The in-memory store (datastore/memory.go): a trie of heap nodes keyed byte by
    byte, with staged writes kept beside the root. */
module MemStore {
  import opened Packet
  import opened Wrappers
  import opened StagedStore

  /** The nodes of a trie by the bytes that lead to them. */
  type Paths = map<Key, Trie>

  /** A node has a child for a byte exactly if there is a node at the longer path;
      every node but the root is some node's child, and no two paths meet. */
  ghost predicate Shape(paths: Paths, kids: map<Key, map<Byte, Trie>>) {
    && [] in paths && paths.Keys == kids.Keys
    && (forall p :: p in paths && p != [] ==> p[..|p| - 1] in paths)
    && (forall p, q :: p in paths && q in paths && p != q ==> paths[p] != paths[q])
    && (forall p, b :: p in kids ==> (b in kids[p] <==> p + [b] in paths))
    && (forall p, b :: p in kids && b in kids[p] ==> kids[p][b] == paths[p + [b]])
  }

  ghost function Kids(paths: Paths): map<Key, map<Byte, Trie>>
    reads paths.Values
  {
    map p | p in paths :: paths[p].children
  }

  ghost predicate Tree(paths: Paths)
    reads paths.Values
  {
    Shape(paths, Kids(paths))
  }

  lemma Extended(p: Key, c: Byte, q: Key, b: Byte)
    ensures p + [c] == q + [b] <==> p == q && c == b
  {
    if p + [c] == q + [b] {
      assert p == (p + [c])[..|p|] && q == (q + [b])[..|q|];
      assert (p + [c])[|p|] == c && (q + [b])[|q|] == b;
    }
  }

  lemma ChildrenGrow(paths: Paths, kids: map<Key, map<Byte, Trie>>, path: Key, b: Byte, child: Trie, p: Key, c: Byte)
    requires Shape(paths, kids) && path in paths && path + [b] !in paths && (p in paths || p == path + [b])
    ensures var kids' := kids[path := kids[path][b := child]][path + [b] := map[]];
            && (c in kids'[p] <==> p + [c] in paths || p + [c] == path + [b])
            && (c in kids'[p] ==> kids'[p][c] == paths[path + [b] := child][p + [c]])
  {
    Extended(p, c, path, b);
    if p == path + [b] { DeadEnd(paths, path + [b], [c]); }
  }

  lemma ShapeGrows(paths: Paths, kids: map<Key, map<Byte, Trie>>, path: Key, b: Byte, child: Trie)
    requires Shape(paths, kids) && path in paths && path + [b] !in paths && child !in paths.Values
    ensures Shape(paths[path + [b] := child], kids[path := kids[path][b := child]][path + [b] := map[]])
  {
    var more, kids' := paths[path + [b] := child], kids[path := kids[path][b := child]][path + [b] := map[]];
    assert (path + [b])[..|path + [b]| - 1] == path;
    assert forall p :: p in paths ==> paths[p] in paths.Values;
    assert more.Keys == kids'.Keys;
    forall p, c | p in kids'
      ensures c in kids'[p] <==> p + [c] in more
      ensures c in kids'[p] ==> kids'[p][c] == more[p + [c]]
    {
      ChildrenGrow(paths, kids, path, b, child, p, c);
    }
  }

  /** The value at a path. */
  ghost function Find(paths: Paths, key: Key): Option<Value>
    reads paths.Values
  {
    if key in paths then paths[key].value else None
  }

  ghost function Contents(paths: Paths): map<Key, Value>
    reads paths.Values
  {
    map k | k in paths && paths[k].value.Some? :: paths[k].value.value
  }

  lemma ContentsFound(paths: Paths, contents: map<Key, Value>)
    requires forall k :: Find(paths, k) == if k in contents then Some(contents[k]) else None
    ensures Contents(paths) == contents
  {
    assert forall k :: k in Contents(paths) <==> Find(paths, k).Some?;
  }

  lemma Found(paths: Paths, k: Key)
    ensures Find(paths, k) == if k in Contents(paths) then Some(Contents(paths)[k]) else None
  {}

  /** Where the trie ends, nothing lies beyond. */
  lemma {:induction false} DeadEnd(paths: Paths, path: Key, rest: Key)
    requires forall p :: p in paths && p != [] ==> p[..|p| - 1] in paths
    requires path != [] && path !in paths
    ensures path + rest !in paths
  {
    if rest == [] {
      assert path + rest == path;
    } else {
      DeadEnd(paths, path, rest[..|rest| - 1]);
      assert (path + rest)[..|path + rest| - 1] == path + rest[..|rest| - 1];
    }
  }

  /** No node lies at two paths. */
  lemma OneNode(paths: Paths, path: Key)
    requires Tree(paths) && path in paths
    ensures forall p :: p in paths && paths[p] == paths[path] ==> p == path
  {}

  lemma KidsShape(paths: Paths, kids: map<Key, map<Byte, Trie>>)
    requires Shape(paths, kids) && paths.Keys == kids.Keys && forall p :: p in paths ==> paths[p].children == kids[p]
    ensures Tree(paths)
  {
    assert Kids(paths) == kids;
    hide Shape;
  }

  lemma Split(path: Key, key: Key)
    requires key != []
    ensures path + key == (path + [key[0]]) + key[1..]
  {}

  class Trie {
    var value: Option<Value>
    var children: map<Byte, Trie>

    constructor ()
      ensures value == None && children == map[]
    {
      value, children := None, map[];
    }

    /** The value below this node, which lies at `path`. */
    method Get(key: Key, ghost path: Key, ghost paths: Paths) returns (v: Option<Value>)
      requires Tree(paths) && path in paths && paths[path] == this
      ensures v == Find(paths, path + key)
      decreases key
    {
      if |key| == 0 {
        assert path + key == path;
        return value;
      }
      Split(path, key);
      if key[0] in children {
        v := children[key[0]].Get(key[1..], path + [key[0]], paths);
      } else {
        DeadEnd(paths, path + [key[0]], key[1..]);
        v := None;
      }
    }

    /** A node without children becomes the child for b. */
    method Attach(b: Byte, child: Trie, ghost path: Key, ghost paths: Paths) returns (ghost more: Paths)
      requires Tree(paths) && path in paths && paths[path] == this && b !in children
      requires child !in paths.Values && child.children == map[]
      modifies this`children
      ensures Tree(more) && more == paths[path + [b] := child] && path + [b] !in paths
      ensures children == old(children)[b := child]
    {
      ChildAt(paths, path, b);
      OneNode(paths, path);
      ghost var kids := Kids(paths);
      ShapeGrows(paths, kids, path, b, child);
      hide Shape, Tree;
      assert child != this by { assert paths[path] in paths.Values; }
      children := children[b := child];
      more := paths[path + [b] := child];
      ghost var kids' := kids[path := kids[path][b := child]][path + [b] := map[]];
      forall p | p in more ensures p in kids' && more[p].children == kids'[p] {
        if p in paths && p != path { assert paths[p] != this; }
      }
      KidsShape(more, kids');
    }

    method AddChild(b: Byte, ghost path: Key, ghost paths: Paths) returns (ghost more: Paths)
      requires Tree(paths) && path in paths && paths[path] == this && b !in children
      modifies this`children
      ensures Tree(more) && more.Keys == paths.Keys + {path + [b]}
      ensures (forall p :: p in paths ==> more[p] == paths[p]) && fresh(more[path + [b]])
      ensures b in children && more[path + [b]].value == None
    {
      hide Tree;
      var child := new Trie();
      more := Attach(b, child, path, paths);
    }

    /** A new, empty branch changes no value. */
    method Branch(b: Byte, ghost path: Key, ghost paths: Paths) returns (ghost more: Paths)
      requires Tree(paths) && path in paths && paths[path] == this && b !in children
      modifies this`children
      ensures Tree(more) && paths.Keys <= more.Keys && (forall p :: p in paths ==> more[p] == paths[p])
      ensures forall p :: p in more && p !in paths ==> fresh(more[p])
      ensures path + [b] in more && b in children && children[b] == more[path + [b]]
      ensures forall k :: Find(more, k) == old(Find(paths, k))
    {
      hide Tree;
      more := AddChild(b, path, paths);
      ChildAt(more, path, b);
    }

    method SetValue(v: Option<Value>, ghost path: Key, ghost paths: Paths)
      requires Tree(paths) && path in paths && paths[path] == this
      modifies this`value
      ensures Tree(paths) && forall k :: Find(paths, k) == if k == path then v else old(Find(paths, k))
    {
      value := v;
      assert Kids(paths) == old(Kids(paths));
    }

    method Insert(key: Key, v: Option<Value>, ghost path: Key, ghost paths: Paths) returns (ghost more: Paths)
      requires Tree(paths) && path in paths && paths[path] == this
      modifies paths.Values
      ensures Tree(more) && paths.Keys <= more.Keys && (forall p :: p in paths ==> more[p] == paths[p])
      ensures forall p :: p in more && p !in paths ==> fresh(more[p])
      ensures forall k :: Find(more, k) == if k == path + key then v else old(Find(paths, k))
      decreases key
    {
      more := paths;
      if |key| == 0 {
        assert path + key == path;
        SetValue(v, path, paths);
      } else {
        Split(path, key);
        ChildAt(paths, path, key[0]);
        hide Tree;
        if key[0] !in children { more := Branch(key[0], path, paths); }
        hide Find;
        more := children[key[0]].Insert(key[1..], v, path + [key[0]], more);
      }
    }
  }

  lemma ChildAt(paths: Paths, path: Key, b: Byte)
    requires Tree(paths) && path in paths
    ensures b in paths[path].children <==> path + [b] in paths
    ensures b in paths[path].children ==> paths[path].children[b] == paths[path + [b]]
  {}

  /** Commit as this store does it: an id it does not know counts as staged under
      the empty key, with no value. */
  function MemCommit(s: Store<Key, Value>, key: Key, id: int): (Store<Key, Value>, bool) {
    if CanCommit(s, key, id) then (Commit(s, key, id), true)
    else if id !in s.staged && key == [] then (s.(committed := s.committed - {[]}), true)
    else (s, false)
  }

  /** It is the commit every store promises, except for an unknown id under the empty key. */
  lemma MemCommitRefines(s: Store<Key, Value>, key: Key, id: int)
    ensures MemCommit(s, key, id) == (Commit(s, key, id), CanCommit(s, key, id)) <==> !(key == [] && id !in s.staged)
  {}

  class MemStore {
    const root: Trie
    var uncommitted: map<int, (Key, Value)>
    var txid: int
    ghost var paths: Paths

    ghost predicate Valid()
      reads this, paths.Values
    {
      Tree(paths) && [] in paths && paths[[]] == root
    }

    ghost function State(): Store<Key, Value>
      reads this, paths.Values
    {
      Store(Contents(paths), uncommitted, txid)
    }

    constructor ()
      ensures Valid() && State() == StagedStore.Empty() && fresh(paths.Values)
    {
      root := new Trie();
      uncommitted, txid := map[], 0;
      new;
      paths := map[[] := root];
      assert forall p :: p in paths ==> p == [];
    }

    method Get(key: Key) returns (v: Option<Value>)
      requires Valid()
      ensures v == StagedStore.Get(State(), key)
    {
      assert [] + key == key;
      Found(paths, key);
      hide Tree, Contents, Find;
      v := root.Get(key, [], paths);
    }

    method Put(key: Key, val: Value) returns (id: int)
      requires Valid()
      modifies this`uncommitted, this`txid
      ensures Valid() && State() == StagedStore.Put(old(State()), key, val)
      ensures id == State().txid != 0
    {
      hide Tree, Contents;
      txid := txid + 1;
      if txid == 0 { txid := txid + 1; }
      uncommitted := uncommitted[txid := (key, val)];
      return txid;
    }

    method Commit(key: Key, id: int) returns (ok: bool)
      requires Valid()
      modifies this, paths.Values
      ensures Valid() && fresh(paths.Values - old(paths.Values))
      ensures (State(), ok) == MemCommit(old(State()), key, id)
    {
      hide Tree, Contents;
      var staged: (Key, Option<Value>) := ([], None);
      if id in uncommitted { staged := (uncommitted[id].0, Some(uncommitted[id].1)); }
      if staged.0 != key { return false; }
      assert id !in uncommitted ==> uncommitted - {id} == uncommitted;
      Set(key, staged.1);
      uncommitted := uncommitted - {id};
      return true;
    }

    method Set(key: Key, v: Option<Value>)
      requires Valid()
      modifies this`paths, paths.Values
      ensures Valid() && fresh(paths.Values - old(paths.Values))
      ensures State() == old(State()).(committed := match v
                case None => old(State()).committed - {key}
                case Some(x) => old(State()).committed[key := x])
    {
      ghost var before := Contents(paths);
      forall k ensures Find(paths, k) == if k in before then Some(before[k]) else None { Found(paths, k); }
      hide Tree, Contents, Find;
      ghost var more := root.Insert(key, v, [], paths);
      assert [] + key == key;
      paths := more;
      ContentsFound(paths, match v case None => before - {key} case Some(x) => before[key := x]);
    }

    method Rollback(id: int)
      requires Valid()
      modifies this`uncommitted
      ensures Valid() && State() == StagedStore.Rollback(old(State()), id)
    {
      uncommitted := uncommitted - {id};
    }
  }
}
