/** The persistent store (datastore/persistent.go): one file per hash value holding
    the page of all keys with that hash, and one file per staged write holding the
    whole page that is to replace it. */
module Persistent {
  import opened Packet
  import opened Wrappers
  import opened StagedStore
  import opened Pages
  import Decimal

  /** A directory, and the last transaction id given out. */
  datatype Disk = Disk(files: map<string, seq<Byte>>, txid: int)

  const EMPTY := Disk(map[], 0)

  // ---------- file names ----------

  function HexDigit(d: nat): char
    requires d < 16
  {
    "0123456789abcdef"[d]
  }

  function Hex(b: seq<Byte>): string {
    if b == [] then "" else [HexDigit(b[0] as nat / 16), HexDigit(b[0] as nat % 16)] + Hex(b[1..])
  }

  /** The hash is an arbitrary function from keys to bytes. */
  type Hash = Key -> seq<Byte>

  function PageName(hash: Hash, key: Key): string { Hex(hash(key)) }

  function TxName(id: int): string { "tx" + Decimal.Itoa(id) }

  lemma HexNotT(b: seq<Byte>)
    ensures b != [] ==> Hex(b) != [] && Hex(b)[0] != 't'
    ensures b == [] ==> Hex(b) == []
  {}

  /** A page name gives back the bytes of the hash. */
  lemma {:induction false} HexInjective(a: seq<Byte>, b: seq<Byte>)
    ensures Hex(a) == Hex(b) <==> a == b
  {
    HexNotT(a);
    HexNotT(b);
    if a != [] && b != [] {
      var x, y := Hex(a), Hex(b);
      assert x[2..] == Hex(a[1..]) && y[2..] == Hex(b[1..]);
      HexInjective(a[1..], b[1..]);
      if x == y {
        assert HexDigit(a[0] as nat / 16) == x[0] == y[0] == HexDigit(b[0] as nat / 16);
        assert HexDigit(a[0] as nat % 16) == x[1] == y[1] == HexDigit(b[0] as nat % 16);
        DigitsDiffer(a[0] as nat / 16, b[0] as nat / 16);
        DigitsDiffer(a[0] as nat % 16, b[0] as nat % 16);
        assert a[0] == b[0];
        assert a == [a[0]] + a[1..] && b == [b[0]] + b[1..];
      }
    }
  }

  lemma DigitsDiffer(c: nat, d: nat)
    requires c < 16 && d < 16
    ensures HexDigit(c) == HexDigit(d) <==> c == d
  {}

  /** Keys share a page exactly if they have the same hash. */
  lemma PagesAreHashes(hash: Hash, key: Key, other: Key)
    ensures PageName(hash, key) == PageName(hash, other) <==> hash(key) == hash(other)
  {
    HexInjective(hash(key), hash(other));
    hide Hex;
  }

  lemma TxNameParts(id: int)
    ensures |TxName(id)| >= 2 && TxName(id)[0] == 't' && TxName(id)[2..] == Decimal.Itoa(id)
  {}

  /** A staged write never has the name of a page, and no two have the same name. */
  lemma NamesApart(hash: Hash, key: Key, id: int, other: int)
    ensures PageName(hash, key) != TxName(id)
    ensures TxName(id) == TxName(other) ==> id == other
  {
    HexNotT(hash(key));
    TxNameParts(id);
    TxNameParts(other);
    hide TxName, Hex;
    if TxName(id) == TxName(other) { Decimal.Injective(id, other); }
  }

  // ---------- the operations on records ----------

  function RecordsIn(d: Disk, name: string): seq<Record> {
    if name in d.files && Parse(d.files[name]).Some? then Parse(d.files[name]).value else []
  }

  function DiskGet(d: Disk, hash: Hash, key: Key): Option<Value> { Find(RecordsIn(d, PageName(hash, key)), key) }

  function DiskPut(d: Disk, hash: Hash, key: Key, v: Value): Disk {
    var id := NextTxid(d.txid);
    Disk(d.files[TxName(id) := Page(PutRecord(RecordsIn(d, PageName(hash, key)), key, v))], id)
  }

  function DiskCommit(d: Disk, hash: Hash, key: Key, id: int): (Disk, bool) {
    if TxName(id) !in d.files then (d, false)
    else (d.(files := (d.files - {TxName(id)})[PageName(hash, key) := d.files[TxName(id)]]), true)
  }

  function DiskRollback(d: Disk, id: int): Disk { d.(files := d.files - {TxName(id)}) }

  // ---------- refinement ----------

  ghost predicate WellFormed(d: Disk) {
    forall name :: name in d.files ==> Parse(d.files[name]).Some? && DistinctKeys(Parse(d.files[name]).value)
  }

  /** The staged page is the current page with the staged record put into it. */
  ghost predicate UpToDate(d: Disk, hash: Hash, id: int, key: Key, v: Value) {
    RecordsIn(d, TxName(id)) == PutRecord(RecordsIn(d, PageName(hash, key)), key, v)
  }

  /** The directory holds the map; of the staged writes, those to be kept are up to date. A
      write left staged for ever need not be. */
  ghost predicate Refines(d: Disk, hash: Hash, s: Store<Key, Value>, keep: set<int>) {
    && WellFormed(d) && d.txid == s.txid >= 0
    && (forall key :: DiskGet(d, hash, key) == Get(s, key))
    && (forall id :: TxName(id) in d.files <==> id in s.staged)
    && (forall id :: id in s.staged ==> id <= s.txid)
    && (forall id :: id in s.staged && id in keep ==> UpToDate(d, hash, id, s.staged[id].0, s.staged[id].1))
  }

  lemma EmptyRefines(hash: Hash, keep: set<int>)
    ensures Refines(EMPTY, hash, StagedStore.Empty(), keep)
  {}

  lemma PutPage(d: Disk, hash: Hash, key: Key, v: Value)
    requires WellFormed(d) && Fits(key) && Fits(v)
    ensures var rs := PutRecord(RecordsIn(d, PageName(hash, key)), key, v);
            Parse(Page(rs)) == Some(rs) && DistinctKeys(rs)
  {
    var name := PageName(hash, key);
    var rs := RecordsIn(d, name);
    if name in d.files { PageParse(d.files[name]); }
    PutRecordFinds(rs, key, v, key);
    ParsePage(PutRecord(rs, key, v));
  }

  lemma PutFiles(d: Disk, hash: Hash, s: Store<Key, Value>, keep: set<int>, key: Key, v: Value)
    requires Refines(d, hash, s, keep) && Fits(key) && Fits(v)
    ensures var d' := DiskPut(d, hash, key, v);
            && WellFormed(d')
            && RecordsIn(d', TxName(d'.txid)) == PutRecord(RecordsIn(d, PageName(hash, key)), key, v)
            && (forall k :: RecordsIn(d', PageName(hash, k)) == RecordsIn(d, PageName(hash, k)))
            && (forall id :: id != d'.txid ==> RecordsIn(d', TxName(id)) == RecordsIn(d, TxName(id)))
            && (forall id :: TxName(id) in d'.files <==> id in s.staged || id == d'.txid)
  {
    var d', rs := DiskPut(d, hash, key, v), PutRecord(RecordsIn(d, PageName(hash, key)), key, v);
    assert forall id :: TxName(id) in d.files <==> id in s.staged;
    assert WellFormed(d);
    hide Refines;
    PutPage(d, hash, key, v);
    hide Page, PutRecord, TxName, PageName;
    WrittenFile(d, TxName(d'.txid), Page(rs), d'.txid);
    hide Parse, RecordsIn, WellFormed, DistinctKeys;
    forall k ensures PageName(hash, k) != TxName(d'.txid) { NamesApart(hash, k, d'.txid, d'.txid); }
    forall id ensures TxName(id) == TxName(d'.txid) <==> id == d'.txid { NamesApart(hash, key, id, d'.txid); }
  }

  /** Writing a file changes the records in that file only. */
  lemma WrittenFile(d: Disk, name: string, page: seq<Byte>, txid: int)
    requires WellFormed(d) && Parse(page).Some? && DistinctKeys(Parse(page).value)
    ensures WellFormed(Disk(d.files[name := page], txid))
    ensures RecordsIn(Disk(d.files[name := page], txid), name) == Parse(page).value
    ensures forall other :: other != name ==> RecordsIn(Disk(d.files[name := page], txid), other) == RecordsIn(d, other)
  {
    hide Parse, DistinctKeys;
  }

  /** A new staged write changes nothing that is read. */
  lemma PutRefines(d: Disk, hash: Hash, s: Store<Key, Value>, keep: set<int>, key: Key, v: Value)
    requires Refines(d, hash, s, keep) && Fits(key) && Fits(v)
    ensures Refines(DiskPut(d, hash, key, v), hash, Put(s, key, v), keep)
  {
    var d', s' := DiskPut(d, hash, key, v), Put(s, key, v);
    PutFiles(d, hash, s, keep, key, v);
    hide WellFormed, Page, Parse, PutRecord, Find, TxName, PageName, RecordsIn;
    forall k ensures DiskGet(d', hash, k) == Get(s', k) { assert DiskGet(d, hash, k) == Get(s, k); }
    forall id | id in s'.staged && id in keep ensures UpToDate(d', hash, id, s'.staged[id].0, s'.staged[id].1) {
      if id != s'.txid { assert UpToDate(d, hash, id, s.staged[id].0, s.staged[id].1); }
    }
  }

  lemma RollbackRefines(d: Disk, hash: Hash, s: Store<Key, Value>, keep: set<int>, id: int)
    requires Refines(d, hash, s, keep)
    ensures Refines(DiskRollback(d, id), hash, Rollback(s, id), keep)
  {
    var d', s' := DiskRollback(d, id), Rollback(s, id);
    hide Parse, PutRecord, Find, DistinctKeys, TxName, PageName;
    forall k
      ensures RecordsIn(d', PageName(hash, k)) == RecordsIn(d, PageName(hash, k))
      ensures DiskGet(d', hash, k) == Get(s', k)
    {
      NamesApart(hash, k, id, id);
      assert DiskGet(d, hash, k) == Get(s, k);
    }
    forall other ensures TxName(other) == TxName(id) <==> other == id { NamesApart(hash, [], other, id); }
    forall other | other in s'.staged && other in keep
      ensures UpToDate(d', hash, other, s'.staged[other].0, s'.staged[other].1)
    {
      assert RecordsIn(d', TxName(other)) == RecordsIn(d, TxName(other));
      assert UpToDate(d, hash, other, s.staged[other].0, s.staged[other].1);
    }
  }

  lemma PutTwice(rs: seq<Record>, key: Key, v: Value, u: Value)
    ensures PutRecord(PutRecord(rs, key, v), key, u) == PutRecord(rs, key, u)
  {
    var once := PutRecord(rs, key, v);
    KeysAfterPut(rs, key, v, key);
    if HasKey(rs, key) {
      assert Replaced(Replaced(rs, key, v), key, u) == Replaced(rs, key, u);
    } else {
      assert forall i :: 0 <= i < |rs| ==> rs[i].key != key;
      assert Replaced(once, key, u) == rs + [Record(key, u)];
    }
  }

  lemma PutSame(rs: seq<Record>, key: Key, v: Value)
    requires DistinctKeys(rs) && Find(rs, key) == Some(v)
    ensures PutRecord(rs, key, v) == rs
  {
    FindAt(rs, key);
    forall i | 0 <= i < |rs| && rs[i].key == key ensures rs[i] == Record(key, v) { FindDistinct(rs, i); }
    assert Replaced(rs, key, v) == rs;
  }

  /** Another staged write, of another key in the same page, that this commit makes stale. */
  ghost predicate MakesStale(s: Store<Key, Value>, hash: Hash, id: int, other: int) {
    && id in s.staged && other in s.staged && other != id
    && PageName(hash, s.staged[other].0) == PageName(hash, s.staged[id].0)
    && s.staged[other].0 != s.staged[id].0
    && Get(s, s.staged[id].0) != Some(s.staged[id].1)
  }

  lemma CommitPages(d: Disk, hash: Hash, s: Store<Key, Value>, keep: set<int>, key: Key, id: int)
    requires Refines(d, hash, s, keep) && CanCommit(s, key, id) && id in keep
    ensures var (d', ok) := DiskCommit(d, hash, key, id);
            && ok && WellFormed(d')
            && RecordsIn(d', PageName(hash, key)) == PutRecord(RecordsIn(d, PageName(hash, key)), key, s.staged[id].1)
            && (forall k :: PageName(hash, k) != PageName(hash, key) ==>
                 RecordsIn(d', PageName(hash, k)) == RecordsIn(d, PageName(hash, k)))
            && (forall other :: other != id ==> RecordsIn(d', TxName(other)) == RecordsIn(d, TxName(other)))
            && (forall other :: TxName(other) in d'.files <==> other in s.staged && other != id)
  {
    hide Parse, PutRecord, Find, DistinctKeys, TxName, PageName;
    assert UpToDate(d, hash, id, key, s.staged[id].1) && TxName(id) in d.files;
    forall other
      ensures TxName(other) == TxName(id) <==> other == id
      ensures TxName(other) != PageName(hash, key)
    {
      NamesApart(hash, key, other, id);
    }
    forall k ensures PageName(hash, k) != TxName(id) { NamesApart(hash, k, id, id); }
  }

  lemma CommitReads(d: Disk, hash: Hash, s: Store<Key, Value>, keep: set<int>, key: Key, id: int, k: Key)
    requires Refines(d, hash, s, keep) && CanCommit(s, key, id) && id in keep
    ensures DiskGet(DiskCommit(d, hash, key, id).0, hash, k) == Get(Commit(s, key, id), k)
  {
    CommitPages(d, hash, s, keep, key, id);
    var name := PageName(hash, key);
    assert DiskGet(d, hash, k) == Get(s, k);
    if PageName(hash, k) == name {
      assert name in d.files ==> DistinctKeys(Parse(d.files[name]).value);
      PutRecordFinds(RecordsIn(d, name), key, s.staged[id].1, k);
    }
    hide Refines, DiskCommit, Find, PutRecord, Parse, DistinctKeys;
  }

  lemma CommitKeepsUpToDate(d: Disk, hash: Hash, s: Store<Key, Value>, keep: set<int>, key: Key, id: int, other: int)
    requires Refines(d, hash, s, keep) && CanCommit(s, key, id) && id in keep
    requires other in s.staged && other in keep && other != id
    ensures UpToDate(DiskCommit(d, hash, key, id).0, hash, other, s.staged[other].0, s.staged[other].1)
            <==> !MakesStale(s, hash, id, other)
  {
    CommitPages(d, hash, s, keep, key, id);
    var name, v := PageName(hash, key), s.staged[id].1;
    var (k, u) := s.staged[other];
    var rs := RecordsIn(d, name);
    assert UpToDate(d, hash, other, k, u) && DiskGet(d, hash, key) == Get(s, key);
    assert DistinctKeys(rs);
    hide Refines, DiskCommit, PutRecord, Parse, DistinctKeys, PageName, TxName;
    if PageName(hash, k) == name {
      if k == key {
        PutTwice(rs, key, v, u);
      } else if Find(rs, key) == Some(v) {
        PutSame(rs, key, v);
      } else {
        PutRecordFinds(rs, key, v, key);
        PutRecordFinds(PutRecord(rs, key, v), k, u, key);
        PutRecordFinds(rs, k, u, key);
      }
    }
  }

  /** What a commit leaves to be checked is that the other staged writes are up to date. */
  lemma CommitRest(d: Disk, hash: Hash, s: Store<Key, Value>, keep: set<int>, key: Key, id: int)
    requires Refines(d, hash, s, keep) && CanCommit(s, key, id) && id in keep
    ensures var (d', ok) := DiskCommit(d, hash, key, id);
            && ok && (forall k :: DiskGet(d', hash, k) == Get(Commit(s, key, id), k))
            && (Refines(d', hash, Commit(s, key, id), keep) <==>
                forall other :: other in s.staged && other != id && other in keep ==>
                  UpToDate(d', hash, other, s.staged[other].0, s.staged[other].1))
  {
    var d', s' := DiskCommit(d, hash, key, id).0, Commit(s, key, id);
    CommitPages(d, hash, s, keep, key, id);
    forall k ensures DiskGet(d', hash, k) == Get(s', k) { CommitReads(d, hash, s, keep, key, id, k); }
    assert d'.txid == d.txid && s'.txid == s.txid;
    assert forall other :: other in s'.staged <==> other in s.staged && other != id;
    assert forall other :: other in s'.staged ==> s'.staged[other] == s.staged[other];
    hide DiskCommit, DiskGet, UpToDate, WellFormed, TxName, Commit;
  }

  /** A commit makes exactly the staged value readable, and keeps the refinement
      exactly if no other staged write of the same page that is to be kept becomes stale. */
  lemma CommitRefines(d: Disk, hash: Hash, s: Store<Key, Value>, keep: set<int>, key: Key, id: int)
    requires Refines(d, hash, s, keep) && CanCommit(s, key, id) && id in keep
    ensures DiskCommit(d, hash, key, id).1
    ensures forall k :: DiskGet(DiskCommit(d, hash, key, id).0, hash, k) == Get(Commit(s, key, id), k)
    ensures Refines(DiskCommit(d, hash, key, id).0, hash, Commit(s, key, id), keep)
            <==> forall other :: other in keep ==> !MakesStale(s, hash, id, other)
  {
    var d' := DiskCommit(d, hash, key, id).0;
    CommitRest(d, hash, s, keep, key, id);
    forall other | other in s.staged && other in keep && other != id
      ensures UpToDate(d', hash, other, s.staged[other].0, s.staged[other].1) <==> !MakesStale(s, hash, id, other)
    {
      CommitKeepsUpToDate(d, hash, s, keep, key, id, other);
    }
    assert forall other :: MakesStale(s, hash, id, other) ==> other in s.staged && other != id;
    hide DiskCommit, DiskGet, UpToDate, MakesStale, Refines;
  }

  /** Two keys of one page staged together: committing the second undoes the first. */
  lemma CommitUndone(d: Disk, hash: Hash, s: Store<Key, Value>, keep: set<int>, id: int, other: int)
    requires Refines(d, hash, s, keep) && id in keep && other in keep && MakesStale(s, hash, id, other)
    ensures var (key, v) := s.staged[id];
            var d1 := DiskCommit(d, hash, key, id).0;
            var d2 := DiskCommit(d1, hash, s.staged[other].0, other).0;
            DiskGet(d1, hash, key) == Some(v) && DiskGet(d2, hash, key) == Get(s, key) != Some(v)
  {
    var (key, v) := s.staged[id];
    var (k, u) := s.staged[other];
    CommitRefines(d, hash, s, keep, key, id);
    CommitPages(d, hash, s, keep, key, id);
    var d1 := DiskCommit(d, hash, key, id).0;
    assert TxName(other) in d1.files;
    assert UpToDate(d, hash, other, k, u) && DiskGet(d, hash, key) == Get(s, key);
    assert DistinctKeys(RecordsIn(d, PageName(hash, key)));
    PutRecordFinds(RecordsIn(d, PageName(hash, key)), k, u, key);
    NamesApart(hash, key, other, id);
    hide Refines, PutRecord, Find, Parse, DistinctKeys, PageName, TxName;
    assert RecordsIn(DiskCommit(d1, hash, k, other).0, PageName(hash, k)) == RecordsIn(d1, TxName(other));
  }

  class PersistentStore {
    const hash: Hash
    var files: map<string, seq<Byte>>
    var txid: int

    ghost function State(): Disk
      reads this
    {
      Disk(files, txid)
    }

    constructor (hash: Hash)
      ensures State() == EMPTY && this.hash == hash
    {
      this.hash, files, txid := hash, map[], 0;
    }

    method Get(key: Key) returns (v: Option<Value>)
      requires WellFormed(State())
      ensures v == DiskGet(State(), hash, key)
    {
      var path := PageName(hash, key);
      if path !in files { return None; }
      var data := files[path];
      while |data| > 0
        invariant Parse(data).Some? && Find(Parse(data).value, key) == DiskGet(State(), hash, key)
        decreases |data|
      {
        NextRecord(data);
        var keyEnd := FieldEnd(data);
        var found := data[LENGTH_BYTES..keyEnd] == key;
        data := data[keyEnd..];
        var valueEnd := FieldEnd(data);
        if found { return Some(data[LENGTH_BYTES..valueEnd]); }
        data := data[valueEnd..];
      }
      return None;
    }

    method Put(key: Key, val: Value) returns (id: int)
      requires WellFormed(State())
      modifies this
      ensures State() == DiskPut(old(State()), hash, key, val)
      ensures id == State().txid != 0
    {
      txid := txid + 1;
      if txid == 0 { txid := txid + 1; }
      var name := PageName(hash, key);
      assert RecordsIn(State(), name) == RecordsIn(old(State()), name);
      assert PutRecord([], key, val) == [Record(key, val)];
      hide Page, Replaced, HasKey, Parse, Bytes;
      var newPage;
      if name in files { newPage := Rewrite(files[name], key, val); } else { newPage := FirstPage(key, val); }
      files := files[TxName(txid) := newPage];
      return txid;
    }

    /** The page with the value of a key replaced in place, or its record added at the end. */
    static method Rewrite(page: seq<Byte>, key: Key, val: Value) returns (newPage: seq<Byte>)
      requires Parse(page).Some?
      ensures newPage == Page(PutRecord(Parse(page).value, key, val))
    {
      ghost var rs, i := Parse(page).value, 0;
      var oldPage, written := page, false;
      newPage := [];
      while |oldPage| > 0
        invariant 0 <= i <= |rs| && Parse(oldPage) == Some(rs[i..])
        invariant newPage == Page(Replaced(rs[..i], key, val))
        invariant written <==> HasKey(rs[..i], key)
        decreases |oldPage|
      {
        NextRecord(oldPage);
        CopiedRecord(rs, i, key, val);
        assert rs[i..][1..] == rs[i + 1..];
        hide Page, Replaced, HasKey, Field;
        var keyEnd := FieldEnd(oldPage);
        var found := oldPage[LENGTH_BYTES..keyEnd] == key;
        newPage := newPage + oldPage[..keyEnd];
        oldPage := oldPage[keyEnd..];
        var valueEnd := FieldEnd(oldPage);
        if found {
          var field := NewField(val);
          newPage := newPage + field;
          written := true;
        } else {
          newPage := newPage + oldPage[..valueEnd];
        }
        oldPage := oldPage[valueEnd..];
        i := i + 1;
      }
      assert rs[..i] == rs;
      if !written {
        assert Replaced(rs, key, val) == rs;
        PageAppend(rs, Record(key, val));
        var last := FirstPage(key, val);
        newPage := newPage + last;
      }
    }

    static method FirstPage(key: Key, val: Value) returns (page: seq<Byte>)
      ensures page == Bytes(Record(key, val)) == Page([Record(key, val)])
    {
      var keyField := NewField(key);
      var valueField := NewField(val);
      page := keyField + valueField;
    }

    method Commit(key: Key, id: int) returns (ok: bool)
      modifies this`files
      ensures (State(), ok) == DiskCommit(old(State()), hash, key, id)
    {
      if TxName(id) !in files { return false; }
      files := (files - {TxName(id)})[PageName(hash, key) := files[TxName(id)]];
      return true;
    }

    method Rollback(id: int)
      modifies this`files
      ensures State() == DiskRollback(old(State()), id)
    {
      files := files - {TxName(id)};
    }
  }
}
