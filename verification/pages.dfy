/** The page format of the persistent store (datastore/persistent.go): a page is a
    sequence of records, each a key and a value behind their 32-bit lengths. */
module Pages {
  import opened Packet
  import opened Wrappers
  import opened Codec

  datatype Record = Record(key: Key, value: Value)

  const UINT32: nat := 0x1_0000_0000
  const LENGTH_BYTES: nat := 4

  /** Lengths for which length + 4 does not wrap around in 32 bits. */
  predicate Fits(b: seq<Byte>) { |b| < UINT32 - LENGTH_BYTES }

  predicate RecordFits(r: Record) { Fits(r.key) && Fits(r.value) }

  // ---------- one field ----------

  function Field(b: seq<Byte>): seq<Byte> { BigEndian(|b| % UINT32, LENGTH_BYTES) + b }

  /** Where the first field of the data ends, in 32-bit arithmetic. */
  function FieldEnd(data: seq<Byte>): nat
    requires |data| >= LENGTH_BYTES
  {
    (Number(data[..LENGTH_BYTES]) + LENGTH_BYTES) % UINT32
  }

  /** The data starts with a whole field; slicing out of bounds stops the process. */
  predicate HasField(data: seq<Byte>) {
    |data| >= LENGTH_BYTES && LENGTH_BYTES <= FieldEnd(data) <= |data|
  }

  function FieldOf(data: seq<Byte>): seq<Byte>
    requires HasField(data)
  {
    data[LENGTH_BYTES..FieldEnd(data)]
  }

  function AfterField(data: seq<Byte>): (rest: seq<Byte>)
    requires HasField(data)
    ensures |rest| < |data|
  {
    data[FieldEnd(data)..]
  }

  lemma LengthLimit()
    ensures Limit(LENGTH_BYTES) == UINT32
  {
    assert Limit(4) == 256 * Limit(3) && Limit(3) == 256 * Limit(2) && Limit(2) == 256 * Limit(1) && Limit(1) == 256;
  }

  lemma FieldLength(b: seq<Byte>, rest: seq<Byte>)
    ensures Number((Field(b) + rest)[..LENGTH_BYTES]) == |b| % UINT32
    ensures Fits(b) ==> HasField(Field(b) + rest) && FieldEnd(Field(b) + rest) == |b| + LENGTH_BYTES
  {
    LengthLimit();
    NumberRoundTrip(|b| % UINT32, LENGTH_BYTES);
    assert (Field(b) + rest)[..LENGTH_BYTES] == BigEndian(|b| % UINT32, LENGTH_BYTES);
  }

  lemma FieldShort(data: seq<Byte>)
    requires HasField(data)
    ensures Fits(FieldOf(data))
  {}

  /** A field is read back, whatever follows it, exactly if its length stays below 2^32 - 4. */
  lemma FieldRoundTrip(b: seq<Byte>, rest: seq<Byte>)
    ensures (HasField(Field(b) + rest) && FieldOf(Field(b) + rest) == b && AfterField(Field(b) + rest) == rest) <==>
            Fits(b)
  {
    FieldLength(b, rest);
    var data := Field(b) + rest;
    if Fits(b) {
      assert data[LENGTH_BYTES..|b| + LENGTH_BYTES] == b;
      assert data[|b| + LENGTH_BYTES..] == rest;
    } else if HasField(data) {
      FieldShort(data);
    }
  }

  // ---------- whole pages ----------

  function Bytes(r: Record): seq<Byte> { Field(r.key) + Field(r.value) }

  function Page(rs: seq<Record>): seq<Byte> {
    if rs == [] then [] else Bytes(rs[0]) + Page(rs[1..])
  }

  function Parse(page: seq<Byte>): Option<seq<Record>>
    decreases |page|
  {
    if page == [] then Some([])
    else if !HasField(page) || !HasField(AfterField(page)) then None
    else match Parse(AfterField(AfterField(page)))
      case None => None
      case Some(rs) => Some([Record(FieldOf(page), FieldOf(AfterField(page)))] + rs)
  }

  predicate AllFit(rs: seq<Record>) { forall i :: 0 <= i < |rs| ==> RecordFits(rs[i]) }

  predicate DistinctKeys(rs: seq<Record>) { forall i, j :: 0 <= i < j < |rs| ==> rs[i].key != rs[j].key }

  lemma FirstRecord(r: Record, rest: seq<Byte>)
    requires RecordFits(r)
    ensures var data := Bytes(r) + rest;
            && HasField(data) && FieldOf(data) == r.key && HasField(AfterField(data))
            && FieldOf(AfterField(data)) == r.value && AfterField(AfterField(data)) == rest
            && AfterField(data) == Field(r.value) + rest
  {
    assert Bytes(r) + rest == Field(r.key) + (Field(r.value) + rest);
    FieldRoundTrip(r.key, Field(r.value) + rest);
    FieldRoundTrip(r.value, rest);
  }

  lemma ParseFirst(r: Record, rest: seq<Byte>)
    requires RecordFits(r) && Parse(rest).Some?
    ensures Parse(Bytes(r) + rest) == Some([r] + Parse(rest).value)
  {
    FirstRecord(r, rest);
    var data := Bytes(r) + rest;
    assert |data| >= LENGTH_BYTES;
    hide Bytes, HasField, FieldOf, AfterField, RecordFits;
    assert Parse(AfterField(AfterField(data))) == Parse(rest);
  }

  /** A page is read back as the records it was written from. */
  lemma {:induction false} ParsePage(rs: seq<Record>)
    requires AllFit(rs)
    ensures Parse(Page(rs)) == Some(rs)
  {
    if rs != [] {
      ParsePage(rs[1..]);
      hide Parse, Bytes, RecordFits;
      ParseFirst(rs[0], Page(rs[1..]));
      assert rs == [rs[0]] + rs[1..];
    }
  }

  /** Whatever parses was written from what it parses to. */
  lemma {:induction false} PageParse(page: seq<Byte>)
    requires Parse(page).Some?
    ensures Page(Parse(page).value) == page && AllFit(Parse(page).value)
    decreases |page|
  {
    if page != [] {
      var rest := AfterField(page);
      FieldBack(page);
      FieldBack(rest);
      PageParse(AfterField(rest));
      var rs := Parse(page).value;
      assert rs[1..] == Parse(AfterField(rest)).value;
      assert Bytes(rs[0]) + AfterField(rest) == Field(rs[0].key) + (Field(rs[0].value) + AfterField(rest));
    }
  }

  lemma FieldBack(data: seq<Byte>)
    requires HasField(data)
    ensures Fits(FieldOf(data)) && Field(FieldOf(data)) + AfterField(data) == data
  {
    LengthLimit();
    BytesRoundTrip(data[..LENGTH_BYTES]);
    var end := FieldEnd(data);
    assert Number(data[..LENGTH_BYTES]) < UINT32;
    assert |FieldOf(data)| == Number(data[..LENGTH_BYTES]);
    assert data == data[..LENGTH_BYTES] + data[LENGTH_BYTES..end] + data[end..];
  }

  // ---------- records ----------

  function Find(rs: seq<Record>, key: Key): Option<Value> {
    if rs == [] then None else if rs[0].key == key then Some(rs[0].value) else Find(rs[1..], key)
  }

  /** The value of a key replaced in place, or a new record at the end. */
  function Replaced(rs: seq<Record>, key: Key, v: Value): seq<Record> {
    seq(|rs|, i requires 0 <= i < |rs| => if rs[i].key == key then Record(key, v) else rs[i])
  }

  predicate HasKey(rs: seq<Record>, key: Key) { exists i :: 0 <= i < |rs| && rs[i].key == key }

  function PutRecord(rs: seq<Record>, key: Key, v: Value): seq<Record> {
    if HasKey(rs, key) then Replaced(rs, key, v) else rs + [Record(key, v)]
  }

  lemma {:induction false} FindAt(rs: seq<Record>, key: Key)
    ensures Find(rs, key).Some? <==> HasKey(rs, key)
    ensures Find(rs, key).Some? ==> exists i :: 0 <= i < |rs| && rs[i] == Record(key, Find(rs, key).value)
  {
    if rs != [] {
      FindAt(rs[1..], key);
      if rs[0].key != key && HasKey(rs, key) {
        var i :| 0 <= i < |rs| && rs[i].key == key;
        assert rs[1..][i - 1].key == key;
      }
    }
  }

  lemma FindDistinct(rs: seq<Record>, i: nat)
    requires DistinctKeys(rs) && i < |rs|
    ensures Find(rs, rs[i].key) == Some(rs[i].value)
  {
    FindAt(rs, rs[i].key);
    assert HasKey(rs, rs[i].key);
  }

  /** Putting a record changes what is found for its key and for no other, and keeps
      the keys distinct, the other records, and their order. */
  lemma PutRecordFinds(rs: seq<Record>, key: Key, v: Value, k: Key)
    requires DistinctKeys(rs)
    ensures DistinctKeys(PutRecord(rs, key, v))
    ensures Find(PutRecord(rs, key, v), k) == if k == key then Some(v) else Find(rs, k)
    ensures forall i :: 0 <= i < |rs| && rs[i].key != key ==> PutRecord(rs, key, v)[i] == rs[i]
  {
    var more := PutRecord(rs, key, v);
    FindAt(rs, k);
    FindAt(more, k);
    if k == key {
      if HasKey(rs, key) {
        var i :| 0 <= i < |rs| && rs[i].key == key;
        FindDistinct(more, i);
      } else {
        FindDistinct(more, |rs|);
      }
    } else if HasKey(rs, k) {
      var i :| 0 <= i < |rs| && rs[i].key == k;
      FindDistinct(rs, i);
      FindDistinct(more, i);
      assert HasKey(more, k);
    } else {
      KeysAfterPut(rs, key, v, k);
    }
  }

  lemma KeysAfterPut(rs: seq<Record>, key: Key, v: Value, k: Key)
    ensures HasKey(PutRecord(rs, key, v), k) <==> k == key || HasKey(rs, k)
  {
    var more := PutRecord(rs, key, v);
    if HasKey(rs, k) {
      var i :| 0 <= i < |rs| && rs[i].key == k;
      assert more[i].key == k;
    } else if k == key {
      assert more[|rs|].key == k;
    }
  }

  lemma {:induction false} PageAppend(rs: seq<Record>, r: Record)
    ensures Page(rs + [r]) == Page(rs) + Bytes(r)
  {
    if rs == [] {
      assert rs + [r] == [r];
      assert Page([r]) == Bytes(r) + Page([]);
    } else {
      PageAppend(rs[1..], r);
      hide Bytes;
      assert (rs + [r])[1..] == rs[1..] + [r];
      assert (rs + [r])[0] == rs[0];
      assert Bytes(rs[0]) + (Page(rs[1..]) + Bytes(r)) == (Bytes(rs[0]) + Page(rs[1..])) + Bytes(r);
    }
  }

  /** Copying one more record, with the value of the key replaced. */
  lemma CopiedRecord(rs: seq<Record>, i: nat, key: Key, v: Value)
    requires i < |rs|
    ensures Page(Replaced(rs[..i + 1], key, v)) == Page(Replaced(rs[..i], key, v)) + Field(rs[i].key)
              + Field(if rs[i].key == key then v else rs[i].value)
    ensures HasKey(rs[..i + 1], key) <==> HasKey(rs[..i], key) || rs[i].key == key
  {
    var r := if rs[i].key == key then Record(key, v) else rs[i];
    assert Replaced(rs[..i + 1], key, v) == Replaced(rs[..i], key, v) + [r];
    PageAppend(Replaced(rs[..i], key, v), r);
    assert Page(Replaced(rs[..i], key, v)) + Bytes(r) ==
        Page(Replaced(rs[..i], key, v)) + Field(r.key) + Field(r.value);
    KeysGrow(rs, i, key);
  }

  lemma KeysGrow(rs: seq<Record>, i: nat, key: Key)
    requires i < |rs|
    ensures HasKey(rs[..i + 1], key) <==> HasKey(rs[..i], key) || rs[i].key == key
  {
    if HasKey(rs[..i], key) {
      var j :| 0 <= j < i && rs[..i][j].key == key;
      assert rs[..i + 1][j].key == key;
    }
    if rs[i].key == key { assert rs[..i + 1][i].key == key; }
  }

  /** A page that is not at its end starts with a whole record. */
  lemma NextRecord(page: seq<Byte>)
    requires Parse(page).Some? && page != []
    ensures HasField(page) && HasField(AfterField(page)) && Parse(AfterField(AfterField(page))).Some?
    ensures Parse(page).value == [Record(FieldOf(page), FieldOf(AfterField(page)))] +
            Parse(AfterField(AfterField(page))).value
    ensures page[..FieldEnd(page)] == Field(FieldOf(page))
    ensures AfterField(page)[..FieldEnd(AfterField(page))] == Field(FieldOf(AfterField(page)))
  {
    FieldPrefix(page);
    FieldPrefix(AfterField(page));
  }

  lemma FieldPrefix(data: seq<Byte>)
    requires HasField(data)
    ensures data[..FieldEnd(data)] == Field(FieldOf(data))
  {
    FieldBack(data);
    assert data[..FieldEnd(data)] + AfterField(data) == data;
    assert |Field(FieldOf(data))| == FieldEnd(data);
    assert data[..FieldEnd(data)] == (Field(FieldOf(data)) + AfterField(data))[..FieldEnd(data)];
  }

  /** Fills a buffer with a length and the bytes it counts. */
  method NewField(b: seq<Byte>) returns (field: seq<Byte>)
    ensures field == Field(b)
  {
    var record := new Byte[|b| + LENGTH_BYTES];
    hide BigEndian;
    PutNumber(record, 0, |b| % UINT32, LENGTH_BYTES);
    ghost var length := record[0..LENGTH_BYTES];
    Copy(record, LENGTH_BYTES, b);
    assert record[0..LENGTH_BYTES] == length;
    assert record[..] == record[0..LENGTH_BYTES] + record[LENGTH_BYTES..LENGTH_BYTES + |b|];
    field := record[..];
  }
}
