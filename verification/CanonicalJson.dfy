/**
 Canonical encoding: `json.dumps(value, sort_keys=True, ensure_ascii=False, separators=(",", ":")).encode("utf-8")`.

 A Document is a Python value whose dicts remember their insertion order; the encoder sorts each dict's
 items before printing them. Forgetting the order of a Document gives a Json value.
 */
module CanonicalJson {
  import opened Utf8
  import opened Json

  datatype Document =
    | DNull
    | DBool(b: bool)
    | DNum(n: int)
    | DStr(s: string)
    | DArr(items: seq<Document>)
    | DObj(entries: seq<(string, Document)>)

  predicate DistinctKeys(entries: seq<(string, Document)>)
  {
    forall i, j :: 0 <= i < j < |entries| ==> entries[i].0 != entries[j].0
  }

  /** No dict inside the document has a key twice. */
  predicate WellKeyed(d: Document)
  {
    match d
    case DArr(items) => forall x :: x in items ==> WellKeyed(x)
    case DObj(entries) => DistinctKeys(entries) && forall e :: e in entries ==> WellKeyed(e.1)
    case _ => true
  }

  /** The value of the document, with the order of its dicts forgotten. */
  function Value(d: Document): Json
    decreases d, 1, 0
  {
    match d
    case DNull => Null
    case DBool(b) => Bool(b)
    case DNum(n) => Num(n)
    case DStr(s) => Str(s)
    case DArr(items) => Arr(seq(|items|, i requires 0 <= i < |items| => Value(items[i])))
    case DObj(entries) => Obj(EntryMap(d, |entries|))
  }

  function EntryMap(d: Document, count: nat): map<string, Json>
    requires d.DObj? && count <= |d.entries|
    decreases d, 0, count
  {
    if count == 0 then map[]
    else
      assert d.entries[count - 1] in d.entries;
      EntryMap(d, count - 1)[d.entries[count - 1].0 := Value(d.entries[count - 1].1)]
  }

  // ---- the encoder ----

  function Insert(e: (string, Document), sorted: seq<(string, Document)>): (r: seq<(string, Document)>)
    ensures multiset(r) == multiset{e} + multiset(sorted)
  {
    if sorted == [] || !Less(sorted[0].0, e.0) then [e] + sorted
    else
      assert sorted == [sorted[0]] + sorted[1..];
      [sorted[0]] + Insert(e, sorted[1..])
  }

  /** `sorted(items)`: the keys are distinct, so they alone decide the order. */
  function SortEntries(entries: seq<(string, Document)>): (r: seq<(string, Document)>)
    ensures multiset(r) == multiset(entries)
  {
    if entries == [] then []
    else
      assert entries == [entries[0]] + entries[1..];
      Insert(entries[0], SortEntries(entries[1..]))
  }

  function Encode(d: Document, ascii: bool): string
    decreases d, 1, 0
  {
    match d
    case DNull => "null"
    case DBool(b) => if b then "true" else "false"
    case DNum(n) => IntText(n)
    case DStr(s) => Quoted(s, ascii)
    case DArr(items) => "[" + EncodeItems(d, 0, ascii) + "]"
    case DObj(entries) =>
      var sorted := SortEntries(entries);
      assert forall e :: e in sorted ==> e in multiset(sorted);
      "{" + EncodeEntries(d, sorted, ascii) + "}"
  }

  function EncodeItems(d: Document, i: nat, ascii: bool): string
    requires d.DArr? && i <= |d.items|
    decreases d, 0, |d.items| - i
  {
    if i == |d.items| then ""
    else (if i == 0 then "" else ",") + Encode(d.items[i], ascii) + EncodeItems(d, i + 1, ascii)
  }

  function EncodeEntries(d: Document, sorted: seq<(string, Document)>, ascii: bool): string
    requires d.DObj? && forall e :: e in sorted ==> e in d.entries
    decreases d, 0, |sorted|
  {
    if sorted == [] then ""
    else
      assert sorted[0] in d.entries;
      Quoted(sorted[0].0, ascii) + ":" + Encode(sorted[0].1, ascii)
      + (if |sorted| == 1 then "" else "," + EncodeEntries(d, sorted[1..], ascii))
  }

  function CanonicalBytes(d: Document): seq<Byte>
  {
    Utf8.Encode(Encode(d, false))
  }

  // ---- sorting the items lists the keys in order ----

  function KeysOf(entries: seq<(string, Document)>): (ks: seq<string>)
    ensures |ks| == |entries| && forall i :: 0 <= i < |ks| ==> ks[i] == entries[i].0
  {
    seq(|entries|, i requires 0 <= i < |entries| => entries[i].0)
  }

  lemma AscendingCons(k: string, ks: seq<string>)
    requires Ascending(ks) && (ks != [] ==> Less(k, ks[0]))
    ensures Ascending([k] + ks)
  {
    hide Less;
    var all := [k] + ks;
    forall i, j | 0 <= i < j < |all| ensures Less(all[i], all[j]) {
      if i == 0 && j > 1 { LessTransitive(k, ks[0], ks[j - 1]); }
    }
  }

  lemma AscendingTail(ks: seq<string>)
    requires Ascending(ks) && ks != []
    ensures Ascending(ks[1..]) && (|ks| > 1 ==> Less(ks[0], ks[1]))
  {
    hide Less;
    var rest := ks[1..];
    forall i, j | 0 <= i < j < |rest| ensures Less(rest[i], rest[j]) { assert Less(ks[i + 1], ks[j + 1]); }
  }

  lemma {:induction false} InsertAscending(e: (string, Document), sorted: seq<(string, Document)>)
    requires Ascending(KeysOf(sorted))
    requires forall x :: x in sorted ==> x.0 != e.0
    ensures Ascending(KeysOf(Insert(e, sorted)))
    ensures Insert(e, sorted)[0] == e || (sorted != [] && Insert(e, sorted)[0] == sorted[0])
  {
    hide Ascending, Less;
    var keys := KeysOf(sorted);
    if sorted == [] || !Less(sorted[0].0, e.0) {
      if sorted != [] {
        assert sorted[0] in sorted;
        LessTrichotomy(sorted[0].0, e.0);
      }
      AscendingCons(e.0, keys);
      assert KeysOf([e] + sorted) == [e.0] + keys;
    } else {
      AscendingTail(keys);
      assert KeysOf(sorted[1..]) == keys[1..];
      InsertAscending(e, sorted[1..]);
      var rest := Insert(e, sorted[1..]);
      assert KeysOf([sorted[0]] + rest) == [keys[0]] + KeysOf(rest);
      AscendingCons(keys[0], KeysOf(rest));
    }
  }

  lemma {:induction false} SortEntriesAscending(entries: seq<(string, Document)>)
    requires DistinctKeys(entries)
    ensures Ascending(KeysOf(SortEntries(entries)))
  {
    if entries != [] {
      var rest := SortEntries(entries[1..]);
      SortEntriesAscending(entries[1..]);
      forall x | x in rest ensures x.0 != entries[0].0 {
        assert x in multiset(rest);
        assert x in entries[1..];
      }
      InsertAscending(entries[0], rest);
    }
  }

  // ---- the encoder prints the value ----

  lemma {:induction false} EntryMapContents(d: Document, count: nat)
    requires d.DObj? && count <= |d.entries| && DistinctKeys(d.entries)
    ensures forall i :: 0 <= i < count ==> d.entries[i].0 in EntryMap(d, count)
                                           && EntryMap(d, count)[d.entries[i].0] == Value(d.entries[i].1)
    ensures forall k :: k in EntryMap(d, count) ==> exists i :: 0 <= i < count && d.entries[i].0 == k
  {
    if count > 0 {
      EntryMapContents(d, count - 1);
      assert d.entries[count - 1] in d.entries;
    }
  }

  /** Each of these entries of `d` holds a value that `v` has under the same key. */
  predicate Represents(d: Document, v: Json, sorted: seq<(string, Document)>)
    requires d.DObj? && v.Obj?
  {
    forall e :: e in sorted ==> e in d.entries && WellKeyed(e.1) && e.0 in v.fields && v.fields[e.0] == Value(e.1)
  }

  lemma {:induction false} SortedRepresents(d: Document)
    requires d.DObj? && WellKeyed(d)
    ensures Represents(d, Value(d), SortEntries(d.entries))
  {
    hide SortEntries, EntryMap;
    var sorted := SortEntries(d.entries);
    EntryMapContents(d, |d.entries|);
    forall e | e in sorted
      ensures e in d.entries && WellKeyed(e.1) && e.0 in Value(d).fields && Value(d).fields[e.0] == Value(e.1)
    {
      assert e in multiset(sorted);
      var i :| 0 <= i < |d.entries| && d.entries[i] == e;
    }
  }

  lemma {:induction false} SortedEntryKeys(d: Document)
    requires d.DObj? && WellKeyed(d)
    ensures KeysOf(SortEntries(d.entries)) == SortedKeys(Value(d).fields.Keys)
  {
    hide SortEntries, EntryMap, SortedKeys, WellKeyed, Ascending;
    var sorted, fields := SortEntries(d.entries), Value(d).fields;
    SortedDistinct(d);
    SortEntriesAscending(d.entries);
    SortedRepresents(d);
    forall k | k in fields ensures k in KeysOf(sorted) { EveryKeySorted(d, k); }
    forall k | k in KeysOf(sorted) ensures k in fields {
      var j :| 0 <= j < |sorted| && KeysOf(sorted)[j] == k;
      assert sorted[j] in sorted;
    }
    SortedKeysUnique(fields.Keys, KeysOf(sorted));
  }

  lemma EveryKeySorted(d: Document, k: string)
    requires d.DObj? && WellKeyed(d) && k in Value(d).fields
    ensures k in KeysOf(SortEntries(d.entries))
  {
    hide SortEntries, EntryMap, WellKeyed;
    SortedDistinct(d);
    EntryMapContents(d, |d.entries|);
    var sorted := SortEntries(d.entries);
    var i :| 0 <= i < |d.entries| && d.entries[i].0 == k;
    assert d.entries[i] in multiset(sorted);
    var j :| 0 <= j < |sorted| && sorted[j] == d.entries[i];
    assert KeysOf(sorted)[j] == k;
  }

  lemma SortedDistinct(d: Document)
    requires d.DObj? && WellKeyed(d)
    ensures DistinctKeys(d.entries)
  {
  }

  lemma {:induction false} ObjectPrintsValue(d: Document, v: Json, sorted: seq<(string, Document)>, ascii: bool)
    requires d.DObj? && d.entries != [] && v == Value(d) && sorted == SortEntries(d.entries) && sorted != []
    requires Represents(d, v, sorted) && KeysOf(sorted) == SortedKeys(v.fields.Keys)
    requires Encode(sorted[0].1, ascii) == Dumps(Value(sorted[0].1), ascii)
    requires forall k :: k in KeysOf(sorted[1..]) ==> k in v.fields
    requires DumpFields(v, KeysOf(sorted[1..]), ascii)
             == if |sorted| == 1 then "" else "," + EncodeEntries(d, sorted[1..], ascii)
    ensures Encode(d, ascii) == Dumps(v, ascii)
  {
    hide SortEntries, EntryMap, SortedKeys, WellKeyed, DumpFields, Quoted;
    var keys := SortedKeys(v.fields.Keys);
    assert sorted[0] in sorted;
    assert keys[0] == sorted[0].0 && keys[0] in v.fields;
    assert KeysOf(sorted[1..]) == keys[1..];
    assert forall e :: e in sorted ==> e in d.entries;
    assert Dumps(v, ascii)
        == "{" + Quoted(keys[0], ascii) + ":" + Dumps(v.fields[keys[0]], ascii) + DumpFields(v, keys[1..], ascii) + "}";
    var head, body, tail := Quoted(keys[0], ascii), Dumps(v.fields[keys[0]], ascii), DumpFields(v, keys[1..], ascii);
    assert Encode(d, ascii) == "{" + EncodeEntries(d, sorted, ascii) + "}";
    assert EncodeEntries(d, sorted, ascii) == head + ":" + body + tail;
    BracesAssociate(head, body, tail);
  }

  lemma BracesAssociate(head: string, body: string, tail: string)
    ensures "{" + (head + ":" + body + tail) + "}" == "{" + head + ":" + body + tail + "}"
  {
  }

  lemma {:induction false} FlatPrintsValue(d: Document, ascii: bool)
    requires !d.DArr? && !(d.DObj? && d.entries != [])
    ensures Encode(d, ascii) == Dumps(Value(d), ascii)
  {
  }

  lemma {:induction false} ArrayPrintsValue(d: Document, ascii: bool)
    requires d.DArr?
    requires d.items != [] ==> Encode(d.items[0], ascii) == Dumps(Value(d.items[0]), ascii)
    requires d.items != [] ==> EncodeItems(d, 1, ascii) == DumpTail(Value(d), 1, ascii)
    ensures Encode(d, ascii) == Dumps(Value(d), ascii)
  {
    hide DumpTail;
  }

  /** Encoding a document, sorting as it goes, prints its value. */
  lemma {:induction false} EncodePrintsValue(d: Document, ascii: bool)
    requires WellKeyed(d)
    ensures Encode(d, ascii) == Dumps(Value(d), ascii)
    decreases d, 2, 0
  {
    hide SortEntries, Value, SortedKeys, DumpFields, EncodeEntries, Encode, Dumps;
    if d.DObj? && d.entries != [] {
      SortedPrintsValue(d, ascii);
    } else if d.DArr? {
      if d.items != [] {
        EncodePrintsValue(d.items[0], ascii);
        ItemsPrintValues(d, 1, ascii);
      }
      ArrayPrintsValue(d, ascii);
    } else {
      FlatPrintsValue(d, ascii);
    }
  }

  lemma SortedStart(d: Document, v: Json)
    requires d.DObj? && v.Obj? && d.entries != [] && Represents(d, v, SortEntries(d.entries))
    ensures var sorted := SortEntries(d.entries);
            && sorted != [] && sorted[0] in d.entries && WellKeyed(sorted[0].1)
            && Represents(d, v, sorted[1..])
  {
    hide SortEntries, WellKeyed, Value;
    var sorted := SortEntries(d.entries);
    assert d.entries[0] in multiset(sorted);
    assert sorted[0] in sorted;
  }

  lemma {:induction false} SortedPrintsValue(d: Document, ascii: bool)
    requires WellKeyed(d) && d.DObj? && d.entries != []
    ensures Encode(d, ascii) == Dumps(Value(d), ascii)
    decreases d, 1, 0
  {
    assert Value(d).Obj?;
    SortedEntryKeys(d);
    SortedRepresents(d);
    SortedStart(d, Value(d));
    hide SortEntries, Value, SortedKeys, WellKeyed, DumpFields, EncodeEntries, Encode, Dumps, Represents, KeysOf;
    var sorted, v := SortEntries(d.entries), Value(d);
    EncodePrintsValue(sorted[0].1, ascii);
    EntriesPrintValues(d, v, sorted[1..], ascii);
    HeadRepresented(d, v, sorted);
    ObjectPrintsValue(d, v, sorted, ascii);
  }

  lemma HeadRepresented(d: Document, v: Json, sorted: seq<(string, Document)>)
    requires d.DObj? && v.Obj? && Represents(d, v, sorted) && sorted != []
    ensures sorted[0] in d.entries && WellKeyed(sorted[0].1)
    ensures |sorted| == 1 <==> sorted[1..] == []
  {
    assert sorted[0] in sorted;
  }

  lemma {:induction false} ItemsPrintValues(d: Document, i: nat, ascii: bool)
    requires WellKeyed(d) && d.DArr? && 0 < i <= |d.items|
    ensures EncodeItems(d, i, ascii) == DumpTail(Value(d), i, ascii)
    decreases d, 0, |d.items| - i
  {
    if i < |d.items| {
      EncodePrintsValue(d.items[i], ascii);
      ItemsPrintValues(d, i + 1, ascii);
    }
  }

  lemma {:induction false} EntriesPrintValues(d: Document, v: Json, sorted: seq<(string, Document)>, ascii: bool)
    requires d.DObj? && v.Obj? && Represents(d, v, sorted)
    ensures forall k :: k in KeysOf(sorted) ==> k in v.fields
    ensures DumpFields(v, KeysOf(sorted), ascii) == if sorted == [] then "" else "," + EncodeEntries(d, sorted, ascii)
    decreases d, 0, |sorted|
  {
    hide Value, Encode, Dumps, Quoted, WellKeyed;
    forall k | k in KeysOf(sorted) ensures k in v.fields {
      var j :| 0 <= j < |sorted| && KeysOf(sorted)[j] == k;
      assert sorted[j] in sorted;
    }
    if sorted != [] {
      assert sorted[0] in sorted;
      EncodePrintsValue(sorted[0].1, ascii);
      EntriesPrintValues(d, v, sorted[1..], ascii);
      assert KeysOf(sorted)[1..] == KeysOf(sorted[1..]);
    }
  }

  /** Canonical bytes are equal exactly when the values are equal up to the order of object keys. */
  lemma CanonicalBytesFaithful(a: Document, b: Document)
    requires WellKeyed(a) && WellKeyed(b)
    ensures CanonicalBytes(a) == CanonicalBytes(b) <==> Value(a) == Value(b)
  {
    EncodePrintsValue(a, false);
    EncodePrintsValue(b, false);
    if CanonicalBytes(a) == CanonicalBytes(b) {
      EncodeInjective(Encode(a, false), Encode(b, false));
      DumpsInjective(Value(a), Value(b), false);
    }
  }
}
