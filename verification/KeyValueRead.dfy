/** `validate_kv_read_result`, and what it makes of values that the mutation validator accepted. */
module KeyValueRead {
  import opened Utf8
  import opened Json
  import opened JsonText
  import opened Egress
  import opened KeyValue
  import Base64

  const RECORD_FIELDS: set<string> := {
    "key", "found", "version", "content_type", "encoding", "value_sha256", "size_bytes", "value"}

  /** `_validate_json_value` of `kv_worker_protocol.py`. */
  predicate ReadableJson(v: Json, depth: nat)
    decreases v
  {
    if depth > 32 then false
    else if v.Arr? then forall i :: 0 <= i < |v.items| ==> ReadableJson(v.items[i], depth + 1)
    else if v.Obj? then forall k :: k in v.fields ==> ReadableJson(v.fields[k], depth + 1)
    else true
  }

  /** `_read_value_bytes`: the bytes a value that was read stands for. */
  function ReadValueBytes(contentType: Json, encoding: Json, value: Json): Option<seq<Byte>>
  {
    if contentType == Str("application/json") && encoding == Str("json") then
      if ReadableJson(value, 0) then Some(Utf8.Encode(Dumps(value, false))) else None
    else if contentType == Str("text/plain; charset=utf-8") && encoding == Str("utf8") then
      if value.Str? then Some(Utf8.Encode(value.s)) else None
    else if contentType == Str("application/octet-stream") && encoding == Str("base64") && value.Str? then
      var decoded := Base64.Decode(value.s);
      if decoded.Some? && Base64.Encode(decoded.value) == value.s then decoded else None
    else None
  }

  lemma {:induction false} ReadableIsWithinDepth(v: Json, depth: nat)
    ensures ReadableJson(v, depth) <==> WithinDepth(v, depth)
    decreases v
  {
    match v
    case Arr(items) =>
      forall i | 0 <= i < |items| ensures ReadableJson(items[i], depth + 1) <==> WithinDepth(items[i], depth + 1) {
        ReadableIsWithinDepth(items[i], depth + 1);
      }
      if ReadableJson(v, depth) {
        forall x | x in items ensures WithinDepth(x, depth + 1) { var i :| 0 <= i < |items| && items[i] == x; }
      } else if WithinDepth(v, depth) {
        forall i | 0 <= i < |items| ensures WithinDepth(items[i], depth + 1) { assert items[i] in items; }
      }
    case Obj(fields) =>
      forall k | k in fields ensures ReadableJson(fields[k], depth + 1) <==> WithinDepth(fields[k], depth + 1) {
        ReadableIsWithinDepth(fields[k], depth + 1);
      }
    case _ =>
  }

  /** The two decoders, one by table and one by cases, agree but for the size limit of the first. */
  lemma DecodersAgree(contentType: Json, encoding: Json, value: Json)
    ensures var read := ReadValueBytes(contentType, encoding, value);
            ValueBytes(contentType, encoding, value) ==
            if read.Some? && |read.value| <= MAX_VALUE_BYTES then read else None
  {
    hide WithinDepth, ReadableJson, Dumps, Utf8.Encode, Base64.Encode, Base64.Decode;
    ReadableIsWithinDepth(value, 0);
    EncodingTable(contentType);
  }

  lemma EncodingTable(contentType: Json)
    ensures contentType.Str? && contentType.s in CONTENT_ENCODINGS <==>
            || contentType == Str("application/json")
            || contentType == Str("text/plain; charset=utf-8")
            || contentType == Str("application/octet-stream")
    ensures CONTENT_ENCODINGS["application/json"] == "json" && CONTENT_ENCODINGS["text/plain; charset=utf-8"] == "utf8"
    ensures CONTENT_ENCODINGS["application/octet-stream"] == "base64"
  {
  }

  /** The bytes one record contributes to the total: none for a missing value; None when the record is invalid. */
  function RecordBytes(lib: Library, record: Json, key: string): Option<nat>
  {
    if !record.Obj? || record.fields.Keys != RECORD_FIELDS || record.fields["key"] != Str(key)
      || !record.fields["found"].Bool?
    then None
    else
      var f := record.fields;
      if !f["found"].b then
        if f["version"].Null? && f["content_type"].Null? && f["encoding"].Null? && f["value_sha256"].Null?
           && f["size_bytes"].Null? && f["value"].Null? then Some(0) else None
      else if !(f["version"].Num? && f["version"].n >= 1
                && f["value_sha256"].Str? && DigestText(f["value_sha256"].s)
                && f["size_bytes"].Num? && 0 <= f["size_bytes"].n <= MAX_VALUE_BYTES) then None
      else match ReadValueBytes(f["content_type"], f["encoding"], f["value"])
        case None => None
        case Some(raw) => if |raw| == f["size_bytes"].n && lib.sha256(raw) == f["value_sha256"].s then Some(|raw|)
          else None
  }

  /** A record contributes the bytes it stands for exactly if it is of the key, and either not found and otherwise
      empty, or found with a version of at least 1 and a value that decodes to bytes of the size and the digest it
      says. */
  lemma RecordAcceptedExactly(lib: Library, record: Json, key: string, n: nat)
    ensures RecordBytes(lib, record, key) == Some(n) <==>
            && record.Obj?
            && record.fields.Keys == {
                 "key", "found", "version", "content_type", "encoding", "value_sha256", "size_bytes", "value"}
            && record.fields["key"] == Str(key)
            && (|| (record.fields["found"] == Bool(false) && n == 0
                    && forall k :: k in record.fields && k != "key" && k != "found" ==> record.fields[k] == Null)
                || (record.fields["found"] == Bool(true)
                    && (exists version :: record.fields["version"] == Num(version) && version >= 1)
                    && var raw := ReadValueBytes(record.fields["content_type"], record.fields["encoding"],
                                                 record.fields["value"]);
                    && raw.Some? && n == |raw.value| <= MAX_VALUE_BYTES
                    && record.fields["size_bytes"] == Num(n)
                    && record.fields["value_sha256"] == Str(lib.sha256(raw.value))
                      && DigestText(lib.sha256(raw.value))))
  {
    hide ReadValueBytes, DigestText;
  }

  predicate RecordsValid(lib: Library, records: seq<Json>, keys: seq<string>)
  {
    |records| == |keys| && forall i :: 0 <= i < |keys| ==> RecordBytes(lib, records[i], keys[i]).Some?
  }

  function TotalBytes(lib: Library, records: seq<Json>, keys: seq<string>, count: nat): nat
    requires RecordsValid(lib, records, keys) && count <= |keys|
  {
    if count == 0 then 0
      else TotalBytes(lib, records, keys, count - 1) + RecordBytes(lib, records[count - 1], keys[count - 1]).value
  }

  /** The read results that are accepted; each is returned as it came. */
  predicate Acceptable(lib: Library, v: Json, keys: seq<string>)
  {
    && v.Obj?
    && v.fields.Keys == {"schema_version", "store_name", "records"}
    && v.fields["schema_version"] == Str("rdc.kv-worker-read-result/v1")
    && v.fields["store_name"] == Str("default")
    && v.fields["records"].Arr?
    && RecordsValid(lib, v.fields["records"].items, keys)
    && TotalBytes(lib, v.fields["records"].items, keys, |keys|) <= MAX_WORKER_READ_TOTAL_BYTES
  }

  lemma {:induction false} TotalGrows(lib: Library, records: seq<Json>, keys: seq<string>, i: nat, j: nat)
    requires RecordsValid(lib, records, keys) && i <= j <= |keys|
    ensures TotalBytes(lib, records, keys, i) <= TotalBytes(lib, records, keys, j)
    decreases j
  {
    hide RecordBytes;
    if i < j { TotalGrows(lib, records, keys, i, j - 1); }
  }

  /** `validate_kv_read_result`. */
  method ValidateReadResult(lib: Library, v: Json, keys: seq<string>) returns (r: Option<Json>)
    ensures r.Some? <==> Acceptable(lib, v, keys)
    ensures r.Some? ==> r.value == v
  {
    hide RecordBytes;
    if !v.Obj? || v.fields.Keys != {"schema_version", "store_name", "records"} { return None; }
    var f := v.fields;
    if f["schema_version"] != Str("rdc.kv-worker-read-result/v1") { return None; }
    if f["store_name"] != Str("default") { return None; }
    if !f["records"].Arr? || |f["records"].items| != |keys| { return None; }
    var records := f["records"].items;
    var normalized: seq<Json> := [];
    var totalBytes := 0;
    for i := 0 to |keys|
      invariant normalized == records[..i]
      invariant forall j :: 0 <= j < i ==> RecordBytes(lib, records[j], keys[j]).Some?
      invariant RecordsValid(lib, records, keys) ==> totalBytes == TotalBytes(lib, records, keys, i)
      invariant totalBytes <= MAX_WORKER_READ_TOTAL_BYTES
    {
      var size := RecordBytes(lib, records[i], keys[i]);
      if size.None? { return None; }
      totalBytes := totalBytes + size.value;
      if totalBytes > MAX_WORKER_READ_TOTAL_BYTES {
        if RecordsValid(lib, records, keys) { TotalGrows(lib, records, keys, i + 1, |keys|); }
        return None;
      }
      normalized := normalized + [records[i]];
    }
    var result := map["schema_version" := Str("rdc.kv-worker-read-result/v1"), "store_name" := Str("default"),
                      "records" := Arr(normalized)];
    assert normalized == records;
    assert result == f;
    r := Some(Obj(result));
  }

  // ---- what was set can be read ----

  /** The record of a stored value: the fields of the set mutation with its version, digest and size. */
  function StoredRecord(m: Mutation, version: int): Json
    requires m.isSet && m.valueDigest.Some? && SET_FIELDS <= m.request.Keys
  {
    Obj(map[
      "key" := Str(m.key),
      "found" := Bool(true),
      "version" := Num(version),
      "content_type" := m.request["content_type"],
      "encoding" := m.request["encoding"],
      "value_sha256" := Str(m.valueDigest.value),
      "size_bytes" := Num(m.decodedBytes),
      "value" := m.request["value"]])
  }

  /** A set mutation as its validator returned it. */
  predicate ValidatedSet(lib: Library, m: Mutation)
  {
    ValidateMutation(lib, Obj(m.request)) == Some(m) && m.isSet
  }

  /** `^[A-Za-z0-9][A-Za-z0-9._:-]*$` of at most so many characters. */
  predicate WellFormedKey(v: Json, most: nat)
  {
    && v.Str? && 1 <= |v.s| <= most && Alphanumeric(v.s[0])
    && forall i :: 0 <= i < |v.s| ==> Alphanumeric(v.s[i]) || v.s[i] in {'.', '_', ':', '-'}
  }

  /** A mutation is accepted exactly if it has just the fields of its operation, the version, well-formed keys and a
      version number of 64 bits or none, it fits the envelope and, for a set, the reader could decode its value within
      the size limit; it then carries the request unchanged, the size of that value and its digest. */
  lemma MutationAcceptedExactly(lib: Library, v: Json)
    ensures ValidateMutation(lib, v).Some? <==>
            && v.Obj? && "operation" in v.fields
            && (|| (v.fields["operation"] == Str("set")
                    && v.fields.Keys == {"schema_version", "idempotency_key", "operation", "key", "expected_version",
                                         "content_type", "encoding", "value"})
                || (v.fields["operation"] == Str("delete")
                    && v.fields.Keys == {"schema_version", "idempotency_key", "operation", "key", "expected_version"}))
            && v.fields["schema_version"] == Str("rdc.kv-write/v1")
            && WellFormedKey(v.fields["idempotency_key"], 128) && WellFormedKey(v.fields["key"], 256)
            && (v.fields["expected_version"] == Null
                || exists n :: v.fields["expected_version"] == Num(n) && 0 <= n < 0x8000_0000_0000_0000)
            && |Utf8.Encode(Dumps(v, false))| <= MAX_ENVELOPE_BYTES
            && (v.fields["operation"] == Str("set") ==>
                  var read := ReadValueBytes(v.fields["content_type"], v.fields["encoding"], v.fields["value"]);
                  read.Some? && |read.value| <= MAX_VALUE_BYTES)
    ensures ValidateMutation(lib, v).Some? ==>
            var m := ValidateMutation(lib, v).value;
            && Obj(m.request) == v && Str(m.key) == v.fields["key"]
            && m.isSet == (v.fields["operation"] == Str("set"))
            && (m.isSet ==>
                  var raw := ReadValueBytes(v.fields["content_type"], v.fields["encoding"], v.fields["value"]).value;
                  m.decodedBytes == |raw| && m.valueDigest == Some(lib.sha256(raw)))
            && (!m.isSet ==> m.decodedBytes == 0 && m.valueDigest == None)
  {
    hide ValueBytes, ReadValueBytes, IdempotencyKey, LogicalKey, WellFormedKey, MutationHead, Dumps, Utf8.Encode;
    if v.Obj? { HeadIsRight(v.fields); }
    if v.Obj? && MutationHead(v.fields) && v.fields["operation"] == Str("set") {
      assert "content_type" in v.fields.Keys && "encoding" in v.fields.Keys && "value" in v.fields.Keys;
      DecodersAgree(v.fields["content_type"], v.fields["encoding"], v.fields["value"]);
    }
  }

  lemma KeysWellFormed(v: Json)
    ensures IdempotencyKey(v) <==> WellFormedKey(v, 128)
    ensures LogicalKey(v) <==> WellFormedKey(v, 256)
  {
  }

  lemma HeadIsRight(f: map<string, Json>)
    ensures MutationHead(f) <==>
            && "operation" in f
            && (|| (f["operation"] == Str("set")
                    && f.Keys == {"schema_version", "idempotency_key", "operation", "key", "expected_version",
                                  "content_type", "encoding", "value"})
                || (f["operation"] == Str("delete")
                    && f.Keys == {"schema_version", "idempotency_key", "operation", "key", "expected_version"}))
            && f["schema_version"] == Str("rdc.kv-write/v1")
            && WellFormedKey(f["idempotency_key"], 128) && WellFormedKey(f["key"], 256)
            && (f["expected_version"] == Null
                || exists n :: f["expected_version"] == Num(n) && 0 <= n < 0x8000_0000_0000_0000)
    ensures MutationHead(f) ==> f["key"].Str?
  {
    hide IdempotencyKey, LogicalKey, WellFormedKey;
    assert SET_FIELDS == {"schema_version", "idempotency_key", "operation", "key", "expected_version", "content_type",
                          "encoding", "value"};
    if "idempotency_key" in f { KeysWellFormed(f["idempotency_key"]); }
    if "key" in f {
      KeysWellFormed(f["key"]);
      KeyIsText(f["key"]);
    }
  }

  lemma KeyIsText(v: Json)
    ensures WellFormedKey(v, 256) ==> v.Str?
  {
  }

  lemma ValidatedSetShape(lib: Library, m: Mutation)
    requires ValidatedSet(lib, m)
    ensures m.valueDigest.Some? && SET_FIELDS <= m.request.Keys && m.decodedBytes <= MAX_VALUE_BYTES
    ensures var raw := ValueBytes(m.request["content_type"], m.request["encoding"], m.request["value"]);
            raw.Some? && |raw.value| == m.decodedBytes && m.valueDigest == Some(lib.sha256(raw.value))
  {
    hide EncodedBytes, Size;
  }

  lemma {:induction false} StoredLookups(m: Mutation, version: int)
    requires m.isSet && m.valueDigest.Some? && SET_FIELDS <= m.request.Keys
    ensures var f := StoredRecord(m, version).fields;
            && f.Keys == RECORD_FIELDS
            && f["key"] == Str(m.key) && f["found"] == Bool(true) && f["version"] == Num(version)
            && f["content_type"] == m.request["content_type"] && f["encoding"] == m.request["encoding"]
            && f["value_sha256"] == Str(m.valueDigest.value) && f["size_bytes"] == Num(m.decodedBytes)
            && f["value"] == m.request["value"]
  {
  }

  lemma {:induction false} StoredRecordBytes(lib: Library, m: Mutation, version: int)
    requires ValidatedSet(lib, m) && version >= 1 && LawfulText(lib)
    ensures m.valueDigest.Some? && SET_FIELDS <= m.request.Keys
    ensures RecordBytes(lib, StoredRecord(m, version), m.key) == Some(m.decodedBytes)
  {
    assert forall b :: DigestText(lib.sha256(b));
    hide ValueBytes, ReadValueBytes, ValidateMutation, ValidatedSet, DigestText, LawfulText;
    ValidatedSetShape(lib, m);
    DecodersAgree(m.request["content_type"], m.request["encoding"], m.request["value"]);
    assert StoredRecord(m, version).Obj?;
    hide StoredRecord;
    StoredLookups(m, version);
  }

  function DecodedTotal(ms: seq<Mutation>): nat
  {
    if ms == [] then 0 else DecodedTotal(ms[..|ms| - 1]) + ms[|ms| - 1].decodedBytes
  }

  function ReadResult(records: seq<Json>): Json
  {
    Obj(map["schema_version" := Str("rdc.kv-worker-read-result/v1"), "store_name" := Str("default"),
            "records" := Arr(records)])
  }

  /**
   Values that the mutation validator accepted, presented as found records with their own digest and size, are accepted
   by the read-result validator exactly while their sizes add up to at most 262,144 bytes.
   */
  lemma {:induction false} SetThenRead(lib: Library, ms: seq<Mutation>, records: seq<Json>, keys: seq<string>,
                                       versions: seq<int>)
    requires LawfulText(lib)
    requires |records| == |keys| == |versions| == |ms|
    requires forall i :: 0 <= i < |ms| ==>
      && ValidatedSet(lib, ms[i]) && versions[i] >= 1
      && ms[i].valueDigest.Some? && SET_FIELDS <= ms[i].request.Keys
      && records[i] == StoredRecord(ms[i], versions[i]) && keys[i] == ms[i].key
    ensures Acceptable(lib, ReadResult(records), keys) <==> DecodedTotal(ms) <= MAX_WORKER_READ_TOTAL_BYTES
  {
    hide RecordBytes, ValidatedSet, StoredRecord, LawfulText;
    forall i | 0 <= i < |ms| ensures RecordBytes(lib, records[i], keys[i]) == Some(ms[i].decodedBytes) {
      StoredRecordBytes(lib, ms[i], versions[i]);
    }
    TotalIsDecoded(lib, ms, records, keys, |ms|);
    assert ms[..|ms|] == ms;
  }

  lemma {:induction false} TotalIsDecoded(lib: Library, ms: seq<Mutation>, records: seq<Json>, keys: seq<string>,
                                          n: nat)
    requires RecordsValid(lib, records, keys) && |ms| == |keys| && n <= |ms|
    requires forall i :: 0 <= i < |ms| ==> RecordBytes(lib, records[i], keys[i]) == Some(ms[i].decodedBytes)
    ensures TotalBytes(lib, records, keys, n) == DecodedTotal(ms[..n])
  {
    hide RecordBytes;
    if n > 0 {
      TotalIsDecoded(lib, ms, records, keys, n - 1);
      assert ms[..n][..n - 1] == ms[..n - 1];
    }
  }
}
