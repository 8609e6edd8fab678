/** `kv_protocol.py` and `kv_worker_protocol.py`: mutations, the Agent's output, and read results. Errors are None. */
module KeyValue {
  import opened Utf8
  import opened Json
  import opened JsonText
  import opened Egress
  import Base64

  const MAX_VALUE_BYTES: nat := 1_048_576
  const MAX_ENVELOPE_BYTES: nat := 1_572_864
  const MAX_DEPTH: nat := 32
  const MAX_EXPECTED_VERSION: nat := 9_223_372_036_854_775_807
  const MAX_WORKER_READ_TOTAL_BYTES: nat := 262_144
  const MAX_WORKER_MUTATIONS: nat := 4

  /** `_validate_json_value`: no part nested deeper than 32 levels. */
  predicate WithinDepth(v: Json, depth: nat)
    decreases v
  {
    && depth <= MAX_DEPTH
    && match v
       case Arr(items) => forall x :: x in items ==> WithinDepth(x, depth + 1)
       case Obj(fields) => forall k :: k in fields ==> WithinDepth(fields[k], depth + 1)
       case _ => true
  }

  predicate KeyChar(c: char)
  {
    Alphanumeric(c) || c == '.' || c == '_' || c == ':' || c == '-'
  }

  predicate KeyText(s: string, most: nat)
  {
    1 <= |s| <= most && Alphanumeric(s[0]) && forall i :: 0 <= i < |s| ==> KeyChar(s[i])
  }

  /** `^[A-Za-z0-9][A-Za-z0-9._:-]{0,127}$` */
  predicate IdempotencyKey(v: Json) { v.Str? && KeyText(v.s, 128) }

  /** `^[A-Za-z0-9][A-Za-z0-9._:-]{0,255}$` */
  predicate LogicalKey(v: Json) { v.Str? && KeyText(v.s, 256) }

  predicate ExpectedVersion(v: Json)
  {
    v.Null? || (v.Num? && 0 <= v.n <= MAX_EXPECTED_VERSION)
  }

  /** The encoding that goes with each content type. */
  const CONTENT_ENCODINGS: map<string, string> := map[
    "application/json" := "json",
    "text/plain; charset=utf-8" := "utf8",
    "application/octet-stream" := "base64"]

  /** The branches of `_decoded_set_value`, once the encoding is known to fit. */
  function EncodedBytes(encoding: string, value: Json): Option<seq<Byte>>
  {
    if encoding == "json" then
      if WithinDepth(value, 0) then Some(Utf8.Encode(Dumps(value, false))) else None
    else if !value.Str? then None
    else if encoding == "utf8" then Some(Utf8.Encode(value.s))
    else match Base64.Decode(value.s)
      case None => None
      case Some(b) => if Base64.Encode(b) == value.s then Some(b) else None
  }

  /** `_decoded_set_value`: the bytes a value to be stored stands for. */
  function ValueBytes(contentType: Json, encoding: Json, value: Json): Option<seq<Byte>>
  {
    if !contentType.Str? || contentType.s !in CONTENT_ENCODINGS then None
    else if encoding != Str(CONTENT_ENCODINGS[contentType.s]) then None
    else
      var bytes := EncodedBytes(encoding.s, value);
      if bytes.Some? && |bytes.value| > MAX_VALUE_BYTES then None else bytes
  }

  datatype Mutation = Mutation(
    request: map<string, Json>,
    digest: string,
    isSet: bool,
    key: string,
    valueDigest: Option<string>,
    decodedBytes: nat)

  const DELETE_FIELDS: set<string> := {"schema_version", "idempotency_key", "operation", "key", "expected_version"}
  const SET_FIELDS: set<string> := DELETE_FIELDS + {"content_type", "encoding", "value"}

  /** The checks of `validate_kv_mutation` that a set and a delete share. */
  predicate MutationHead(f: map<string, Json>)
  {
    && (Get(f, "operation") == Str("set") || Get(f, "operation") == Str("delete"))
    && f.Keys == (if f["operation"] == Str("set") then SET_FIELDS else DELETE_FIELDS)
    && f["schema_version"] == Str("rdc.kv-write/v1")
    && IdempotencyKey(f["idempotency_key"])
    && LogicalKey(f["key"])
    && ExpectedVersion(f["expected_version"])
  }

  /** `validate_kv_mutation`. The normalized request has the fields and values of the request itself. */
  function ValidateMutation(lib: Library, v: Json): (r: Option<Mutation>)
    ensures r.Some? ==> v == Obj(r.value.request) && Size(v, false) <= MAX_ENVELOPE_BYTES
  {
    if !v.Obj? || !MutationHead(v.fields) then None
    else
      var f := v.fields;
      var isSet := f["operation"] == Str("set");
      var bytes := if isSet then ValueBytes(f["content_type"], f["encoding"], f["value"]) else Some([]);
      if bytes.None? || Size(v, false) > MAX_ENVELOPE_BYTES then None
      else Some(Mutation(f, lib.sha256(Utf8.Encode(Dumps(v, false))), isSet, f["key"].s,
                         if isSet then Some(lib.sha256(bytes.value)) else None, |bytes.value|))
  }

  // ---- the Agent's output ----

  datatype Output = Output(result: Json, mutations: seq<map<string, Json>>)

  function Mutations(ms: seq<map<string, Json>>): Json
  {
    Arr(seq(|ms|, i requires 0 <= i < |ms| => Obj(ms[i])))
  }

  function OutputJson(o: Output): Json
  {
    Obj(map["schema_version" := Str("rdc.kv-worker-output/v1"), "result" := o.result,
            "mutations" := Mutations(o.mutations)])
  }

  predicate DistinctIdempotencyKeys(ms: seq<map<string, Json>>)
  {
    forall i, j :: 0 <= i < j < |ms| ==> Get(ms[i], "idempotency_key") != Get(ms[j], "idempotency_key")
  }

  predicate AllValid(lib: Library, items: seq<Json>)
  {
    forall i :: 0 <= i < |items| ==> ValidateMutation(lib, items[i]).Some?
  }

  function Requests(lib: Library, items: seq<Json>): (ms: seq<map<string, Json>>)
    requires AllValid(lib, items)
    ensures |ms| == |items| && forall i :: 0 <= i < |ms| ==> Obj(ms[i]) == items[i]
  {
    seq(|items|, i requires 0 <= i < |items| => ValidateMutation(lib, items[i]).value.request)
  }

  /** What `validate_kv_worker_output` accepts, and the normal form it returns. */
  function AcceptedOutput(lib: Library, v: Json): (r: Option<Output>)
    ensures r.Some? ==> |r.value.mutations| <= 4
  {
    if !v.Obj? || v.fields.Keys != {"schema_version", "result", "mutations"} then None
    else
      var f := v.fields;
      if f["schema_version"] != Str("rdc.kv-worker-output/v1") || !WithinDepth(f["result"], 0)
         || !f["mutations"].Arr? || |f["mutations"].items| > MAX_WORKER_MUTATIONS
           || !AllValid(lib, f["mutations"].items) then None
      else
        var o := Output(f["result"], Requests(lib, f["mutations"].items));
        if DistinctIdempotencyKeys(o.mutations) && Size(OutputJson(o), false) <= MAX_ENVELOPE_BYTES then Some(o)
          else None
  }

  /** `validate_kv_worker_output`. */
  method ValidateOutput(lib: Library, v: Json) returns (r: Option<Output>)
    ensures r == AcceptedOutput(lib, v)
  {
    hide ValidateMutation, WithinDepth, DistinctIdempotencyKeys, Distinct, Size;
    if !v.Obj? || v.fields.Keys != {"schema_version", "result", "mutations"} { return None; }
    var f := v.fields;
    if f["schema_version"] != Str("rdc.kv-worker-output/v1") { return None; }
    if !WithinDepth(f["result"], 0) { return None; }
    if !f["mutations"].Arr? || |f["mutations"].items| > MAX_WORKER_MUTATIONS { return None; }
    var items := f["mutations"].items;
    var normalized: seq<map<string, Json>> := [];
    var keys: seq<Json> := [];
    for i := 0 to |items|
      invariant |normalized| == |keys| == i
      invariant AllValid(lib, items[..i])
      invariant forall j :: 0 <= j < i ==>
                Obj(normalized[j]) == items[j] && keys[j] == Get(normalized[j], "idempotency_key")
    {
      var validated := ValidateMutation(lib, items[i]);
      assert items[..i + 1] == items[..i] + [items[i]];
      if validated.None? {
        assert !AllValid(lib, items);
        return None;
      }
      normalized := normalized + [validated.value.request];
      keys := keys + [Get(validated.value.request, "idempotency_key")];
    }
    assert items[..|items|] == items;
    assert normalized == Requests(lib, items);
    var o := Output(f["result"], normalized);
    UniqueIsDistinct(keys);
    KeysDistinct(normalized, keys);
    if |set k | k in keys| != |keys| { return None; }
    if Size(OutputJson(o), false) > MAX_ENVELOPE_BYTES { return None; }
    r := Some(o);
  }

  lemma OutputLookups(o: Output)
    ensures OutputJson(o).Obj?
    ensures var f := OutputJson(o).fields;
            && f.Keys == {"schema_version", "result", "mutations"}
            && f["schema_version"] == Str("rdc.kv-worker-output/v1") && f["result"] == o.result
            && f["mutations"] == Mutations(o.mutations)
  {
  }

  /** An output is accepted exactly if it is the envelope of some result and mutations, nothing more, the result nested
      at most 32 deep, at most four mutations, all valid and under different keys, and the whole within the limit. */
  lemma OutputAcceptedExactly(lib: Library, v: Json, o: Output)
    ensures AcceptedOutput(lib, v) == Some(o) <==>
            && v == OutputJson(o)
            && WithinDepth(o.result, 0)
            && |o.mutations| <= 4
            && (forall i :: 0 <= i < |o.mutations| ==> ValidateMutation(lib, Obj(o.mutations[i])).Some?)
            && (forall i, j :: 0 <= i < j < |o.mutations| ==>
                  Get(o.mutations[i], "idempotency_key") != Get(o.mutations[j], "idempotency_key"))
            && |Utf8.Encode(Dumps(v, false))| <= MAX_ENVELOPE_BYTES
  {
    hide WithinDepth, ValidateMutation, Dumps, Utf8.Encode, OutputJson;
    OutputLookups(o);
    if AcceptedOutput(lib, v) == Some(o) {
      assert Mutations(o.mutations).items == v.fields["mutations"].items;
      assert v.fields == OutputJson(o).fields;
    }
    if v == OutputJson(o) {
      var items := v.fields["mutations"].items;
      assert forall i :: 0 <= i < |items| ==> items[i] == Obj(o.mutations[i]);
      if AllValid(lib, items) { assert Requests(lib, items) == o.mutations; }
    }
  }

  predicate Distinct<T(==)>(s: seq<T>)
  {
    forall i, j :: 0 <= i < j < |s| ==> s[i] != s[j]
  }

  lemma KeysDistinct(ms: seq<map<string, Json>>, keys: seq<Json>)
    requires |ms| == |keys| && forall j :: 0 <= j < |ms| ==> keys[j] == Get(ms[j], "idempotency_key")
    ensures Distinct(keys) <==> DistinctIdempotencyKeys(ms)
  {
  }

  lemma DistinctSnoc<T>(front: seq<T>, x: T)
    ensures Distinct(front + [x]) <==> Distinct(front) && x !in front
  {
    var s := front + [x];
    if Distinct(s) {
      forall i, j | 0 <= i < j < |front| ensures front[i] != front[j] { assert s[i] != s[j]; }
      forall i | 0 <= i < |front| ensures front[i] != x { assert s[i] != s[|front|]; }
    }
  }

  /** `len(keys) == len(set(keys))` says that no key comes twice. */
  lemma {:induction false} UniqueIsDistinct<T>(keys: seq<T>)
    ensures |set k | k in keys| <= |keys|
    ensures |set k | k in keys| == |keys| <==> Distinct(keys)
  {
    if keys != [] {
      hide Distinct;
      var n := |keys| - 1;
      UniqueIsDistinct(keys[..n]);
      DistinctSnoc(keys[..n], keys[n]);
      assert keys == keys[..n] + [keys[n]];
      assert (set k | k in keys) == (set k | k in keys[..n]) + {keys[n]};
    }
  }

  // ---- keys derived from a queue request ----

  /** `queue_kv_idempotency_key`, for the request id of a validated claim. */
  function QueueKey(requestId: string, index: nat): string
    requires index < 4
  {
    "queue:" + requestId + ":kv:" + [Digit(index)]
  }

  /** What the worker persists in place of a mutation of a queue-bound Run. */
  function Persisted(m: map<string, Json>, requestId: string, index: nat): map<string, Json>
    requires index < 4
  {
    m["idempotency_key" := Str(QueueKey(requestId, index))]
  }

  lemma QueueKeyShape(requestId: string, index: nat)
    requires UuidText(requestId) && index < 4
    ensures |QueueKey(requestId, index)| == 47
    ensures IdempotencyKey(Str(QueueKey(requestId, index)))
    ensures Verbatim(QueueKey(requestId, index))
  {
    var s := QueueKey(requestId, index);
    forall i | 0 <= i < |s| ensures KeyChar(s[i]) {
      if 6 <= i < 42 { assert s[i] == requestId[i - 6]; }
    }
  }

  lemma QueueKeysDiffer(requestId: string, i: nat, j: nat)
    requires i < 4 && j < 4 && i != j
    ensures QueueKey(requestId, i) != QueueKey(requestId, j)
  {
    var a, b := QueueKey(requestId, i), QueueKey(requestId, j);
    assert a[|a| - 1] == Digit(i) && b[|b| - 1] == Digit(j);
  }

  /** The new key is at most 46 bytes longer than the one it replaces. */
  lemma {:induction false} PersistedGrowth(m: map<string, Json>, requestId: string, index: nat)
    requires UuidText(requestId) && index < 4
    requires "idempotency_key" in m && IdempotencyKey(m["idempotency_key"])
    ensures Size(Obj(Persisted(m, requestId, index)), false) <= Size(Obj(m), false) + 46
  {
    hide Size, TextSize;
    var derived := QueueKey(requestId, index);
    ReplaceSize(m, "idempotency_key", Str(derived), false);
    QueueKeyShape(requestId, index);
    TextSizeVerbatim(derived, false);
    TextIsString(derived, false);
    TextIsString(m["idempotency_key"].s, false);
    TextSizeAtLeast(m["idempotency_key"].s, false);
  }

  /** The output envelope is at least 70 bytes larger than any mutation inside it. */
  lemma {:induction false} OutputReserves(o: Output, i: nat)
    requires i < |o.mutations|
    ensures Size(Obj(o.mutations[i]), false) + 70 <= Size(OutputJson(o), false)
  {
    hide Size, TextSize, Weight;
    var f := OutputJson(o).fields;
    var list := Mutations(o.mutations);
    assert list.items[i] == Obj(o.mutations[i]);
    ItemWithinArray(list, i, false);
    ObjectSize(f, false);
    WeightWithout(f, "mutations", false);
    WeightWithout(f - {"mutations"}, "result", false);
    WeightWithout(f - {"mutations"} - {"result"}, "schema_version", false);
    TextSizeAtLeast("mutations", false);
    TextSizeAtLeast("result", false);
    TextSizeAtLeast("schema_version", false);
    TextSizeAtLeast("rdc.kv-worker-output/v1", false);
    TextIsString("rdc.kv-worker-output/v1", false);
    SizePositive(o.result, false);
  }

  lemma {:induction false} RekeyedHead(m: map<string, Json>, key: Json)
    requires MutationHead(m) && IdempotencyKey(key)
    ensures MutationHead(m["idempotency_key" := key])
  {
    hide IdempotencyKey, LogicalKey, ExpectedVersion;
    var p := m["idempotency_key" := key];
    assert "idempotency_key" in m.Keys;
    assert p.Keys == m.Keys;
    assert p["operation"] == m["operation"] && p["schema_version"] == m["schema_version"] && p["key"] == m["key"];
    assert p["expected_version"] == m["expected_version"] && p["idempotency_key"] == key;
  }

  /** A valid mutation under another valid key, if it still fits, is the same mutation. */
  lemma {:induction false} RekeyedValid(lib: Library, m: map<string, Json>, key: Json)
    requires ValidateMutation(lib, Obj(m)).Some? && IdempotencyKey(key)
    requires Size(Obj(m["idempotency_key" := key]), false) <= MAX_ENVELOPE_BYTES
    ensures var p := m["idempotency_key" := key];
            var before, after := ValidateMutation(lib, Obj(m)).value, ValidateMutation(lib, Obj(p));
            && after.Some?
            && after.value.request == p
            && after.value.isSet == before.isSet && after.value.key == before.key
            && after.value.valueDigest == before.valueDigest && after.value.decodedBytes == before.decodedBytes
  {
    RekeyedHead(m, key);
    hide Size, ValueBytes, IdempotencyKey, LogicalKey, ExpectedVersion;
    var p := m["idempotency_key" := key];
    assert p["operation"] == m["operation"] && p["key"] == m["key"];
    if m["operation"] == Str("set") {
      assert p["content_type"] == m["content_type"] && p["encoding"] == m["encoding"] && p["value"] == m["value"];
    }
  }

  /**
   Replacing the idempotency keys of an accepted output by queue-derived ones keeps every mutation valid, and with the
   same operation, key and value digest; and it keeps the keys pairwise distinct.
   */
  lemma {:induction false} PersistedStayValid(lib: Library, v: Json, requestId: string, i: nat)
    requires AcceptedOutput(lib, v).Some? && UuidText(requestId)
    requires i < |AcceptedOutput(lib, v).value.mutations|
    ensures i < 4
    ensures var m := AcceptedOutput(lib, v).value.mutations[i];
            var before, after := ValidateMutation(lib, Obj(m)), ValidateMutation(lib, Obj(Persisted(m, requestId, i)));
            && before.Some? && after.Some?
            && after.value.request == Persisted(m, requestId, i)
            && after.value.isSet == before.value.isSet && after.value.key == before.value.key
            && after.value.valueDigest == before.value.valueDigest
              && after.value.decodedBytes == before.value.decodedBytes
    ensures forall j :: 0 <= j < i ==> QueueKey(requestId, i) != QueueKey(requestId, j)
  {
    hide ValidateMutation, Size, QueueKey, IdempotencyKey;
    var o := AcceptedOutput(lib, v).value;
    var m := o.mutations[i];
    assert ValidateMutation(lib, Obj(m)).Some?;
    assert IdempotencyKey(m["idempotency_key"]) && "idempotency_key" in m by { ValidHead(lib, m); }
    OutputReserves(o, i);
    PersistedGrowth(m, requestId, i);
    QueueKeyShape(requestId, i);
    RekeyedValid(lib, m, Str(QueueKey(requestId, i)));
    forall j | 0 <= j < i ensures QueueKey(requestId, i) != QueueKey(requestId, j) { QueueKeysDiffer(requestId, i, j); }
  }

  lemma ValidHead(lib: Library, m: map<string, Json>)
    requires ValidateMutation(lib, Obj(m)).Some?
    ensures "idempotency_key" in m && IdempotencyKey(m["idempotency_key"])
  {
    assert "idempotency_key" in m.Keys;
  }
}
