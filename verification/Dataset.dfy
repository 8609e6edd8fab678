/** The Dataset append request, validated independently by the worker and by the control plane. Errors are None. */
module Dataset {
  import opened Utf8
  import opened Json
  import opened JsonText
  import opened Egress
  import opened KeyValue

  const MAX_ITEMS: nat := 100
  const MAX_ITEM_BYTES: nat := 65_536
  const MAX_BATCH_BYTES: nat := 262_144

  datatype Append = Append(key: string, items: seq<Json>, digest: string, encodedBytes: nat)

  /** An item both sides accept: an object nested at most 32 deep whose canonical text is at most 65,536 bytes. */
  predicate ItemOk(x: Json)
  {
    x.Obj? && WithinDepth(x, 0) && Size(x, false) <= MAX_ITEM_BYTES
  }

  function AppendJson(key: Json, items: seq<Json>): Json
  {
    Obj(map["schema_version" := Str("rdc.dataset-append/v1"), "idempotency_key" := key, "items" := Arr(items)])
  }

  /** The requests that are accepted, with the digest and size of their canonical text. */
  function Accepted(lib: Library, v: Json): Option<Append>
  {
    if !v.Obj? || v.fields.Keys != {"schema_version", "idempotency_key", "items"} then None
    else
      var f := v.fields;
      if && f["schema_version"] == Str("rdc.dataset-append/v1")
         && IdempotencyKey(f["idempotency_key"])
         && f["items"].Arr? && 1 <= |f["items"].items| <= MAX_ITEMS
         && (forall i :: 0 <= i < |f["items"].items| ==> ItemOk(f["items"].items[i]))
         && Size(v, false) <= MAX_BATCH_BYTES
      then Some(Append(f["idempotency_key"].s, f["items"].items, lib.sha256(Utf8.Encode(Dumps(v, false))),
                       Size(v, false)))
      else None
  }

  lemma RebuiltIsItself(f: map<string, Json>)
    requires f.Keys == {"schema_version", "idempotency_key", "items"}
    requires f["schema_version"] == Str("rdc.dataset-append/v1") && f["items"].Arr?
    ensures AppendJson(f["idempotency_key"], f["items"].items) == Obj(f)
  {
  }

  lemma AppendLookups(key: Json, items: seq<Json>)
    ensures AppendJson(key, items).Obj?
    ensures var f := AppendJson(key, items).fields;
            && f.Keys == {"schema_version", "idempotency_key", "items"}
            && f["schema_version"] == Str("rdc.dataset-append/v1") && f["idempotency_key"] == key
              && f["items"] == Arr(items)
  {
  }

  /** A request is accepted exactly if it is an append of 1 to 100 objects under a well-formed key, nothing more, each
      object nested at most 32 deep and at most 65,536 bytes long, the whole at most 262,144; what is kept is that key,
      those items, and the digest and size of the canonical text. */
  lemma AppendAcceptedExactly(lib: Library, v: Json, a: Append)
    ensures Accepted(lib, v) == Some(a) <==>
            && v == AppendJson(Str(a.key), a.items)
            && 1 <= |a.key| <= 128 && Alphanumeric(a.key[0]) && (forall i :: 0 <= i < |a.key| ==> KeyChar(a.key[i]))
            && 1 <= |a.items| <= 100
            && (forall i :: 0 <= i < |a.items| ==>
                  && a.items[i].Obj? && WithinDepth(a.items[i], 0)
                  && |Utf8.Encode(Dumps(a.items[i], false))| <= 65_536)
            && a.encodedBytes == |Utf8.Encode(Dumps(v, false))| <= 262_144
            && a.digest == lib.sha256(Utf8.Encode(Dumps(v, false)))
  {
    hide WithinDepth, Dumps, Utf8.Encode, AppendJson, KeyChar;
    AppendLookups(Str(a.key), a.items);
    if Accepted(lib, v) == Some(a) {
      assert v.fields == AppendJson(Str(a.key), a.items).fields;
    }
  }

  /** `validate_dataset_append` of the worker: each item is checked whole, at depth 0. */
  method WorkerValidate(lib: Library, v: Json) returns (r: Option<Append>)
    ensures r == Accepted(lib, v)
  {
    hide WithinDepth, Size, IdempotencyKey;
    if !v.Obj? || v.fields.Keys != {"schema_version", "idempotency_key", "items"} { return None; }
    var f := v.fields;
    if f["schema_version"] != Str("rdc.dataset-append/v1") { return None; }
    if !IdempotencyKey(f["idempotency_key"]) { return None; }
    if !f["items"].Arr? || !(1 <= |f["items"].items| <= MAX_ITEMS) { return None; }
    var raw := f["items"].items;
    var normalized: seq<Json> := [];
    for i := 0 to |raw|
      invariant normalized == raw[..i]
      invariant forall j :: 0 <= j < i ==> ItemOk(raw[j])
    {
      if !raw[i].Obj? { return None; }
      if !WithinDepth(raw[i], 0) { return None; }
      if Size(raw[i], false) > MAX_ITEM_BYTES { return None; }
      normalized := normalized + [raw[i]];
    }
    assert normalized == raw;
    RebuiltIsItself(f);
    var request := AppendJson(f["idempotency_key"], normalized);
    if Size(request, false) > MAX_BATCH_BYTES { return None; }
    TextOfKey(f["idempotency_key"]);
    r := Some(Append(f["idempotency_key"].s, normalized, lib.sha256(Utf8.Encode(Dumps(request, false))),
                     Size(request, false)));
  }

  lemma TextOfKey(v: Json)
    requires IdempotencyKey(v)
    ensures v.Str?
  {
  }

  /** `validate_dataset_append` of the control plane: the members of each item are checked one by one, at depth 1. */
  method ControlPlaneValidate(lib: Library, v: Json) returns (r: Option<Append>)
    ensures r == Accepted(lib, v)
  {
    hide Size, IdempotencyKey;
    if !v.Obj? || v.fields.Keys != {"schema_version", "idempotency_key", "items"} { return None; }
    var f := v.fields;
    if f["schema_version"] != Str("rdc.dataset-append/v1") { return None; }
    if !IdempotencyKey(f["idempotency_key"]) { return None; }
    if !f["items"].Arr? || !(1 <= |f["items"].items| <= MAX_ITEMS) { return None; }
    var raw := f["items"].items;
    var normalized: seq<Json> := [];
    for i := 0 to |raw|
      invariant normalized == raw[..i]
      invariant forall j :: 0 <= j < i ==> ItemOk(raw[j])
    {
      if !raw[i].Obj? { return None; }
      var item := CopyItem(raw[i].fields);
      if item.None? { return None; }
      if Size(Obj(item.value), false) > MAX_ITEM_BYTES { return None; }
      normalized := normalized + [Obj(item.value)];
    }
    assert normalized == raw;
    RebuiltIsItself(f);
    var request := AppendJson(f["idempotency_key"], normalized);
    if Size(request, false) > MAX_BATCH_BYTES { return None; }
    TextOfKey(f["idempotency_key"]);
    r := Some(Append(f["idempotency_key"].s, normalized, lib.sha256(Utf8.Encode(Dumps(request, false))),
                     Size(request, false)));
  }

  lemma DepthOfMembers(fields: map<string, Json>)
    ensures WithinDepth(Obj(fields), 0) <==> forall k :: k in fields ==> WithinDepth(fields[k], 1)
  {
  }

  /** The inner loop: every member validated at depth 1 and copied. */
  method CopyItem(fields: map<string, Json>) returns (copy: Option<map<string, Json>>)
    ensures copy == if WithinDepth(Obj(fields), 0) then Some(fields) else None
  {
    DepthOfMembers(fields);
    hide WithinDepth, SortedKeys;
    var keys := SortedKeys(fields.Keys);
    var item: map<string, Json> := map[];
    for i := 0 to |keys|
      invariant forall k :: k in item ==> k in fields && item[k] == fields[k]
      invariant forall j :: 0 <= j < i ==> keys[j] in item && WithinDepth(fields[keys[j]], 1)
    {
      assert keys[i] in fields.Keys;
      if !WithinDepth(fields[keys[i]], 1) { return None; }
      item := item[keys[i] := fields[keys[i]]];
    }
    forall k | k in fields ensures k in item && WithinDepth(fields[k], 1) {
      assert k in keys;
      var j :| 0 <= j < |keys| && keys[j] == k;
    }
    assert item == fields;
    copy := Some(item);
  }
}
