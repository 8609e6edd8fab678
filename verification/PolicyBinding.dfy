/** `_effective_worker_egress_policy`: a project policy bound to a Run may only narrow the worker's own policy. */
module PolicyBinding {
  import opened Utf8
  import opened Json
  import opened Egress
  import opened EgressBroker

  datatype Binding = Rejected | Bound(policy: Option<Policy>)

  /** SHA-256 of the printed value. */
  function Digest(lib: Library, v: Json, ascii: bool): Json
  {
    Str(lib.sha256(Utf8.Encode(Dumps(v, ascii))))
  }

  const RECEIPT_FIELDS: set<string> := {
    "schema_version", "policy_id", "revision_id", "revision_number", "policy_digest", "runtime_policy_digest",
    "credential_configured", "binding_digest"}

  predicate SafeReceipt(lib: Library, receipt: map<string, Json>)
  {
    && receipt.Keys == RECEIPT_FIELDS
    && lib.parseUuid(receipt["policy_id"]).Some?
    && lib.parseUuid(receipt["revision_id"]).Some?
    && receipt["revision_number"].Num? && receipt["revision_number"].n >= 1
    && receipt["schema_version"] == Str("rdc.run-egress-policy-receipt/v1")
    && receipt["credential_configured"].Bool?
    && receipt["binding_digest"] == Digest(lib, Obj(receipt - {"binding_digest"}), true)
  }

  predicate SafeEnvelope(stored: map<string, Json>)
  {
    && Get(stored, "schema_version") == Str("rdc.egress/v1")
    && Get(stored, "mode") == Str("brokered")
    && Get(stored, "allowed_schemes") == Arr([Str("https")])
    && PyEqual(Get(stored, "deny_ip_literals"), Bool(true))
    && PyEqual(Get(stored, "require_global_dns"), Bool(true))
    && PyEqual(Get(stored, "revalidate_redirects"), Bool(true))
    && Get(stored, "container_network") == Str("none")
  }

  function TextItems(v: Json): Option<seq<string>>
  {
    if v.Arr? && forall i :: 0 <= i < |v.items| ==> v.items[i].Str?
    then Some(seq(|v.items|, i requires 0 <= i < |v.items| => v.items[i].s))
    else None
  }

  function StoredPolicy(lib: Library, stored: map<string, Json>): Option<Policy>
  {
    var hosts, methods := TextItems(Get(stored, "allowed_hosts")), TextItems(Get(stored, "allowed_methods"));
    if hosts.None? || methods.None? then None
    else if !(Get(stored, "max_requests").Num? && Get(stored, "max_response_bytes").Num?
              && Get(stored, "max_total_bytes").Num? && Get(stored, "max_redirects").Num?
              && Get(stored, "connect_timeout_seconds").Num? && Get(stored, "request_timeout_seconds").Num?) then None
    else CreatePolicy(lib, hosts.value, methods.value, Get(stored, "max_requests").n,
                      Get(stored, "max_response_bytes").n, Get(stored, "max_total_bytes").n,
                      Get(stored, "max_redirects").n, Get(stored, "connect_timeout_seconds").n,
                      Get(stored, "request_timeout_seconds").n)
  }

  predicate Narrower(p: Policy, ceiling: Policy)
  {
    && (forall h :: h in p.allowedHosts ==> h in ceiling.allowedHosts)
    && (forall m :: m in p.allowedMethods ==> m in ceiling.allowedMethods)
    && p.maxRequests <= ceiling.maxRequests
    && p.maxResponseBytes <= ceiling.maxResponseBytes
    && p.maxTotalBytes <= ceiling.maxTotalBytes
    && p.maxRedirects <= ceiling.maxRedirects
    && p.connectTimeoutSeconds <= ceiling.connectTimeoutSeconds
    && p.requestTimeoutSeconds <= ceiling.requestTimeoutSeconds
  }

  function FoundationJson(p: Policy): Json
  {
    Obj(map[
      "allowed_hosts" := Strings(p.allowedHosts),
      "allowed_methods" := Strings(p.allowedMethods),
      "connect_timeout_seconds" := Num(p.connectTimeoutSeconds),
      "max_redirects" := Num(p.maxRedirects),
      "max_requests" := Num(p.maxRequests),
      "max_response_bytes" := Num(p.maxResponseBytes),
      "max_total_bytes" := Num(p.maxTotalBytes),
      "request_timeout_seconds" := Num(p.requestTimeoutSeconds),
      "schema_version" := Str("rdc.egress-policy/v1")])
  }

  /** The policy a Run works under, from its `input_reference` and the worker's own policy. */
  function EffectivePolicy(lib: Library, reference: Json, ceiling: Option<Policy>): Binding
  {
    if !reference.Obj? then Bound(ceiling)
    else
      var stored := Get(reference.fields, "project_egress_policy");
      var receipt := Get(reference.fields, "project_egress_policy_receipt");
      if stored.Null? && receipt.Null? then Bound(ceiling)
      else if ceiling.None? || !stored.Obj? || !receipt.Obj? then Rejected
      else if !SafeReceipt(lib, receipt.fields) || !SafeEnvelope(stored.fields) then Rejected
      else match StoredPolicy(lib, stored.fields)
        case None => Rejected
        case Some(p) =>
          if && PyEqual(PolicyJson(p), stored)
             && Narrower(p, ceiling.value)
             && receipt.fields["runtime_policy_digest"] == Digest(lib, PolicyJson(p), false)
             && receipt.fields["policy_digest"] == Digest(lib, FoundationJson(p), true)
          then Bound(Some(p)) else Rejected
  }

  // ---- exactly which bindings are accepted, and as what ----

  const NUMERIC_FIELDS: set<string> := {
    "max_requests", "max_response_bytes", "max_total_bytes", "max_redirects", "connect_timeout_seconds",
    "request_timeout_seconds"}

  /** A policy that creating it again from its own values gives back. */
  predicate Canonical(lib: Library, p: Policy)
  {
    CreatePolicy(lib, p.allowedHosts, p.allowedMethods, p.maxRequests, p.maxResponseBytes, p.maxTotalBytes,
                 p.maxRedirects,
                 p.connectTimeoutSeconds, p.requestTimeoutSeconds) == Some(p)
  }

  lemma PolicyMembers(p: Policy)
    ensures PolicyJson(p).Obj?
    ensures var f := PolicyJson(p).fields;
            && {"schema_version", "mode", "allowed_schemes", "allowed_methods", "allowed_hosts", "deny_ip_literals",
                "require_global_dns", "revalidate_redirects", "container_network"} <= f.Keys
            && f["schema_version"] == Str("rdc.egress/v1") && f["mode"] == Str("brokered")
            && f["allowed_schemes"] == Arr([Str("https")])
            && f["allowed_methods"] == Strings(p.allowedMethods) && f["allowed_hosts"] == Strings(p.allowedHosts)
            && f["deny_ip_literals"] == f["require_global_dns"] == f["revalidate_redirects"] == Bool(true)
            && f["container_network"] == Str("none")
  {
    hide Strings;
  }

  lemma PolicyNumbers(p: Policy)
    ensures PolicyJson(p).Obj?
    ensures var f := PolicyJson(p).fields;
            && NUMERIC_FIELDS <= f.Keys
            && f["max_requests"] == Num(p.maxRequests) && f["max_response_bytes"] == Num(p.maxResponseBytes)
            && f["max_total_bytes"] == Num(p.maxTotalBytes) && f["max_redirects"] == Num(p.maxRedirects)
            && f["connect_timeout_seconds"] == Num(p.connectTimeoutSeconds)
            && f["request_timeout_seconds"] == Num(p.requestTimeoutSeconds)
  {
    hide Strings;
  }

  lemma StringsInjective(a: seq<string>, b: seq<string>)
    requires Strings(a) == Strings(b)
    ensures a == b
  {
    assert |a| == |Strings(a).items| == |b|;
    forall i | 0 <= i < |a| ensures a[i] ==
      b[i] { assert Strings(a).items[i] == Str(a[i]) && Strings(b).items[i] == Str(b[i]); }
  }

  lemma FoundationMembers(p: Policy)
    ensures FoundationJson(p).Obj?
    ensures var f := FoundationJson(p).fields;
            && {"allowed_hosts", "allowed_methods", "connect_timeout_seconds", "max_redirects", "max_requests",
                "max_response_bytes", "max_total_bytes", "request_timeout_seconds"} <= f.Keys
            && f["allowed_hosts"] == Strings(p.allowedHosts) && f["allowed_methods"] == Strings(p.allowedMethods)
            && f["connect_timeout_seconds"] == Num(p.connectTimeoutSeconds)
            && f["max_redirects"] == Num(p.maxRedirects) && f["max_requests"] == Num(p.maxRequests)
            && f["max_response_bytes"] == Num(p.maxResponseBytes) && f["max_total_bytes"] == Num(p.maxTotalBytes)
            && f["request_timeout_seconds"] == Num(p.requestTimeoutSeconds)
  {
    hide Strings;
  }

  /** Both dicts whose digests a receipt carries determine the policy, down to every limit. */
  lemma DigestsCoverPolicy(p: Policy, q: Policy)
    ensures PolicyJson(p) == PolicyJson(q) ==> p == q
    ensures FoundationJson(p) == FoundationJson(q) ==> p == q
  {
    hide Strings, PolicyJson, FoundationJson;
    PolicyMembers(p);
    PolicyMembers(q);
    PolicyNumbers(p);
    PolicyNumbers(q);
    FoundationMembers(p);
    FoundationMembers(q);
    if Strings(p.allowedHosts) == Strings(q.allowedHosts) { StringsInjective(p.allowedHosts, q.allowedHosts); }
    if Strings(p.allowedMethods) == Strings(q.allowedMethods) { StringsInjective(p.allowedMethods, q.allowedMethods); }
  }

  lemma TextsEqual(ss: seq<string>, v: Json)
    requires PyEqual(Strings(ss), v)
    ensures TextItems(v) == Some(ss)
  {
    assert |v.items| == |ss|;
    forall i | 0 <= i < |ss| ensures v.items[i] == Str(ss[i]) {
      assert PyEqual(Strings(ss).items[i], v.items[i]);
      StrEqual(ss[i], v.items[i]);
    }
    assert TextItems(v).value == ss;
  }

  lemma SchemesEqual(v: Json)
    requires PyEqual(Arr([Str("https")]), v)
    ensures v == Arr([Str("https")])
  {
    assert PyEqual(Str("https"), v.items[0]);
    assert v.items == [Str("https")];
  }

  lemma TrueEqual(v: Json)
    ensures PyEqual(Bool(true), v) <==> PyEqual(v, Bool(true))
  {
  }

  lemma EnvelopeImplied(p: Policy, stored: map<string, Json>)
    requires PyEqual(PolicyJson(p), Obj(stored))
    ensures SafeEnvelope(stored)
    ensures TextItems(Get(stored, "allowed_hosts")) == Some(p.allowedHosts)
    ensures TextItems(Get(stored, "allowed_methods")) == Some(p.allowedMethods)
  {
    PolicyMembers(p);
    var f := PolicyJson(p).fields;
    assert PyEqual(Obj(f), Obj(stored));
    assert forall k :: k in f ==> PyEqual(f[k], stored[k]);
    hide PolicyJson, PyEqual, Strings;
    TextsEqual(p.allowedHosts, stored["allowed_hosts"]);
    TextsEqual(p.allowedMethods, stored["allowed_methods"]);
    SchemesEqual(stored["allowed_schemes"]);
    TrueEqual(stored["deny_ip_literals"]);
    TrueEqual(stored["require_global_dns"]);
    TrueEqual(stored["revalidate_redirects"]);
    StrEqual("rdc.egress/v1", stored["schema_version"]);
    StrEqual("brokered", stored["mode"]);
    StrEqual("none", stored["container_network"]);
  }

  lemma StrEqual(s: string, v: Json)
    ensures PyEqual(Str(s), v) <==> v == Str(s)
  {
  }

  lemma NumEqual(n: int, v: Json)
    ensures v.Num? ==> (PyEqual(Num(n), v) <==> v.n == n)
  {
  }

  lemma NumbersImplied(p: Policy, stored: map<string, Json>)
    requires PyEqual(PolicyJson(p), Obj(stored)) && forall k :: k in NUMERIC_FIELDS ==> Get(stored, k).Num?
    ensures && Get(stored, "max_requests") == Num(p.maxRequests)
            && Get(stored, "max_response_bytes") == Num(p.maxResponseBytes)
            && Get(stored, "max_total_bytes") == Num(p.maxTotalBytes)
            && Get(stored, "max_redirects") == Num(p.maxRedirects)
            && Get(stored, "connect_timeout_seconds") == Num(p.connectTimeoutSeconds)
            && Get(stored, "request_timeout_seconds") == Num(p.requestTimeoutSeconds)
  {
    PolicyNumbers(p);
    var f := PolicyJson(p).fields;
    assert PyEqual(Obj(f), Obj(stored));
    assert forall k :: k in f ==> PyEqual(f[k], stored[k]);
    hide PolicyJson, PyEqual;
    NumEqual(p.maxRequests, stored["max_requests"]);
    NumEqual(p.maxResponseBytes, stored["max_response_bytes"]);
    NumEqual(p.maxTotalBytes, stored["max_total_bytes"]);
    NumEqual(p.maxRedirects, stored["max_redirects"]);
    NumEqual(p.connectTimeoutSeconds, stored["connect_timeout_seconds"]);
    NumEqual(p.requestTimeoutSeconds, stored["request_timeout_seconds"]);
  }

  lemma StoredIsPolicy(lib: Library, stored: map<string, Json>, p: Policy)
    requires PyEqual(PolicyJson(p), Obj(stored))
    ensures StoredPolicy(lib, stored) == Some(p) <==>
            Canonical(lib, p) && forall k :: k in NUMERIC_FIELDS ==> Get(stored, k).Num?
  {
    hide PolicyJson, PyEqual, CreatePolicy, TextItems;
    EnvelopeImplied(p, stored);
    if forall k :: k in NUMERIC_FIELDS ==> Get(stored, k).Num? { NumbersImplied(p, stored); }
  }

  /**
   A Project policy is taken as p exactly if p is canonical, the stored policy is p's own dict with integers for its
   numbers, p is within the worker's policy in every respect, and the receipt is well formed, sealed by its own digest,
   and has the digests of p in both spellings.
   */
  lemma BoundExactly(lib: Library, reference: Json, ceiling: Policy, p: Policy)
    requires reference.Obj?
    requires !(Get(reference.fields, "project_egress_policy").Null?
               && Get(reference.fields, "project_egress_policy_receipt").Null?)
    ensures var stored := Get(reference.fields, "project_egress_policy");
            var receipt := Get(reference.fields, "project_egress_policy_receipt");
            EffectivePolicy(lib, reference, Some(ceiling)) == Bound(Some(p)) <==>
              && stored.Obj? && receipt.Obj?
              && Canonical(lib, p) && PyEqual(PolicyJson(p), stored)
              && (forall k :: k in NUMERIC_FIELDS ==> Get(stored.fields, k).Num?)
              && (forall h :: h in p.allowedHosts ==> h in ceiling.allowedHosts)
              && (forall m :: m in p.allowedMethods ==> m in ceiling.allowedMethods)
              && p.maxRequests <= ceiling.maxRequests && p.maxResponseBytes <= ceiling.maxResponseBytes
              && p.maxTotalBytes <= ceiling.maxTotalBytes && p.maxRedirects <= ceiling.maxRedirects
              && p.connectTimeoutSeconds <= ceiling.connectTimeoutSeconds
              && p.requestTimeoutSeconds <= ceiling.requestTimeoutSeconds
              && receipt.fields.Keys == RECEIPT_FIELDS
              && lib.parseUuid(receipt.fields["policy_id"]).Some? && lib.parseUuid(receipt.fields["revision_id"]).Some?
              && receipt.fields["revision_number"].Num? && receipt.fields["revision_number"].n >= 1
              && receipt.fields["schema_version"] == Str("rdc.run-egress-policy-receipt/v1")
              && receipt.fields["credential_configured"].Bool?
              && receipt.fields["binding_digest"] == Digest(lib, Obj(receipt.fields - {"binding_digest"}), true)
              && receipt.fields["runtime_policy_digest"] == Digest(lib, PolicyJson(p), false)
              && receipt.fields["policy_digest"] == Digest(lib, FoundationJson(p), true)
  {
    hide PolicyJson, PyEqual, Canonical, StoredPolicy, SafeEnvelope, Digest, FoundationJson, NUMERIC_FIELDS;
    var stored := Get(reference.fields, "project_egress_policy");
    if stored.Obj? && PyEqual(PolicyJson(p), stored) {
      StoredIsPolicy(lib, stored.fields, p);
      EnvelopeImplied(p, stored.fields);
    }
  }

  // ---- narrowing is a simulation ----

  lemma TargetSimulates(w: World, p: Policy, q: Policy, url: string, history: seq<NetEvent>)
    requires Narrower(p, q)
    requires ValidateTarget(w, p, url, history).0.Some?
    ensures ValidateTarget(w, q, url, history) == ValidateTarget(w, p, url, history)
  {
  }

  lemma RequestSimulates(w: World, p: Policy, q: Policy, url: string, target: Target, verb: string,
                         authorization: Option<string>, history: seq<NetEvent>)
    requires Narrower(p, q)
    requires RequestOnce(w, p, url, target, verb, authorization, history).0.Some?
    ensures RequestOnce(w, q, url, target, verb, authorization, history)
            == RequestOnce(w, p, url, target, verb, authorization, history)
  {
  }

  lemma {:induction false} FetchSimulates(c: Call, q: Policy, id: string, verb: string, url: string, redirects: nat,
                                          budget: Budget, history: seq<NetEvent>)
    requires Narrower(c.p, q)
    requires FetchFrom(c, id, verb, url, redirects, budget, history).result.Some?
    ensures FetchFrom(c.(p := q), id, verb, url, redirects, budget, history)
            == FetchFrom(c, id, verb, url, redirects, budget, history)
    decreases if redirects <= c.p.maxRedirects then c.p.maxRedirects - redirects + 1 else 0
  {
    hide ValidateTarget, RequestOnce, DecodeBody;
    var (target, h1) := ValidateTarget(c.w, c.p, url, history);
    TargetSimulates(c.w, c.p, q, url, history);
    var (reply, h2) := RequestOnce(c.w, c.p, url, target.value, verb, c.authorization, h1);
    RequestSimulates(c.w, c.p, q, url, target.value, verb, c.authorization, h1);
    if IsRedirect(reply.value.status) {
      FetchSimulates(c, q, id, verb, c.w.lib.urljoin(target.value.url, reply.value.location.value), redirects + 1,
                     Budget(budget.requests + 1, budget.bytes), h2);
    }
  }

  lemma {:induction false} BatchFromSimulates(c: Call, q: Policy, raws: seq<Json>, done: seq<Response>, budget: Budget,
                                              history: seq<NetEvent>)
    requires |done| <= |raws| && Narrower(c.p, q)
    requires BatchFrom(c, raws, done, budget, history).result.Some?
    ensures BatchFrom(c.(p := q), raws, done, budget, history) == BatchFrom(c, raws, done, budget, history)
    decreases |raws| - |done|
  {
    hide FetchFrom, ReadRequest;
    if |done| < |raws| {
      var request := ReadRequest(c.w.lib, raws[|done|]).value;
      FetchSimulates(c, q, request.id, request.verb, request.url, 0, budget, history);
      var fetched := FetchRun(c, request.id, request.verb, request.url, budget, history);
      BatchFromSimulates(c, q, raws, done + [fetched.result.value], fetched.budget, fetched.history);
    }
  }

  /**
   Whatever a batch achieves under a project policy that the worker accepts, it achieves under the worker's own
   policy against the same network: the same responses, the same used counters and the same traffic.
   */
  lemma NarrowingSimulates(w: World, authorization: Option<string>, reference: Json, ceiling: Policy, p: Policy,
                           input: map<string, Json>)
    requires EffectivePolicy(w.lib, reference, Some(ceiling)) == Bound(Some(p))
    requires Batch(Call(w, p, authorization), input).result.Some?
    ensures Batch(Call(w, ceiling, authorization), input) == Batch(Call(w, p, authorization), input)
  {
    hide BatchFrom, StoredPolicy, SafeReceipt, SafeEnvelope, PyEqual;
    var c := Call(w, p, authorization);
    assert Narrower(p, ceiling);
    assert c.(p := ceiling) == Call(w, ceiling, authorization);
    BatchFromSimulates(c, ceiling, Member(input, "_rdc_web_requests", Arr([])).items, [], Budget(0, 0), []);
  }
}
