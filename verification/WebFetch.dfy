/** `web_fetch_contract.py`: the versioned envelope, its broker input, and the adaptation of broker output. Errors are
    None. */
module WebFetch {
  import opened Utf8
  import opened Json
  import opened JsonText
  import opened Egress
  import opened EgressBroker
  import opened PolicyBinding

  const MAX_REQUESTS: nat := 32
  const MAX_URL_LENGTH: nat := 8192
  const MAX_FETCH_ENVELOPE_BYTES: nat := 65_536

  /** `_normalize_request`. */
  function NormalizeRequest(lib: Library, raw: Json): Option<Request>
  {
    if !raw.Obj? || raw.fields.Keys != {"id", "method", "url"} then None
    else
      var f := raw.fields;
      if !(f["id"].Str? && RequestId(f["id"].s) && f["method"].Str? && f["url"].Str?) then None
      else
        var verb, url := Upper(f["method"].s), f["url"].s;
        if !(verb == "GET" || verb == "HEAD") || url == "" || |url| > MAX_URL_LENGTH || !("https://" <= url) then None
        else match lib.urlsplit(url)
          case None => None
          case Some(u) =>
            if u.hostname == "" || u.username.Some? || u.password.Some? then None
              else Some(Request(f["id"].s, verb, url))
  }

  function RequestJson(r: Request): Json
  {
    Obj(map["id" := Str(r.id), "method" := Str(r.verb), "url" := Str(r.url)])
  }

  function RequestList(rs: seq<Request>): Json
  {
    Arr(seq(|rs|, i requires 0 <= i < |rs| => RequestJson(rs[i])))
  }

  /** `WebFetchEnvelope.as_dict`. */
  function EnvelopeJson(rs: seq<Request>): Json
  {
    Obj(map["schema_version" := Str("rdc.web-fetch/v1"), "requests" := RequestList(rs)])
  }

  predicate AllNormal(lib: Library, items: seq<Json>)
  {
    forall i :: 0 <= i < |items| ==> NormalizeRequest(lib, items[i]).Some?
  }

  /** `parse_web_fetch_envelope`. */
  function ParseEnvelope(lib: Library, raw: Json): Option<seq<Request>>
  {
    if !raw.Obj? || raw.fields.Keys != {"schema_version", "requests"} then None
    else if raw.fields["schema_version"] != Str("rdc.web-fetch/v1") || !raw.fields["requests"].Arr? then None
    else
      var items := raw.fields["requests"].items;
      if !(1 <= |items| <= MAX_REQUESTS) || !AllNormal(lib, items) then None
      else
        var rs := seq(|items|, i requires 0 <= i < |items| => NormalizeRequest(lib, items[i]).value);
        if (exists i, j :: 0 <= i < j < |rs| && rs[i].id == rs[j].id)
          || Size(EnvelopeJson(rs), false) > MAX_FETCH_ENVELOPE_BYTES
        then None else Some(rs)
  }

  /** A request is taken exactly if it has an id, a method and a URL, nothing more, the id well formed, the method GET
      or HEAD in whichever case, and the URL spelled https, of at most 8,192 characters, with a host and no
      credentials. */
  lemma NormalizedExactly(lib: Library, raw: Json, q: Request)
    ensures NormalizeRequest(lib, raw) == Some(q) <==>
            && raw.Obj? && raw.fields.Keys == {"id", "method", "url"}
            && raw.fields["id"] == Str(q.id) && raw.fields["url"] == Str(q.url)
            && raw.fields["method"].Str? && Upper(raw.fields["method"].s) == q.verb
            && RequestId(q.id) && (q.verb == "GET" || q.verb == "HEAD")
            && "https://" <= q.url && |q.url| <= 8192
            && lib.urlsplit(q.url).Some?
            && var u := lib.urlsplit(q.url).value;
            && u.hostname != "" && u.username.None? && u.password.None?
  {
    hide RequestId, Upper;
  }

  /** An envelope is parsed exactly if it has its version and 1 to 32 requests, all of which are taken, under different
      ids, and the envelope of what they are taken as fits 65,536 bytes. */
  lemma ParsedExactly(lib: Library, raw: Json, rs: seq<Request>)
    ensures ParseEnvelope(lib, raw) == Some(rs) <==>
            && raw.Obj? && raw.fields.Keys == {"schema_version", "requests"}
            && raw.fields["schema_version"] == Str("rdc.web-fetch/v1") && raw.fields["requests"].Arr?
            && var items := raw.fields["requests"].items;
            && |items| == |rs| && 1 <= |rs| <= 32
            && (forall i :: 0 <= i < |rs| ==> NormalizeRequest(lib, items[i]) == Some(rs[i]))
            && (forall i, j :: 0 <= i < j < |rs| ==> rs[i].id != rs[j].id)
            && |Utf8.Encode(Dumps(EnvelopeJson(rs), false))| <= 65_536
  {
    hide NormalizeRequest, Dumps, Utf8.Encode, EnvelopeJson;
    if raw.Obj? && raw.fields.Keys == {"schema_version", "requests"} && raw.fields["requests"].Arr? {
      var items := raw.fields["requests"].items;
      if AllNormal(lib, items) {
        var taken := seq(|items|, i requires 0 <= i < |items| => NormalizeRequest(lib, items[i]).value);
        if |items| == |rs| && forall i :: 0 <= i < |rs| ==> NormalizeRequest(lib, items[i]) == Some(rs[i]) {
          assert taken == rs;
        }
      }
    }
  }

  /** The envelope built of parsed requests parses to the same requests. */
  lemma EnvelopeRoundTrip(lib: Library, raw: Json)
    requires ParseEnvelope(lib, raw).Some?
    ensures var rs := ParseEnvelope(lib, raw).value; ParseEnvelope(lib, EnvelopeJson(rs)) == Some(rs)
  {
    hide ParseEnvelope, NormalizeRequest, Dumps, Utf8.Encode;
    var rs := ParseEnvelope(lib, raw).value;
    ParsedExactly(lib, raw, rs);
    var again := EnvelopeJson(rs);
    assert again.fields.Keys == {"schema_version", "requests"};
    forall i | 0 <= i < |rs| ensures NormalizeRequest(lib, RequestList(rs).items[i]) == Some(rs[i]) {
      NormalizedExactly(lib, raw.fields["requests"].items[i], rs[i]);
      NormalAgain(lib, rs[i]);
    }
    ParsedExactly(lib, again, rs);
  }

  lemma NormalAgain(lib: Library, q: Request)
    requires RequestId(q.id) && (q.verb == "GET" || q.verb == "HEAD") && "https://" <= q.url && |q.url| <= 8192
    requires lib.urlsplit(q.url).Some?
    requires var u := lib.urlsplit(q.url).value; u.hostname != "" && u.username.None? && u.password.None?
    ensures NormalizeRequest(lib, RequestJson(q)) == Some(q)
  {
    hide NormalizeRequest, RequestId;
    var f := RequestJson(q).fields;
    assert f.Keys == {"id", "method", "url"} && f["id"] == Str(q.id) && f["method"] == Str(q.verb)
      && f["url"] == Str(q.url);
    assert Upper("GET") == "GET" && Upper("HEAD") == "HEAD";
    NormalizedExactly(lib, RequestJson(q), q);
  }

  /** `as_phase1j_broker_input`. */
  function BrokerInput(rs: seq<Request>): map<string, Json>
  {
    map["_rdc_web_requests" := RequestList(rs)]
  }

  /** `WebFetchEnvelope.digest`, which keeps characters beyond ASCII. */
  function EnvelopeDigest(lib: Library, rs: seq<Request>): Json
  {
    Digest(lib, EnvelopeJson(rs), false)
  }

  // ---- adapting the broker's output ----

  /** `_result_body`. */
  function ResultBody(f: map<string, Json>): Option<Json>
  {
    var size, digest, text, encoded := Get(f, "size_bytes"), Get(f, "body_sha256"), Get(f, "body_text"),
      Get(f, "body_base64");
    if !(size.Num? && size.n >= 0 && digest.Str? && DigestText(digest.s)) then None
    else if !text.Null? && !encoded.Null? then None
    else if !(text.Null? || text.Str?) || !(encoded.Null? || encoded.Str?) then None
    else
      var encoding := if text.Str? then "text" else if encoded.Str? then "base64" else "none";
      Some(Obj(map["encoding" := Str(encoding), "value" := if text.Str? then text else encoded, "size_bytes" := size,
                   "sha256" := digest]))
  }

  /** The header loop: only text under a safe name, lower-cased and cut to 2048. */
  function AdaptedHeaders(raw: map<string, Json>, keys: seq<string>, acc: map<string, string>)
    : Option<map<string, string>>
    requires forall k :: k in keys ==> k in raw
  {
    if keys == [] then Some(acc)
    else if !raw[keys[0]].Str? || Lower(keys[0]) !in SAFE_HEADERS then None
    else
      AdaptedHeaders(raw, keys[1..], acc[Lower(keys[0]) := Cut(raw[keys[0]].s)])
  }

  /** One result, matched with the request it must answer. */
  function AdaptedResult(request: Request, raw: Json): Option<Json>
  {
    if !raw.Obj? then None
    else
      var f := raw.fields;
      var url, status, headers := Get(f, "url"), Get(f, "status"), Get(f, "headers");
      if !(&& Get(f, "id") == Str(request.id)
           && Get(f, "method") == Str(request.verb)
           && url.Str? && "https://" <= url.s
           && status.Num? && 100 <= status.n <= 599
           && headers.Obj?) then None
      else
        var safe, body := AdaptedHeaders(headers.fields, SortedKeys(headers.fields.Keys), map[]), ResultBody(f);
        if safe.None? || body.None? then None
        else Some(ResultJson(request, url, status, safe.value, body.value))
  }

  function ResultJson(request: Request, url: Json, status: Json, headers: map<string, string>, body: Json): Json
  {
    Obj(map["id" := Str(request.id), "method" := Str(request.verb), "url" := url, "status" := status,
            "headers" := Headers(headers), "body" := body])
  }

  lemma {:induction false} HeadersAccepted(raw: map<string, Json>, keys: seq<string>, acc: map<string, string>)
    requires forall k :: k in keys ==> k in raw
    ensures AdaptedHeaders(raw, keys, acc).Some? <==> forall k :: k in keys ==> raw[k].Str? && Lower(k) in SAFE_HEADERS
  {
    hide Lower, Cut, SAFE_HEADERS;
    if keys != [] {
      assert forall k :: k in keys <==> k == keys[0] || k in keys[1..];
      if raw[keys[0]].Str? && Lower(keys[0]) in SAFE_HEADERS {
        HeadersAccepted(raw, keys[1..], acc[Lower(keys[0]) := Cut(raw[keys[0]].s)]);
      }
    }
  }

  /** A result is taken exactly if it answers the request by id and method, came from an https URL with a status of 100
      to 599, has text under safe header names only, a size and a digest, and not both a text and a base64 body. */
  lemma ResultTakenExactly(request: Request, raw: Json)
    ensures AdaptedResult(request, raw).Some? <==>
            && raw.Obj?
            && var f := raw.fields;
            && Get(f, "id") == Str(request.id) && Get(f, "method") == Str(request.verb)
            && Get(f, "url").Str? && "https://" <= Get(f, "url").s
            && Get(f, "status").Num? && 100 <= Get(f, "status").n <= 599
            && Get(f, "headers").Obj?
            && (forall k :: k in Get(f, "headers").fields ==>
                  Get(f, "headers").fields[k].Str? && Lower(k) in SAFE_HEADERS)
            && Get(f, "size_bytes").Num? && Get(f, "size_bytes").n >= 0
            && Get(f, "body_sha256").Str? && DigestText(Get(f, "body_sha256").s)
            && (|| (Get(f, "body_text").Null? && Get(f, "body_base64").Null?)
                || (Get(f, "body_text").Str? && Get(f, "body_base64").Null?)
                || (Get(f, "body_text").Null? && Get(f, "body_base64").Str?))
  {
    hide Lower, SAFE_HEADERS, DigestText, AdaptedHeaders, SortedKeys, ResultJson;
    if raw.Obj? && Get(raw.fields, "headers").Obj? {
      var headers := Get(raw.fields, "headers").fields;
      HeadersAccepted(headers, SortedKeys(headers.Keys), map[]);
      assert forall k :: k in headers <==> k in SortedKeys(headers.Keys);
    }
  }

  lemma ResultLookups(request: Request, url: Json, status: Json, headers: map<string, string>, body: Json)
    ensures ResultJson(request, url, status, headers, body).Obj?
    ensures var f := ResultJson(request, url, status, headers, body).fields;
            && f.Keys == {"id", "method", "url", "status", "headers", "body"}
            && f["id"] == Str(request.id) && f["method"] == Str(request.verb) && f["url"] == url
              && f["status"] == status
            && f["headers"] == Headers(headers) && f["body"] == body
  {
    hide Headers;
  }

  /** What a result that is taken says: the request's id and method, the URL and the status as they came, and the body
      with its size and digest, as text, as base64, or as none. */
  lemma ResultSays(request: Request, raw: Json)
    requires AdaptedResult(request, raw).Some?
    ensures raw.Obj? && AdaptedResult(request, raw).value.Obj?
    ensures var f, r := raw.fields, AdaptedResult(request, raw).value.fields;
            && r.Keys == {"id", "method", "url", "status", "headers", "body"}
            && r["id"] == Str(request.id) && r["method"] == Str(request.verb)
            && r["url"] == Get(f, "url") && r["status"] == Get(f, "status")
            && r["body"].Obj? && r["body"].fields.Keys == {"encoding", "value", "size_bytes", "sha256"}
            && r["body"].fields["size_bytes"] == Get(f, "size_bytes")
            && r["body"].fields["sha256"] == Get(f, "body_sha256")
            && (if Get(f, "body_text") != Null then
                  r["body"].fields["encoding"] == Str("text") && r["body"].fields["value"] == Get(f, "body_text")
                else if Get(f, "body_base64") != Null then
                  r["body"].fields["encoding"] == Str("base64") && r["body"].fields["value"] == Get(f, "body_base64")
                else r["body"].fields["encoding"] == Str("none") && r["body"].fields["value"] == Null)
  {
    var f := raw.fields;
    var headers := Get(f, "headers").fields;
    var safe, body := AdaptedHeaders(headers, SortedKeys(headers.Keys), map[]).value, ResultBody(f).value;
    assert AdaptedResult(request, raw).value == ResultJson(request, Get(f, "url"), Get(f, "status"), safe, body);
    hide ResultJson, AdaptedHeaders, SortedKeys, DigestText, AdaptedResult, Headers;
    ResultLookups(request, Get(f, "url"), Get(f, "status"), safe, body);
  }

  predicate BudgetOk(b: map<string, Json>)
  {
    && b.Keys == {"requests_used", "bytes_received", "max_requests", "max_total_bytes"}
    && forall k :: k in b ==> b[k].Num? && b[k].n >= 0
  }

  predicate AllAdapt(rs: seq<Request>, raws: seq<Json>)
  {
    |raws| == |rs| && forall i :: 0 <= i < |rs| ==> AdaptedResult(rs[i], raws[i]).Some?
  }

  function FetchResultJson(lib: Library, rs: seq<Request>, results: seq<Json>, budget: Json): Json
  {
    Obj(map["schema_version" := Str("rdc.web-fetch-result/v1"), "request_digest" := EnvelopeDigest(lib, rs),
            "results" := Arr(results), "budget" := budget])
  }

  /** What `phase1j_broker_result_adapter` makes of a broker's output for an envelope. */
  function Adapted(lib: Library, envelope: Json, output: Json): Option<Json>
  {
    match ParseEnvelope(lib, envelope)
    case None => None
    case Some(rs) =>
      if !output.Obj? then None
      else
        var raws, budget := Get(output.fields, "_rdc_web_results"), Get(output.fields, "_rdc_web_budget");
        if !raws.Arr? || !budget.Obj? || !AllAdapt(rs, raws.items) || !BudgetOk(budget.fields) then None
        else
          Some(FetchResultJson(lib, rs,
                               seq(|rs|, i requires 0 <= i < |rs| => AdaptedResult(rs[i], raws.items[i]).value),
                               budget))
  }

  /** `phase1j_broker_result_adapter`. */
  method AdaptBrokerResult(lib: Library, envelope: Json, output: Json) returns (r: Option<Json>)
    ensures r == Adapted(lib, envelope, output)
  {
    hide ParseEnvelope, AdaptedResult, BudgetOk;
    var parsed := ParseEnvelope(lib, envelope);
    if parsed.None? { return None; }
    var rs := parsed.value;
    if !output.Obj? { return None; }
    var raws, budget := Get(output.fields, "_rdc_web_results"), Get(output.fields, "_rdc_web_budget");
    if !raws.Arr? || !budget.Obj? { return None; }
    if |raws.items| != |rs| { return None; }
    var results: seq<Json> := [];
    for i := 0 to |rs|
      invariant |results| == i
      invariant forall j :: 0 <= j < i ==> AdaptedResult(rs[j], raws.items[j]) == Some(results[j])
    {
      var result := AdaptedResult(rs[i], raws.items[i]);
      if result.None? { return None; }
      results := results + [result.value];
    }
    if !BudgetOk(budget.fields) { return None; }
    assert results == seq(|rs|, i requires 0 <= i < |rs| => AdaptedResult(rs[i], raws.items[i]).value);
    r := Some(FetchResultJson(lib, rs, results, budget));
  }

  // ---- the adapter takes whatever the broker makes ----

  /** The result that reports a broker response. */
  function Reported(r: Response): Json
  {
    var body := Obj(map[
      "encoding" := Str(if r.bodyText.Some? then "text" else "base64"),
      "value" := if r.bodyText.Some? then Optional(r.bodyText) else Optional(r.bodyBase64),
      "size_bytes" := Num(r.size),
      "sha256" := Str(r.digest)]);
    ResultJson(Request(r.id, r.verb, ""), Str(r.url), Num(r.status), r.headers, body)
  }

  function AllReported(rs: seq<Response>): seq<Json>
  {
    seq(|rs|, i requires 0 <= i < |rs| => Reported(rs[i]))
  }

  lemma {:induction false} HeadersAdapted(headers: map<string, string>, keys: seq<string>, acc: map<string, string>)
    requires forall k :: k in keys ==> k in headers
    requires headers.Keys <= SAFE_HEADERS
    requires forall k :: k in headers ==> |headers[k]| <= 2048
    requires forall k :: k in acc ==> k in headers && acc[k] == headers[k]
    requires forall k :: k in headers ==> k in keys || k in acc
    ensures AdaptedHeaders(Headers(headers).fields, keys, acc) == Some(headers)
  {
    if keys == [] {
      assert acc == headers;
    } else {
      assert keys[0] in headers.Keys;
      SafeHeaderIsLower(keys[0]);
      HeadersAdapted(headers, keys[1..], acc[keys[0] := headers[keys[0]]]);
    }
  }

  lemma ResponseLookups(r: Response)
    ensures ResponseJson(r).Obj?
    ensures var f := ResponseJson(r).fields;
            && Get(f, "id") == Str(r.id)
            && Get(f, "method") == Str(r.verb)
            && Get(f, "url") == Str(r.url)
            && Get(f, "status") == Num(r.status)
            && Get(f, "headers") == Headers(r.headers)
            && Get(f, "body_text") == Optional(r.bodyText)
            && Get(f, "body_base64") == Optional(r.bodyBase64)
            && Get(f, "size_bytes") == Num(r.size)
            && Get(f, "body_sha256") == Str(r.digest)
  {
    hide Headers, Optional;
  }

  /** A response of the broker, as far as the adapter looks at it. */
  predicate Adaptable(r: Response)
  {
    && "https://" <= r.url
    && 100 <= r.status <= 599
    && r.headers.Keys <= SAFE_HEADERS
    && (forall k :: k in r.headers ==> |r.headers[k]| <= 2048)
    && r.bodyText.Some? != r.bodyBase64.Some?
    && DigestText(r.digest)
  }

  lemma ResponseAdapted(q: Request, r: Response)
    requires r.id == q.id && r.verb == q.verb && Adaptable(r)
    ensures AdaptedResult(q, ResponseJson(r)) == Some(Reported(r))
  {
    hide ResponseJson, DigestText, SortedKeys;
    ResponseLookups(r);
    assert Headers(r.headers).fields.Keys == r.headers.Keys;
    HeadersAdapted(r.headers, SortedKeys(r.headers.Keys), map[]);
  }

  /** Reading back the broker input of a normal request. */
  lemma NormalRequestRead(lib: Library, q: Request)
    requires LawfulText(lib)
    requires RequestId(q.id) && (q.verb == "GET" || q.verb == "HEAD") && q.url != ""
    ensures ReadRequest(lib, RequestJson(q)) == Some(q)
  {
    hide RequestId;
    var f := RequestJson(q).fields;
    assert Member(f, "id", Str("")) == Str(q.id);
    assert Member(f, "method", Str("GET")) == Str(q.verb);
    assert Member(f, "url", Str("")) == Str(q.url);
    assert Upper("GET") == "GET" && Upper("HEAD") == "HEAD";
  }

  /** What the network delivered is adaptable. */
  lemma DeliveredAdaptable(c: Call, url: string, history: seq<NetEvent>, r: Response)
    requires LawfulText(c.w.lib) && Behaved(c.w.net)
    requires Delivered(c, url, history, r)
    ensures 100 <= r.status <= 599 && DigestText(r.digest)
  {
    hide DigestText, DecodeBody, Follows;
    var j: nat, k: nat :| j <= k <= |history| && DeliveredAt(c, url, history, r, j, k);
  }

  lemma ParsedIsNormal(lib: Library, envelope: Json, i: nat)
    requires ParseEnvelope(lib, envelope).Some? && i < |ParseEnvelope(lib, envelope).value|
    ensures var q := ParseEnvelope(lib, envelope).value[i];
            RequestId(q.id) && (q.verb == "GET" || q.verb == "HEAD") && q.url != ""
  {
    hide RequestId, Upper, Size;
    assert NormalizeRequest(lib, envelope.fields["requests"].items[i]).Some?;
  }

  lemma BudgetIsOk(p: Policy, b: Budget)
    requires SafePolicy(p)
    ensures BudgetJson(p, b).Obj? && BudgetOk(BudgetJson(p, b).fields)
  {
  }

  lemma OutputLookups(p: Policy, input: map<string, Json>, responses: seq<Response>, b: Budget)
    ensures var f := BrokerOutput(p, input, responses, b);
            Get(f, "_rdc_web_results") == Listed(responses) && Get(f, "_rdc_web_budget") == BudgetJson(p, b)
  {
    hide Listed, BudgetJson;
  }

  /** For every envelope the adapters accept and every batch that succeeds, the result adapter accepts the outcome: one
      result per request, in order, reporting exactly the response the broker gave to it. */
  lemma AdapterTakesBrokerOutput(c: Call, envelope: Json)
    requires LawfulText(c.w.lib) && Behaved(c.w.net) && SafePolicy(c.p)
    requires ParseEnvelope(c.w.lib, envelope).Some?
    requires Batch(c, BrokerInput(ParseEnvelope(c.w.lib, envelope).value)).result.Some?
    ensures var rs := ParseEnvelope(c.w.lib, envelope).value;
            var o := Batch(c, BrokerInput(rs));
            && |o.result.value| == |rs|
            && Adapted(c.w.lib, envelope, Obj(BrokerOutput(c.p, BrokerInput(rs), o.result.value, o.budget)))
               == Some(FetchResultJson(c.w.lib, rs, AllReported(o.result.value), BudgetJson(c.p, o.budget)))
  {
    hide ParseEnvelope, ReadRequest, Batch, Delivered, BudgetJson, AdaptedResult, ResponseJson, Reported, BudgetOk,
      RequestId, SendsValidated, Sends, TotalSize, RequestJson, BrokerOutput, DigestText;
    var lib := c.w.lib;
    var rs := ParseEnvelope(lib, envelope).value;
    var o := Batch(c, BrokerInput(rs));
    var raws := RequestList(rs).items;
    assert Member(BrokerInput(rs), "_rdc_web_requests", Arr([])) == RequestList(rs);
    BatchIsSafe(c, BrokerInput(rs));
    var done := o.result.value;
    var listed := Listed(done).items;
    forall i | 0 <= i < |rs| ensures AdaptedResult(rs[i], listed[i]) == Some(Reported(done[i])) {
      ParsedIsNormal(lib, envelope, i);
      assert raws[i] == RequestJson(rs[i]);
      NormalRequestRead(lib, rs[i]);
      assert done[i].id == rs[i].id && done[i].verb == rs[i].verb;
      DeliveredAdaptable(c, rs[i].url, o.history, done[i]);
      ResponseAdapted(rs[i], done[i]);
    }
    OutputLookups(c.p, BrokerInput(rs), done, o.budget);
    BudgetIsOk(c.p, o.budget);
    assert seq(|rs|, i requires 0 <= i < |rs| => AdaptedResult(rs[i], listed[i]).value) == AllReported(done);
  }
}
