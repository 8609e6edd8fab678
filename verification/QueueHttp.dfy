/** `queue_worker_protocol.py`: claims, and the HTTP acquisition of a claim's URL through envelope, broker and
    adapters. */
module QueueHttp {
  import opened Utf8
  import opened Json
  import opened JsonText
  import opened Egress
  import opened EgressBroker
  import opened PolicyBinding
  import opened WebFetch
  import opened KeyValue

  const MAX_USER_DATA_BYTES: nat := 65_536

  datatype Claim = Claim(requestId: string, queueId: string, url: string, userData: Json, attemptCount: int,
                         token: string)

  /** `_https_url`: the scheme is compared as the URL parser lower-cased it. */
  predicate HttpsUrl(lib: Library, v: Json)
  {
    && v.Str? && 1 <= |v.s| <= 2_048
    && var u := lib.urlsplit(v.s);
    && u.Some?
    && u.value.scheme == "https"
    && u.value.hostname != ""
    && u.value.username.None? && u.value.password.None?
    && (u.value.port.NoPort? || u.value.port == PortNumber(443))
    && (forall i :: 0 <= i < |v.s| ==> !lib.isSpace(v.s[i]))
    && !lib.isIpLiteral(u.value.hostname)
  }

  /** `validate_queue_claim_result`. */
  function ValidateClaim(lib: Library, v: Json, expectedQueueId: string): Option<Claim>
  {
    if !v.Obj? || v.fields.Keys != {"id", "queue_id", "url", "user_data", "attempt_count", "claim_token"} then None
    else
      var f := v.fields;
      var id, queue, token := lib.parseUuid(f["id"]), lib.parseUuid(f["queue_id"]), lib.parseUuid(f["claim_token"]);
      if && id.Some? && queue == Some(expectedQueueId) && token.Some?
         && f["attempt_count"].Num? && 1 <= f["attempt_count"].n <= 100
         && WithinDepth(f["user_data"], 0)
         && Size(f["user_data"], false) <= MAX_USER_DATA_BYTES
         && HttpsUrl(lib, f["url"])
      then Some(Claim(id.value, queue.value, f["url"].s, f["user_data"], f["attempt_count"].n, token.value))
      else None
  }

  /** What later steps rely on. */
  predicate ValidClaim(lib: Library, claim: Claim)
  {
    && UuidText(claim.requestId)
    && lib.parseUuid(Str(claim.requestId)) == Some(claim.requestId)
    && HttpsUrl(lib, Str(claim.url))
  }

  /**
   A claim is validated exactly if it has the six fields, its ids are UUIDs and that of its queue the expected one, its
   attempts are 1 to 100, its user data is nested at most 32 deep and takes at most 65,536 bytes, and its URL is an
   https URL of at most 2,048 characters, on a host that is no IP address, without credentials, other port or spaces.
   Each of its parts is that field of the value, the three ids in their normal form.
   */
  lemma ClaimValidatedExactly(lib: Library, v: Json, expectedQueueId: string)
    ensures var r := ValidateClaim(lib, v, expectedQueueId);
            && (r.Some? <==>
                  && v.Obj? && v.fields.Keys == {"id", "queue_id", "url", "user_data", "attempt_count", "claim_token"}
                  && lib.parseUuid(v.fields["id"]).Some?
                  && lib.parseUuid(v.fields["queue_id"]) == Some(expectedQueueId)
                  && lib.parseUuid(v.fields["claim_token"]).Some?
                  && (exists n :: v.fields["attempt_count"] == Num(n) && 1 <= n <= 100)
                  && WithinDepth(v.fields["user_data"], 0)
                  && |Utf8.Encode(Dumps(v.fields["user_data"], false))| <= 65_536
                  && v.fields["url"].Str?
                  && var url := v.fields["url"].s;
                  && 1 <= |url| <= 2_048 && (forall i :: 0 <= i < |url| ==> !lib.isSpace(url[i]))
                  && lib.urlsplit(url).Some?
                  && var u := lib.urlsplit(url).value;
                  && u.scheme == "https" && u.hostname != "" && !lib.isIpLiteral(u.hostname)
                  && u.username.None? && u.password.None? && (u.port.NoPort? || u.port == PortNumber(443)))
            && (r.Some? ==>
                  && Some(r.value.requestId) == lib.parseUuid(v.fields["id"])
                  && Some(r.value.queueId) == lib.parseUuid(v.fields["queue_id"])
                  && Some(r.value.token) == lib.parseUuid(v.fields["claim_token"])
                  && Str(r.value.url) == v.fields["url"] && r.value.userData == v.fields["user_data"]
                  && Num(r.value.attemptCount) == v.fields["attempt_count"])
  {
    hide WithinDepth, Dumps, Utf8.Encode;
  }

  lemma ValidatedClaimIsValid(lib: Library, v: Json, expectedQueueId: string)
    requires LawfulText(lib) && ValidateClaim(lib, v, expectedQueueId).Some?
    ensures ValidClaim(lib, ValidateClaim(lib, v, expectedQueueId).value)
  {
    hide WithinDepth, Size, UuidText;
  }

  /** The one request of the envelope `queue_http_fetch_envelope` builds. */
  function QueueRequest(claim: Claim): Request
  {
    Request("queue-request", "GET", claim.url)
  }

  function FetchEnvelope(lib: Library, claim: Claim): Option<Json>
  {
    if lib.parseUuid(Str(claim.requestId)).None? || !HttpsUrl(lib, Str(claim.url)) then None
    else Some(EnvelopeJson([QueueRequest(claim)]))
  }

  /** `queue_http_agent_result`; its digest escapes characters beyond ASCII. */
  function AgentResult(lib: Library, claim: Claim, result: Json): Option<Json>
  {
    match FetchEnvelope(lib, claim)
    case None => None
    case Some(envelope) =>
      if !result.Obj? || result.fields.Keys != {"schema_version", "request_digest", "results", "budget"} then None
      else
        var f := result.fields;
        if && f["schema_version"] == Str("rdc.web-fetch-result/v1")
           && f["request_digest"] == Digest(lib, envelope, true)
           && f["results"].Arr? && |f["results"].items| == 1 && f["results"].items[0].Obj?
           && Get(f["results"].items[0].fields, "id") == Str("queue-request")
           && Get(f["results"].items[0].fields, "method") == Str("GET")
           && f["budget"].Obj?
        then Some(AgentResultJson(claim, f["results"].items[0], f["budget"]))
        else None
  }

  function AgentResultJson(claim: Claim, response: Json, budget: Json): Json
  {
    Obj(map["schema_version" := Str("rdc.queue-http-result/v1"), "request_id" := Str(claim.requestId),
            "queue_id" := Str(claim.queueId), "response" := response, "budget" := budget])
  }

  /** A fetch result is wrapped for the Agent exactly if the claim still makes an envelope, the result has its four
      fields and that envelope's digest, and its one response answers the queue's one request. */
  lemma AgentResultExactly(lib: Library, claim: Claim, result: Json, r: Json)
    ensures AgentResult(lib, claim, result) == Some(r) <==>
            && lib.parseUuid(Str(claim.requestId)).Some? && HttpsUrl(lib, Str(claim.url))
            && result.Obj? && result.fields.Keys == {"schema_version", "request_digest", "results", "budget"}
            && result.fields["schema_version"] == Str("rdc.web-fetch-result/v1")
            && result.fields["request_digest"]
               == Str(lib.sha256(Utf8.Encode(Dumps(EnvelopeJson([Request("queue-request", "GET", claim.url)]), true))))
            && result.fields["results"].Arr? && |result.fields["results"].items| == 1
            && var response, budget := result.fields["results"].items[0], result.fields["budget"];
            && response.Obj? && budget.Obj?
            && Get(response.fields, "id") == Str("queue-request") && Get(response.fields, "method") == Str("GET")
            && r.Obj? && r.fields.Keys == {"schema_version", "request_id", "queue_id", "response", "budget"}
            && r.fields["schema_version"] == Str("rdc.queue-http-result/v1")
            && r.fields["request_id"] == Str(claim.requestId) && r.fields["queue_id"] == Str(claim.queueId)
            && r.fields["response"] == response && r.fields["budget"] == budget
  {
    hide HttpsUrl, Dumps, Utf8.Encode, EnvelopeJson;
    if r.Obj? && r.fields.Keys == {"schema_version", "request_id", "queue_id", "response", "budget"} {
      AgentResultLookups(claim, r.fields["response"], r.fields["budget"]);
      hide AgentResultJson;
      var made := AgentResultJson(claim, r.fields["response"], r.fields["budget"]);
      assert r.fields["schema_version"] == Str("rdc.queue-http-result/v1")
             && r.fields["request_id"] == Str(claim.requestId) && r.fields["queue_id"] == Str(claim.queueId) ==>
             made.fields == r.fields;
    }
    if AgentResult(lib, claim, result).Some? {
      AgentResultLookups(claim, result.fields["results"].items[0], result.fields["budget"]);
    }
  }

  lemma AgentResultLookups(claim: Claim, response: Json, budget: Json)
    ensures AgentResultJson(claim, response, budget).Obj?
    ensures var f := AgentResultJson(claim, response, budget).fields;
            && f.Keys == {"schema_version", "request_id", "queue_id", "response", "budget"}
            && f["schema_version"] == Str("rdc.queue-http-result/v1")
            && f["request_id"] == Str(claim.requestId) && f["queue_id"] == Str(claim.queueId)
            && f["response"] == response && f["budget"] == budget
  {
  }

  /** The acquisition in `_run`: envelope, broker adapter, broker, result adapter, queue wrapper. */
  function Acquire(c: Call, claim: Claim): Option<Json>
  {
    match FetchEnvelope(c.w.lib, claim)
    case None => None
    case Some(envelope) =>
      match ParseEnvelope(c.w.lib, envelope)
      case None => None
      case Some(rs) =>
        var o := Batch(c, BrokerInput(rs));
        if o.result.None? then None
        else
          match Adapted(c.w.lib, envelope, Obj(BrokerOutput(c.p, BrokerInput(rs), o.result.value, o.budget)))
          case None => None
          case Some(result) => AgentResult(c.w.lib, claim, result)
  }

  // ---- exactly when the acquisition succeeds ----

  lemma TextMember(k: string, s: string, n: nat)
    requires |k| <= 16 && |s| <= n
    ensures MemberSize(k, Str(s), false) <= 12 * n + 198
  {
    hide Size, TextSize, MemberSize;
    TextSizeBound(s, false);
    TextIsString(s, false);
    MemberBound(k, Str(s), 12 * n + 2, false);
  }

  lemma {:induction false} RequestSize(url: string)
    requires |url| <= 2_048
    ensures Size(RequestJson(Request("queue-request", "GET", url)), false) <= 25_700
  {
    hide Size, TextSize, MemberSize, Weight;
    var f := RequestJson(Request("queue-request", "GET", url)).fields;
    ObjectSize(f, false);
    WeightWithout(f, "url", false);
    TextMember("url", url, 2_048);
    var g := f - {"url"};
    assert g.Keys == {"id", "method"};
    forall k | k in g ensures MemberSize(k, g[k], false) <= 390 {
      assert g[k] == Str("queue-request") || g[k] == Str("GET");
      TextMember(k, g[k].s, 16);
    }
    WeightBound(g, 2, 390, false);
  }

  lemma {:induction false} EnvelopeSize(url: string)
    requires |url| <= 2_048
    ensures Size(EnvelopeJson([Request("queue-request", "GET", url)]), false) <= MAX_FETCH_ENVELOPE_BYTES
  {
    hide Size, TextSize, MemberSize, Weight, RequestJson;
    var q := Request("queue-request", "GET", url);
    var f := EnvelopeJson([q]).fields;
    assert RequestList([q]) == Arr([RequestJson(q)]);
    RequestSize(url);
    SingletonSize(RequestJson(q), false);
    forall k | k in f ensures MemberSize(k, f[k], false) <= 25_900 {
      if k == "requests" {
        MemberBound(k, f[k], 25_702, false);
      } else {
        assert k == "schema_version" && f[k] == Str("rdc.web-fetch/v1");
        TextMember(k, "rdc.web-fetch/v1", 16);
      }
    }
    assert f.Keys == {"schema_version", "requests"};
    ObjectSizeBound(f, 2, 25_900, false);
  }

  lemma RequestNormal(lib: Library, claim: Claim)
    requires ValidClaim(lib, claim)
    ensures NormalizeRequest(lib, RequestJson(QueueRequest(claim))) ==
            if "https://" <= claim.url then Some(QueueRequest(claim)) else None
    ensures |claim.url| <= 2_048
  {
    hide UuidText;
    var f := RequestJson(QueueRequest(claim)).fields;
    assert f.Keys == {"id", "method", "url"};
    assert f["id"] == Str("queue-request") && f["method"] == Str("GET") && f["url"] == Str(claim.url);
    assert Upper("GET") == "GET";
    assert RequestId("queue-request");
  }

  /** The envelope built for a valid claim parses back to its one request exactly if the URL is spelled "https://". */
  lemma EnvelopeParses(lib: Library, claim: Claim)
    requires ValidClaim(lib, claim)
    ensures ParseEnvelope(lib, EnvelopeJson([QueueRequest(claim)])) ==
            if "https://" <= claim.url then Some([QueueRequest(claim)]) else None
  {
    hide Size, UuidText, RequestJson, HttpsUrl, NormalizeRequest;
    var q := QueueRequest(claim);
    RequestNormal(lib, claim);
    var envelope := EnvelopeJson([q]);
    assert envelope.fields.Keys == {"schema_version", "requests"};
    var items := RequestList([q]).items;
    assert items == [RequestJson(q)];
    assert AllNormal(lib, items) <==> NormalizeRequest(lib, items[0]).Some?;
    if "https://" <= claim.url {
      EnvelopeSize(claim.url);
      assert seq(|items|, i requires 0 <= i < |items| => NormalizeRequest(lib, items[i]).value) == [q];
    }
  }

  /** For every valid claim: the acquisition returns the broker's one response, wrapped, exactly if the URL starts with
      "https://" as written, the batch succeeds, and the two spellings of the envelope have one digest. */
  lemma AcquireExactly(c: Call, claim: Claim)
    requires LawfulText(c.w.lib) && Behaved(c.w.net) && SafePolicy(c.p) && ValidClaim(c.w.lib, claim)
    ensures var envelope := EnvelopeJson([QueueRequest(claim)]);
            var o := Batch(c, BrokerInput([QueueRequest(claim)]));
            && (o.result.Some? && "https://" <= claim.url ==> |o.result.value| == 1)
            && Acquire(c, claim) ==
               if "https://" <= claim.url && o.result.Some?
                  && Digest(c.w.lib, envelope, true) == Digest(c.w.lib, envelope, false)
               then Some(AgentResultJson(claim, Reported(o.result.value[0]), BudgetJson(c.p, o.budget)))
               else None
  {
    hide Batch, Adapted, ParseEnvelope, HttpsUrl, UuidText, Digest, BrokerOutput, Reported, BudgetJson, EnvelopeJson,
      AgentResult, BrokerInput, AgentResultJson, FetchResultJson;
    var lib := c.w.lib;
    var q := QueueRequest(claim);
    var envelope := EnvelopeJson([q]);
    EnvelopeParses(lib, claim);
    var o := Batch(c, BrokerInput([q]));
    if "https://" <= claim.url && o.result.Some? {
      AdapterTakesBrokerOutput(c, envelope);
      var r := o.result.value[0];
      assert AllReported(o.result.value) == [Reported(r)];
      ResponseOfQueue(c, claim);
      AgentTakes(c, claim, r, o.budget);
    }
  }

  /** The queue wrapper applied to a one-result fetch result. */
  lemma AgentTakes(c: Call, claim: Claim, r: Response, b: Budget)
    requires ValidClaim(c.w.lib, claim) && r.id == "queue-request" && r.verb == "GET"
    ensures var envelope := EnvelopeJson([QueueRequest(claim)]);
            AgentResult(c.w.lib, claim,
                        FetchResultJson(c.w.lib, [QueueRequest(claim)], [Reported(r)], BudgetJson(c.p, b))) ==
            if Digest(c.w.lib, envelope, true) == Digest(c.w.lib, envelope, false)
            then Some(AgentResultJson(claim, Reported(r), BudgetJson(c.p, b)))
            else None
  {
    hide HttpsUrl, UuidText, Digest, EnvelopeJson;
    var f := FetchResultJson(c.w.lib, [QueueRequest(claim)], [Reported(r)], BudgetJson(c.p, b)).fields;
    assert f.Keys == {"schema_version", "request_digest", "results", "budget"};
    ReportedLookups(r);
  }

  lemma ReportedLookups(r: Response)
    ensures Reported(r).Obj?
    ensures Get(Reported(r).fields, "id") == Str(r.id) && Get(Reported(r).fields, "method") == Str(r.verb)
  {
    hide Headers, Optional;
  }

  lemma ResponseOfQueue(c: Call, claim: Claim)
    requires LawfulText(c.w.lib) && SafePolicy(c.p) && claim.url != ""
    requires Batch(c, BrokerInput([QueueRequest(claim)])).result.Some?
    ensures var done := Batch(c, BrokerInput([QueueRequest(claim)])).result.value;
            |done| == 1 && done[0].id == "queue-request" && done[0].verb == "GET"
  {
    hide Batch, ReadRequest, Delivered, SendsValidated, Sends, TotalSize, RequestJson;
    var q := QueueRequest(claim);
    assert Member(BrokerInput([q]), "_rdc_web_requests", Arr([])) == RequestList([q]);
    assert RequestList([q]).items == [RequestJson(q)];
    BatchIsSafe(c, BrokerInput([q]));
    assert RequestId("queue-request");
    NormalRequestRead(c.w.lib, q);
  }

  lemma EnvelopeAscii(claim: Claim)
    ensures AsciiOnly(EnvelopeJson([QueueRequest(claim)])) <==> AsciiString(claim.url)
  {
    hide AsciiString;
    var q := QueueRequest(claim);
    var f, g := RequestJson(q).fields, EnvelopeJson([q]).fields;
    assert f["id"] == Str("queue-request") && f["method"] == Str("GET") && f["url"] == Str(claim.url);
    assert g["schema_version"] == Str("rdc.web-fetch/v1") && g["requests"] == RequestList([q]);
    LiteralsAscii();
    assert AsciiOnly(Obj(f)) <==> AsciiString(claim.url) by { assert f.Keys == {"id", "method", "url"}; }
    RequestsAscii(q);
    assert g.Keys == {"schema_version", "requests"};
  }

  lemma RequestsAscii(q: Request)
    ensures AsciiOnly(RequestList([q])) <==> AsciiOnly(RequestJson(q))
  {
    hide RequestJson, AsciiString;
    assert RequestList([q]).items[0] == RequestJson(q);
  }

  lemma LiteralsAscii()
    ensures AsciiString("queue-request") && AsciiString("GET") && AsciiString("rdc.web-fetch/v1")
    ensures AsciiString("id") && AsciiString("method") && AsciiString("url")
    ensures AsciiString("schema_version") && AsciiString("requests")
  {
  }

  /** An ASCII claim is acquired whenever its URL starts with "https://" and the broker answers it. */
  lemma AsciiClaimAcquired(c: Call, claim: Claim)
    requires LawfulText(c.w.lib) && Behaved(c.w.net) && SafePolicy(c.p) && ValidClaim(c.w.lib, claim)
    requires AsciiString(claim.url)
    ensures Acquire(c, claim).Some? <==>
            "https://" <= claim.url && Batch(c, BrokerInput([QueueRequest(claim)])).result.Some?
  {
    hide Batch, Acquire, AsciiOnly, AsciiString, Dumps, EnvelopeJson;
    AcquireExactly(c, claim);
    EnvelopeAscii(claim);
    EnsureAsciiIrrelevant(EnvelopeJson([QueueRequest(claim)]));
  }

  /** The two digests of the envelope of a claim with a character beyond '~' hash different bytes, so unless the hash
      collides on them the claim is refused, whatever the broker answers. */
  lemma ClaimBeyondAsciiRefused(c: Call, claim: Claim)
    requires LawfulText(c.w.lib) && Behaved(c.w.net) && SafePolicy(c.p) && ValidClaim(c.w.lib, claim)
    requires !AsciiString(claim.url)
    ensures var v := EnvelopeJson([QueueRequest(claim)]);
            var escaped, kept := Utf8.Encode(Dumps(v, true)), Utf8.Encode(Dumps(v, false));
            escaped != kept && (c.w.lib.sha256(escaped) != c.w.lib.sha256(kept) ==> Acquire(c, claim) == None)
  {
    hide Batch, Acquire, AsciiOnly, AsciiString, Dumps, EnvelopeJson, Utf8.Encode;
    AcquireExactly(c, claim);
    EnvelopeAscii(claim);
    var v := EnvelopeJson([QueueRequest(claim)]);
    EnsureAsciiIrrelevant(v);
    if Utf8.Encode(Dumps(v, true)) == Utf8.Encode(Dumps(v, false)) {
      EncodeInjective(Dumps(v, true), Dumps(v, false));
    }
  }

  /** The claim validator compares the scheme as parsed, the fetch contract compares it as spelled. */
  lemma CapitalSchemeRefused(c: Call, claim: Claim)
    requires ValidClaim(c.w.lib, claim) && "HTTPS://" <= claim.url
    ensures Acquire(c, claim) == None
  {
    hide HttpsUrl, ParseEnvelope, UuidText;
    assert claim.url[0] == 'H';
    EnvelopeParses(c.w.lib, claim);
  }

  // ---- claims that the validator passes and the chain refuses ----

  const SAMPLE_REQUEST: string := "11111111-1111-1111-1111-111111111111"
  const SAMPLE_QUEUE: string := "22222222-2222-2222-2222-222222222222"
  const SAMPLE_TOKEN: string := "33333333-3333-3333-3333-333333333333"

  function SampleClaim(url: string): Claim
  {
    Claim(SAMPLE_REQUEST, SAMPLE_QUEUE, url, Null, 1, SAMPLE_TOKEN)
  }

  /** What the control plane sends for it. */
  function SampleClaimJson(url: string): Json
  {
    Obj(map["id" := Str(SAMPLE_REQUEST), "queue_id" := Str(SAMPLE_QUEUE), "url" := Str(url), "user_data" := Null,
            "attempt_count" := Num(1), "claim_token" := Str(SAMPLE_TOKEN)])
  }

  lemma SampleIdParses(special: seq<Byte>, id: string)
    requires id == SAMPLE_REQUEST || id == SAMPLE_QUEUE || id == SAMPLE_TOKEN
    ensures SampleLibrary(special).parseUuid(Str(id)) == Some(id)
  {
    assert UuidText(id);
  }

  lemma SampleUrlPasses(special: seq<Byte>, url: string)
    requires 19 <= |url| <= 2_048 && Lower(url[..19]) == SAMPLE_SITE && ' ' !in url
    ensures HttpsUrl(SampleLibrary(special), Str(url))
  {
    hide Lower;
  }

  lemma NullIsSmall()
    ensures Size(Null, false) <= MAX_USER_DATA_BYTES && WithinDepth(Null, 0)
  {
    EncodeAscii("null");
  }

  lemma SampleLookups(url: string)
    ensures SampleClaimJson(url).Obj?
    ensures var f := SampleClaimJson(url).fields;
            && f.Keys == {"id", "queue_id", "url", "user_data", "attempt_count", "claim_token"}
            && f["id"] == Str(SAMPLE_REQUEST) && f["queue_id"] == Str(SAMPLE_QUEUE) && f["url"] == Str(url)
            && f["user_data"] == Null && f["attempt_count"] == Num(1) && f["claim_token"] == Str(SAMPLE_TOKEN)
  {
    hide SAMPLE_REQUEST, SAMPLE_QUEUE, SAMPLE_TOKEN;
  }

  lemma SampleClaimValidates(special: seq<Byte>, url: string)
    requires 19 <= |url| <= 2_048 && Lower(url[..19]) == SAMPLE_SITE && ' ' !in url
    ensures ValidateClaim(SampleLibrary(special), SampleClaimJson(url), SAMPLE_QUEUE) == Some(SampleClaim(url))
  {
    hide Lower, SampleLibrary, SampleClaimJson, HttpsUrl, Size, WithinDepth, SAMPLE_REQUEST, SAMPLE_QUEUE, SAMPLE_TOKEN;
    SampleIdParses(special, SAMPLE_REQUEST);
    SampleIdParses(special, SAMPLE_QUEUE);
    SampleIdParses(special, SAMPLE_TOKEN);
    SampleUrlPasses(special, url);
    NullIsSmall();
    SampleLookups(url);
  }

  lemma CapitalFacts()
    ensures var url := "HTTPS://example.com";
            |url| == 19 && Lower(url[..19]) == SAMPLE_SITE && ' ' !in url && "HTTPS://" <= url
  {
    var url := "HTTPS://example.com";
    assert url[..19] == url;
    assert Lower(url) == SAMPLE_SITE;
  }

  /** "HTTPS://example.com": a validated claim that no run of the chain acquires. */
  lemma CapitalSchemeWitness(c: Call)
    requires c.w.lib == SampleLibrary([])
    ensures var url := "HTTPS://example.com";
            && ValidateClaim(c.w.lib, SampleClaimJson(url), SAMPLE_QUEUE) == Some(SampleClaim(url))
            && Acquire(c, SampleClaim(url)) == None
  {
    CapitalFacts();
    hide ValidateClaim, Acquire, ValidClaim, Lower, SampleLibrary, SampleClaimJson, HttpsUrl;
    var url := "HTTPS://example.com";
    SampleClaimValidates([], url);
    SampleIsLawful([]);
    ValidatedClaimIsValid(c.w.lib, SampleClaimJson(url), SAMPLE_QUEUE);
    CapitalSchemeRefused(c, SampleClaim(url));
  }

  const BEYOND_ASCII: string := "https://example.com#\U{00E9}"

  lemma BeyondAsciiFacts()
    ensures |BEYOND_ASCII| == 21 && Lower(BEYOND_ASCII[..19]) == SAMPLE_SITE && ' ' !in BEYOND_ASCII
    ensures !AsciiString(BEYOND_ASCII)
  {
    assert BEYOND_ASCII[..19] == SAMPLE_SITE && Lower(SAMPLE_SITE) == SAMPLE_SITE;
    assert BEYOND_ASCII[20] as int == 0xE9;
  }

  lemma DigestsDiffer(special: seq<Byte>, other: seq<Byte>)
    requires special != other
    ensures SampleLibrary(special).sha256(special) != SampleLibrary(special).sha256(other)
  {
    var ones, zeros := SampleLibrary(special).sha256(special), SampleLibrary(special).sha256(other);
    assert ones[0] == '1' && zeros[0] == '0';
  }

  /** A URL with a character beyond ASCII in its fragment, which is never sent: a validated claim that is refused. */
  lemma BeyondAsciiWitness(c: Call)
    requires Behaved(c.w.net) && SafePolicy(c.p)
    requires c.w.lib == SampleLibrary(Utf8.Encode(Dumps(EnvelopeJson([QueueRequest(SampleClaim(BEYOND_ASCII))]), true)))
    ensures ValidateClaim(c.w.lib, SampleClaimJson(BEYOND_ASCII), SAMPLE_QUEUE) == Some(SampleClaim(BEYOND_ASCII))
    ensures Acquire(c, SampleClaim(BEYOND_ASCII)) == None
  {
    BeyondAsciiFacts();
    hide ValidateClaim, Acquire, ValidClaim, Dumps, Utf8.Encode, EnvelopeJson, SampleLibrary, AsciiString, Lower;
    var claim := SampleClaim(BEYOND_ASCII);
    var v := EnvelopeJson([QueueRequest(claim)]);
    var escaped, kept := Utf8.Encode(Dumps(v, true)), Utf8.Encode(Dumps(v, false));
    SampleClaimValidates(escaped, BEYOND_ASCII);
    SampleIsLawful(escaped);
    ValidatedClaimIsValid(c.w.lib, SampleClaimJson(BEYOND_ASCII), SAMPLE_QUEUE);
    ClaimBeyondAsciiRefused(c, claim);
    DigestsDiffer(escaped, kept);
  }
}
