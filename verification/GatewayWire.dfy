/**
 The gateway's wire: the worker encodes a reply as one line of JSON, the browser runtime reads the line from the
 socket in whatever pieces it arrives and decodes it.
 */
module GatewayWire {
  import opened Utf8
  import opened Json
  import opened JsonText
  import opened Egress
  import opened EgressBroker
  import opened BrowserGateway
  import Base64

  const NEWLINE: Byte := 10
  const MAX_LIVE_RESPONSE_BYTES: nat := 11_300_000

  // ---- worker side ----

  function CountersJson(p: Policy, c: Counters): Json
  {
    Obj(map[
      "requests_used" := Num(c.requests),
      "bytes_received" := Num(c.bytes),
      "redirects_used" := Num(c.redirects),
      "max_requests" := Num(p.maxRequests),
      "max_total_bytes" := Num(p.maxTotalBytes),
      "max_redirects" := Num(p.maxRedirects)])
  }

  /** The dict `handle_request` returns. */
  function ReplyFields(g: Gateway, r: Reply): map<string, Json>
  {
    map[
      "schema_version" := Str("rdc.browser-gateway-response/v1"),
      "request_id" := Str(r.id),
      "gateway_policy_digest" := Str(g.digest),
      "status" := Num(r.status),
      "headers" := Headers(r.headers),
      "redirect_url" := Optional(r.redirect),
      "body_base64" := Str(Base64.Encode(r.body)),
      "size_bytes" := Num(|r.body|),
      "body_sha256" := Str(g.w.lib.sha256(r.body)),
      "budget" := CountersJson(g.p, r.counters)]
  }

  /** `_encode_message`. */
  function EncodeMessage(value: Json, maximum: nat): Option<seq<Byte>>
  {
    var encoded := Utf8.Encode(Dumps(value, true)) + [NEWLINE];
    if |encoded| > maximum then None else Some(encoded)
  }

  // ---- reading a line ----

  function FirstNewline(stream: seq<Byte>): (i: nat)
    ensures i <= |stream|
    ensures i < |stream| ==> stream[i] == NEWLINE
    ensures forall j :: 0 <= j < i ==> stream[j] != NEWLINE
  {
    if stream == [] || stream[0] == NEWLINE then 0 else 1 + FirstNewline(stream[1..])
  }

  lemma FirstNewlineIs(stream: seq<Byte>, i: nat)
    requires i <= |stream| && (forall j :: 0 <= j < i ==> stream[j] != NEWLINE)
    requires i < |stream| ==> stream[i] == NEWLINE
    ensures FirstNewline(stream) == i
  {
  }

  /**
   `_read_line` and `_read_socket_line`: `recv` hands over at least one and at most min(65536, maximum + 1) of the bytes
   left, as many as `pieces` says for that call; an exhausted stream hands over none.
   Whatever the pieces, the only line that can come out is the stream up to its first newline; a stream no longer than
   the limit always yields it, and one whose line does not fit in the limit never does.
   */
  method ReadLine(stream: seq<Byte>, maximum: nat, pieces: nat -> nat) returns (line: Option<seq<Byte>>)
    ensures line.Some? ==> line.value == stream[..FirstNewline(stream)]
    ensures |stream| <= maximum ==> line.Some?
    ensures FirstNewline(stream) < |stream| && FirstNewline(stream) >= maximum ==> line.None?
    ensures FirstNewline(stream) == |stream| > maximum ==> line.None?
  {
    var raw: seq<Byte> := [];
    var calls := 0;
    while NEWLINE !in raw
      invariant |raw| <= |stream| && |raw| <= maximum
      invariant raw == stream[..|raw|]
      decreases |stream| - |raw|
    {
      var limit := if maximum + 1 < 65_536 then maximum + 1 else 65_536;
      var left := |stream| - |raw|;
      if left == 0 { break; }
      var wanted := if pieces(calls) == 0 then 1 else pieces(calls);
      var most := if left < limit then left else limit;
      var size := if wanted < most then wanted else most;
      raw := raw + stream[|raw|..|raw| + size];
      calls := calls + 1;
      if |raw| > maximum {
        return None;
      }
    }
    var i := FirstNewline(raw);
    if i == |raw| {
      assert NEWLINE !in raw;
      assert raw == stream;
    } else {
      FirstNewlineIs(stream, i);
    }
    line := Some(raw[..i]);
  }

  // ---- runtime side ----

  datatype Decoded = Decoded(
    status: int,
    headers: map<string, string>,
    body: seq<Byte>,
    redirect: Option<string>,
    budget: map<string, int>)

  const RESPONSE_FIELDS: set<string> := {
    "schema_version", "request_id", "gateway_policy_digest", "status", "headers", "redirect_url", "body_base64",
    "size_bytes", "body_sha256", "budget"}

  const BUDGET_FIELDS: set<string> := {
    "requests_used", "bytes_received", "redirects_used", "max_requests", "max_total_bytes", "max_redirects"}

  const FORBIDDEN_HEADERS: set<string> := {
    "set-cookie", "authorization", "proxy-authorization", "content-length", "location"}

  /** The headers named by `keys`, read in turn; None when one is not text or is forbidden. */
  function DecodedHeaders(raw: map<string, Json>, keys: seq<string>, acc: map<string, string>)
    : Option<map<string, string>>
    requires forall k :: k in keys ==> k in raw
  {
    if keys == [] then Some(acc)
    else if !raw[keys[0]].Str? || Lower(keys[0]) in FORBIDDEN_HEADERS then None
    else
      DecodedHeaders(raw, keys[1..], acc[Lower(keys[0]) := Cut(raw[keys[0]].s)])
  }

  /** The checks of `_decode_gateway_response` on each field alone. */
  predicate WellTyped(f: map<string, Json>, id: string, digest: string)
  {
    && f.Keys == RESPONSE_FIELDS
    && f["schema_version"] == Str("rdc.browser-gateway-response/v1")
    && f["request_id"] == Str(id)
    && f["gateway_policy_digest"] == Str(digest)
    && f["status"].Num? && 100 <= f["status"].n <= 599
    && f["headers"].Obj?
    && f["body_base64"].Str?
    && f["size_bytes"].Num?
    && f["body_sha256"].Str? && DigestText(f["body_sha256"].s)
    && f["budget"].Obj?
    && (f["redirect_url"].Null? || f["redirect_url"].Str?)
  }

  predicate SafeRedirect(status: int, redirect: Option<string>, body: seq<Byte>)
  {
    if IsRedirect(status) then redirect.Some? && "https://" <= redirect.value && body == [] else redirect.None?
  }

  function DecodedBudget(b: map<string, Json>): Option<map<string, int>>
  {
    if b.Keys == BUDGET_FIELDS && forall k :: k in b ==> b[k].Num? && b[k].n >= 0
    then Some(map k | k in b :: b[k].n)
    else None
  }

  /** `_decode_gateway_response`; a RuntimeError is None. */
  function DecodeResponse(lib: Library, f: map<string, Json>, id: string, digest: string): Option<Decoded>
  {
    if !WellTyped(f, id, digest) then None
    else
      var status := f["status"].n;
      var redirect := if f["redirect_url"].Str? then Some(f["redirect_url"].s) else None;
      var body := Base64.Decode(f["body_base64"].s);
      var headers := DecodedHeaders(f["headers"].fields, SortedKeys(f["headers"].fields.Keys), map[]);
      var budget := DecodedBudget(f["budget"].fields);
      if && body.Some? && |body.value| == f["size_bytes"].n && lib.sha256(body.value) == f["body_sha256"].s
         && headers.Some?
         && budget.Some?
         && SafeRedirect(status, redirect, body.value)
      then Some(Decoded(status, headers.value, body.value, redirect, budget.value))
      else None
  }

  /** The line read from the socket, as `_gateway_exchange` and `_decode_gateway_response` take it. */
  function DecodeLine(lib: Library, line: seq<Byte>, id: string, digest: string): Option<Decoded>
  {
    match Utf8.Decode(line)
    case None => None
    case Some(text) =>
      match Loads(text)
      case Some(Obj(f)) => DecodeResponse(lib, f, id, digest)
      case _ => None
  }

  function CounterValues(p: Policy, c: Counters): map<string, int>
  {
    map[
      "requests_used" := c.requests,
      "bytes_received" := c.bytes,
      "redirects_used" := c.redirects,
      "max_requests" := p.maxRequests,
      "max_total_bytes" := p.maxTotalBytes,
      "max_redirects" := p.maxRedirects]
  }

  // ---- decoding undoes encoding ----

  /** What a reply of a created broker meets, and what is assumed of statuses. */
  predicate Sendable(g: Gateway, r: Reply)
  {
    && SafePolicy(g.p)
    && DigestText(g.digest)
    && RequestId(r.id)
    && 100 <= r.status <= 599
    && r.headers.Keys <= SAFE_HEADERS - {"content-length"}
    && (forall k :: k in r.headers ==> |r.headers[k]| <= 2048)
    && |r.body| <= g.p.maxResponseBytes
    && (IsRedirect(r.status) <==> r.redirect.Some?)
    && (r.redirect.Some? ==> "https://" <= r.redirect.value && |r.redirect.value| <= 100_000 && r.body == [])
    && r.counters.requests <= g.p.maxRequests
    && r.counters.bytes <= r.counters.requests * g.p.maxResponseBytes
    && r.counters.redirects <= g.p.maxRedirects
  }

  lemma {:induction false} HeadersSurvive(headers: map<string, string>, keys: seq<string>, acc: map<string, string>)
    requires forall k :: k in keys ==> k in headers
    requires headers.Keys <= SAFE_HEADERS - {"content-length"}
    requires forall k :: k in headers ==> |headers[k]| <= 2048
    requires forall k :: k in acc ==> k in headers && acc[k] == headers[k]
    requires forall k :: k in headers ==> k in keys || k in acc
    ensures DecodedHeaders(Headers(headers).fields, keys, acc) == Some(headers)
  {
    if keys == [] {
      assert acc == headers;
    } else {
      assert keys[0] in headers.Keys;
      SafeHeaderIsLower(keys[0]);
      HeadersSurvive(headers, keys[1..], acc[keys[0] := headers[keys[0]]]);
    }
  }

  lemma BudgetSurvives(p: Policy, c: Counters)
    requires SafePolicy(p)
    ensures CountersJson(p, c).Obj?
    ensures DecodedBudget(CountersJson(p, c).fields) == Some(CounterValues(p, c))
  {
    var b := CountersJson(p, c).fields;
    assert b.Keys == BUDGET_FIELDS;
    assert (map k | k in b :: b[k].n) == CounterValues(p, c);
  }

  lemma ReplyLookups(g: Gateway, r: Reply)
    ensures var f := ReplyFields(g, r);
            && f.Keys == RESPONSE_FIELDS
            && f["schema_version"] == Str("rdc.browser-gateway-response/v1")
            && f["request_id"] == Str(r.id)
            && f["gateway_policy_digest"] == Str(g.digest)
            && f["status"] == Num(r.status)
            && f["headers"] == Headers(r.headers)
            && f["redirect_url"] == Optional(r.redirect)
            && f["body_base64"] == Str(Base64.Encode(r.body))
            && f["size_bytes"] == Num(|r.body|)
            && f["body_sha256"] == Str(g.w.lib.sha256(r.body))
            && f["budget"] == CountersJson(g.p, r.counters)
  {
    hide CountersJson, Base64.Encode, Headers, Optional;
  }

  /** The runtime decodes the very reply the broker made. */
  lemma ReplyDecodes(g: Gateway, r: Reply)
    requires Sendable(g, r) && LawfulText(g.w.lib)
    ensures DecodeResponse(g.w.lib, ReplyFields(g, r), r.id, g.digest)
            == Some(Decoded(r.status, r.headers, r.body, r.redirect, CounterValues(g.p, r.counters)))
  {
    hide ReplyFields, CountersJson, CounterValues, DecodedHeaders, DecodedBudget, SortedKeys, Base64.Encode,
      Base64.Decode, DigestText, RequestId;
    BudgetSurvives(g.p, r.counters);
    ReplyLookups(g, r);
    Base64.DecodeEncode(r.body);
    assert Headers(r.headers).fields.Keys == r.headers.Keys;
    HeadersSurvive(r.headers, SortedKeys(r.headers.Keys), map[]);
  }

  lemma {:induction false} HeadersDecoded(raw: map<string, Json>, keys: seq<string>, acc: map<string, string>)
    requires forall k :: k in keys ==> k in raw
    ensures var d := DecodedHeaders(raw, keys, acc);
            && (d.Some? <==> forall k :: k in keys ==> raw[k].Str? && Lower(k) !in FORBIDDEN_HEADERS)
            && (d.Some? ==>
                  && (forall k :: k in d.value <==> k in acc || exists i :: 0 <= i < |keys| && Lower(keys[i]) == k)
                  && (forall i ::
                        0 <= i < |keys| && (forall j :: i < j < |keys| ==> Lower(keys[j]) != Lower(keys[i])) ==>
                          d.value[Lower(keys[i])] == Cut(raw[keys[i]].s))
                  && (forall k :: k in acc && (forall i :: 0 <= i < |keys| ==> Lower(keys[i]) != k) ==>
                        d.value[k] == acc[k]))
  {
    hide Lower, Cut, FORBIDDEN_HEADERS;
    if keys != [] {
      var rest := keys[1..];
      assert forall i :: 0 < i < |keys| ==> keys[i] == rest[i - 1];
      if raw[keys[0]].Str? && Lower(keys[0]) !in FORBIDDEN_HEADERS {
        HeadersDecoded(raw, rest, acc[Lower(keys[0]) := Cut(raw[keys[0]].s)]);
      }
    }
  }

  /** The name is one of the keys, in lower case. */
  predicate LowerIn(raw: map<string, Json>, name: string)
  {
    exists k :: k in raw && Lower(k) == name
  }

  /**
   A response is decoded exactly if it has the ten fields, the request's id and the policy's digest, a body of its size
   and digest, headers of text under no forbidden name, the six counters, none negative, and a redirect to https with an
   empty body exactly where its status says so. What comes out is what it says.
   */
  lemma DecodedExactly(lib: Library, f: map<string, Json>, id: string, digest: string)
    ensures var d := DecodeResponse(lib, f, id, digest);
            d.Some? <==>
              && f.Keys == RESPONSE_FIELDS
              && f["schema_version"] == Str("rdc.browser-gateway-response/v1")
              && f["request_id"] == Str(id) && f["gateway_policy_digest"] == Str(digest)
              && f["status"].Num? && 100 <= f["status"].n <= 599
              && f["body_base64"].Str? && Base64.Decode(f["body_base64"].s).Some?
              && var body := Base64.Decode(f["body_base64"].s).value;
              && f["size_bytes"] == Num(|body|)
              && f["body_sha256"] == Str(lib.sha256(body)) && DigestText(lib.sha256(body))
              && f["headers"].Obj?
              && (forall k :: k in f["headers"].fields ==>
                    f["headers"].fields[k].Str? && Lower(k) !in FORBIDDEN_HEADERS)
              && f["budget"].Obj? && f["budget"].fields.Keys == BUDGET_FIELDS
              && (forall k :: k in f["budget"].fields ==> f["budget"].fields[k].Num? && f["budget"].fields[k].n >= 0)
              && (if IsRedirect(f["status"].n)
                  then f["redirect_url"].Str? && "https://" <= f["redirect_url"].s && body == []
                  else f["redirect_url"].Null?)
    ensures var d := DecodeResponse(lib, f, id, digest);
            d.Some? ==>
              && f.Keys == RESPONSE_FIELDS && f["headers"].Obj? && f["budget"].Obj? && f["body_base64"].Str?
              && f["status"] == Num(d.value.status)
              && Base64.Decode(f["body_base64"].s) == Some(d.value.body)
              && f["redirect_url"] == (if d.value.redirect.Some? then Str(d.value.redirect.value) else Null)
              && d.value.budget.Keys == f["budget"].fields.Keys
              && (forall k :: k in d.value.budget ==> f["budget"].fields[k] == Num(d.value.budget[k]))
              && (forall k :: k in d.value.headers <==> LowerIn(f["headers"].fields, k))
  {
    hide Base64.Decode, DigestText, SortedKeys, Lower, FORBIDDEN_HEADERS, DecodedHeaders;
    if f.Keys == RESPONSE_FIELDS && f["headers"].Obj? {
      var raw := f["headers"].fields;
      var keys := SortedKeys(raw.Keys);
      HeadersDecoded(raw, keys, map[]);
      forall k ensures LowerIn(raw, k) <==> exists i :: 0 <= i < |keys| && Lower(keys[i]) == k {
        if i :| 0 <= i < |keys| && Lower(keys[i]) == k { assert keys[i] in raw; }
        if h :| h in raw && Lower(h) == k { assert h in keys; }
      }
    }
  }

  // ---- the frame fits ----

  lemma HeaderMemberSize(k: string, value: string)
    requires k in SAFE_HEADERS - {"content-length"} && |value| <= 2048
    ensures MemberSize(k, Str(value), true) <= 24_738
  {
    hide Size, TextSize, MemberSize;
    assert |k| <= 13;
    TextSizeBound(value, true);
    TextIsString(value, true);
    MemberBound(k, Str(value), 24_578, true);
  }

  lemma {:induction false} HeadersSize(headers: map<string, string>)
    requires headers.Keys <= SAFE_HEADERS - {"content-length"}
    requires forall k :: k in headers ==> |headers[k]| <= 2048
    ensures Size(Headers(headers), true) <= 98_954
  {
    hide Size, TextSize, MemberSize;
    var f := Headers(headers).fields;
    forall k | k in f ensures MemberSize(k, f[k], true) <= 24_738 {
      assert k in headers.Keys && f[k] == Str(headers[k]);
      HeaderMemberSize(k, headers[k]);
    }
    assert f.Keys <= {"content-type", "etag", "last-modified", "cache-control"};
    var names := {"content-type", "etag", "last-modified", "cache-control"};
    SubsetSize(f.Keys, names);
    ObjectSizeBound(f, 4, 24_738, true);
  }

  lemma {:induction false} SubsetSize(a: set<string>, b: set<string>)
    requires a <= b
    ensures |a| <= |b|
  {
    if a != {} {
      var x :| x in a;
      SubsetSize(a - {x}, b - {x});
    }
  }

  lemma {:induction false} CounterMemberSize(p: Policy, c: Counters, k: string)
    requires SafePolicy(p) && k in BUDGET_FIELDS
    requires c.requests <= p.maxRequests && c.redirects <= p.maxRedirects && c.bytes <= c.requests * p.maxResponseBytes
    ensures k in CountersJson(p, c).fields && MemberSize(k, CountersJson(p, c).fields[k], true) <= 193
  {
    hide Size, TextSize, MemberSize, Pow10, CountersJson;
    CounterInRange(p, c, k);
    var v := CountersJson(p, c).fields[k];
    Pow10Nine();
    NumberSize(v.n, 9, true);
    MemberBound(k, v, 9, true);
  }

  lemma CounterInRange(p: Policy, c: Counters, k: string)
    requires SafePolicy(p) && k in BUDGET_FIELDS
    requires c.requests <= p.maxRequests && c.redirects <= p.maxRedirects && c.bytes <= c.requests * p.maxResponseBytes
    ensures |k| <= 15
    ensures CountersJson(p, c).Obj? && k in CountersJson(p, c).fields
    ensures var v := CountersJson(p, c).fields[k]; v.Num? && 0 <= v.n < 1_000_000_000
  {
    BytesBounded(c.requests, p.maxRequests, p.maxResponseBytes);
    assert k == "requests_used" || k == "bytes_received" || k == "redirects_used" || k == "max_requests"
        || k == "max_total_bytes" || k == "max_redirects";
  }

  lemma BytesBounded(requests: nat, most: int, size: int)
    requires requests <= most <= 32 && 0 <= size <= 8_388_608
    ensures requests * size <= 268_435_456
  {
    assert requests * size <= 32 * size;
  }

  lemma {:induction false} CountersSize(p: Policy, c: Counters)
    requires SafePolicy(p)
    requires c.requests <= p.maxRequests && c.redirects <= p.maxRedirects && c.bytes <= c.requests * p.maxResponseBytes
    ensures Size(CountersJson(p, c), true) <= 1_160
  {
    hide Size, MemberSize;
    var f := CountersJson(p, c).fields;
    assert f.Keys == BUDGET_FIELDS;
    forall k | k in f ensures MemberSize(k, f[k], true) <= 193 { CounterMemberSize(p, c, k); }
    assert |BUDGET_FIELDS| == 6;
    ObjectSizeBound(f, 6, 193, true);
  }

  lemma {:induction false} BodySize(body: seq<Byte>)
    requires |body| <= 8_388_608
    ensures Size(Str(Base64.Encode(body)), true) <= 11_184_814
  {
    hide TextSize, Size, Base64.Encode;
    Base64.EncodeShape(body);
    TextSizeVerbatim(Base64.Encode(body), true);
    TextIsString(Base64.Encode(body), true);
  }

  const SMALL_FIELDS: set<string> := {
    "schema_version", "request_id", "gateway_policy_digest", "status", "size_bytes", "body_sha256", "budget"}

  lemma {:induction false} SmallFieldsSize(g: Gateway, r: Reply, k: string)
    requires Sendable(g, r) && LawfulText(g.w.lib) && k in SMALL_FIELDS
    ensures k in ReplyFields(g, r) && MemberSize(k, ReplyFields(g, r)[k], true) <= 1_416
  {
    hide ReplyFields, Size, TextSize, CountersJson, Base64.Encode, Pow10;
    ReplyLookups(g, r);
    var v := ReplyFields(g, r)[k];
    if k == "budget" {
      CountersSize(g.p, r.counters);
    } else if k == "status" || k == "size_bytes" {
      assert Pow10(9) == 1_000_000_000 by { Pow10Nine(); }
      NumberSize(v.n, 9, true);
    } else {
      assert |v.s| <= 64;
      TextSizeBound(v.s, true);
      TextIsString(v.s, true);
    }
    assert |k| <= 21;
    MemberBound(k, v, 1_160, true);
  }

  lemma Pow10Nine()
    ensures Pow10(9) == 1_000_000_000
  {
  }

  lemma SmallFieldsRemain()
    ensures RESPONSE_FIELDS - {"body_base64"} - {"headers"} - {"redirect_url"} == SMALL_FIELDS
    ensures |SMALL_FIELDS| == 7
    ensures "body_base64" in RESPONSE_FIELDS && "headers" in RESPONSE_FIELDS && "redirect_url" in RESPONSE_FIELDS
  {
  }

  /** Every reply fits the response limit. */
  lemma {:induction false} FrameFits(g: Gateway, r: Reply)
    requires Sendable(g, r) && LawfulText(g.w.lib)
    ensures Size(Obj(ReplyFields(g, r)), true) + 1 <= MAX_LIVE_RESPONSE_BYTES
  {
    hide ReplyFields, Size, TextSize, CountersJson, Base64.Encode, Weight, MemberSize, SMALL_FIELDS, RESPONSE_FIELDS;
    var f := ReplyFields(g, r);
    ReplyLookups(g, r);
    SmallFieldsRemain();
    ObjectSize(f, true);
    var f1 := f - {"body_base64"};
    var f2 := f1 - {"headers"};
    var f3 := f2 - {"redirect_url"};
    WeightWithout(f, "body_base64", true);
    WeightWithout(f1, "headers", true);
    WeightWithout(f2, "redirect_url", true);
    BodySize(r.body);
    HeadersSize(r.headers);
    MemberBound("headers", f["headers"], 98_954, true);
    if r.redirect.Some? {
      TextSizeBound(r.redirect.value, true);
      TextIsString(r.redirect.value, true);
      MemberBound("redirect_url", f["redirect_url"], 1_200_002, true);
      EmptyBodySize();
      MemberBound("body_base64", f["body_base64"], 2, true);
    } else {
      NullSize();
      MemberBound("redirect_url", f["redirect_url"], 4, true);
      MemberBound("body_base64", f["body_base64"], 11_184_814, true);
    }
    assert f3.Keys == f.Keys - {"body_base64"} - {"headers"} - {"redirect_url"};
    forall k | k in f3 ensures MemberSize(k, f3[k], true) <= 1_416 { SmallFieldsSize(g, r, k); }
    WeightBound(f3, 7, 1_416, true);
  }

  lemma NullSize()
    ensures Size(Null, true) == 4
  {
    EncodeAscii("null");
  }

  lemma EmptyBodySize()
    ensures Size(Str(Base64.Encode([])), true) == 2
  {
    EncodeAscii("\"\"");
    assert Dumps(Str(""), true) == "\"\"";
  }

  // ---- every reply of every session ----

  lemma TargetLength(w: World, p: Policy, url: string, history: seq<NetEvent>)
    requires LawfulUrls(w.lib) && ValidateTarget(w, p, url, history).0.Some?
    ensures |ValidateTarget(w, p, url, history).0.value.url| <= |url| + 268
  {
    hide PublicAddresses;
  }

  lemma ReplyBounds(net: Network, p: Policy, verb: string, h: seq<NetEvent>, t: Target)
    requires Behaved(net) && ReadReply(p, verb, net.exchange(h, t, verb)).Some?
    ensures var x := ReadReply(p, verb, net.exchange(h, t, verb)).value;
            100 <= x.status <= 599 && (x.location.Some? ==> |x.location.value| <= 65_536)
  {
    hide SafeHeaders;
  }

  /** The parts of Sendable that come from one request. */
  lemma {:induction false} HandleBounds(g: Gateway, value: Json, c: Counters, history: seq<NetEvent>)
    requires LawfulUrls(g.w.lib) && Behaved(g.w.net) && g.p.maxResponseBytes >= 0
    requires c.bytes <= c.requests * g.p.maxResponseBytes
    ensures var s := Handle(g, value, c, history);
            && s.counters.bytes <= s.counters.requests * g.p.maxResponseBytes
            && (s.reply.Some? ==> 100 <= s.reply.value.status <= 599)
            && (s.reply.Some? && s.reply.value.redirect.Some? ==> |s.reply.value.redirect.value| <= 100_000)
  {
    hide ReadReply, ReplyHeaders, ValidateTarget, LawfulUrls, Behaved;
    var request := ReadLiveRequest(g, value);
    if g.live && request.Some? && c.requests < g.p.maxRequests {
      var q := request.value;
      var (target, h1) := ValidateResource(g, q.resourceType, q.verb, q.url, history);
      if target.Some? {
        TargetLength(g.w, g.p, q.url, history);
        var verb := g.w.lib.normalizeVerb(q.verb);
        assert (c.requests + 1) * g.p.maxResponseBytes == c.requests * g.p.maxResponseBytes + g.p.maxResponseBytes;
        var (x, h2) := RequestOnce(g.w, g.p, q.url, target.value, verb, None, h1);
        if x.Some? {
          ReplyBounds(g.w.net, g.p, verb, h1, target.value);
          AnswerBounds(g, q, target.value, x.value, c.(requests := c.requests + 1), h2);
        }
      }
    }
  }

  lemma {:induction false} AnswerBounds(g: Gateway, request: LiveRequest, target: Target, x: Exchange, c: Counters,
                                        history: seq<NetEvent>)
    requires LawfulUrls(g.w.lib)
    requires 100 <= x.status <= 599 && (x.location.Some? ==> |x.location.value| <= 65_536) && |target.url| <= 8_460
    ensures var s := Answer(g, request, target, x, c, history);
            && s.counters.requests == c.requests && s.counters.bytes <= c.bytes + |x.body|
            && (s.reply.Some? ==> s.reply.value.status == x.status)
            && (s.reply.Some? && s.reply.value.redirect.Some? ==> |s.reply.value.redirect.value| <= 100_000)
  {
    hide ReplyHeaders, ValidateTarget;
    if IsRedirect(x.status) && x.location.Some? {
      var candidate := g.w.lib.urljoin(target.url, x.location.value);
      assert |candidate| <= |target.url| + |x.location.value| + 16;
      if ValidateTarget(g.w, g.p, candidate, history).0.Some? { TargetLength(g.w, g.p, candidate, history); }
    }
  }

  lemma {:induction false} SessionBytes(g: Gateway, requests: seq<Json>)
    requires SafePolicy(g.p) && LawfulUrls(g.w.lib) && Behaved(g.w.net)
    ensures Serve(g, requests).counters.bytes <= Serve(g, requests).counters.requests * g.p.maxResponseBytes
  {
    hide Handle, LawfulUrls, Behaved;
    if requests != [] {
      var before := Serve(g, requests[..|requests| - 1]);
      SessionBytes(g, requests[..|requests| - 1]);
      HandleBounds(g, requests[|requests| - 1], before.counters, before.history);
    }
  }

  lemma {:induction false} SessionRepliesSendable(g: Gateway, requests: seq<Json>, j: nat)
    requires SafePolicy(g.p) && DigestText(g.digest) && LawfulUrls(g.w.lib) && Behaved(g.w.net)
    requires j < |requests| && Serve(g, requests).replies[j].Some?
    ensures Sendable(g, Serve(g, requests).replies[j].value)
  {
    hide Handle, SendsValidated, Sends, Forwarded, DeliveredBytes, LawfulUrls, Behaved, DigestText, RequestId;
    var earlier, upto := requests[..j], requests[..j + 1];
    assert upto[..j] == earlier;
    RepliesAreEarlier(g, requests, j + 1);
    var before := Serve(g, earlier);
    SessionWithinPolicy(g, earlier);
    SessionWithinPolicy(g, upto);
    SessionBytes(g, earlier);
    HandleKept(g, requests[j], before.counters, before.history);
    HandleBounds(g, requests[j], before.counters, before.history);
    assert Serve(g, upto).replies[j] == Handle(g, requests[j], before.counters, before.history).reply;
  }

  /** The frame of a reply: its one newline is its last byte, and the line before it decodes to the reply. */
  lemma {:induction false} FrameDecodes(g: Gateway, r: Reply)
    requires Sendable(g, r) && LawfulText(g.w.lib)
    ensures var frame := EncodeMessage(Obj(ReplyFields(g, r)), MAX_LIVE_RESPONSE_BYTES);
            && frame.Some?
            && |frame.value| <= MAX_LIVE_RESPONSE_BYTES
            && DecodeLine(g.w.lib, frame.value[..FirstNewline(frame.value)], r.id, g.digest)
               == Some(Decoded(r.status, r.headers, r.body, r.redirect, CounterValues(g.p, r.counters)))
  {
    hide ReplyFields, DecodeResponse, Loads, Dumps, Utf8.Encode, Utf8.Decode, Sendable, LawfulText, CounterValues;
    var v := Obj(ReplyFields(g, r));
    var text := Dumps(v, true);
    var line := Utf8.Encode(text);
    FrameFits(g, r);
    DumpsPlain(v);
    EncodeAscii(text);
    assert (line + [NEWLINE])[..|line|] == line;
    FirstNewlineIs(line + [NEWLINE], |line|);
    DecodeEncode(text);
    LoadsDumps(v, true);
    ReplyDecodes(g, r);
  }

  /** Every reply of every session fits the frame and decodes, on the other side, to itself. */
  lemma SessionRepliesDecode(g: Gateway, requests: seq<Json>, j: nat)
    requires SafePolicy(g.p) && DigestText(g.digest) && LawfulText(g.w.lib) && LawfulUrls(g.w.lib) && Behaved(g.w.net)
    requires j < |requests| && Serve(g, requests).replies[j].Some?
    ensures var r := Serve(g, requests).replies[j].value;
            var frame := EncodeMessage(Obj(ReplyFields(g, r)), MAX_LIVE_RESPONSE_BYTES);
            && frame.Some?
            && |frame.value| <= MAX_LIVE_RESPONSE_BYTES
            && DecodeLine(g.w.lib, frame.value[..FirstNewline(frame.value)], r.id, g.digest)
               == Some(Decoded(r.status, r.headers, r.body, r.redirect, CounterValues(g.p, r.counters)))
  {
    SessionRepliesSendable(g, requests, j);
    hide Serve, Handle, ReplyFields, Sendable, DecodeLine;
    FrameDecodes(g, Serve(g, requests).replies[j].value);
  }

  /** A reply sent over the socket and read back in any pieces. */
  method Deliver(g: Gateway, r: Reply, pieces: nat -> nat) returns (decoded: Option<Decoded>)
    requires Sendable(g, r) && LawfulText(g.w.lib)
    ensures decoded == Some(Decoded(r.status, r.headers, r.body, r.redirect, CounterValues(g.p, r.counters)))
  {
    hide ReplyFields, DecodeLine, Sendable, EncodeMessage, LawfulText, CounterValues;
    FrameDecodes(g, r);
    var frame := EncodeMessage(Obj(ReplyFields(g, r)), MAX_LIVE_RESPONSE_BYTES);
    var line := ReadLine(frame.value, MAX_LIVE_RESPONSE_BYTES, pieces);
    decoded := DecodeLine(g.w.lib, line.value, r.id, g.digest);
  }

  // ---- the other direction ----

  const MAX_LIVE_REQUEST_BYTES: nat := 16_384

  /** The dict `_live_gateway_request` sends. */
  function RequestFields(digest: string, q: LiveRequest): map<string, Json>
  {
    map[
      "schema_version" := Str("rdc.browser-gateway-request/v1"),
      "request_id" := Str(q.id),
      "gateway_policy_digest" := Str(digest),
      "resource_type" := Str(q.resourceType),
      "method" := Str(q.verb),
      "url" := Str(q.url)]
  }

  const REQUEST_FIELDS: set<string> := {
    "schema_version", "request_id", "gateway_policy_digest", "resource_type", "method", "url"}

  /** `_decode_message`. */
  function DecodeMessage(raw: seq<Byte>, maximum: nat): Option<Json>
  {
    if raw == [] || |raw| > maximum then None
    else match Utf8.Decode(raw)
      case None => None
      case Some(text) =>
        match Loads(text)
        case Some(Obj(f)) => Some(Obj(f))
        case _ => None
  }

  lemma RequestLookups(digest: string, q: LiveRequest)
    ensures var f := RequestFields(digest, q);
            && f.Keys == REQUEST_FIELDS
            && f["schema_version"] == Str("rdc.browser-gateway-request/v1")
            && f["request_id"] == Str(q.id)
            && f["gateway_policy_digest"] == Str(digest)
            && f["resource_type"] == Str(q.resourceType)
            && f["method"] == Str(q.verb)
            && f["url"] == Str(q.url)
  {
  }

  /** The broker reads the fields as the very request, exactly if its id is well formed and its URL not too long. */
  lemma RequestRead(g: Gateway, q: LiveRequest)
    ensures ReadLiveRequest(g, Obj(RequestFields(g.digest, q)))
            == if RequestId(q.id) && |q.url| <= 8192 then Some(q) else None
  {
    hide RequestFields, RequestId;
    RequestLookups(g.digest, q);
  }

  /** The broker reads as a request exactly what the runtime sends for it: no field more, none less, none changed. */
  lemma LiveRequestExactly(g: Gateway, v: Json, q: LiveRequest)
    ensures ReadLiveRequest(g, v) == Some(q) <==>
            v == Obj(RequestFields(g.digest, q)) && RequestId(q.id) && |q.url| <= 8192
  {
    hide RequestFields, RequestId;
    RequestLookups(g.digest, q);
    RequestRead(g, q);
    if ReadLiveRequest(g, v) == Some(q) {
      assert v.fields.Keys == REQUEST_FIELDS;
      assert v.fields == RequestFields(g.digest, q);
    }
  }

  /** A request of the runtime, framed within the limit: its one newline is its last byte, and the line before it is
      read by the broker as that request, or refused for its id or the length of its URL. */
  lemma RequestArrives(g: Gateway, q: LiveRequest)
    ensures var value := Obj(RequestFields(g.digest, q));
            var frame := EncodeMessage(value, MAX_LIVE_REQUEST_BYTES);
            && (frame.Some? <==> Size(value, true) < MAX_LIVE_REQUEST_BYTES)
            && (frame.Some? ==>
                  var line := frame.value[..FirstNewline(frame.value)];
                  && |frame.value| <= MAX_LIVE_REQUEST_BYTES
                  && DecodeMessage(line, MAX_LIVE_REQUEST_BYTES) == Some(value)
                  && ReadLiveRequest(g, value) == if RequestId(q.id) && |q.url| <= 8192 then Some(q) else None)
  {
    hide RequestFields, ReadLiveRequest, Loads, Dumps, Utf8.Encode, Utf8.Decode, RequestId;
    var v := Obj(RequestFields(g.digest, q));
    var text := Dumps(v, true);
    var line := Utf8.Encode(text);
    SizePositive(v, true);
    DumpsPlain(v);
    EncodeAscii(text);
    assert (line + [NEWLINE])[..|line|] == line;
    FirstNewlineIs(line + [NEWLINE], |line|);
    DecodeEncode(text);
    LoadsDumps(v, true);
    RequestRead(g, q);
  }

  /** What the browser asks for in the ordinary case: printable ASCII without quotes and backslashes, as a URL has
      it. */
  predicate Ordinary(g: Gateway, q: LiveRequest)
  {
    && DigestText(g.digest) && RequestId(q.id)
    && q.resourceType in RESOURCE_TYPES
    && Verbatim(q.verb) && |q.verb| <= 64
    && Verbatim(q.url) && |q.url| <= 8192
  }

  lemma VerbatimSize(s: string)
    requires Verbatim(s)
    ensures Size(Str(s), true) == |s| + 2
  {
    hide TextSize, Size, Verbatim;
    TextSizeVerbatim(s, true);
    TextIsString(s, true);
  }

  lemma OrdinaryIsVerbatim(g: Gateway, q: LiveRequest)
    requires Ordinary(g, q)
    ensures Verbatim(g.digest) && Verbatim(q.id) && Verbatim(q.resourceType) && |q.resourceType| <= 10
  {
    hide Verbatim;
    VerbatimDigest(g.digest);
    VerbatimId(q.id);
    VerbatimResourceType(q.resourceType);
  }

  lemma VerbatimDigest(s: string)
    requires DigestText(s)
    ensures Verbatim(s)
  {
  }

  lemma VerbatimId(s: string)
    requires RequestId(s)
    ensures Verbatim(s)
  {
  }

  lemma VerbatimResourceType(s: string)
    requires s in RESOURCE_TYPES
    ensures Verbatim(s) && |s| <= 10
  {
  }

  lemma OrdinaryMemberSize(g: Gateway, q: LiveRequest, k: string)
    requires Ordinary(g, q) && k in REQUEST_FIELDS - {"url"}
    ensures k in RequestFields(g.digest, q) && MemberSize(k, RequestFields(g.digest, q)[k], true) <= 322
  {
    hide RequestFields, Size, TextSize, MemberSize, Verbatim, DigestText, RequestId;
    RequestLookups(g.digest, q);
    OrdinaryIsVerbatim(g, q);
    assert |q.id| <= 64 && |g.digest| == 64 by { TextLengths(g, q); }
    var v := RequestFields(g.digest, q)[k];
    SchemaSize();
    if k != "schema_version" { VerbatimSize(v.s); }
    assert |k| <= 21;
    MemberBound(k, v, 66, true);
  }

  lemma TextLengths(g: Gateway, q: LiveRequest)
    requires Ordinary(g, q)
    ensures |q.id| <= 64 && |g.digest| == 64
  {
  }

  lemma SchemaSize()
    ensures Size(Str("rdc.browser-gateway-request/v1"), true) <= 66
  {
    hide Size;
    VerbatimSize("rdc.browser-gateway-request/v1");
  }

  /** Every ordinary request fits the request limit. */
  lemma {:induction false} RequestFits(g: Gateway, q: LiveRequest)
    requires Ordinary(g, q)
    ensures Size(Obj(RequestFields(g.digest, q)), true) < MAX_LIVE_REQUEST_BYTES
  {
    hide RequestFields, Size, TextSize, Weight, MemberSize, Verbatim, REQUEST_FIELDS;
    var f := RequestFields(g.digest, q);
    RequestLookups(g.digest, q);
    ObjectSize(f, true);
    UrlRemoved();
    var rest := f - {"url"};
    WeightWithout(f, "url", true);
    VerbatimSize(q.url);
    MemberBound("url", f["url"], 8_194, true);
    forall k | k in rest ensures MemberSize(k, rest[k], true) <= 322 { OrdinaryMemberSize(g, q, k); }
    WeightBound(rest, 5, 322, true);
  }

  lemma UrlRemoved()
    ensures "url" in REQUEST_FIELDS && |REQUEST_FIELDS - {"url"}| == 5
  {
    assert REQUEST_FIELDS - {"url"} ==
      {"schema_version", "request_id", "gateway_policy_digest", "resource_type", "method"};
  }

  /** A request sent over the socket and read by the broker in any pieces. */
  method Submit(g: Gateway, q: LiveRequest, pieces: nat -> nat) returns (r: Option<LiveRequest>)
    ensures r.Some? ==> r == Some(q)
    ensures r.Some? <==>
            && Size(Obj(RequestFields(g.digest, q)), true) < MAX_LIVE_REQUEST_BYTES
            && RequestId(q.id) && |q.url| <= 8192
    ensures Ordinary(g, q) ==> r == Some(q)
  {
    hide RequestFields, DecodeMessage, EncodeMessage, ReadLiveRequest, RequestId, Size, Verbatim, RESOURCE_TYPES,
      DigestText;
    RequestArrives(g, q);
    if Ordinary(g, q) { RequestFits(g, q); }
    var frame := EncodeMessage(Obj(RequestFields(g.digest, q)), MAX_LIVE_REQUEST_BYTES);
    if frame.None? { return None; }
    var line := ReadLine(frame.value, MAX_LIVE_REQUEST_BYTES, pieces);
    var value := DecodeMessage(line.value, MAX_LIVE_REQUEST_BYTES);
    r := ReadLiveRequest(g, value.value);
  }
}
