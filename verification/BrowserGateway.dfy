/** `BrowserGatewayBroker`: a session of browser requests under three counters. A BrowserGatewayTransportError is
    None. */
module BrowserGateway {
  import opened Utf8
  import opened Json
  import opened Egress
  import opened EgressBroker
  import opened PolicyBinding

  const RESOURCE_TYPES: set<string> := {"document", "stylesheet", "script", "image", "font", "xhr", "fetch"}

  /** What a broker is made with: its policy, the digest of that policy, and whether forwarding is on. */
  datatype Gateway = Gateway(w: World, p: Policy, digest: string, live: bool)

  datatype Counters = Counters(requests: nat, bytes: nat, redirects: nat)

  datatype LiveRequest = LiveRequest(id: string, resourceType: string, verb: string, url: string)

  datatype Reply = Reply(
    id: string,
    status: int,
    headers: map<string, string>,
    redirect: Option<string>,
    body: seq<Byte>,
    counters: Counters)

  /** `_validate_live_request`. */
  function ReadLiveRequest(g: Gateway, value: Json): Option<LiveRequest>
  {
    if !value.Obj? || value.fields.Keys !=
         {"schema_version", "request_id", "gateway_policy_digest", "resource_type", "method", "url"} then None
    else
      var f := value.fields;
      if && f["schema_version"] == Str("rdc.browser-gateway-request/v1")
         && f["request_id"].Str? && RequestId(f["request_id"].s)
         && f["gateway_policy_digest"] == Str(g.digest)
         && f["resource_type"].Str? && f["method"].Str? && f["url"].Str?
         && |f["url"].s| <= 8192
      then Some(LiveRequest(f["request_id"].s, f["resource_type"].s, f["method"].s, f["url"].s))
      else None
  }

  /** `BrowserEgressPolicy.validate_resource`. */
  function ValidateResource(g: Gateway, resourceType: string, verb: string, url: string, history: seq<NetEvent>)
    : (Option<Target>, seq<NetEvent>)
  {
    if && g.w.lib.normalizeResourceType(resourceType) in RESOURCE_TYPES
       && g.w.lib.normalizeVerb(verb) in {"GET", "HEAD"}
       && g.w.lib.normalizeVerb(verb) in g.p.allowedMethods
    then ValidateTarget(g.w, g.p, url, history)
    else (None, history)
  }

  datatype Step = Step(reply: Option<Reply>, counters: Counters, history: seq<NetEvent>)

  function ReplyHeaders(headers: map<string, string>): map<string, string>
  {
    headers - {"content-length", "set-cookie", "location"}
  }

  /** The part of `handle_request` after the reply of the target has arrived. */
  function Answer(g: Gateway, request: LiveRequest, target: Target, x: Exchange, c: Counters,
                  history: seq<NetEvent>): Step
  {
    var headers := ReplyHeaders(x.headers);
    if IsRedirect(x.status) then
      if x.location.None? || x.location.value == "" || c.redirects >= g.p.maxRedirects then Step(None, c, history)
      else
        var (next, history') := ValidateResource(g, request.resourceType, request.verb,
                                                 g.w.lib.urljoin(target.url, x.location.value), history);
        if next.None? then Step(None, c, history')
        else
          var c' := c.(redirects := c.redirects + 1);
          Step(Some(Reply(request.id, x.status, headers, Some(next.value.url), [], c')), c', history')
    else
      var c' := c.(bytes := c.bytes + |x.body|);
      if c'.bytes > g.p.maxTotalBytes then Step(None, c', history)
      else Step(Some(Reply(request.id, x.status, headers, None, x.body, c')), c', history)
  }

  /** `handle_request`. */
  function Handle(g: Gateway, value: Json, c: Counters, history: seq<NetEvent>): Step
  {
    if !g.live then Step(None, c, history)
    else match ReadLiveRequest(g, value)
      case None => Step(None, c, history)
      case Some(request) =>
        if c.requests >= g.p.maxRequests then Step(None, c, history)
        else
          var (target, h1) := ValidateResource(g, request.resourceType, request.verb, request.url, history);
          if target.None? then Step(None, c, h1)
          else
            var c' := c.(requests := c.requests + 1);
            var (x, h2) := RequestOnce(g.w, g.p, request.url, target.value, g.w.lib.normalizeVerb(request.verb), None,
                                       h1);
            if x.None? then Step(None, c', h2) else Answer(g, request, target.value, x.value, c', h2)
  }

  // ---- the broker object ----

  /** `BrowserEgressPolicy.as_dict`. */
  function GatewayPolicyJson(p: Policy): Json
  {
    Obj(map[
      "schema_version" := Str("rdc.browser-egress-policy/v1"),
      "mode" := Str("gateway-live-canary"),
      "allowed_schemes" := Strings(["https"]),
      "allowed_methods" := Strings(p.allowedMethods),
      "allowed_resource_types" := Strings(SortedKeys(RESOURCE_TYPES)),
      "allowed_hosts" := Strings(p.allowedHosts),
      "deny_ip_literals" := Bool(true),
      "require_global_dns" := Bool(true),
      "pin_validated_address" := Bool(true),
      "revalidate_redirects" := Bool(true),
      "revalidate_subresources" := Bool(true),
      "strip_request_headers" := Strings(["authorization", "cookie", "proxy-authorization"]),
      "strip_response_headers" := Strings(["set-cookie"]),
      "service_workers_enabled" := Bool(false),
      "websockets_enabled" := Bool(false),
      "webrtc_enabled" := Bool(false),
      "proxy_override_enabled" := Bool(false),
      "persistent_cookies_enabled" := Bool(false),
      "max_requests" := Num(p.maxRequests),
      "max_resource_bytes" := Num(p.maxResponseBytes),
      "max_total_bytes" := Num(p.maxTotalBytes),
      "max_redirects" := Num(p.maxRedirects),
      "connect_timeout_seconds" := Num(p.connectTimeoutSeconds),
      "request_timeout_seconds" := Num(p.requestTimeoutSeconds),
      "transport_wired" := Bool(true),
      "browser_network" := Str("none")])
  }

  /** A digest the broker accepts: well formed, and that of its policy, which must allow some host. */
  predicate DigestFits(g: Gateway)
  {
    g.p.allowedHosts != [] && DigestText(g.digest) && Str(g.digest) == Digest(g.w.lib, GatewayPolicyJson(g.p), true)
  }

  lemma GatewayMembers(p: Policy)
    ensures GatewayPolicyJson(p).Obj?
    ensures var f := GatewayPolicyJson(p).fields;
            && {"allowed_hosts", "allowed_methods", "connect_timeout_seconds", "max_redirects", "max_requests",
                "max_resource_bytes", "max_total_bytes", "request_timeout_seconds"} <= f.Keys
            && f["allowed_hosts"] == Strings(p.allowedHosts) && f["allowed_methods"] == Strings(p.allowedMethods)
            && f["connect_timeout_seconds"] == Num(p.connectTimeoutSeconds)
            && f["max_redirects"] == Num(p.maxRedirects) && f["max_requests"] == Num(p.maxRequests)
            && f["max_resource_bytes"] == Num(p.maxResponseBytes) && f["max_total_bytes"] == Num(p.maxTotalBytes)
            && f["request_timeout_seconds"] == Num(p.requestTimeoutSeconds)
  {
    hide Strings, SortedKeys, RESOURCE_TYPES;
  }

  /** The dict whose digest a broker is made with determines its policy, down to every limit. */
  lemma DigestCoversGateway(p: Policy, q: Policy)
    requires GatewayPolicyJson(p) == GatewayPolicyJson(q)
    ensures p == q
  {
    hide Strings, GatewayPolicyJson;
    GatewayMembers(p);
    GatewayMembers(q);
    StringsInjective(p.allowedHosts, q.allowedHosts);
    StringsInjective(p.allowedMethods, q.allowedMethods);
  }

  class BrowserGatewayBroker {
    const g: Gateway
    var requestsUsed: nat
    var bytesReceived: nat
    var redirectsUsed: nat
    var history: seq<NetEvent>

    constructor (g: Gateway)
      ensures this.g == g && Spent() == Counters(0, 0, 0) && history == []
    {
      this.g := g;
      requestsUsed, bytesReceived, redirectsUsed, history := 0, 0, 0, [];
    }

    /** `BrowserEgressPolicy.create` and `__init__` with their checks; null stands for their exceptions. */
    static method Create(g: Gateway) returns (b: BrowserGatewayBroker?)
      ensures b == null <==> !DigestFits(g)
      ensures b != null ==> fresh(b) && b.g == g && b.Spent() == Counters(0, 0, 0) && b.history == []
    {
      if g.p.allowedHosts == [] { return null; }
      if !DigestText(g.digest) { return null; }
      if Str(g.digest) != Digest(g.w.lib, GatewayPolicyJson(g.p), true) { return null; }
      b := new BrowserGatewayBroker(g);
    }

    function Spent(): Counters
      reads this
    {
      Counters(requestsUsed, bytesReceived, redirectsUsed)
    }

    method HandleRequest(value: Json) returns (r: Option<Reply>)
      modifies this
      ensures Step(r, Spent(), history) == Handle(g, value, old(Spent()), old(history))
    {
      hide ReadLiveRequest, ValidateResource, RequestOnce, ReplyHeaders;
      if !g.live { return None; }
      var request := ReadLiveRequest(g, value);
      if request.None? { return None; }
      var q := request.value;
      if requestsUsed >= g.p.maxRequests { return None; }
      var (validated, h1) := ValidateResource(g, q.resourceType, q.verb, q.url, history);
      history := h1;
      if validated.None? { return None; }

      requestsUsed := requestsUsed + 1;
      var (reply, h2) := RequestOnce(g.w, g.p, q.url, validated.value, g.w.lib.normalizeVerb(q.verb), None, history);
      history := h2;
      if reply.None? { return None; }
      var x := reply.value;
      var redirectUrl: Option<string> := None;
      var body := x.body;
      if IsRedirect(x.status) {
        if x.location.None? || x.location.value == "" { return None; }
        if redirectsUsed >= g.p.maxRedirects { return None; }
        var candidate := g.w.lib.urljoin(validated.value.url, x.location.value);
        var (redirect, h3) := ValidateResource(g, q.resourceType, q.verb, candidate, history);
        history := h3;
        if redirect.None? { return None; }
        redirectsUsed := redirectsUsed + 1;
        redirectUrl := Some(redirect.value.url);
        body := [];
      } else {
        bytesReceived := bytesReceived + |body|;
        if bytesReceived > g.p.maxTotalBytes { return None; }
      }
      r := Some(Reply(q.id, x.status, ReplyHeaders(x.headers), redirectUrl, body, Spent()));
    }
  }

  // ---- sessions ----

  datatype Session = Session(counters: Counters, history: seq<NetEvent>, replies: seq<Option<Reply>>)

  /** A broker's whole life: the requests it was given, in order. */
  function Serve(g: Gateway, requests: seq<Json>): (s: Session)
    ensures |s.replies| == |requests|
  {
    if requests == [] then Session(Counters(0, 0, 0), [], [])
    else
      var before := Serve(g, requests[..|requests| - 1]);
      var step := Handle(g, requests[|requests| - 1], before.counters, before.history);
      Session(step.counters, step.history, before.replies + [step.reply])
  }

  function Forwarded(replies: seq<Option<Reply>>): nat
  {
    if replies == [] then 0
    else
      var last := replies[|replies| - 1];
      Forwarded(replies[..|replies| - 1]) + (if last.Some? && last.value.redirect.Some? then 1 else 0)
  }

  function DeliveredBytes(replies: seq<Option<Reply>>): nat
  {
    if replies == [] then 0
    else
      var last := replies[|replies| - 1];
      DeliveredBytes(replies[..|replies| - 1]) + (if last.Some? then |last.value.body| else 0)
  }

  lemma RepliesSnoc(replies: seq<Option<Reply>>, r: Option<Reply>)
    ensures Forwarded(replies + [r]) == Forwarded(replies) + (if r.Some? && r.value.redirect.Some? then 1 else 0)
    ensures DeliveredBytes(replies + [r]) == DeliveredBytes(replies) + (if r.Some? then |r.value.body| else 0)
  {
    assert (replies + [r])[..|replies|] == replies;
  }

  /** One request: what it may do to the counters and the traffic, and what a reply says. */
  predicate StepKept(g: Gateway, c: Counters, history: seq<NetEvent>, s: Step)
  {
    && SendsValidated(g.w, g.p, s.history)
    && Sends(s.history) - Sends(history) == s.counters.requests - c.requests
    && c.requests <= s.counters.requests <= (if c.requests < g.p.maxRequests then g.p.maxRequests else c.requests)
    && c.bytes <= s.counters.bytes
    && c.redirects <= s.counters.redirects
    && (s.reply.None? ==> s.counters.redirects == c.redirects)
    && (s.reply.Some? ==>
          var r := s.reply.value;
          && r.counters == s.counters
          && r.headers.Keys <= SAFE_HEADERS - {"content-length"}
          && (forall k :: k in r.headers ==> |r.headers[k]| <= 2048)
          && |r.body| <= g.p.maxResponseBytes
          && RequestId(r.id)
          && (IsRedirect(r.status) <==> r.redirect.Some?)
          && (r.redirect.Some? ==>
                && "https://" <= r.redirect.value && r.body == []
                && c.redirects < g.p.maxRedirects
                && s.counters.redirects == c.redirects + 1 && s.counters.bytes == c.bytes)
          && (r.redirect.None? ==>
                && s.counters.redirects == c.redirects
                && s.counters.bytes == c.bytes + |r.body| <= g.p.maxTotalBytes))
  }

  lemma ValidateKeepsSends(g: Gateway, resourceType: string, verb: string, url: string, history: seq<NetEvent>)
    requires SendsValidated(g.w, g.p, history)
    ensures var (target, h) := ValidateResource(g, resourceType, verb, url, history);
            SendsValidated(g.w, g.p, h) && Sends(h) == Sends(history)
  {
    OneSend(Call(g.w, g.p, None), url, "GET", history);
  }

  lemma {:induction false} AnswerKept(g: Gateway, request: LiveRequest, target: Target, x: Exchange, c: Counters,
                                      history: seq<NetEvent>)
    requires SendsValidated(g.w, g.p, history) && g.p.maxResponseBytes >= 0 && RequestId(request.id)
    requires x.headers.Keys <= SAFE_HEADERS && (forall k :: k in x.headers ==> |x.headers[k]| <= 2048)
    requires |x.body| <= g.p.maxResponseBytes
    ensures StepKept(g, c, history, Answer(g, request, target, x, c, history))
  {
    hide SendsValidated, Sends;
    if IsRedirect(x.status) && x.location.Some? {
      ValidateKeepsSends(g, request.resourceType, request.verb, g.w.lib.urljoin(target.url, x.location.value), history);
    }
  }

  lemma {:induction false} HandleKept(g: Gateway, value: Json, c: Counters, history: seq<NetEvent>)
    requires SendsValidated(g.w, g.p, history) && g.p.maxResponseBytes >= 0
    ensures StepKept(g, c, history, Handle(g, value, c, history))
  {
    hide SendsValidated, Sends, ReadReply, Answer, ValidateTarget;
    var request := ReadLiveRequest(g, value);
    if g.live && request.Some? && c.requests < g.p.maxRequests {
      var q := request.value;
      ValidateKeepsSends(g, q.resourceType, q.verb, q.url, history);
      OneSend(Call(g.w, g.p, None), q.url, g.w.lib.normalizeVerb(q.verb), history);
      var (target, h1) := ValidateResource(g, q.resourceType, q.verb, q.url, history);
      if target.Some? {
        var (x, h2) := RequestOnce(g.w, g.p, q.url, target.value, g.w.lib.normalizeVerb(q.verb), None, h1);
        SendsSnoc(h1, Send(q.url, target.value, g.w.lib.normalizeVerb(q.verb)));
        if x.Some? { AnswerKept(g, q, target.value, x.value, c.(requests := c.requests + 1), h2); }
      }
    }
  }

  /**
   A reply has its request's id and reports the network's answer to the send made for that request, of its URL and under
   its method: status, headers and, unless it is a redirect, the body; a redirect carries the location, joined to the
   URL it came from and validated afresh. The send is none of the first `before` events.
   */
  ghost predicate Reports(g: Gateway, request: LiveRequest, before: nat, history: seq<NetEvent>, r: Reply)
  {
    var k := if r.redirect.Some? then |history| - 2 else |history| - 1;
    && r.id == request.id
    && k >= before && history[k].Send?
    && var sent := history[k];
    && sent.url == request.url && sent.verb == g.w.lib.normalizeVerb(request.verb)
    && var answer := g.w.net.exchange(history[..k], sent.target, sent.verb);
    && answer.HttpReply?
    && r.status == answer.status
    && HeadersReport(answer.headers, r.headers)
    && (r.redirect.None? ==> r.body == if sent.verb == "HEAD" then [] else answer.body)
    && (r.redirect.Some? ==>
          && r.body == []
          && GetHeader(answer.headers, "location").Some?
          && var joined := g.w.lib.urljoin(sent.target.url, GetHeader(answer.headers, "location").value);
             var (next, h) := ValidateTarget(g.w, g.p, joined, history[..k + 1]);
          && next.Some? && next.value.url == r.redirect.value && h == history)
  }

  /** A header is reported exactly if the network sent it, it is a safe one and none of the three that are stripped; its
      value is the last that was sent under its name, cut to 2048 characters. */
  ghost predicate HeadersReport(sent: seq<(string, string)>, reported: map<string, string>)
  {
    && (forall name :: name in reported <==>
          && name in SAFE_HEADERS && name != "content-length" && name != "set-cookie" && name != "location"
          && exists i :: SentUnder(sent, name, i))
    && (forall name, i :: name in reported && LastUnder(sent, name, i) ==>
          reported[name] == if |sent[i].1| <= 2048 then sent[i].1 else sent[i].1[..2048])
  }

  lemma ReplyHeadersReport(sent: seq<(string, string)>)
    ensures HeadersReport(sent, ReplyHeaders(SafeHeaders(sent)))
  {
    var safe := SafeHeaders(sent);
    var reported := ReplyHeaders(safe);
    forall name
      ensures name in reported <==>
              && name in SAFE_HEADERS && name != "content-length" && name != "set-cookie" && name != "location"
              && exists i :: SentUnder(sent, name, i)
    {
      SafeHeadersKeepLast(sent, name);
    }
    hide SafeHeaders, SentUnder, LastUnder;
    forall name, i | name in reported && LastUnder(sent, name, i)
      ensures 0 <= i < |sent| && reported[name] == if |sent[i].1| <= 2048 then sent[i].1 else sent[i].1[..2048]
    {
      SafeHeadersKeepLast(sent, name);
      LastInRange(sent, name, i);
    }
  }

  lemma {:induction false} AnswerReports(g: Gateway, request: LiveRequest, target: Target, c: Counters,
                                         before: seq<NetEvent>)
    requires var verb := g.w.lib.normalizeVerb(request.verb);
             var x := ReadReply(g.p, verb, g.w.net.exchange(before, target, verb));
             x.Some? && Answer(g, request, target, x.value, c, before + [Send(request.url, target, verb)]).reply.Some?
    ensures var verb := g.w.lib.normalizeVerb(request.verb);
            var x := ReadReply(g.p, verb, g.w.net.exchange(before, target, verb)).value;
            var s := Answer(g, request, target, x, c, before + [Send(request.url, target, verb)]);
            Reports(g, request, |before|, s.history, s.reply.value)
  {
    hide ReadReply, ReplyHeaders, SafeHeaders, HeadersReport, GetHeader, AdmittedUrl, PublicAddresses;
    var verb := g.w.lib.normalizeVerb(request.verb);
    var answer := g.w.net.exchange(before, target, verb);
    ReplyTakenExactly(g.p, verb, answer);
    ReplyHeadersReport(answer.headers);
    var x := ReadReply(g.p, verb, answer).value;
    var sent := before + [Send(request.url, target, verb)];
    var s := Answer(g, request, target, x, c, sent);
    assert sent[..|before|] == before;
    if IsRedirect(x.status) {
      assert s.history[..|before|] == before && s.history[..|before| + 1] == sent;
    }
  }

  lemma HandleReports(g: Gateway, value: Json, c: Counters, history: seq<NetEvent>)
    requires Handle(g, value, c, history).reply.Some?
    ensures var s := Handle(g, value, c, history);
            && ReadLiveRequest(g, value).Some?
            && Reports(g, ReadLiveRequest(g, value).value, |history|, s.history, s.reply.value)
  {
    hide ReadReply, ReplyHeaders, AdmittedUrl, PublicAddresses, Answer;
    var q := ReadLiveRequest(g, value).value;
    var (target, h1) := ValidateResource(g, q.resourceType, q.verb, q.url, history);
    assert |h1| >= |history|;
    hide ValidateTarget;
    AnswerReports(g, q, target.value, c.(requests := c.requests + 1), h1);
  }

  // ---- when a request is answered ----

  /** The request is read, the budget has room for it, and its resource and its target are admitted: it is sent. */
  predicate Admits(g: Gateway, value: Json, c: Counters, history: seq<NetEvent>)
  {
    && g.live && ReadLiveRequest(g, value).Some? && c.requests < g.p.maxRequests
    && var q := ReadLiveRequest(g, value).value;
       var verb := g.w.lib.normalizeVerb(q.verb);
    && g.w.lib.normalizeResourceType(q.resourceType) in RESOURCE_TYPES
    && (verb == "GET" || verb == "HEAD") && verb in g.p.allowedMethods
    && ValidateTarget(g.w, g.p, q.url, history).0.Some?
  }

  /** What the network answers to it. */
  function AnswerTo(g: Gateway, value: Json, history: seq<NetEvent>): Option<Exchange>
    requires ReadLiveRequest(g, value).Some?
             && ValidateTarget(g.w, g.p, ReadLiveRequest(g, value).value.url, history).0.Some?
  {
    var q := ReadLiveRequest(g, value).value;
    var verb := g.w.lib.normalizeVerb(q.verb);
    var (target, h1) := ValidateTarget(g.w, g.p, q.url, history);
    ReadReply(g.p, verb, g.w.net.exchange(h1, target.value, verb))
  }

  /** A redirect says where to, has room in the budget, and leads to a valid target. */
  predicate MayRedirect(g: Gateway, value: Json, c: Counters, history: seq<NetEvent>, x: Exchange)
    requires ReadLiveRequest(g, value).Some?
             && ValidateTarget(g.w, g.p, ReadLiveRequest(g, value).value.url, history).0.Some?
  {
    var q := ReadLiveRequest(g, value).value;
    var (target, h1) := ValidateTarget(g.w, g.p, q.url, history);
    && x.location.Some? && x.location.value != "" && c.redirects < g.p.maxRedirects
    && ValidateTarget(g.w, g.p, g.w.lib.urljoin(target.value.url, x.location.value),
                      h1 + [Send(q.url, target.value, g.w.lib.normalizeVerb(q.verb))]).0.Some?
  }

  /** A request is answered exactly if it is admitted, its reply taken, and a redirect may be forwarded or a body still
      fits the byte limit; an admitted request is counted, a body that was read is counted even if it does not fit, and
      a redirect is counted if it is forwarded. */
  lemma AnsweredExactly(g: Gateway, value: Json, c: Counters, history: seq<NetEvent>)
    ensures var s := Handle(g, value, c, history);
            if !Admits(g, value, c, history) then s.reply.None? && s.counters == c
            else
              var x := AnswerTo(g, value, history);
              if x.None? then s.reply.None? && s.counters == c.(requests := c.requests + 1)
              else if IsRedirect(x.value.status) then
                && (s.reply.Some? <==> MayRedirect(g, value, c, history, x.value))
                && s.counters == Counters(c.requests + 1, c.bytes, c.redirects + if s.reply.Some? then 1 else 0)
              else
                && (s.reply.Some? <==> c.bytes + |x.value.body| <= g.p.maxTotalBytes)
                && s.counters == Counters(c.requests + 1, c.bytes + |x.value.body|, c.redirects)
  {
    hide ValidateTarget, ReadReply, ReplyHeaders, ReadLiveRequest;
  }

  lemma HandleVerbs(g: Gateway, value: Json, c: Counters, history: seq<NetEvent>)
    requires VerbsAllowed(g.p, history)
    ensures VerbsAllowed(g.p, Handle(g, value, c, history).history)
  {
    hide AdmittedUrl, PublicAddresses, ReadReply, ReplyHeaders, ReadLiveRequest;
  }

  predicate SessionKept(g: Gateway, s: Session)
  {
    && SendsValidated(g.w, g.p, s.history) && VerbsAllowed(g.p, s.history)
    && Sends(s.history) == s.counters.requests <= g.p.maxRequests
    && Forwarded(s.replies) == s.counters.redirects <= g.p.maxRedirects
    && DeliveredBytes(s.replies) <= s.counters.bytes
    && DeliveredBytes(s.replies) <= g.p.maxTotalBytes
  }

  /** Over every sequence of requests: sends, forwarded redirects and delivered bytes stay within the policy. */
  lemma {:induction false} SessionWithinPolicy(g: Gateway, requests: seq<Json>)
    requires SafePolicy(g.p)
    ensures SessionKept(g, Serve(g, requests))
  {
    if requests != [] {
      var before := Serve(g, requests[..|requests| - 1]);
      SessionWithinPolicy(g, requests[..|requests| - 1]);
      var step := Handle(g, requests[|requests| - 1], before.counters, before.history);
      HandleKept(g, requests[|requests| - 1], before.counters, before.history);
      HandleVerbs(g, requests[|requests| - 1], before.counters, before.history);
      hide Handle, SendsValidated, Sends, VerbsAllowed;
      RepliesSnoc(before.replies, step.reply);
    }
  }

  /** No counter ever goes down. */
  lemma {:induction false} CountersNeverDecrease(g: Gateway, requests: seq<Json>, i: nat)
    requires SafePolicy(g.p) && i <= |requests|
    ensures var a, b := Serve(g, requests[..i]).counters, Serve(g, requests).counters;
            a.requests <= b.requests && a.bytes <= b.bytes && a.redirects <= b.redirects
  {
    if i == |requests| {
      assert requests[..i] == requests;
    } else {
      var shorter := requests[..|requests| - 1];
      CountersNeverDecrease(g, shorter, i);
      assert shorter[..i] == requests[..i];
      SessionWithinPolicy(g, shorter);
      HandleKept(g, requests[|requests| - 1], Serve(g, shorter).counters, Serve(g, shorter).history);
    }
  }

  lemma {:induction false} RepliesAreEarlier(g: Gateway, requests: seq<Json>, i: nat)
    requires i <= |requests|
    ensures Serve(g, requests[..i]).replies == Serve(g, requests).replies[..i]
  {
    if i == |requests| {
      assert requests[..i] == requests;
    } else {
      RepliesAreEarlier(g, requests[..|requests| - 1], i);
      assert requests[..|requests| - 1][..i] == requests[..i];
    }
  }

  /** Once the byte counter has passed its limit, every later reply is an error or a redirect. */
  lemma ExhaustedStaysExhausted(g: Gateway, requests: seq<Json>, i: nat, j: nat)
    requires SafePolicy(g.p) && i <= j < |requests|
    requires Serve(g, requests[..i]).counters.bytes > g.p.maxTotalBytes
    ensures var r := Serve(g, requests).replies[j]; r.None? || r.value.redirect.Some?
  {
    hide Handle, SendsValidated, Sends, Forwarded, DeliveredBytes, Serve;
    var served := requests[..j];
    assert served[..i] == requests[..i];
    CountersNeverDecrease(g, served, i);
    SessionWithinPolicy(g, served);
    HandleKept(g, requests[j], Serve(g, served).counters, Serve(g, served).history);
    ReplyOf(g, requests, j);
  }

  lemma ReplyOf(g: Gateway, requests: seq<Json>, j: nat)
    requires j < |requests|
    ensures var before := Serve(g, requests[..j]);
            && j < |Serve(g, requests).replies|
            && Serve(g, requests).replies[j] == Handle(g, requests[j], before.counters, before.history).reply
  {
    hide Handle;
    var upto := requests[..j + 1];
    RepliesAreEarlier(g, requests, j + 1);
    assert upto[..j] == requests[..j];
    assert Serve(g, upto).replies[j] == Serve(g, requests).replies[j];
  }

  lemma HandleExtends(g: Gateway, value: Json, c: Counters, history: seq<NetEvent>)
    ensures history <= Handle(g, value, c, history).history
  {
    hide AdmittedUrl, PublicAddresses, ReadReply, ReadLiveRequest, ReplyHeaders;
  }

  lemma {:induction false} HistoryGrows(g: Gateway, requests: seq<Json>, i: nat)
    requires i <= |requests|
    ensures Serve(g, requests[..i]).history <= Serve(g, requests).history
  {
    if i == |requests| {
      assert requests[..i] == requests;
    } else {
      hide Handle;
      var shorter := requests[..|requests| - 1];
      HistoryGrows(g, shorter, i);
      assert shorter[..i] == requests[..i];
      HandleExtends(g, requests[|requests| - 1], Serve(g, shorter).counters, Serve(g, shorter).history);
    }
  }

  /** Every reply of every session answers its own request: it has that request's id, and reports what the network
      answered to a send of that request's URL under its method, which the session's traffic holds between the requests
      before and after. */
  lemma SessionReports(g: Gateway, requests: seq<Json>, j: nat)
    requires j < |requests| && Serve(g, requests).replies[j].Some?
    ensures var r := Serve(g, requests).replies[j].value;
            var before, upto := Serve(g, requests[..j]).history, Serve(g, requests[..j + 1]).history;
            && before <= upto <= Serve(g, requests).history
            && ReadLiveRequest(g, requests[j]).Some?
            && Reports(g, ReadLiveRequest(g, requests[j]).value, |before|, upto, r)
  {
    hide Handle, Reports, Serve, ReadLiveRequest;
    var before := Serve(g, requests[..j]);
    ReplyOf(g, requests, j);
    HandleReports(g, requests[j], before.counters, before.history);
    HistoryGrows(g, requests, j + 1);
    HandleExtends(g, requests[j], before.counters, before.history);
    assert requests[..j + 1][..j] == requests[..j] && requests[..j + 1][j] == requests[j];
    LastStep(g, requests[..j + 1]);
  }

  lemma LastStep(g: Gateway, requests: seq<Json>)
    requires requests != []
    ensures var n := |requests| - 1;
            var before := Serve(g, requests[..n]);
            Serve(g, requests).history == Handle(g, requests[n], before.counters, before.history).history
  {
    hide Handle;
  }
}
