/** `egress_broker.py`: the redirect loop, the batch, and what holds of every run of either. */
module EgressBroker {
  import opened Utf8
  import opened Json
  import opened Egress
  import Base64

  datatype Response = Response(
    id: string,
    verb: string,
    url: string,
    status: int,
    headers: map<string, string>,
    bodyText: Option<string>,
    bodyBase64: Option<string>,
    size: nat,
    digest: string)

  datatype Budget = Budget(requests: nat, bytes: nat)

  /** How a computation ended, with the budget and the network history it left behind. */
  datatype Outcome<+T> = Outcome(result: Option<T>, budget: Budget, history: seq<NetEvent>)

  const TEXTUAL_TYPES: seq<string> :=
    ["text/", "application/json", "application/xml", "application/xhtml+xml", "application/javascript"]

  predicate Textual(contentType: string)
  {
    exists i :: 0 <= i < |TEXTUAL_TYPES| && TEXTUAL_TYPES[i] <= Lower(contentType)
  }

  /** `_decode_body`: text for textual types, base64 for the rest; None for an unsupported charset. */
  function DecodeBody(lib: Library, body: seq<Byte>, contentType: string): Option<(Option<string>, Option<string>)>
  {
    if !Textual(contentType) then Some((None, Some(Base64.Encode(body))))
    else match lib.decodeText(body, contentType)
      case None => None
      case Some(text) => Some((Some(text), None))
  }

  /** What a content type has to start with, in whichever case, for its body to be text. */
  predicate NamesText(contentType: string)
  {
    var name := Lower(contentType);
    || "text/" <= name
    || "application/json" <= name
    || "application/xml" <= name
    || "application/xhtml+xml" <= name
    || "application/javascript" <= name
  }

  /** A body is reported either as the text that its charset gives, or as base64 that decodes to it. */
  predicate ReportsBody(lib: Library, body: seq<Byte>, contentType: string, text: Option<string>,
                        base64: Option<string>)
  {
    if NamesText(contentType) then text.Some? && text == lib.decodeText(body, contentType) && base64.None?
    else text.None? && base64.Some? && Base64.Decode(base64.value) == Some(body)
  }

  lemma TextualByName(contentType: string)
    ensures Textual(contentType) <==> NamesText(contentType)
  {
    hide Lower;
    assert TEXTUAL_TYPES[0] == "text/" && TEXTUAL_TYPES[1] == "application/json"
      && TEXTUAL_TYPES[2] == "application/xml"
        && TEXTUAL_TYPES[3] == "application/xhtml+xml" && TEXTUAL_TYPES[4] == "application/javascript";
  }

  /** Only a text in a charset that cannot be decoded is refused. */
  lemma BodyDecoded(lib: Library, body: seq<Byte>, contentType: string)
    ensures var d := DecodeBody(lib, body, contentType);
            && (d.None? <==> NamesText(contentType) && lib.decodeText(body, contentType).None?)
            && (d.Some? ==> ReportsBody(lib, body, contentType, d.value.0, d.value.1))
  {
    hide Textual, NamesText, Base64.Encode, Base64.Decode;
    TextualByName(contentType);
    Base64.DecodeEncode(body);
  }

  // ---- one fetch ----

  datatype Call = Call(w: World, p: Policy, authorization: Option<string>)

  /** The final response of a fetch, once its bytes are counted. */
  function Conclude(c: Call, id: string, verb: string, target: Target, reply: Exchange, budget: Budget,
                    history: seq<NetEvent>)
    : Outcome<Response>
  {
    var counted := Budget(budget.requests, budget.bytes + |reply.body|);
    if counted.bytes > c.p.maxTotalBytes then Outcome(None, counted, history)
    else
      var contentType := if "content-type" in reply.headers then reply.headers["content-type"] else "";
      match DecodeBody(c.w.lib, reply.body, contentType)
      case None => Outcome(None, counted, history)
      case Some((text, base64)) =>
        Outcome(Some(Response(id, verb, target.url, reply.status, reply.headers, text, base64, |reply.body|,
                              c.w.lib.sha256(reply.body))),
                counted, history)
  }

  /** The redirect loop of `_fetch`, from its current URL on. */
  function FetchFrom(c: Call, id: string, verb: string, url: string, redirects: nat, budget: Budget,
                     history: seq<NetEvent>)
    : Outcome<Response>
    decreases if redirects <= c.p.maxRedirects then c.p.maxRedirects - redirects + 1 else 0
  {
    if budget.requests >= c.p.maxRequests then Outcome(None, budget, history)
    else
      var (target, h1) := ValidateTarget(c.w, c.p, url, history);
      if target.None? then Outcome(None, budget, h1)
      else
        var spent := Budget(budget.requests + 1, budget.bytes);
        var (reply, h2) := RequestOnce(c.w, c.p, url, target.value, verb, c.authorization, h1);
        if reply.None? then Outcome(None, spent, h2)
        else if !IsRedirect(reply.value.status) then Conclude(c, id, verb, target.value, reply.value, spent, h2)
        else if reply.value.location.None? || reply.value.location.value == "" || redirects >= c.p.maxRedirects then
          Outcome(None, spent, h2)
        else
          FetchFrom(c, id, verb, c.w.lib.urljoin(target.value.url, reply.value.location.value), redirects + 1, spent,
                    h2)
  }

  function FetchRun(c: Call, id: string, verb: string, url: string, budget: Budget,
                    history: seq<NetEvent>): Outcome<Response>
  {
    if verb !in c.p.allowedMethods then Outcome(None, budget, history)
    else FetchFrom(c, id, verb, url, 0, budget, history)
  }

  // ---- a batch ----

  datatype Request = Request(id: string, verb: string, url: string)

  function Member(fields: map<string, Json>, key: string, absent: Json): Json
  {
    if key in fields then fields[key] else absent
  }

  /** One entry of `_rdc_web_requests`, before its fetch. */
  function ReadRequest(lib: Library, raw: Json): Option<Request>
  {
    if !raw.Obj? then None
    else
      var id := lib.pyStr(Member(raw.fields, "id", Str("")));
      var verb := Upper(lib.pyStr(Member(raw.fields, "method", Str("GET"))));
      var url := lib.pyStr(Member(raw.fields, "url", Str("")));
      if RequestId(id) && (verb == "GET" || verb == "HEAD") && url != "" then Some(Request(id, verb, url)) else None
  }

  function Ids(responses: seq<Response>): set<string>
  {
    set i | 0 <= i < |responses| :: responses[i].id
  }

  /** The loop of `broker_web_requests`, after the responses so far. */
  function BatchFrom(c: Call, raws: seq<Json>, done: seq<Response>, budget: Budget, history: seq<NetEvent>)
    : Outcome<seq<Response>>
    requires |done| <= |raws|
    decreases |raws| - |done|
  {
    if |done| == |raws| then Outcome(Some(done), budget, history)
    else
      match ReadRequest(c.w.lib, raws[|done|])
      case None => Outcome(None, budget, history)
      case Some(request) =>
        if request.id in Ids(done) then Outcome(None, budget, history)
        else
          var fetched := FetchRun(c, request.id, request.verb, request.url, budget, history);
          if fetched.result.None? then Outcome(None, fetched.budget, fetched.history)
          else BatchFrom(c, raws, done + [fetched.result.value], fetched.budget, fetched.history)
  }

  function Headers(headers: map<string, string>): Json
  {
    Obj(map k | k in headers :: Str(headers[k]))
  }

  function Optional(s: Option<string>): Json
  {
    if s.Some? then Str(s.value) else Null
  }

  /** `BrokerResponse.as_dict`. */
  function ResponseJson(r: Response): Json
  {
    Obj(map[
      "id" := Str(r.id),
      "method" := Str(r.verb),
      "url" := Str(r.url),
      "status" := Num(r.status),
      "headers" := Headers(r.headers),
      "body_text" := Optional(r.bodyText),
      "body_base64" := Optional(r.bodyBase64),
      "size_bytes" := Num(r.size),
      "body_sha256" := Str(r.digest)])
  }

  function Listed(responses: seq<Response>): Json
  {
    Arr(seq(|responses|, i requires 0 <= i < |responses| => ResponseJson(responses[i])))
  }

  function BudgetJson(p: Policy, budget: Budget): Json
  {
    Obj(map[
      "requests_used" := Num(budget.requests),
      "bytes_received" := Num(budget.bytes),
      "max_requests" := Num(p.maxRequests),
      "max_total_bytes" := Num(p.maxTotalBytes)])
  }

  /** `broker_web_requests`: the responses of a batch from an empty budget. */
  function Batch(c: Call, input: map<string, Json>): Outcome<seq<Response>>
  {
    var raws := Member(input, "_rdc_web_requests", Arr([]));
    if !raws.Arr? || |raws.items| > c.p.maxRequests then Outcome(None, Budget(0, 0), [])
    else BatchFrom(c, raws.items, [], Budget(0, 0), [])
  }

  /** The dict `broker_web_requests` returns. */
  function BrokerOutput(p: Policy, input: map<string, Json>, responses: seq<Response>, budget: Budget)
    : map<string, Json>
  {
    (input - {"_rdc_web_requests"})["_rdc_web_results" := Listed(responses)]["_rdc_web_budget" := BudgetJson(p, budget)]
  }

  /** What a listed response says of it, member by member. */
  predicate SaysResponse(v: Json, r: Response)
  {
    && v.Obj?
    && v.fields.Keys == {"id", "method", "url", "status", "headers", "body_text", "body_base64", "size_bytes",
                         "body_sha256"}
    && v.fields["id"] == Str(r.id) && v.fields["method"] == Str(r.verb) && v.fields["url"] == Str(r.url)
    && v.fields["status"] == Num(r.status)
    && v.fields["headers"].Obj? && v.fields["headers"].fields.Keys == r.headers.Keys
    && (forall k :: k in r.headers ==> v.fields["headers"].fields[k] == Str(r.headers[k]))
    && v.fields["body_text"] == (if r.bodyText.Some? then Str(r.bodyText.value) else Null)
    && v.fields["body_base64"] == (if r.bodyBase64.Some? then Str(r.bodyBase64.value) else Null)
    && v.fields["size_bytes"] == Num(r.size) && v.fields["body_sha256"] == Str(r.digest)
  }

  lemma ResponseSaid(r: Response)
    ensures SaysResponse(ResponseJson(r), r)
  {
  }

  lemma BudgetSays(p: Policy, budget: Budget)
    ensures BudgetJson(p, budget).Obj?
    ensures var f := BudgetJson(p, budget).fields;
            && f.Keys == {"requests_used", "bytes_received", "max_requests", "max_total_bytes"}
            && f["requests_used"] == Num(budget.requests) && f["bytes_received"] == Num(budget.bytes)
            && f["max_requests"] == Num(p.maxRequests) && f["max_total_bytes"] == Num(p.maxTotalBytes)
  {
  }

  /** What the broker puts out: the input without its requests, one result for each response and in their order, and the
      budget with what was used and what was allowed. */
  lemma OutputSays(p: Policy, input: map<string, Json>, responses: seq<Response>, budget: Budget)
    ensures var f := BrokerOutput(p, input, responses, budget);
            && f.Keys == (input.Keys - {"_rdc_web_requests"}) + {"_rdc_web_results", "_rdc_web_budget"}
            && (forall k :: k in f && k != "_rdc_web_results" && k != "_rdc_web_budget" ==>
                k in input && f[k] == input[k])
            && f["_rdc_web_results"].Arr? && |f["_rdc_web_results"].items| == |responses|
            && (forall i :: 0 <= i < |responses| ==> SaysResponse(f["_rdc_web_results"].items[i], responses[i]))
            && f["_rdc_web_budget"].Obj?
            && f["_rdc_web_budget"].fields == map[
                 "requests_used" := Num(budget.requests), "bytes_received" := Num(budget.bytes),
                 "max_requests" := Num(p.maxRequests), "max_total_bytes" := Num(p.maxTotalBytes)]
  {
    hide SaysResponse, ResponseJson, BudgetJson;
    BudgetSays(p, budget);
    forall i | 0 <= i < |responses| ensures SaysResponse(Listed(responses).items[i], responses[i]) {
      ResponseSaid(responses[i]);
    }
  }

  // ---- safety of every run ----

  function Sends(history: seq<NetEvent>): nat
  {
    if history == [] then 0
    else Sends(history[..|history| - 1]) + (if history[|history| - 1].Send? then 1 else 0)
  }

  lemma SendsSnoc(history: seq<NetEvent>, e: NetEvent)
    ensures Sends(history + [e]) == Sends(history) + (if e.Send? then 1 else 0)
  {
    assert (history + [e])[..|history|] == history;
  }

  /** Each send goes to the target that validating its very URL, just before, produced. */
  predicate SendsValidated(w: World, p: Policy, history: seq<NetEvent>)
  {
    forall i :: 0 <= i < |history| && history[i].Send? ==>
      i > 0 && ValidateTarget(w, p, history[i].url, history[..i - 1]) == (Some(history[i].target), history[..i])
  }

  lemma SendsValidatedSnoc(w: World, p: Policy, history: seq<NetEvent>, e: NetEvent)
    requires SendsValidated(w, p, history)
    requires e.Send? ==> |history| > 0
                         && ValidateTarget(w, p, e.url, history[..|history| - 1]) == (Some(e.target), history)
    ensures SendsValidated(w, p, history + [e])
  {
    var h := history + [e];
    forall i | 0 <= i < |h| && h[i].Send?
      ensures i > 0 && ValidateTarget(w, p, h[i].url, h[..i - 1]) == (Some(h[i].target), h[..i])
    {
      assert h[..i] == history[..i];
      if i == |history| {
        assert h[..i - 1] == history[..|history| - 1] && history[..i] == history;
      } else {
        assert h[..i - 1] == history[..i - 1];
      }
    }
  }

  /** What a validation and the send after it do to the history. */
  lemma OneSend(c: Call, url: string, verb: string, history: seq<NetEvent>)
    requires SendsValidated(c.w, c.p, history)
    ensures var (target, h1) := ValidateTarget(c.w, c.p, url, history);
            && history <= h1 && SendsValidated(c.w, c.p, h1) && Sends(h1) == Sends(history)
            && (target.Some? ==>
                  var (reply, h2) := RequestOnce(c.w, c.p, url, target.value, verb, c.authorization, h1);
                  && history <= h1 <= h2
                  && SendsValidated(c.w, c.p, h2)
                  && Sends(history) <= Sends(h2) <= Sends(history) + 1
                  && (reply.Some? ==> Sends(h2) == Sends(history) + 1))
  {
    hide PublicAddresses, AdmittedUrl, ReadReply;
    var (target, h1) := ValidateTarget(c.w, c.p, url, history);
    if h1 != history {
      var e := Lookup(h1[|history|].host);
      assert h1 == history + [e];
      SendsSnoc(history, e);
      SendsValidatedSnoc(c.w, c.p, history, e);
    }
    if target.Some? {
      var e := Send(url, target.value, verb);
      assert h1[..|h1| - 1] == history;
      SendsSnoc(h1, e);
      SendsValidatedSnoc(c.w, c.p, h1, e);
    }
  }

  /** The response reports what the network answered to the last send. */
  predicate Delivers(c: Call, history: seq<NetEvent>, r: Response)
  {
    && |history| > 0
    && var last := history[|history| - 1];
       var before := history[..|history| - 1];
    && last.Send?
    && last.target.url == r.url && last.verb == r.verb
    && var reply := ReadReply(c.p, r.verb, c.w.net.exchange(before, last.target, r.verb));
    && reply.Some?
    && r.status == reply.value.status
    && r.headers == reply.value.headers
    && r.size == |reply.value.body|
    && r.digest == c.w.lib.sha256(reply.value.body)
    && ReportsBody(c.w.lib, reply.value.body, if "content-type" in r.headers then r.headers["content-type"] else "",
                   r.bodyText, r.bodyBase64)
  }

  /**
   From index `from` on the history is one redirect chain: a lookup and a send of the URL, and, unless they are the
   last, the network answered that send with a redirect, and the chain goes on with its Location joined to the target's
   URL.
   */
  predicate Follows(c: Call, verb: string, url: string, history: seq<NetEvent>, from: nat)
    decreases |history| - from
  {
    && from + 2 <= |history|
    && history[from].Lookup? && history[from + 1].Send?
    && var sent := history[from + 1];
    && sent.url == url && sent.verb == verb
    && (from + 2 < |history| ==>
          var reply := ReadReply(c.p, verb, c.w.net.exchange(history[..from + 1], sent.target, verb));
          && reply.Some? && IsRedirect(reply.value.status) && reply.value.location.Some?
          && Follows(c, verb, c.w.lib.urljoin(sent.target.url, reply.value.location.value), history, from + 2))
  }

  /** Some stretch of the history is the redirect chain from this URL on, and the response reports what its last send
      got. */
  predicate Delivered(c: Call, url: string, history: seq<NetEvent>, r: Response)
  {
    exists j: nat, k: nat :: j <= k <= |history| && DeliveredAt(c, url, history, r, j, k)
  }

  predicate DeliveredAt(c: Call, url: string, history: seq<NetEvent>, r: Response, j: nat, k: nat)
    requires j <= k <= |history|
  {
    Follows(c, r.verb, url, history[..k], j) && Delivers(c, history[..k], r)
  }

  lemma DeliveredLater(c: Call, url: string, history: seq<NetEvent>, later: seq<NetEvent>, r: Response)
    requires Delivered(c, url, history, r) && history <= later
    ensures Delivered(c, url, later, r)
  {
    hide Delivers, Follows;
    var j: nat, k: nat :| j <= k <= |history| && DeliveredAt(c, url, history, r, j, k);
    assert later[..k] == history[..k];
    assert DeliveredAt(c, url, later, r, j, k);
  }

  /** In every run of a fetch, whether or not it succeeds. */
  predicate FetchKept(c: Call, redirects: nat, budget: Budget, history: seq<NetEvent>, o: Outcome<Response>)
  {
    && history <= o.history
    && SendsValidated(c.w, c.p, o.history)
    && Sends(history) <= Sends(o.history)
    && budget.requests <= o.budget.requests
    && Sends(o.history) - Sends(history) <= o.budget.requests - budget.requests
    && o.budget.requests <= (if budget.requests <= c.p.maxRequests then c.p.maxRequests else budget.requests)
    && Sends(o.history) - Sends(history) <= (if redirects <= c.p.maxRedirects then c.p.maxRedirects - redirects + 1
                                             else 1)
  }

  /** In every fetch that succeeds. */
  predicate FetchAnswers(c: Call, id: string, verb: string, url: string, budget: Budget, history: seq<NetEvent>,
                         o: Outcome<Response>)
    requires o.result.Some?
  {
    var r := o.result.value;
    && r.id == id && r.verb == verb
    && !IsRedirect(r.status)
    && r.headers.Keys <= SAFE_HEADERS
    && (forall k :: k in r.headers ==> |r.headers[k]| <= 2048)
    && "https://" <= r.url
    && r.bodyText.Some? != r.bodyBase64.Some?
    && r.size <= c.p.maxResponseBytes
    && o.budget.bytes == budget.bytes + r.size <= c.p.maxTotalBytes
    && o.budget.requests - budget.requests == Sends(o.history) - Sends(history)
    && Delivers(c, o.history, r)
    && Follows(c, verb, url, o.history, |history|)
  }

  /** The last round of a fetch that ends in a response. */
  lemma {:induction false} ConcludeAnswers(c: Call, id: string, verb: string, url: string, budget: Budget,
                                           history: seq<NetEvent>)
    requires SendsValidated(c.w, c.p, history) && c.p.maxResponseBytes >= 0
    requires var (target, h1) := ValidateTarget(c.w, c.p, url, history);
             && target.Some?
             && var (reply, h2) := RequestOnce(c.w, c.p, url, target.value, verb, c.authorization, h1);
             && reply.Some? && !IsRedirect(reply.value.status)
    ensures var (target, h1) := ValidateTarget(c.w, c.p, url, history);
            var (reply, h2) := RequestOnce(c.w, c.p, url, target.value, verb, c.authorization, h1);
            var o := Conclude(c, id, verb, target.value, reply.value, Budget(budget.requests + 1, budget.bytes), h2);
            && o.history == h2 && o.budget.requests == budget.requests + 1
            && (o.result.Some? ==> FetchAnswers(c, id, verb, url, budget, history, o))
  {
    hide SendsValidated, Sends, PublicAddresses, AdmittedUrl, ReadReply, DecodeBody, NamesText, Base64.Decode;
    OneSend(c, url, verb, history);
    var (target, h1) := ValidateTarget(c.w, c.p, url, history);
    var (reply, h2) := RequestOnce(c.w, c.p, url, target.value, verb, c.authorization, h1);
    BodyDecoded(c.w.lib, reply.value.body,
                if "content-type" in reply.value.headers then reply.value.headers["content-type"] else "");
    assert h2[..|h2| - 1] == h1;
  }

  /** A fetch that goes on after a redirect. */
  lemma FetchAnswersEarlier(c: Call, id: string, verb: string, url: string, next: string, budget: Budget,
                            history: seq<NetEvent>, spent: Budget, later: seq<NetEvent>, o: Outcome<Response>)
    requires o.result.Some? ==> FetchAnswers(c, id, verb, next, spent, later, o)
    requires spent == Budget(budget.requests + 1, budget.bytes) && Sends(later) == Sends(history) + 1
    requires later <= o.history && Redirects(c, verb, url, next, history, later)
    ensures o.result.Some? ==> FetchAnswers(c, id, verb, url, budget, history, o)
  {
    hide Delivers, Sends, Follows, Redirects;
    if o.result.Some? { FollowsEarlier(c, verb, url, next, history, later, o.history); }
  }

  /** One round: a lookup and a send of the URL, answered with a redirect to the next one. */
  predicate Redirects(c: Call, verb: string, url: string, next: string, history: seq<NetEvent>, later: seq<NetEvent>)
  {
    && |later| == |history| + 2 && history == later[..|history|]
    && later[|history|].Lookup? && later[|history| + 1].Send?
    && var sent := later[|history| + 1];
    && sent.url == url && sent.verb == verb
    && var reply := ReadReply(c.p, verb, c.w.net.exchange(later[..|history| + 1], sent.target, verb));
    && reply.Some? && IsRedirect(reply.value.status) && reply.value.location.Some?
    && next == c.w.lib.urljoin(sent.target.url, reply.value.location.value)
  }

  lemma FollowsEarlier(c: Call, verb: string, url: string, next: string, history: seq<NetEvent>, later: seq<NetEvent>,
                       end: seq<NetEvent>)
    requires Redirects(c, verb, url, next, history, later) && later <= end && Follows(c, verb, next, end, |later|)
    ensures Follows(c, verb, url, end, |history|)
  {
    hide ReadReply;
    assert end[..|history| + 1] == later[..|history| + 1];
  }

  lemma RoundRedirects(c: Call, verb: string, url: string, history: seq<NetEvent>)
    requires var (target, h1) := ValidateTarget(c.w, c.p, url, history);
             && target.Some?
             && var (reply, h2) := RequestOnce(c.w, c.p, url, target.value, verb, c.authorization, h1);
             && reply.Some? && IsRedirect(reply.value.status) && reply.value.location.Some?
    ensures var (target, h1) := ValidateTarget(c.w, c.p, url, history);
            var (reply, h2) := RequestOnce(c.w, c.p, url, target.value, verb, c.authorization, h1);
            Redirects(c, verb, url, c.w.lib.urljoin(target.value.url, reply.value.location.value), history, h2)
  {
    var (target, h1) := ValidateTarget(c.w, c.p, url, history);
    hide ValidateTarget, ReadReply;
    var (reply, h2) := RequestOnce(c.w, c.p, url, target.value, verb, c.authorization, h1);
    assert h2[..|h1|] == h1;
    assert h2[..|history|] == h1[..|history|];
  }

  lemma {:induction false} FetchFromSafe(c: Call, id: string, verb: string, url: string, redirects: nat, budget: Budget,
                                         history: seq<NetEvent>)
    requires SendsValidated(c.w, c.p, history) && c.p.maxResponseBytes >= 0
    ensures var o := FetchFrom(c, id, verb, url, redirects, budget, history);
            && FetchKept(c, redirects, budget, history, o)
            && (o.result.Some? ==> FetchAnswers(c, id, verb, url, budget, history, o))
    decreases if redirects <= c.p.maxRedirects then c.p.maxRedirects - redirects + 1 else 0
  {
    hide SendsValidated, Sends, ValidateTarget, RequestOnce, Conclude, FetchAnswers, Redirects;
    if budget.requests < c.p.maxRequests {
      OneSend(c, url, verb, history);
      var (target, h1) := ValidateTarget(c.w, c.p, url, history);
      if target.Some? {
        var spent := Budget(budget.requests + 1, budget.bytes);
        var (reply, h2) := RequestOnce(c.w, c.p, url, target.value, verb, c.authorization, h1);
        if reply.Some? && !IsRedirect(reply.value.status) {
          ConcludeAnswers(c, id, verb, url, budget, history);
        } else if reply.Some? && reply.value.location.Some?
           && reply.value.location.value != "" && redirects < c.p.maxRedirects {
          var next := c.w.lib.urljoin(target.value.url, reply.value.location.value);
          FetchFromSafe(c, id, verb, next, redirects + 1, spent, h2);
          RoundRedirects(c, verb, url, history);
          FetchAnswersEarlier(c, id, verb, url, next, budget, history, spent, h2,
                              FetchFrom(c, id, verb, next, redirects + 1, spent, h2));
        }
      }
    }
  }

  function TotalSize(responses: seq<Response>): nat
  {
    if responses == [] then 0 else TotalSize(responses[..|responses| - 1]) + responses[|responses| - 1].size
  }

  /** The responses so far answer the first requests, in order, by id, verb and URL, and no id comes twice. */
  predicate Answered(c: Call, raws: seq<Json>, done: seq<Response>, history: seq<NetEvent>)
  {
    && |done| <= |raws|
    && (forall i :: 0 <= i < |done| ==>
          && ReadRequest(c.w.lib, raws[i]).Some?
          && done[i].id == ReadRequest(c.w.lib, raws[i]).value.id
          && done[i].verb == ReadRequest(c.w.lib, raws[i]).value.verb
          && Delivered(c, ReadRequest(c.w.lib, raws[i]).value.url, history, done[i])
          && !IsRedirect(done[i].status)
          && done[i].size <= c.p.maxResponseBytes
          && "https://" <= done[i].url
          && done[i].headers.Keys <= SAFE_HEADERS
          && (forall k :: k in done[i].headers ==> |done[i].headers[k]| <= 2048)
          && (done[i].bodyText.Some? != done[i].bodyBase64.Some?))
    && (forall i, j :: 0 <= i < j < |done| ==> done[i].id != done[j].id)
  }

  /** Before each request of a batch. */
  predicate BatchInvariant(c: Call, raws: seq<Json>, done: seq<Response>, budget: Budget, history: seq<NetEvent>)
  {
    && Answered(c, raws, done, history)
    && SendsValidated(c.w, c.p, history)
    && budget.requests == Sends(history)
    && budget.bytes == TotalSize(done)
    && (budget.requests == 0 || budget.requests <= c.p.maxRequests)
    && (budget.bytes == 0 || budget.bytes <= c.p.maxTotalBytes)
  }

  /** A batch, however it ends: sends within the request budget, each validated; and on success, faithful results. */
  predicate BatchSafe(c: Call, raws: seq<Json>, o: Outcome<seq<Response>>)
  {
    && SendsValidated(c.w, c.p, o.history)
    && (Sends(o.history) == 0 || Sends(o.history) <= c.p.maxRequests)
    && (o.result.Some? ==>
          && |o.result.value| == |raws|
          && Answered(c, raws, o.result.value, o.history)
          && o.budget.requests == Sends(o.history)
          && o.budget.bytes == TotalSize(o.result.value)
          && (o.budget.bytes == 0 || o.budget.bytes <= c.p.maxTotalBytes))
  }

  lemma DeliveredNow(c: Call, url: string, history: seq<NetEvent>, r: Response, from: nat)
    requires from <= |history| && Follows(c, r.verb, url, history, from) && Delivers(c, history, r)
    ensures Delivered(c, url, history, r)
  {
    hide Delivers, Follows;
    assert history[..|history|] == history;
    assert DeliveredAt(c, url, history, r, from, |history|);
  }

  lemma {:induction false} AnsweredSnoc(c: Call, raws: seq<Json>, done: seq<Response>, history: seq<NetEvent>,
                                        r: Response, later: seq<NetEvent>)
    requires Answered(c, raws, done, history) && |done| < |raws| && history <= later && Delivers(c, later, r)
    requires ReadRequest(c.w.lib, raws[|done|]).Some?
    requires var q := ReadRequest(c.w.lib, raws[|done|]).value;
             && r.id == q.id && r.verb == q.verb && q.id !in Ids(done)
             && Follows(c, q.verb, q.url, later, |history|)
    requires !IsRedirect(r.status) && r.size <= c.p.maxResponseBytes && "https://" <= r.url
    requires r.headers.Keys <= SAFE_HEADERS && (r.bodyText.Some? != r.bodyBase64.Some?)
    requires forall k :: k in r.headers ==> |r.headers[k]| <= 2048
    ensures Answered(c, raws, done + [r], later)
    ensures TotalSize(done + [r]) == TotalSize(done) + r.size
  {
    hide ReadRequest, Delivers, Delivered, Follows;
    var next := done + [r];
    assert next[..|done|] == done;
    DeliveredNow(c, ReadRequest(c.w.lib, raws[|done|]).value.url, later, r, |history|);
    forall i | 0 <= i < |done| ensures Delivered(c, ReadRequest(c.w.lib, raws[i]).value.url, later, done[i]) {
      DeliveredLater(c, ReadRequest(c.w.lib, raws[i]).value.url, history, later, done[i]);
    }
    forall i | 0 <= i < |done| ensures next[i].id != r.id { assert done[i].id in Ids(done); }
  }

  /** Each send is under a method the policy allows. */
  predicate VerbsAllowed(p: Policy, history: seq<NetEvent>)
  {
    forall i :: 0 <= i < |history| && history[i].Send? ==> history[i].verb in p.allowedMethods
  }

  lemma {:induction false} FetchVerbs(c: Call, id: string, verb: string, url: string, redirects: nat, budget: Budget,
                                      history: seq<NetEvent>)
    requires VerbsAllowed(c.p, history) && verb in c.p.allowedMethods
    ensures VerbsAllowed(c.p, FetchFrom(c, id, verb, url, redirects, budget, history).history)
    decreases if redirects <= c.p.maxRedirects then c.p.maxRedirects - redirects + 1 else 0
  {
    hide AdmittedUrl, PublicAddresses, ReadReply, DecodeBody;
    var (target, h1) := ValidateTarget(c.w, c.p, url, history);
    if target.Some? {
      var (reply, h2) := RequestOnce(c.w, c.p, url, target.value, verb, c.authorization, h1);
      if reply.Some? && reply.value.location.Some? && redirects < c.p.maxRedirects {
        FetchVerbs(c, id, verb, c.w.lib.urljoin(target.value.url, reply.value.location.value), redirects + 1,
                   Budget(budget.requests + 1, budget.bytes), h2);
      }
    }
  }

  lemma {:induction false} BatchVerbs(c: Call, raws: seq<Json>, done: seq<Response>, budget: Budget,
                                      history: seq<NetEvent>)
    requires |done| <= |raws| && VerbsAllowed(c.p, history)
    ensures VerbsAllowed(c.p, BatchFrom(c, raws, done, budget, history).history)
    decreases |raws| - |done|
  {
    hide FetchFrom, ReadRequest, VerbsAllowed;
    if |done| < |raws| && ReadRequest(c.w.lib, raws[|done|]).Some? {
      var q := ReadRequest(c.w.lib, raws[|done|]).value;
      if q.verb in c.p.allowedMethods {
        FetchVerbs(c, q.id, q.verb, q.url, 0, budget, history);
        var o := FetchRun(c, q.id, q.verb, q.url, budget, history);
        if o.result.Some? { BatchVerbs(c, raws, done + [o.result.value], o.budget, o.history); }
      }
    }
  }

  lemma UnsafeFetch(c: Call, id: string, verb: string, url: string, budget: Budget, history: seq<NetEvent>)
    requires !SafeAuthorization(c.authorization)
    ensures var o := FetchRun(c, id, verb, url, budget, history);
            o.result.None? && Sends(o.history) == Sends(history)
  {
    hide AdmittedUrl, PublicAddresses;
    var (target, h1) := ValidateTarget(c.w, c.p, url, history);
    if h1 != history {
      assert h1 == history + [h1[|history|]];
      SendsSnoc(history, h1[|history|]);
    }
  }

  /** With a credential that is empty, too long or has a line break, nothing is sent at all. */
  lemma UnsafeCredentialSendsNothing(c: Call, input: map<string, Json>)
    requires c.authorization.Some?
    requires var a := c.authorization.value; a == "" || |a| > 8192 || '\r' in a || '\n' in a
    ensures Sends(Batch(c, input).history) == 0
  {
    hide ReadRequest, FetchRun;
    var raws := Member(input, "_rdc_web_requests", Arr([]));
    if raws.Arr? && |raws.items| > 0 && ReadRequest(c.w.lib, raws.items[0]).Some? {
      var q := ReadRequest(c.w.lib, raws.items[0]).value;
      UnsafeFetch(c, q.id, q.verb, q.url, Budget(0, 0), []);
    }
  }

  lemma {:induction false} BatchFromSafe(c: Call, raws: seq<Json>, done: seq<Response>, budget: Budget,
                                         history: seq<NetEvent>)
    requires BatchInvariant(c, raws, done, budget, history) && c.p.maxResponseBytes >= 0
    ensures BatchSafe(c, raws, BatchFrom(c, raws, done, budget, history))
    decreases |raws| - |done|
  {
    hide FetchFrom, ReadRequest, SendsValidated, Sends, TotalSize, Delivers, Delivered, Follows;
    if |done| < |raws| && ReadRequest(c.w.lib, raws[|done|]).Some? {
      var q := ReadRequest(c.w.lib, raws[|done|]).value;
      if q.id !in Ids(done) && q.verb in c.p.allowedMethods {
        FetchFromSafe(c, q.id, q.verb, q.url, 0, budget, history);
        var o := FetchFrom(c, q.id, q.verb, q.url, 0, budget, history);
        if o.result.Some? {
          AnsweredSnoc(c, raws, done, history, o.result.value, o.history);
          BatchFromSafe(c, raws, done + [o.result.value], o.budget, o.history);
        }
      }
    }
  }

  /**
   Every run of a batch: at most max_requests sends, each to the target validated for its URL; on success one result a
   request, in order, under its id and at the end of the redirect chain from its URL, no final redirect, and the bytes
   counted are the bytes returned.
   */
  lemma BatchIsSafe(c: Call, input: map<string, Json>)
    requires SafePolicy(c.p)
    ensures var raws := Member(input, "_rdc_web_requests", Arr([]));
            var o := Batch(c, input);
            && (o.result.Some? ==> raws.Arr?)
            && BatchSafe(c, if raws.Arr? then raws.items else [], o)
            && Sends(o.history) <= c.p.maxRequests && VerbsAllowed(c.p, o.history)
            && (o.result.Some? ==> o.budget.bytes <= c.p.maxTotalBytes)
  {
    var raws := Member(input, "_rdc_web_requests", Arr([]));
    if raws.Arr? && |raws.items| <= c.p.maxRequests {
      BatchFromSafe(c, raws.items, [], Budget(0, 0), []);
      BatchVerbs(c, raws.items, [], Budget(0, 0), []);
    }
  }

  // ---- when a fetch and a batch succeed ----

  /** Where a fetch is between two rounds. */
  datatype Point = Point(url: string, history: seq<NetEvent>)

  /** One round answered by a redirect that says where to. */
  function Hop(c: Call, verb: string, at: Point): Option<Point>
  {
    var (target, h1) := ValidateTarget(c.w, c.p, at.url, at.history);
    if target.None? then None
    else
      var (reply, h2) := RequestOnce(c.w, c.p, at.url, target.value, verb, c.authorization, h1);
      if reply.Some? && IsRedirect(reply.value.status) && reply.value.location.Some? && reply.value.location.value != ""
      then Some(Point(c.w.lib.urljoin(target.value.url, reply.value.location.value), h2))
      else None
  }

  function Hops(c: Call, verb: string, at: Point, n: nat): Option<Point>
    decreases n
  {
    if n == 0 then Some(at)
    else match Hop(c, verb, at)
      case None => None
      case Some(next) => Hops(c, verb, next, n - 1)
  }

  /** A last round: the target is valid, the reply taken, no redirect, its body within what is left and decodable. */
  predicate Lands(c: Call, verb: string, at: Point, bytes: nat)
  {
    var (target, h1) := ValidateTarget(c.w, c.p, at.url, at.history);
    && target.Some?
    && var (reply, h2) := RequestOnce(c.w, c.p, at.url, target.value, verb, c.authorization, h1);
    && reply.Some? && !IsRedirect(reply.value.status)
    && bytes + |reply.value.body| <= c.p.maxTotalBytes
    && var contentType := if "content-type" in reply.value.headers then reply.value.headers["content-type"] else "";
    && (NamesText(contentType) ==> c.w.lib.decodeText(reply.value.body, contentType).Some?)
  }

  /** After n redirects, each followed within the limits, the fetch lands. */
  predicate Arrives(c: Call, verb: string, at: Point, redirects: nat, budget: Budget, n: nat)
  {
    && (n == 0 || redirects + n <= c.p.maxRedirects)
    && budget.requests + n < c.p.maxRequests
    && Hops(c, verb, at, n).Some?
    && Lands(c, verb, Hops(c, verb, at, n).value, budget.bytes)
  }

  lemma HopIsRound(c: Call, id: string, verb: string, url: string, redirects: nat, budget: Budget,
                   history: seq<NetEvent>)
    requires budget.requests < c.p.maxRequests && Hop(c, verb, Point(url, history)).Some?
    ensures !Lands(c, verb, Point(url, history), budget.bytes)
    ensures var next := Hop(c, verb, Point(url, history)).value;
            FetchFrom(c, id, verb, url, redirects, budget, history) ==
            if redirects >= c.p.maxRedirects then Outcome(None, Budget(budget.requests + 1, budget.bytes), next.history)
            else FetchFrom(c, id, verb, next.url, redirects + 1, Budget(budget.requests + 1, budget.bytes),
                           next.history)
  {
    hide ValidateTarget, RequestOnce, Conclude, NamesText;
  }

  lemma LandsOrFails(c: Call, id: string, verb: string, url: string, redirects: nat, budget: Budget,
                     history: seq<NetEvent>)
    requires budget.requests < c.p.maxRequests && Hop(c, verb, Point(url, history)).None?
    ensures FetchFrom(c, id, verb, url, redirects, budget, history).result.Some? <==>
            Lands(c, verb, Point(url, history), budget.bytes)
  {
    hide ValidateTarget, RequestOnce, NamesText, DecodeBody;
    var (target, h1) := ValidateTarget(c.w, c.p, url, history);
    if target.Some? {
      var (reply, h2) := RequestOnce(c.w, c.p, url, target.value, verb, c.authorization, h1);
      if reply.Some? {
        BodyDecoded(c.w.lib, reply.value.body,
                    if "content-type" in reply.value.headers then reply.value.headers["content-type"] else "");
      }
    }
  }

  /** A fetch succeeds exactly if, after some number of redirects within both limits, it lands. */
  lemma {:induction false} FetchSucceedsExactly(c: Call, id: string, verb: string, url: string, redirects: nat,
                                                budget: Budget, history: seq<NetEvent>)
    ensures FetchFrom(c, id, verb, url, redirects, budget, history).result.Some? <==>
            exists n: nat :: Arrives(c, verb, Point(url, history), redirects, budget, n)
    decreases if redirects <= c.p.maxRedirects then c.p.maxRedirects - redirects + 1 else 0
  {
    hide FetchFrom, Hop, Lands;
    var at := Point(url, history);
    if budget.requests >= c.p.maxRequests {
      NoBudget(c, id, verb, url, redirects, budget, history);
    } else if Hop(c, verb, at).None? {
      LandsOrFails(c, id, verb, url, redirects, budget, history);
      if Lands(c, verb, at, budget.bytes) { assert Arrives(c, verb, at, redirects, budget, 0); }
    } else {
      HopIsRound(c, id, verb, url, redirects, budget, history);
      var next, spent := Hop(c, verb, at).value, Budget(budget.requests + 1, budget.bytes);
      var more := redirects + 1;
      if redirects < c.p.maxRedirects {
        FetchSucceedsExactly(c, id, verb, next.url, more, spent, next.history);
        assert next == Point(next.url, next.history);
        if n: nat :| Arrives(c, verb, next, more, spent, n) {
          assert Arrives(c, verb, at, redirects, budget, n + 1);
        }
        if n: nat :| Arrives(c, verb, at, redirects, budget, n) {
          assert n > 0;
          assert Arrives(c, verb, next, more, spent, n - 1);
        }
      }
    }
  }

  lemma NoBudget(c: Call, id: string, verb: string, url: string, redirects: nat, budget: Budget, history: seq<NetEvent>)
    requires budget.requests >= c.p.maxRequests
    ensures FetchFrom(c, id, verb, url, redirects, budget, history) == Outcome(None, budget, history)
  {
  }

  /** The budget and the traffic after the first requests of a batch, each fetched from where the one before ended. */
  function Progress(c: Call, raws: seq<Json>, count: nat): Option<(Budget, seq<NetEvent>)>
    requires count <= |raws|
  {
    if count == 0 then Some((Budget(0, 0), []))
    else
      var before := Progress(c, raws, count - 1);
      var q := ReadRequest(c.w.lib, raws[count - 1]);
      if before.None? || q.None? then None
      else
        var o := FetchRun(c, q.value.id, q.value.verb, q.value.url, before.value.0, before.value.1);
        if o.result.None? then None else Some((o.budget, o.history))
  }

  predicate DistinctIds(c: Call, raws: seq<Json>)
  {
    forall i, j :: 0 <= i < j < |raws| && ReadRequest(c.w.lib, raws[i]).Some? && ReadRequest(c.w.lib, raws[j]).Some? ==>
      ReadRequest(c.w.lib, raws[i]).value.id != ReadRequest(c.w.lib, raws[j]).value.id
  }

  /** The responses so far carry the ids of the requests so far. */
  predicate IdsMatch(c: Call, raws: seq<Json>, done: seq<Response>)
  {
    && |done| <= |raws|
    && forall i :: 0 <= i < |done| ==>
         ReadRequest(c.w.lib, raws[i]).Some? && done[i].id == ReadRequest(c.w.lib, raws[i]).value.id
  }

  predicate NewIds(c: Call, raws: seq<Json>, from: nat)
  {
    forall i, j :: 0 <= i < j < |raws| && from <= j
                   && ReadRequest(c.w.lib, raws[i]).Some? && ReadRequest(c.w.lib, raws[j]).Some? ==>
      ReadRequest(c.w.lib, raws[i]).value.id != ReadRequest(c.w.lib, raws[j]).value.id
  }

  lemma {:induction false} ProgressStops(c: Call, raws: seq<Json>, i: nat, j: nat)
    requires i <= j <= |raws| && Progress(c, raws, j).Some?
    ensures Progress(c, raws, i).Some?
    decreases j
  {
    hide FetchRun, ReadRequest;
    if i < j { ProgressStops(c, raws, i, j - 1); }
  }

  lemma {:induction false} BatchFromExactly(c: Call, raws: seq<Json>, done: seq<Response>, budget: Budget,
                                            history: seq<NetEvent>)
    requires IdsMatch(c, raws, done) && Progress(c, raws, |done|) == Some((budget, history))
    ensures BatchFrom(c, raws, done, budget, history).result.Some? <==>
            Progress(c, raws, |raws|).Some? && NewIds(c, raws, |done|)
    decreases |raws| - |done|
  {
    hide ReadRequest, FetchFrom;
    var n := |done|;
    if n < |raws| {
      if Progress(c, raws, |raws|).Some? { ProgressStops(c, raws, n + 1, |raws|); }
      var q := ReadRequest(c.w.lib, raws[n]);
      if q.Some? {
        if q.value.id in Ids(done) {
          var i :| 0 <= i < n && done[i].id == q.value.id;
          assert !NewIds(c, raws, n);
        } else {
          var o := FetchRun(c, q.value.id, q.value.verb, q.value.url, budget, history);
          if o.result.Some? {
            FetchKeepsId(c, q.value.id, q.value.verb, q.value.url, 0, budget, history);
            BatchFromExactly(c, raws, done + [o.result.value], o.budget, o.history);
            NewIdsStep(c, raws, done);
          }
        }
      }
    }
  }

  lemma NewIdsStep(c: Call, raws: seq<Json>, done: seq<Response>)
    requires IdsMatch(c, raws, done) && |done| < |raws| && ReadRequest(c.w.lib, raws[|done|]).Some?
    requires ReadRequest(c.w.lib, raws[|done|]).value.id !in Ids(done)
    ensures NewIds(c, raws, |done|) <==> NewIds(c, raws, |done| + 1)
  {
    hide ReadRequest;
    forall i | 0 <= i < |done| ensures done[i].id != ReadRequest(c.w.lib, raws[|done|]).value.id {
      assert done[i].id in Ids(done);
    }
  }

  /** A batch succeeds exactly if it is a list within the request limit, every entry reads as a request, no id comes
      twice, and each fetch, from where the one before ended, succeeds. */
  lemma BatchSucceedsExactly(c: Call, input: map<string, Json>)
    ensures var raws := if "_rdc_web_requests" in input then input["_rdc_web_requests"] else Arr([]);
            Batch(c, input).result.Some? <==>
              && raws.Arr? && |raws.items| <= c.p.maxRequests
              && Progress(c, raws.items, |raws.items|).Some? && DistinctIds(c, raws.items)
  {
    hide ReadRequest, FetchRun;
    var raws := Member(input, "_rdc_web_requests", Arr([]));
    if raws.Arr? {
      BatchFromExactly(c, raws.items, [], Budget(0, 0), []);
    }
  }

  /** An entry reads as a request exactly if it is an object whose id is well formed, whose method, GET if it is
      missing, is GET or HEAD in whichever case, and whose URL is not empty. */
  lemma RequestReadExactly(lib: Library, raw: Json)
    ensures var r := ReadRequest(lib, raw);
            && (r.Some? ==> raw.Obj?)
            && (raw.Obj? ==>
                  var id := lib.pyStr(if "id" in raw.fields then raw.fields["id"] else Str(""));
                  var verb := Upper(lib.pyStr(if "method" in raw.fields then raw.fields["method"] else Str("GET")));
                  var url := lib.pyStr(if "url" in raw.fields then raw.fields["url"] else Str(""));
                  && (r.Some? <==> RequestId(id) && (verb == "GET" || verb == "HEAD") && url != "")
                  && (r.Some? ==> r.value.id == id && r.value.verb == verb && r.value.url == url))
  {
    hide RequestId, Upper;
  }

  /** A single fetch sends at most max_redirects + 1 requests. */
  lemma FetchSendsBounded(c: Call, id: string, verb: string, url: string, budget: Budget, history: seq<NetEvent>)
    requires SafePolicy(c.p) && SendsValidated(c.w, c.p, history)
    ensures Sends(FetchRun(c, id, verb, url, budget, history).history) - Sends(history) <= c.p.maxRedirects + 1
  {
    if verb in c.p.allowedMethods { FetchFromSafe(c, id, verb, url, 0, budget, history); }
  }

  // ---- the loops ----

  lemma IdsSnoc(done: seq<Response>, r: Response)
    ensures Ids(done + [r]) == Ids(done) + {r.id}
  {
    var next := done + [r];
    forall x | x in Ids(done) + {r.id} ensures x in Ids(next) {
      if x == r.id {
        assert next[|done|].id == x;
      } else {
        var i :| 0 <= i < |done| && done[i].id == x;
        assert next[i].id == x;
      }
    }
  }

  lemma {:induction false} FetchKeepsId(c: Call, id: string, verb: string, url: string, redirects: nat, budget: Budget,
                                        history: seq<NetEvent>)
    ensures var o := FetchFrom(c, id, verb, url, redirects, budget, history); o.result.Some? ==> o.result.value.id == id
    decreases if redirects <= c.p.maxRedirects then c.p.maxRedirects - redirects + 1 else 0
  {
    var (target, h1) := ValidateTarget(c.w, c.p, url, history);
    if target.Some? {
      var (reply, h2) := RequestOnce(c.w, c.p, url, target.value, verb, c.authorization, h1);
      if reply.Some? && reply.value.location.Some? && redirects < c.p.maxRedirects {
        FetchKeepsId(c, id, verb, c.w.lib.urljoin(target.value.url, reply.value.location.value), redirects + 1,
                     Budget(budget.requests + 1, budget.bytes), h2);
      }
    }
  }

  /** The `budget` dict a batch shares between its fetches. */
  class BudgetCell {
    var requests: nat
    var bytes: nat

    constructor ()
      ensures requests == 0 && bytes == 0
    {
      requests, bytes := 0, 0;
    }

    function Value(): Budget
      reads this
    {
      Budget(requests, bytes)
    }
  }

  /** `_fetch`. */
  method Fetch(c: Call, id: string, verb: string, url: string, budget: BudgetCell, before: seq<NetEvent>)
    returns (r: Option<Response>, history: seq<NetEvent>)
    modifies budget
    ensures Outcome(r, budget.Value(), history) == FetchRun(c, id, verb, url, old(budget.Value()), before)
  {
    history := before;
    if verb !in c.p.allowedMethods { return None, history; }
    var currentUrl, redirectCount := url, 0;
    while true
      invariant FetchRun(c, id, verb, url, old(budget.Value()), before)
                == FetchFrom(c, id, verb, currentUrl, redirectCount, budget.Value(), history)
      decreases if redirectCount <= c.p.maxRedirects then c.p.maxRedirects - redirectCount + 1 else 0
    {
      if budget.requests >= c.p.maxRequests { return None, history; }
      var (target, h1) := ValidateTarget(c.w, c.p, currentUrl, history);
      history := h1;
      if target.None? { return None, history; }
      budget.requests := budget.requests + 1;
      var (reply, h2) := RequestOnce(c.w, c.p, currentUrl, target.value, verb, c.authorization, history);
      history := h2;
      if reply.None? { return None, history; }
      if IsRedirect(reply.value.status) {
        if reply.value.location.None? || reply.value.location.value == "" { return None, history; }
        if redirectCount >= c.p.maxRedirects { return None, history; }
        redirectCount := redirectCount + 1;
        currentUrl := c.w.lib.urljoin(target.value.url, reply.value.location.value);
        continue;
      }
      var body := reply.value.body;
      budget.bytes := budget.bytes + |body|;
      if budget.bytes > c.p.maxTotalBytes { return None, history; }
      var contentType := if "content-type" in reply.value.headers then reply.value.headers["content-type"] else "";
      var decoded := DecodeBody(c.w.lib, body, contentType);
      if decoded.None? { return None, history; }
      r := Some(Response(id, verb, target.value.url, reply.value.status, reply.value.headers,
                         decoded.value.0, decoded.value.1, |body|, c.w.lib.sha256(body)));
      return r, history;
    }
  }

  /** `broker_web_requests`. */
  method BrokerWebRequests(c: Call, input: map<string, Json>)
    returns (output: Option<map<string, Json>>, history: seq<NetEvent>)
    ensures history == Batch(c, input).history
    ensures output == match Batch(c, input).result
                      case None => None
                      case Some(responses) => Some(BrokerOutput(c.p, input, responses, Batch(c, input).budget))
  {
    history := [];
    var raws := Member(input, "_rdc_web_requests", Arr([]));
    if !raws.Arr? { return None, history; }
    if |raws.items| > c.p.maxRequests { return None, history; }
    var budget := new BudgetCell();
    var responses: seq<Response> := [];
    var seenIds: set<string> := {};
    for i := 0 to |raws.items|
      invariant |responses| == i
      invariant seenIds == Ids(responses)
      invariant Batch(c, input) == BatchFrom(c, raws.items, responses, budget.Value(), history)
    {
      hide ReadRequest, FetchFrom, BrokerOutput, Ids;
      var request := ReadRequest(c.w.lib, raws.items[i]);
      if request.None? { return None, history; }
      if request.value.id in seenIds { return None, history; }
      seenIds := seenIds + {request.value.id};
      FetchKeepsId(c, request.value.id, request.value.verb, request.value.url, 0, budget.Value(), history);
      var response, h := Fetch(c, request.value.id, request.value.verb, request.value.url, budget, history);
      history := h;
      if response.None? { return None, history; }
      IdsSnoc(responses, response.value);
      responses := responses + [response.value];
    }
    output := Some(BrokerOutput(c.p, input, responses, budget.Value()));
  }
}
