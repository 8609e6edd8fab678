/** A gateway session whose last reply is a redirect forwarded past the byte limit. */
module GatewayExample {
  import opened Utf8
  import opened Json
  import opened JsonText
  import opened Egress
  import opened PolicyBinding
  import opened BrowserGateway
  import opened GatewayWire
  import opened BrowserResult

  const PAGE_BYTES: nat := 1_024

  /** Room for three requests, one redirect and a single page. */
  const ONE_PAGE: Policy := Policy(["example.com"], ["GET"], 3, PAGE_BYTES, PAGE_BYTES, 1, 1, 1)

  function Zeros(): string { seq(64, _ => '0') }

  function Records(history: seq<NetEvent>, host: string): Option<seq<Option<string>>>
  {
    Some([Some("93.184.216.34")])
  }

  function PageReply(): HttpReply { HttpReply(200, [], seq(PAGE_BYTES, _ => 0)) }

  const MOVED: HttpReply := HttpReply(302, [("location", "index")], [])

  /** Two pages as large as the limit, and from then on a redirect. */
  function Answers(history: seq<NetEvent>, target: Target, verb: string): HttpReply
  {
    if |history| < 4 then PageReply() else MOVED
  }

  function Site(): Gateway
  {
    Gateway(World(SampleLibrary([]), Network(Records, Answers)), ONE_PAGE, Zeros(), true)
  }

  function Page(id: string): LiveRequest
  {
    LiveRequest(id, "document", "GET", SAMPLE_SITE)
  }

  function Asked(id: string): Json
  {
    Obj(RequestFields(Zeros(), Page(id)))
  }

  function Requests(): seq<Json> { [Asked("net-1"), Asked("net-2"), Asked("net-3")] }

  lemma SiteIsSafe()
    ensures SafePolicy(Site().p) && LawfulText(Site().w.lib) && LawfulUrls(Site().w.lib) && Behaved(Site().w.net)
  {
    SampleIsLawful([]);
    MovedTo();
  }

  lemma MovedTo()
    ensures GetHeader([("location", "index")], "location") == Some("index")
    ensures GetHeader([("location", "index")], "content-encoding") == None
  {
    assert Lower("location") == "location";
    assert GetHeader([("location", "index")][1..], "location") == None;
    assert GetHeader([("location", "index")][1..], "content-encoding") == None;
  }

  lemma SiteDigestFits()
    ensures DigestFits(Site())
  {
    hide Dumps, Utf8.Encode, GatewayPolicyJson;
    var v := GatewayPolicyJson(ONE_PAGE);
    SizePositive(v, true);
    assert Utf8.Encode(Dumps(v, true)) != [];
    assert Site().w.lib.sha256(Utf8.Encode(Dumps(v, true))) == Zeros();
  }

  lemma HostIsNormal()
    ensures Lower("https") == "https"
    ensures SampleLibrary([]).normalizeHostname("example.com") == Some("example.com")
  {
    assert Lower("example.com") == "example.com";
  }

  lemma UrlIsNormal()
    ensures Unsplit("example.com", "/", "") == "https://example.com/"
  {
    assert "https://" + "example.com" + "/" + "" == "https://example.com/";
  }

  lemma Admitted(url: string)
    requires |url| >= 19 && Lower(url[..19]) == SAMPLE_SITE
    ensures AdmittedUrl(SampleLibrary([]), ONE_PAGE, url) == Some(("example.com", "https://example.com/"))
  {
    assert SampleLibrary([]).urlsplit(url) == Some(SplitUrl("https", None, None, "example.com", NoPort, "", ""));
    HostIsNormal();
    UrlIsNormal();
    hide SampleLibrary, Lower, Unsplit;
  }

  lemma Resolved(history: seq<NetEvent>)
    ensures Records(history, "example.com").Some?
    ensures PublicAddresses(SampleLibrary([]), Records(history, "example.com").value).Some?
  {
    var records := Records(history, "example.com").value;
    AddressesExactly(SampleLibrary([]), records);
    assert records[0].Some?;
  }

  lemma ResourceIsDocument()
    ensures SampleLibrary([]).normalizeResourceType("document") in RESOURCE_TYPES
    ensures SampleLibrary([]).normalizeVerb("GET") == "GET"
  {
    assert Lower("document") == "document" && Upper("GET") == "GET";
  }

  /** Whatever starts with the site's own URL is validated. */
  lemma Validated(url: string, history: seq<NetEvent>)
    requires |url| >= 19 && Lower(url[..19]) == SAMPLE_SITE
    ensures var (target, h) := ValidateResource(Site(), "document", "GET", url, history);
            && target.Some? && target.value.url == "https://example.com/" && h == history + [Lookup("example.com")]
  {
    ResourceIsDocument();
    Admitted(url);
    Resolved(history);
    hide SampleLibrary, Records, AdmittedUrl, PublicAddresses, Lower, RESOURCE_TYPES;
  }

  lemma SiteValidated(history: seq<NetEvent>)
    ensures var (target, h) := ValidateResource(Site(), "document", "GET", SAMPLE_SITE, history);
            && target.Some? && target.value.url == "https://example.com/" && h == history + [Lookup("example.com")]
  {
    hide ValidateResource;
    assert SAMPLE_SITE[..19] == SAMPLE_SITE;
    assert Lower(SAMPLE_SITE) == SAMPLE_SITE;
    Validated(SAMPLE_SITE, history);
  }

  lemma NextValidated(history: seq<NetEvent>)
    ensures var next := SampleLibrary([]).urljoin("https://example.com/", "index");
            ValidateResource(Site(), "document", "GET", next, history).0.Some?
  {
    hide ValidateResource;
    var next := "https://example.com/" + "index";
    assert SampleLibrary([]).urljoin("https://example.com/", "index") == next;
    assert next[..19] == SAMPLE_SITE;
    assert Lower(SAMPLE_SITE) == SAMPLE_SITE;
    Validated(next, history);
  }

  lemma RequestIsRead(id: string)
    requires id == "net-1" || id == "net-2" || id == "net-3"
    ensures ReadLiveRequest(Site(), Asked(id)) == Some(Page(id))
  {
    hide ReadLiveRequest, RequestFields;
    RequestRead(Site(), Page(id));
  }

  /** A page is counted whether or not it is over the limit, and goes out only if it is not. */
  lemma PageCounted(id: string, c: Counters, history: seq<NetEvent>)
    requires (id == "net-1" || id == "net-2") && |history| <= 2 && c.requests < 3
    ensures var s := Handle(Site(), Asked(id), c, history);
            && s.counters == Counters(c.requests + 1, c.bytes + PAGE_BYTES, c.redirects)
            && |s.history| == |history| + 2
  {
    hide ValidateResource, ReadLiveRequest, Asked, SampleLibrary;
    RequestIsRead(id);
    SiteValidated(history);
    ResourceIsDocument();
  }

  lemma RedirectForwarded(c: Counters, history: seq<NetEvent>)
    requires |history| >= 4 && c.requests < 3 && c.redirects == 0
    ensures var s := Handle(Site(), Asked("net-3"), c, history);
            && s.reply.Some? && s.reply.value.redirect.Some? && s.reply.value.counters.bytes == c.bytes
  {
    hide ValidateResource, ReadLiveRequest, Asked, SampleLibrary, SafeHeaders;
    RequestIsRead("net-3");
    SiteValidated(history);
    ResourceIsDocument();
    MovedTo();
    var (target, h) := ValidateResource(Site(), "document", "GET", SAMPLE_SITE, history);
    NextValidated(h + [Send(SAMPLE_SITE, target.value, "GET")]);
  }

  lemma ServeNext(g: Gateway, front: seq<Json>, value: Json)
    ensures var before := Serve(g, front);
            var s := Handle(g, value, before.counters, before.history);
            Serve(g, front + [value]) == Session(s.counters, s.history, before.replies + [s.reply])
  {
    hide Handle;
    assert (front + [value])[..|front|] == front;
  }

  /**
   A created gateway, a lawful library and a network that behaves: two pages spend more bytes than the limit, the second
   is refused, and the redirect that answers the third request is forwarded all the same. The report of that session has
   a budget beyond its limits.
   */
  lemma RedirectPastLimitWitness()
    ensures var g := Site();
            && SafePolicy(g.p) && DigestFits(g) && g.live
            && LawfulText(g.w.lib) && LawfulUrls(g.w.lib) && Behaved(g.w.net)
            && RedirectedPastLimit(g, Requests())
            && LastBudget(g, Requests()).Keys == BrowserResult.BUDGET_FIELDS && !BudgetWithin(LastBudget(g, Requests()))
  {
    hide Handle, Serve, Asked, Behaved, LawfulText, LawfulUrls, DigestFits, LastBudget, BudgetWithin,
      BrowserResult.BUDGET_FIELDS, SampleLibrary;
    SiteIsSafe();
    SiteDigestFits();
    var g, a, b, c := Site(), Asked("net-1"), Asked("net-2"), Asked("net-3");
    NothingServed(g);
    ServeNext(g, [], a);
    assert [] + [a] == [a];
    PageCounted("net-1", Counters(0, 0, 0), []);
    ServeNext(g, [a], b);
    assert [a] + [b] == [a, b];
    PageCounted("net-2", Serve(g, [a]).counters, Serve(g, [a]).history);
    ServeNext(g, [a, b], c);
    assert [a, b] + [c] == [a, b, c];
    RedirectForwarded(Serve(g, [a, b]).counters, Serve(g, [a, b]).history);
    assert PastLimit(g, Serve(g, Requests()).replies[2]);
    LastBudgetWithin(g, Requests());
  }

  lemma NothingServed(g: Gateway)
    ensures Serve(g, []) == Session(Counters(0, 0, 0), [], [])
  {
  }
}
