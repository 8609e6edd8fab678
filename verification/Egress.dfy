/**
 The egress policy and the HTTPS broker that works under it.

 URL splitting and joining, hostname, method and resource-type normalisation, UUID parsing, charset decoding, `str`
 of a JSON value and SHA-256 belong to Python and its libraries: they are the fields of a Library. DNS and HTTPS
 answers are a Network, which may answer by everything sent so far.
 A raised EgressPolicyError is None.
 */
module Egress {
  import opened Utf8
  import opened Json

  // ---- what the library and the network supply ----

  datatype Port = NoPort | PortNumber(n: int) | InvalidPort

  datatype SplitUrl = SplitUrl(
    scheme: string,
    username: Option<string>,
    password: Option<string>,
    hostname: string,
    port: Port,
    path: string,
    query: string)

  datatype Library = Library(
    urlsplit: string -> Option<SplitUrl>,
    urljoin: (string, string) -> string,
    normalizeHostname: string -> Option<string>,
    normalizeVerb: string -> string,
    normalizeResourceType: string -> string,
    parseUuid: Json -> Option<string>,
    isGlobalAddress: string -> bool,
    isIpLiteral: string -> bool,
    isSpace: char -> bool,
    decodeText: (seq<Byte>, string) -> Option<string>,
    pyStr: Json -> string,
    sha256: seq<Byte> -> string)

  datatype Target = Target(url: string, hostname: string, addresses: seq<string>)

  datatype NetEvent =
    | Lookup(host: string)
    | Send(url: string, target: Target, verb: string)

  datatype HttpReply =
    | NoReply
    | HttpReply(status: int, headers: seq<(string, string)>, body: seq<Byte>)

  /** A lookup yields one entry a record, None for a record without a usable address; None overall is an OSError. */
  datatype Network = Network(
    lookup: (seq<NetEvent>, string) -> Option<seq<Option<string>>>,
    exchange: (seq<NetEvent>, Target, string) -> HttpReply)

  datatype World = World(lib: Library, net: Network)

  // ---- text ----

  function LowerChar(c: char): char { if 'A' <= c <= 'Z' then (c as int + 32) as char else c }

  function Lower(s: string): (r: string)
    ensures |r| == |s|
  {
    seq(|s|, i requires 0 <= i < |s| => LowerChar(s[i]))
  }

  function UpperChar(c: char): char { if 'a' <= c <= 'z' then (c as int - 32) as char else c }

  function Upper(s: string): (r: string)
    ensures |r| == |s|
  {
    seq(|s|, i requires 0 <= i < |s| => UpperChar(s[i]))
  }

  predicate Alphanumeric(c: char) { 'A' <= c <= 'Z' || 'a' <= c <= 'z' || '0' <= c <= '9' }

  /** `^[A-Za-z0-9][A-Za-z0-9._-]{0,63}$` */
  predicate RequestId(s: string)
  {
    && 1 <= |s| <= 64
    && Alphanumeric(s[0])
    && forall i :: 0 <= i < |s| ==> Alphanumeric(s[i]) || s[i] == '.' || s[i] == '_' || s[i] == '-'
  }

  predicate HexChar(c: char) { '0' <= c <= '9' || 'a' <= c <= 'f' }

  /** `^[0-9a-f]{64}$` */
  predicate DigestText(s: string)
  {
    |s| == 64 && forall i :: 0 <= i < |s| ==> HexChar(s[i])
  }

  /** The text of a UUID: 36 characters, hexadecimal digits and hyphens. */
  predicate UuidText(s: string)
  {
    |s| == 36 && HexChar(s[0]) && forall i :: 0 <= i < |s| ==> HexChar(s[i]) || s[i] == '-'
  }

  // ---- what is known of the library ----

  /** `str` of a string is that string; a digest is 64 hexadecimal digits; `str(UUID(x))` is a UUID's text and its
      own. */
  ghost predicate LawfulText(lib: Library)
  {
    && (forall s :: lib.pyStr(Str(s)) == s)
    && (forall b :: DigestText(lib.sha256(b)))
    && (forall v :: lib.parseUuid(v).Some? ==> UuidText(lib.parseUuid(v).value))
    && (forall v :: lib.parseUuid(v).Some? ==> lib.parseUuid(Str(lib.parseUuid(v).value)) == lib.parseUuid(v))
  }

  /** Splitting loses no less than the delimiters, joining adds no more than them, and hostnames are at most 253
      long. */
  ghost predicate LawfulUrls(lib: Library)
  {
    && (forall u :: lib.urlsplit(u).Some? ==> |lib.urlsplit(u).value.path| + |lib.urlsplit(u).value.query| <= |u|)
    && (forall b, l :: |lib.urljoin(b, l)| <= |b| + |l| + 16)
    && (forall h :: lib.normalizeHostname(h).Some? ==> |lib.normalizeHostname(h).value| <= 253)
  }

  const SAMPLE_SITE: string := "https://example.com"

  /** A library for examples: it knows one site, in whichever case it is spelled, and its digests tell `special`
      apart. */
  function SampleLibrary(special: seq<Byte>): Library
  {
    var zeros, ones := seq(64, _ => '0'), seq(64, _ => '1');
    Library(
      urlsplit := u => if |u| >= 19 && Lower(u[..19]) == SAMPLE_SITE
                       then Some(SplitUrl("https", None, None, "example.com", NoPort, "", "")) else None,
      urljoin := (b, l) => b + l,
      normalizeHostname := h => if |h| <= 253 then Some(Lower(h)) else None,
      normalizeVerb := m => Upper(m),
      normalizeResourceType := t => Lower(t),
      parseUuid := (v: Json) => if v.Str? && UuidText(v.s) then Some(v.s) else None,
      isGlobalAddress := a => true,
      isIpLiteral := a => false,
      isSpace := c => c == ' ',
      decodeText := (b, t) => Utf8.Decode(b),
      pyStr := (v: Json) => if v.Str? then v.s else "",
      sha256 := b => if b == special then ones else zeros)
  }

  lemma SampleIsLawful(special: seq<Byte>)
    ensures LawfulText(SampleLibrary(special)) && LawfulUrls(SampleLibrary(special))
  {
  }

  /** The assumptions are met by some library. */
  lemma LawsAreConsistent()
    ensures exists lib :: LawfulText(lib) && LawfulUrls(lib)
  {
    SampleIsLawful([]);
  }

  // ---- policy ----

  datatype Policy = Policy(
    allowedHosts: seq<string>,
    allowedMethods: seq<string>,
    maxRequests: int,
    maxResponseBytes: int,
    maxTotalBytes: int,
    maxRedirects: int,
    connectTimeoutSeconds: int,
    requestTimeoutSeconds: int)

  predicate AllNormalize(lib: Library, hosts: seq<string>)
  {
    forall i :: 0 <= i < |hosts| ==> lib.normalizeHostname(hosts[i]).Some?
  }

  /** `EgressPolicy.create`. */
  function CreatePolicy(lib: Library, hosts: seq<string>, methods: seq<string>, maxRequests: int, maxResponseBytes: int,
                        maxTotalBytes: int, maxRedirects: int, connectTimeout: int,
                        requestTimeout: int): (r: Option<Policy>)
    ensures r.Some? ==> SafePolicy(r.value)
  {
    if !AllNormalize(lib, hosts) then None
    else
      var normalized := set i | 0 <= i < |hosts| :: lib.normalizeHostname(hosts[i]).value;
      var chosen := set i | 0 <= i < |methods| :: lib.normalizeVerb(methods[i]);
      if && 1 <= |SortedKeys(normalized)| <= 32
         && chosen != {} && chosen <= {"GET", "HEAD"}
         && 1 <= maxRequests <= 32
         && 1_024 <= maxResponseBytes <= 8_388_608
         && maxResponseBytes <= maxTotalBytes <= 33_554_432
         && 0 <= maxRedirects <= 5
         && 1 <= connectTimeout <= 15
         && 1 <= requestTimeout <= 30
      then Some(Policy(SortedKeys(normalized), SortedKeys(chosen), maxRequests, maxResponseBytes, maxTotalBytes,
                       maxRedirects, connectTimeout, requestTimeout))
      else None
  }

  /** The hosts given, in their normal form. */
  predicate IsHost(lib: Library, hosts: seq<string>, h: string)
  {
    exists i :: 0 <= i < |hosts| && lib.normalizeHostname(hosts[i]) == Some(h)
  }

  predicate IsMethod(lib: Library, methods: seq<string>, m: string)
  {
    exists i :: 0 <= i < |methods| && lib.normalizeVerb(methods[i]) == m
  }

  /** A policy is created exactly from hosts that all have a normal form, at most 32 of them different and one at least,
      methods that are all GET or HEAD, and numbers within their ranges; it has those hosts and methods, each once and
      in order, and those numbers. */
  lemma CreatedExactly(lib: Library, hosts: seq<string>, methods: seq<string>, maxRequests: int, maxResponseBytes: int,
                       maxTotalBytes: int, maxRedirects: int, connectTimeout: int, requestTimeout: int)
    ensures var r := CreatePolicy(lib, hosts, methods, maxRequests, maxResponseBytes, maxTotalBytes, maxRedirects,
                                  connectTimeout, requestTimeout);
            && (r.Some? <==>
                  && hosts != [] && (forall i :: 0 <= i < |hosts| ==> lib.normalizeHostname(hosts[i]).Some?)
                  && (exists hs :: Ascending(hs) && (forall h :: h in hs <==> IsHost(lib, hosts, h)) && |hs| <= 32)
                  && methods != []
                  && (forall i :: 0 <= i < |methods| ==>
                        lib.normalizeVerb(methods[i]) == "GET" || lib.normalizeVerb(methods[i]) == "HEAD")
                  && 1 <= maxRequests <= 32 && 1_024 <= maxResponseBytes <= 8_388_608
                  && maxResponseBytes <= maxTotalBytes <= 33_554_432 && 0 <= maxRedirects <= 5
                  && 1 <= connectTimeout <= 15 && 1 <= requestTimeout <= 30)
            && (r.Some? ==>
                  && Ascending(r.value.allowedHosts) && Ascending(r.value.allowedMethods)
                  && (forall h :: h in r.value.allowedHosts <==> IsHost(lib, hosts, h))
                  && (forall m :: m in r.value.allowedMethods <==> IsMethod(lib, methods, m))
                  && r.value.maxRequests == maxRequests && r.value.maxResponseBytes == maxResponseBytes
                  && r.value.maxTotalBytes == maxTotalBytes && r.value.maxRedirects == maxRedirects
                  && r.value.connectTimeoutSeconds == connectTimeout
                  && r.value.requestTimeoutSeconds == requestTimeout)
  {
    hide SortedKeys, Ascending;
    if AllNormalize(lib, hosts) {
      var normalized := set i | 0 <= i < |hosts| :: lib.normalizeHostname(hosts[i]).value;
      HostsListed(lib, hosts, normalized);
    }
    var chosen := set i | 0 <= i < |methods| :: lib.normalizeVerb(methods[i]);
    MethodsListed(lib, methods, chosen);
  }

  lemma HostsListed(lib: Library, hosts: seq<string>, normalized: set<string>)
    requires AllNormalize(lib, hosts)
    requires normalized == set i | 0 <= i < |hosts| :: lib.normalizeHostname(hosts[i]).value
    ensures forall h :: h in SortedKeys(normalized) <==> IsHost(lib, hosts, h)
    ensures hosts != [] <==> |SortedKeys(normalized)| >= 1
    ensures forall hs :: Ascending(hs) && (forall h :: h in hs <==> IsHost(lib, hosts, h)) ==>
            hs == SortedKeys(normalized)
  {
    hide SortedKeys, Ascending;
    var sorted := SortedKeys(normalized);
    forall h ensures h in sorted <==> IsHost(lib, hosts, h) {
      if i :| 0 <= i < |hosts| && lib.normalizeHostname(hosts[i]) == Some(h) { assert h in normalized; }
      if h in normalized {
        var i :| 0 <= i < |hosts| && lib.normalizeHostname(hosts[i]).value == h;
        assert lib.normalizeHostname(hosts[i]) == Some(h);
      }
    }
    if hosts != [] { assert IsHost(lib, hosts, lib.normalizeHostname(hosts[0]).value); }
    if |sorted| >= 1 { assert IsHost(lib, hosts, sorted[0]); }
    forall hs | Ascending(hs) && (forall h :: h in hs <==> IsHost(lib, hosts, h)) ensures hs == sorted {
      SortedKeysUnique(normalized, hs);
    }
  }

  lemma MethodsListed(lib: Library, methods: seq<string>, chosen: set<string>)
    requires chosen == set i | 0 <= i < |methods| :: lib.normalizeVerb(methods[i])
    ensures forall m :: m in SortedKeys(chosen) <==> IsMethod(lib, methods, m)
    ensures chosen != {} <==> methods != []
    ensures chosen <= {"GET", "HEAD"} <==>
            forall i :: 0 <= i < |methods| ==>
              lib.normalizeVerb(methods[i]) == "GET" || lib.normalizeVerb(methods[i]) == "HEAD"
  {
    hide SortedKeys;
    if methods != [] { assert lib.normalizeVerb(methods[0]) in chosen; }
    forall i | 0 <= i < |methods| ensures lib.normalizeVerb(methods[i]) in chosen { }
  }

  /** What every created policy meets. */
  predicate SafePolicy(p: Policy)
  {
    && 1 <= |p.allowedHosts| <= 32
    && Ascending(p.allowedHosts)
    && (forall m :: m in p.allowedMethods ==> m == "GET" || m == "HEAD")
    && 1 <= p.maxRequests <= 32
    && 1_024 <= p.maxResponseBytes <= 8_388_608
    && p.maxResponseBytes <= p.maxTotalBytes <= 33_554_432
    && 0 <= p.maxRedirects <= 5
    && 1 <= p.connectTimeoutSeconds <= 15
    && 1 <= p.requestTimeoutSeconds <= 30
  }

  function Strings(ss: seq<string>): Json
  {
    Arr(seq(|ss|, i requires 0 <= i < |ss| => Str(ss[i])))
  }

  /** `EgressPolicy.as_dict`. */
  function PolicyJson(p: Policy): Json
  {
    Obj(map[
      "schema_version" := Str("rdc.egress/v1"),
      "mode" := Str("brokered"),
      "allowed_schemes" := Arr([Str("https")]),
      "allowed_methods" := Strings(p.allowedMethods),
      "allowed_hosts" := Strings(p.allowedHosts),
      "deny_ip_literals" := Bool(true),
      "require_global_dns" := Bool(true),
      "revalidate_redirects" := Bool(true),
      "container_network" := Str("none"),
      "max_requests" := Num(p.maxRequests),
      "max_response_bytes" := Num(p.maxResponseBytes),
      "max_total_bytes" := Num(p.maxTotalBytes),
      "max_redirects" := Num(p.maxRedirects),
      "connect_timeout_seconds" := Num(p.connectTimeoutSeconds),
      "request_timeout_seconds" := Num(p.requestTimeoutSeconds)])
  }

  // ---- targets ----

  predicate UsableIsGlobal(lib: Library, records: seq<Option<string>>)
  {
    forall i :: 0 <= i < |records| && records[i].Some? ==> lib.isGlobalAddress(records[i].value)
  }

  /** The distinct addresses in order, provided there are some and each is global. */
  function PublicAddresses(lib: Library, records: seq<Option<string>>): Option<seq<string>>
  {
    var addresses := set i | 0 <= i < |records| && records[i].Some? :: records[i].value;
    if addresses != {} && UsableIsGlobal(lib, records) then Some(SortedKeys(addresses)) else None
  }

  /** `resolve_public_addresses`, over the records the resolver returned. */
  method ResolvePublicAddresses(lib: Library, records: seq<Option<string>>) returns (r: Option<seq<string>>)
    ensures r == PublicAddresses(lib, records)
  {
    var addresses: seq<string> := [];
    for i := 0 to |records|
      invariant UsableIsGlobal(lib, records[..i])
      invariant forall a :: a in addresses <==> exists j :: 0 <= j < i && records[j] == Some(a)
    {
      assert records[..i + 1] == records[..i] + [records[i]];
      if records[i].Some? {
        if !lib.isGlobalAddress(records[i].value) { return None; }
        addresses := addresses + [records[i].value];
      }
    }
    assert records[..|records|] == records;
    var distinct := set a | a in addresses;
    assert distinct == set i | 0 <= i < |records| && records[i].Some? :: records[i].value by {
      forall a | a in addresses
        ensures a in set i | 0 <= i < |records| && records[i].Some? :: records[i].value
      {
        var j :| 0 <= j < |records| && records[j] == Some(a);
      }
    }
    if addresses == [] {
      assert distinct == {};
      return None;
    }
    assert addresses[0] in distinct;
    r := Some(SortedKeys(distinct));
  }

  /** `urlunsplit` for an https URL without a fragment. */
  function Unsplit(netloc: string, path: string, query: string): string
  {
    "https://" + netloc + (if path != "" && path[0] != '/' then "/" + path else path) +
      (if query == "" then "" else "?" + query)
  }

  /** The checks of `validate_target` that need no network: the host to resolve and the normal form of the URL. */
  function AdmittedUrl(lib: Library, p: Policy, url: string): Option<(string, string)>
  {
    match lib.urlsplit(url)
    case None => None
    case Some(u) =>
      if Lower(u.scheme) != "https" || u.username.Some? || u.password.Some? || u.hostname == "" then None
      else match lib.normalizeHostname(u.hostname)
        case None => None
        case Some(host) =>
          if host !in p.allowedHosts || u.port.InvalidPort? || (u.port.PortNumber? && u.port.n != 443) then None
          else
            var netloc := if u.port.NoPort? then host else host + ":443";
            Some((host, Unsplit(netloc, if u.path == "" then "/" else u.path, u.query)))
  }

  /** `EgressPolicy.validate_target`; the lookup, when it is reached, becomes part of the history. */
  function ValidateTarget(w: World, p: Policy, url: string,
                          history: seq<NetEvent>): (r: (Option<Target>, seq<NetEvent>))
    ensures r.0.Some? ==> |r.1| == |history| + 1 && r.1[..|history|] == history && r.1[|history|].Lookup?
    ensures r.0.Some? ==> r.0.value.hostname in p.allowedHosts && "https://" <= r.0.value.url
  {
    match AdmittedUrl(w.lib, p, url)
    case None => (None, history)
    case Some((host, normal)) =>
      var history' := history + [Lookup(host)];
      match w.net.lookup(history, host)
      case None => (None, history')
      case Some(records) =>
        match PublicAddresses(w.lib, records)
        case None => (None, history')
        case Some(addresses) => (Some(Target(normal, host, addresses)), history')
  }

  /** What a URL must be for the policy, before any lookup. */
  predicate UrlAdmitted(lib: Library, p: Policy, url: string)
  {
    && lib.urlsplit(url).Some?
    && var u := lib.urlsplit(url).value;
    && Lower(u.scheme) == "https" && u.username.None? && u.password.None? && u.hostname != ""
    && lib.normalizeHostname(u.hostname).Some? && lib.normalizeHostname(u.hostname).value in p.allowedHosts
    && (u.port.NoPort? || u.port == PortNumber(443))
  }

  /** The URL a target is sent, from the parts that were split: no credentials and no fragment, an absolute path, and
      the query if there is one. */
  predicate NormalUrl(u: SplitUrl, host: string, url: string)
  {
    var port := if u.port.NoPort? then "" else ":443";
    var path := if u.path == "" then "/" else if u.path[0] == '/' then u.path else "/" + u.path;
    var query := if u.query == "" then "" else "?" + u.query;
    url == "https://" + host + port + path + query
  }

  /** Validation succeeds exactly if the policy admits the URL and the host resolves to usable addresses, all of them
      global; the target then has the normal host, the normal URL, and just those addresses. An admitted URL has its
      host, and nothing else, looked up; any other URL has nothing looked up. */
  lemma TargetValidatedExactly(w: World, p: Policy, url: string, history: seq<NetEvent>)
    ensures var (target, h) := ValidateTarget(w, p, url, history);
            && (target.Some? ==> UrlAdmitted(w.lib, p, url))
            && (!UrlAdmitted(w.lib, p, url) ==> h == history)
            && (UrlAdmitted(w.lib, p, url) ==>
                  var u := w.lib.urlsplit(url).value;
                  var host := w.lib.normalizeHostname(u.hostname).value;
                  var records := w.net.lookup(history, host);
                  && h == history + [Lookup(host)]
                  && (target.Some? <==>
                        && records.Some? && (exists i :: 0 <= i < |records.value| && records.value[i].Some?)
                        && UsableIsGlobal(w.lib, records.value))
                  && (target.Some? ==>
                        && target.value.hostname == host
                        && NormalUrl(u, host, target.value.url)
                        && Ascending(target.value.addresses)
                        && (forall a :: a in target.value.addresses <==> Some(a) in records.value)
                        && (forall a :: a in target.value.addresses ==> w.lib.isGlobalAddress(a))))
  {
    hide SortedKeys;
    if UrlAdmitted(w.lib, p, url) {
      var u := w.lib.urlsplit(url).value;
      var host := w.lib.normalizeHostname(u.hostname).value;
      NormalForm(u, host);
      var records := w.net.lookup(history, host);
      if records.Some? { AddressesExactly(w.lib, records.value); }
    }
  }

  lemma NormalForm(u: SplitUrl, host: string)
    ensures NormalUrl(u, host,
                      Unsplit(if u.port.NoPort? then host else host + ":443", if u.path == "" then "/" else u.path,
                                       u.query))
  {
    var port := if u.port.NoPort? then "" else ":443";
    var netloc := if u.port.NoPort? then host else host + ":443";
    var path := if u.path == "" then "/" else if u.path[0] == '/' then u.path else "/" + u.path;
    assert netloc == host + port;
    assert "https://" + (host + port) == "https://" + host + port;
  }

  lemma AddressesExactly(lib: Library, records: seq<Option<string>>)
    ensures var r := PublicAddresses(lib, records);
            && (r.Some? <==> (exists i :: 0 <= i < |records| && records[i].Some?) && UsableIsGlobal(lib, records))
            && (r.Some? ==>
                  && Ascending(r.value)
                  && (forall a :: a in r.value <==> Some(a) in records)
                  && (forall a :: a in r.value ==> lib.isGlobalAddress(a)))
  {
    hide SortedKeys, Ascending;
    var addresses := set i | 0 <= i < |records| && records[i].Some? :: records[i].value;
    if i :| 0 <= i < |records| && records[i].Some? { assert records[i].value in addresses; }
  }

  // ---- one request ----

  predicate IsRedirect(status: int)
  {
    status == 301 || status == 302 || status == 303 || status == 307 || status == 308
  }

  const SAFE_HEADERS: set<string> := {"content-type", "content-length", "etag", "last-modified", "cache-control"}

  /** A header's value, cut to what is kept of it. */
  function Cut(value: string): string { if |value| <= 2048 then value else value[..2048] }

  /** `_safe_headers`: allowed headers under their lower-case names, the last of a name winning, values cut to 2048. */
  function SafeHeaders(headers: seq<(string, string)>): (r: map<string, string>)
    ensures r.Keys <= SAFE_HEADERS
    ensures forall k :: k in r ==> |r[k]| <= 2048
  {
    if headers == [] then map[]
    else
      var (key, value) := headers[|headers| - 1];
      var before := SafeHeaders(headers[..|headers| - 1]);
      if Lower(key) in SAFE_HEADERS then before[Lower(key) := Cut(value)] else before
  }

  lemma SafeHeadersStep(headers: seq<(string, string)>, name: string)
    requires headers != []
    ensures var n := |headers| - 1;
            var before := SafeHeaders(headers[..n]);
            if Lower(headers[n].0) == name then
              if name in SAFE_HEADERS then
                name in SafeHeaders(headers) && SafeHeaders(headers)[name] == Cut(headers[n].1)
              else name !in SafeHeaders(headers)
            else
              && (name in SafeHeaders(headers) <==> name in before)
              && (name in before ==> SafeHeaders(headers)[name] == before[name])
  {
    hide Lower;
    assert SafeHeaders(headers).Keys <= SAFE_HEADERS;
  }

  predicate SentUnder(headers: seq<(string, string)>, name: string, i: int)
  {
    0 <= i < |headers| && Lower(headers[i].0) == name
  }

  predicate LastUnder(headers: seq<(string, string)>, name: string, i: int)
  {
    SentUnder(headers, name, i) && forall j :: i < j < |headers| ==> !SentUnder(headers, name, j)
  }

  lemma {:induction false} SafeHeadersSent(headers: seq<(string, string)>, name: string)
    ensures name in SafeHeaders(headers) <==> name in SAFE_HEADERS && exists i :: SentUnder(headers, name, i)
  {
    hide Lower;
    if headers == [] {
    } else {
      var n := |headers| - 1;
      var front := headers[..n];
      SafeHeadersStep(headers, name);
      SafeHeadersSent(front, name);
      hide SafeHeaders, SAFE_HEADERS;
      if Lower(headers[n].0) == name {
        assert SentUnder(headers, name, n);
      } else {
        if i :| SentUnder(headers, name, i) { assert SentUnder(front, name, i); }
        if i :| SentUnder(front, name, i) { assert SentUnder(headers, name, i); }
      }
    }
  }

  lemma {:induction false} SafeHeadersLast(headers: seq<(string, string)>, name: string, i: int)
    requires LastUnder(headers, name, i) && name in SAFE_HEADERS
    ensures name in SafeHeaders(headers) && SafeHeaders(headers)[name] == Cut(headers[i].1)
  {
    SafeHeadersStep(headers, name);
    hide Lower, SafeHeaders, Cut, SAFE_HEADERS;
    var n := |headers| - 1;
    if i == n {
    } else {
      assert !SentUnder(headers, name, n);
      assert LastUnder(headers[..n], name, i) by {
        forall j | i < j < n ensures !SentUnder(headers[..n], name, j) { assert !SentUnder(headers, name, j); }
      }
      SafeHeadersLast(headers[..n], name, i);
    }
  }

  /** A safe header is in the result exactly if it was sent, with the value that was sent last under its name, cut. */
  lemma SafeHeadersKeepLast(headers: seq<(string, string)>, name: string)
    ensures name in SafeHeaders(headers) <==> name in SAFE_HEADERS && exists i :: SentUnder(headers, name, i)
    ensures forall i :: LastUnder(headers, name, i) && name in SAFE_HEADERS ==>
              name in SafeHeaders(headers) && SafeHeaders(headers)[name] == Cut(headers[i].1)
  {
    SafeHeadersSent(headers, name);
    hide SentUnder, LastUnder, SafeHeaders, Cut, SAFE_HEADERS;
    forall i | LastUnder(headers, name, i) && name in SAFE_HEADERS
      ensures name in SafeHeaders(headers) && 0 <= i < |headers| && SafeHeaders(headers)[name] == Cut(headers[i].1)
    {
      LastInRange(headers, name, i);
      SafeHeadersLast(headers, name, i);
    }
  }

  lemma LastInRange(headers: seq<(string, string)>, name: string, i: int)
    requires LastUnder(headers, name, i)
    ensures 0 <= i < |headers|
  {
  }

  /** `response.getheader(name)`: the values of that name joined with ", ". */
  function GetHeader(headers: seq<(string, string)>, name: string): Option<string>
  {
    if headers == [] then None
    else
      var rest := GetHeader(headers[1..], name);
      if Lower(headers[0].0) != name then rest
      else if rest.None? then Some(headers[0].1)
      else Some(headers[0].1 + ", " + rest.value)
  }

  lemma SafeHeaderIsLower(s: string)
    requires s in SAFE_HEADERS
    ensures Lower(s) == s
  {
  }

  /** Both values, the first header's first, joined as `getheader` does. */
  function Joined(a: Option<string>, b: Option<string>): Option<string>
  {
    if a.None? then b else if b.None? then a else Some(a.value + ", " + b.value)
  }

  /** `getheader` looks names up in lower case, and joins the values of all the headers of a name, in order. */
  lemma {:induction false} GetHeaderJoins(a: seq<(string, string)>, b: seq<(string, string)>, name: string)
    ensures GetHeader(a + b, name) == Joined(GetHeader(a, name), GetHeader(b, name))
    ensures |a| == 1 ==> GetHeader(a, name) == if Lower(a[0].0) == name then Some(a[0].1) else None
    ensures a == [] ==> GetHeader(a, name) == None
  {
    hide Lower;
    if a == [] {
      assert a + b == b;
    } else {
      assert (a + b)[1..] == a[1..] + b && (a + b)[0] == a[0];
      GetHeaderJoins(a[1..], b, name);
      var rest, more := GetHeader(a[1..], name), GetHeader(b, name);
      if Lower(a[0].0) == name && rest.Some? && more.Some? {
        assert a[0].1 + ", " + (rest.value + ", " + more.value) == (a[0].1 + ", " + rest.value) + ", " + more.value;
      }
    }
  }

  /** Assumed of the network: statuses are HTTP statuses, and a Location is at most 65,536 characters. */
  ghost predicate Behaved(net: Network)
  {
    forall h, t, v :: net.exchange(h, t, v).HttpReply? ==>
      && 100 <= net.exchange(h, t, v).status <= 599
      && (GetHeader(net.exchange(h, t, v).headers, "location").Some? ==>
            |GetHeader(net.exchange(h, t, v).headers, "location").value| <= 65_536)
  }

  predicate SafeAuthorization(authorization: Option<string>)
  {
    authorization.Some? ==>
      0 < |authorization.value| <= 8192 && '\r' !in authorization.value && '\n' !in authorization.value
  }

  datatype Exchange = Exchange(status: int, headers: map<string, string>, body: seq<Byte>, location: Option<string>)

  /** `_request_once`, after its send has become part of the history. */
  function ReadReply(p: Policy, verb: string, reply: HttpReply): (r: Option<Exchange>)
    ensures r.Some? ==> |r.value.body| <= (if p.maxResponseBytes < 0 then 0 else p.maxResponseBytes)
    ensures r.Some? && IsRedirect(r.value.status) ==> r.value.body == []
    ensures r.Some? ==>
              && r.value.headers.Keys <= SAFE_HEADERS
              && forall k :: k in r.value.headers ==> |r.value.headers[k]| <= 2048
  {
    match reply
    case NoReply => None
    case HttpReply(status, headers, body) =>
      var encoding := GetHeader(headers, "content-encoding");
      if encoding.Some? && encoding.value != "" && Lower(encoding.value) != "identity" then None
      else if IsRedirect(status) then Some(Exchange(status, SafeHeaders(headers), [], GetHeader(headers, "location")))
      else if verb == "HEAD" then Some(Exchange(status, SafeHeaders(headers), [], None))
      else if |body| > p.maxResponseBytes then None
      else Some(Exchange(status, SafeHeaders(headers), body, None))
  }

  predicate Compressed(headers: seq<(string, string)>)
  {
    var encoding := GetHeader(headers, "content-encoding");
    encoding.Some? && Lower(encoding.value) != "" && Lower(encoding.value) != "identity"
  }

  /** A reply is taken exactly if it came, is not compressed and, where a body is wanted, the body is within the limit;
      it keeps its status and safe headers, its Location on a redirect alone, and its body on no redirect and no
      HEAD. */
  lemma ReplyTakenExactly(p: Policy, verb: string, reply: HttpReply)
    ensures ReadReply(p, verb, reply).Some? <==>
            && reply.HttpReply? && !Compressed(reply.headers)
            && (IsRedirect(reply.status) || verb == "HEAD" || |reply.body| <= p.maxResponseBytes)
    ensures ReadReply(p, verb, reply).Some? ==>
            var x := ReadReply(p, verb, reply).value;
            && x.status == reply.status && x.headers == SafeHeaders(reply.headers)
            && x.location == (if IsRedirect(reply.status) then GetHeader(reply.headers, "location") else None)
            && x.body == (if IsRedirect(reply.status) || verb == "HEAD" then [] else reply.body)
  {
    hide SafeHeaders, GetHeader;
  }

  function RequestOnce(w: World, p: Policy, url: string, target: Target, verb: string, authorization: Option<string>,
                       history: seq<NetEvent>): (Option<Exchange>, seq<NetEvent>)
  {
    if !SafeAuthorization(authorization) then (None, history)
    else (ReadReply(p, verb, w.net.exchange(history, target, verb)), history + [Send(url, target, verb)])
  }
}
