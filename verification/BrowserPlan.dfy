/** Browser navigation plans, validated by the worker against its policy and again, on its own terms, by the runtime. */
module BrowserPlan {
  import opened Utf8
  import opened Json
  import opened Egress
  import opened PolicyBinding
  import opened KeyValue

  const MAX_SELECTOR_CHARS: nat := 512
  const MAX_TEXT_CHARS: nat := 131_072
  const MAX_WAIT_MS: nat := 15_000
  const MAX_PLAN_BYTES: nat := 65_536

  datatype BrowserPolicy = BrowserPolicy(
    enabled: bool,
    allowedHosts: seq<string>,
    maxPages: int,
    maxActions: int,
    navigationTimeoutSeconds: int,
    maxDomBytes: int,
    maxScreenshotBytes: int)

  /** `browser_policy.normalize_hostname` is not the one of the egress policy, so it comes with the library. */
  datatype Browser = Browser(lib: Library, normalizeHostname: string -> Option<string>)

  /** What every created policy meets. */
  predicate SafeBrowserPolicy(p: BrowserPolicy)
  {
    && Ascending(p.allowedHosts)
    && (p.enabled ==> p.allowedHosts != [])
    && 1 <= p.maxPages <= 2
    && 1 <= p.maxActions <= 16
    && 1 <= p.navigationTimeoutSeconds <= 30
    && 65_536 <= p.maxDomBytes <= 4_194_304
    && 65_536 <= p.maxScreenshotBytes <= 4_194_304
  }

  /** `BrowserPolicy.create`. */
  function CreateBrowserPolicy(b: Browser, enabled: bool, hosts: seq<string>, maxPages: int, maxActions: int,
                               timeout: int, maxDom: int, maxScreenshot: int): (r: Option<BrowserPolicy>)
    ensures r.Some? ==> SafeBrowserPolicy(r.value)
  {
    if exists i :: 0 <= i < |hosts| && b.normalizeHostname(hosts[i]).None? then None
    else
      var allowed := SortedKeys(set i | 0 <= i < |hosts| :: b.normalizeHostname(hosts[i]).value);
      if && !(enabled && allowed == [])
         && 1 <= maxPages <= 2
         && 1 <= maxActions <= 16
         && 1 <= timeout <= 30
         && 65_536 <= maxDom <= 4_194_304
         && 65_536 <= maxScreenshot <= 4_194_304
      then Some(BrowserPolicy(enabled, allowed, maxPages, maxActions, timeout, maxDom, maxScreenshot))
      else None
  }

  /** `BrowserPolicy.as_dict`. */
  function BrowserPolicyJson(p: BrowserPolicy): Json
  {
    Obj(map[
      "schema_version" := Str("rdc.browser-policy/v1"),
      "enabled" := Bool(p.enabled),
      "allowed_hosts" := Strings(p.allowedHosts),
      "max_pages" := Num(p.maxPages),
      "max_actions" := Num(p.maxActions),
      "navigation_timeout_seconds" := Num(p.navigationTimeoutSeconds),
      "max_dom_bytes" := Num(p.maxDomBytes),
      "max_screenshot_bytes" := Num(p.maxScreenshotBytes),
      "agent_container_network" := Str("none"),
      "project_secrets_available" := Bool(false),
      "persistent_profile" := Bool(false),
      "downloads_enabled" := Bool(false),
      "uploads_enabled" := Bool(false),
      "remote_cdp_enabled" := Bool(false)])
  }

  lemma BrowserPolicyMembers(p: BrowserPolicy)
    ensures BrowserPolicyJson(p).Obj?
    ensures var f := BrowserPolicyJson(p).fields;
            && {"enabled", "allowed_hosts", "max_pages", "max_actions", "navigation_timeout_seconds", "max_dom_bytes",
                "max_screenshot_bytes"} <= f.Keys
            && f["enabled"] == Bool(p.enabled) && f["allowed_hosts"] == Strings(p.allowedHosts)
            && f["max_pages"] == Num(p.maxPages) && f["max_actions"] == Num(p.maxActions)
            && f["navigation_timeout_seconds"] == Num(p.navigationTimeoutSeconds)
            && f["max_dom_bytes"] == Num(p.maxDomBytes) && f["max_screenshot_bytes"] == Num(p.maxScreenshotBytes)
  {
    hide Strings;
  }

  /** The dict whose digest a receipt carries determines the policy, down to every limit. */
  lemma DigestCoversBrowserPolicy(p: BrowserPolicy, q: BrowserPolicy)
    requires BrowserPolicyJson(p) == BrowserPolicyJson(q)
    ensures p == q
  {
    hide Strings, BrowserPolicyJson;
    BrowserPolicyMembers(p);
    BrowserPolicyMembers(q);
    StringsInjective(p.allowedHosts, q.allowedHosts);
  }

  // ---- steps ----

  predicate SelectorOk(v: Json)
  {
    v.Str? && 1 <= |v.s| <= MAX_SELECTOR_CHARS && '\0' !in v.s && '\r' !in v.s && '\n' !in v.s
  }

  predicate Within(v: Json, least: int, most: int)
  {
    v.Num? && least <= v.n <= most
  }

  /** `_https_url` of the worker. */
  function UrlHost(b: Browser, p: BrowserPolicy, v: Json): Option<string>
  {
    if !v.Str? || !("https://" <= v.s) || |v.s| > 8192 then None
    else match b.lib.urlsplit(v.s)
      case None => None
      case Some(u) =>
        if u.hostname == "" || u.username.Some? || u.password.Some? then None
        else match b.normalizeHostname(u.hostname)
          case None => None
          case Some(host) => if host in p.allowedHosts then Some(host) else None
  }

  predicate WaitUntilOk(v: Json) { v == Str("domcontentloaded") || v == Str("load") }

  predicate IsGoto(step: Json) { step.Obj? && Get(step.fields, "type") == Str("goto") }

  /** A goto step, apart from where it may go. */
  predicate GotoShape(f: map<string, Json>)
  {
    f.Keys == {"id", "type", "url", "wait_until"} && WaitUntilOk(f["wait_until"])
  }

  predicate Identified(step: Json)
  {
    step.Obj? && Get(step.fields, "id").Str? && RequestId(Get(step.fields, "id").s)
  }

  function MaxWait(p: BrowserPolicy): int
  {
    if p.navigationTimeoutSeconds * 1000 < MAX_WAIT_MS then p.navigationTimeoutSeconds * 1000 else MAX_WAIT_MS
  }

  /** The worker's checks of a step that is not goto. */
  predicate OtherStep(p: BrowserPolicy, f: map<string, Json>)
  {
    var kind := Get(f, "type");
    || (&& kind == Str("wait_for_selector") && f.Keys == {"id", "type", "selector", "state", "timeout_ms"}
        && SelectorOk(f["selector"])
        && (f["state"] == Str("attached") || f["state"] == Str("visible"))
        && Within(f["timeout_ms"], 100, MaxWait(p)))
    || (&& kind == Str("extract_text") && f.Keys == {"id", "type", "selector", "max_chars"}
        && SelectorOk(f["selector"]) && Within(f["max_chars"], 1, MAX_TEXT_CHARS))
    || (&& kind == Str("extract_html") && f.Keys == {"id", "type", "selector", "max_bytes"}
        && SelectorOk(f["selector"]) && Within(f["max_bytes"], 1, p.maxDomBytes))
    || (&& kind == Str("screenshot") && f.Keys == {"id", "type", "full_page"}
        && f["full_page"] == Bool(false))
  }

  predicate WorkerStep(b: Browser, p: BrowserPolicy, step: Json, index: nat)
  {
    && Identified(step)
    && if IsGoto(step) then GotoShape(step.fields) && UrlHost(b, p, Get(step.fields, "url")).Some?
       else index > 0 && OtherStep(p, step.fields)
  }

  // ---- steps, as the runtime sees them ----

  /** `_selector` of the runtime. */
  predicate RuntimeSelector(v: Json)
  {
    v.Str? && v.s != "" && |v.s| <= 512 && forall i :: 0 <= i < |v.s| ==> v.s[i] !in ['\0', '\r', '\n']
  }

  predicate RuntimeGoto(f: map<string, Json>)
  {
    && f.Keys == {"id", "type", "url", "wait_until"}
    && var url, wait := Get(f, "url"), Get(f, "wait_until");
    && url.Str? && "https://" <= url.s && |url.s| <= 8192
    && wait.Str? && wait.s in ["domcontentloaded", "load"]
  }

  predicate RuntimeWait(f: map<string, Json>)
  {
    && f.Keys == {"id", "type", "selector", "state", "timeout_ms"}
    && var state, timeout := Get(f, "state"), Get(f, "timeout_ms");
    && state.Str? && state.s in ["attached", "visible"]
    && timeout.Num? && 100 <= timeout.n <= 15_000
    && RuntimeSelector(Get(f, "selector"))
  }

  predicate RuntimeExtract(f: map<string, Json>, limit: string, most: int)
  {
    f.Keys == {"id", "type", "selector", limit} && Get(f, limit).Num? && 1 <= Get(f, limit).n <= most
    && RuntimeSelector(Get(f, "selector"))
  }

  /** One round of the loop of `_validate_runtime_plan`, but for the uniqueness of the id. */
  predicate RuntimeStep(step: Json, index: nat)
  {
    && step.Obj?
    && var f := step.fields;
       var id, kind := Get(f, "id"), Get(f, "type");
    && id.Str? && RequestId(id.s)
    && if kind == Str("goto") then RuntimeGoto(f)
       else if index == 0 then false
       else if kind == Str("wait_for_selector") then RuntimeWait(f)
       else if kind == Str("extract_text") then RuntimeExtract(f, "max_chars", 131_072)
       else if kind == Str("extract_html") then RuntimeExtract(f, "max_bytes", 4_194_304)
       else kind == Str("screenshot") && f.Keys == {"id", "type", "full_page"} && Get(f, "full_page") == Bool(false)
  }

  /** The step as the worker builds it anew. */
  function Rebuilt(step: Json): Json
    requires step.Obj?
  {
    var f := step.fields;
    var id, kind := Get(f, "id"), Get(f, "type");
    if kind == Str("goto") then
      Obj(map["id" := id, "type" := Str("goto"), "url" := Get(f, "url"), "wait_until" := Get(f, "wait_until")])
    else if kind == Str("wait_for_selector") then
      Obj(map["id" := id, "type" := Str("wait_for_selector"), "selector" := Get(f, "selector"),
              "state" := Get(f, "state"), "timeout_ms" := Get(f, "timeout_ms")])
    else if kind == Str("extract_text") then
      Obj(map["id" := id, "type" := Str("extract_text"), "selector" := Get(f, "selector"),
              "max_chars" := Get(f, "max_chars")])
    else if kind == Str("extract_html") then
      Obj(map["id" := id, "type" := Str("extract_html"), "selector" := Get(f, "selector"),
              "max_bytes" := Get(f, "max_bytes")])
    else
      Obj(map["id" := id, "type" := Str("screenshot"), "full_page" := Bool(false)])
  }

  lemma RebuiltIsStep(b: Browser, p: BrowserPolicy, step: Json, index: nat)
    requires WorkerStep(b, p, step, index)
    ensures Rebuilt(step) == step
  {
    hide RequestId, SelectorOk, UrlHost, Within, MaxWait, RuntimeStep;
    var f := step.fields;
    assert Rebuilt(step).fields == f;
  }

  // ---- plans ----

  function StepId(step: Json): Json
  {
    if step.Obj? then Get(step.fields, "id") else Null
  }

  function Ids(steps: seq<Json>): (ids: seq<Json>)
    ensures |ids| == |steps| && forall i :: 0 <= i < |steps| ==> ids[i] == StepId(steps[i])
  {
    seq(|steps|, i requires 0 <= i < |steps| => StepId(steps[i]))
  }

  function GotoCount(steps: seq<Json>): nat
  {
    if steps == [] then 0 else GotoCount(steps[..|steps| - 1]) + (if IsGoto(steps[|steps| - 1]) then 1 else 0)
  }

  function Hosts(b: Browser, p: BrowserPolicy, steps: seq<Json>): seq<string>
  {
    if steps == [] then []
    else
      var last := steps[|steps| - 1];
      Hosts(b, p, steps[..|steps| - 1]) +
        if IsGoto(last) && UrlHost(b, p, Get(last.fields, "url")).Some?
          then [UrlHost(b, p, Get(last.fields, "url")).value] else []
  }

  function PlanJson(steps: seq<Json>): Json
  {
    Obj(map["schema_version" := Str("rdc.browser/v2"), "steps" := Arr(steps)])
  }

  predicate PlanShape(v: Json)
  {
    && v.Obj? && v.fields.Keys == {"schema_version", "steps"}
    && v.fields["schema_version"] == Str("rdc.browser/v2")
    && v.fields["steps"].Arr?
  }

  lemma PlanIsItsSteps(v: Json)
    requires PlanShape(v)
    ensures PlanJson(v.fields["steps"].items) == v
  {
    assert PlanJson(v.fields["steps"].items).fields == v.fields;
  }

  /** The plans the worker accepts. */
  predicate WorkerAccepts(b: Browser, p: BrowserPolicy, v: Json)
  {
    && p.enabled && PlanShape(v)
    && var steps := v.fields["steps"].items;
    && 1 <= |steps| <= p.maxActions
    && (forall i :: 0 <= i < |steps| ==> WorkerStep(b, p, steps[i], i))
    && Distinct(Ids(steps))
    && GotoCount(steps) <= p.maxPages
  }

  /** The plans the runtime accepts. */
  predicate RuntimeAccepts(v: Json)
  {
    && PlanShape(v)
    && var steps := v.fields["steps"].items;
    && 1 <= |steps| <= 16
    && (forall i :: 0 <= i < |steps| ==> RuntimeStep(steps[i], i))
    && Distinct(Ids(steps))
  }

  datatype Receipt = Receipt(plan: Json, hostnames: seq<string>, policyDigest: Json, requestDigest: Json)

  lemma GotoCountSnoc(steps: seq<Json>, i: nat)
    requires i < |steps|
    ensures GotoCount(steps[..i + 1]) == GotoCount(steps[..i]) + (if IsGoto(steps[i]) then 1 else 0)
  {
    assert steps[..i + 1][..i] == steps[..i];
  }

  lemma HostsSnoc(b: Browser, p: BrowserPolicy, steps: seq<Json>, i: nat)
    requires i < |steps| && IsGoto(steps[i]) ==> UrlHost(b, p, Get(steps[i].fields, "url")).Some?
    requires i < |steps|
    ensures Hosts(b, p, steps[..i + 1]) ==
            Hosts(b, p, steps[..i]) + if IsGoto(steps[i]) then [UrlHost(b, p, Get(steps[i].fields, "url")).value]
              else []
  {
    assert steps[..i + 1][..i] == steps[..i];
  }

  lemma {:induction false} GotoCountGrows(steps: seq<Json>, i: nat)
    requires i <= |steps|
    ensures GotoCount(steps[..i]) <= GotoCount(steps)
    decreases |steps| - i
  {
    if i < |steps| {
      GotoCountSnoc(steps, i);
      GotoCountGrows(steps, i + 1);
    } else {
      assert steps[..i] == steps;
    }
  }

  lemma FirstIsGoto(steps: seq<Json>)
    requires steps != [] && IsGoto(steps[0])
    ensures GotoCount(steps) >= 1
  {
    GotoCountSnoc(steps, 0);
    GotoCountGrows(steps, 1);
  }

  lemma RepeatedId(steps: seq<Json>, i: nat, seen: set<Json>)
    requires i < |steps| && StepId(steps[i]) in seen
    requires seen == (set k | 0 <= k < i :: StepId(steps[k]))
    ensures !Distinct(Ids(steps))
  {
    var k :| 0 <= k < i && StepId(steps[k]) == StepId(steps[i]);
    var ids := Ids(steps);
    assert ids[k] == ids[i];
  }

  /** `validate_browser_navigation_plan`: the plan comes back rebuilt step by step, and is the plan that was given. */
  method ValidatePlan(b: Browser, p: BrowserPolicy, v: Json) returns (r: Option<Receipt>)
    ensures r == if WorkerAccepts(b, p, v)
                 then Some(Receipt(v, Hosts(b, p, v.fields["steps"].items), Digest(b.lib, BrowserPolicyJson(p), true),
                                   Digest(b.lib, v, true)))
                 else None
  {
    hide WorkerStep, GotoCount, Hosts, Digest, Rebuilt, UrlHost, Distinct, Ids, BrowserPolicyJson, Get;
    if !p.enabled || !PlanShape(v) { return None; }
    var steps := v.fields["steps"].items;
    if !(1 <= |steps| <= p.maxActions) { return None; }
    var seen: set<Json> := {};
    var normalized: seq<Json> := [];
    var hostnames: seq<string> := [];
    var gotoCount := 0;
    assert steps[..0] == [];
    assert GotoCount([]) == 0 && Hosts(b, p, []) == [] by { Empty(b, p); }
    for i := 0 to |steps|
      invariant normalized == steps[..i]
      invariant seen == set k | 0 <= k < i :: StepId(steps[k])
      invariant forall j :: 0 <= j < i ==> WorkerStep(b, p, steps[j], j)
      invariant forall j, k :: 0 <= j < k < i ==> StepId(steps[j]) != StepId(steps[k])
      invariant gotoCount == GotoCount(steps[..i]) && (gotoCount == 0 || gotoCount <= p.maxPages)
      invariant hostnames == Hosts(b, p, steps[..i])
    {
      var step := steps[i];
      if !WorkerStep(b, p, step, i) { return None; }
      if StepId(step) in seen {
        RepeatedId(steps, i, seen);
        return None;
      }
      seen := seen + {StepId(step)};
      GotoCountSnoc(steps, i);
      GotoUrl(b, p, step, i);
      HostsSnoc(b, p, steps, i);
      if IsGoto(step) {
        gotoCount := gotoCount + 1;
        if gotoCount > p.maxPages {
          GotoCountGrows(steps, i + 1);
          return None;
        }
        hostnames := hostnames + [UrlHost(b, p, Get(step.fields, "url")).value];
      }
      RebuiltIsStep(b, p, step, i);
      normalized := normalized + [Rebuilt(step)];
    }
    assert steps[..|steps|] == steps;
    StartsWithGoto(b, p, steps);
    FirstIsGoto(steps);
    if gotoCount < 1 { return None; }
    assert Distinct(Ids(steps)) by { AllDifferent(steps); }
    PlanIsItsSteps(v);
    var plan := PlanJson(normalized);
    r := Some(Receipt(plan, hostnames, Digest(b.lib, BrowserPolicyJson(p), true), Digest(b.lib, plan, true)));
  }

  lemma Empty(b: Browser, p: BrowserPolicy)
    ensures GotoCount([]) == 0 && Hosts(b, p, []) == []
  {
  }

  lemma GotoUrl(b: Browser, p: BrowserPolicy, step: Json, index: nat)
    requires WorkerStep(b, p, step, index)
    ensures step.Obj? && (IsGoto(step) ==> UrlHost(b, p, Get(step.fields, "url")).Some?)
  {
    hide UrlHost;
  }

  lemma StartsWithGoto(b: Browser, p: BrowserPolicy, steps: seq<Json>)
    requires steps != [] && WorkerStep(b, p, steps[0], 0)
    ensures IsGoto(steps[0])
  {
  }

  lemma AllDifferent(steps: seq<Json>)
    requires forall j, k :: 0 <= j < k < |steps| ==> StepId(steps[j]) != StepId(steps[k])
    ensures Distinct(Ids(steps))
  {
  }

  /** `_validate_runtime_plan`. */
  method ValidateRuntimePlan(v: Json) returns (r: Option<Json>)
    ensures r == if RuntimeAccepts(v) then Some(v) else None
  {
    hide RuntimeStep, GotoCount, Distinct, Ids, Get;
    if !PlanShape(v) { return None; }
    var steps := v.fields["steps"].items;
    if !(1 <= |steps| <= 16) { return None; }
    var seen: set<Json> := {};
    var normalized: seq<Json> := [];
    var gotoCount := 0;
    assert steps[..0] == [];
    assert GotoCount([]) == 0 by { NoSteps(); }
    for i := 0 to |steps|
      invariant normalized == steps[..i]
      invariant seen == set k | 0 <= k < i :: StepId(steps[k])
      invariant forall j :: 0 <= j < i ==> RuntimeStep(steps[j], j)
      invariant forall j, k :: 0 <= j < k < i ==> StepId(steps[j]) != StepId(steps[k])
      invariant gotoCount == GotoCount(steps[..i])
    {
      var step := steps[i];
      if !RuntimeStep(step, i) { return None; }
      if StepId(step) in seen {
        RepeatedId(steps, i, seen);
        return None;
      }
      seen := seen + {StepId(step)};
      GotoCountSnoc(steps, i);
      if IsGoto(step) { gotoCount := gotoCount + 1; }
      normalized := normalized + [step];
    }
    assert steps[..|steps|] == steps;
    RuntimeStartsWithGoto(steps);
    FirstIsGoto(steps);
    if gotoCount < 1 { return None; }
    assert Distinct(Ids(steps)) by { AllDifferent(steps); }
    PlanIsItsSteps(v);
    r := Some(PlanJson(normalized));
  }

  lemma NoSteps()
    ensures GotoCount([]) == 0
  {
  }

  lemma RuntimeStartsWithGoto(steps: seq<Json>)
    requires steps != [] && RuntimeStep(steps[0], 0)
    ensures IsGoto(steps[0])
  {
  }

  lemma SelectorAccepted(v: Json)
    requires SelectorOk(v)
    ensures RuntimeSelector(v)
  {
  }

  lemma OtherStepAccepted(p: BrowserPolicy, f: map<string, Json>)
    requires SafeBrowserPolicy(p) && OtherStep(p, f)
    ensures var kind := Get(f, "type");
            || (kind == Str("wait_for_selector") && RuntimeWait(f))
            || (kind == Str("extract_text") && RuntimeExtract(f, "max_chars", 131_072))
            || (kind == Str("extract_html") && RuntimeExtract(f, "max_bytes", 4_194_304))
            || (kind == Str("screenshot") && f.Keys == {"id", "type", "full_page"}
                && Get(f, "full_page") == Bool(false))
  {
    hide SelectorOk, RuntimeSelector;
    if Get(f, "type") != Str("screenshot") {
      assert "selector" in f.Keys;
      SelectorAccepted(f["selector"]);
    }
  }

  lemma StepAcceptedByRuntime(b: Browser, p: BrowserPolicy, step: Json, index: nat)
    requires SafeBrowserPolicy(p) && WorkerStep(b, p, step, index)
    ensures RuntimeStep(step, index)
  {
    hide RequestId, OtherStep, RuntimeWait, RuntimeExtract;
    if !IsGoto(step) { OtherStepAccepted(p, step.fields); }
  }

  /** Under every created policy, what the worker accepts the runtime accepts. */
  lemma AcceptedByRuntime(b: Browser, p: BrowserPolicy, v: Json)
    requires SafeBrowserPolicy(p) && WorkerAccepts(b, p, v)
    ensures RuntimeAccepts(v)
  {
    hide WorkerStep, RuntimeStep, Distinct, Ids, GotoCount;
    var steps := v.fields["steps"].items;
    forall i | 0 <= i < |steps| ensures RuntimeStep(steps[i], i) { StepAcceptedByRuntime(b, p, steps[i], i); }
  }

  /** `_load_runtime_plan`, given the bytes of the file: the plan in it, if it is short enough, is JSON, is acceptable,
      and has the expected digest. */
  function Loaded(lib: Library, raw: seq<Byte>, expectedDigest: string): Option<Json>
  {
    if raw == [] || |raw| > MAX_PLAN_BYTES || Utf8.Decode(raw).None? then None
    else match Loads(Utf8.Decode(raw).value)
      case None => None
      case Some(v) => if RuntimeAccepts(v) && Digest(lib, v, true) == Str(expectedDigest) then Some(v) else None
  }

  /** A plan the worker accepted, written as JSON in whichever way within the limit, is loaded under the receipt's
      digest. */
  lemma AcceptedPlanLoads(b: Browser, p: BrowserPolicy, v: Json, raw: seq<Byte>, text: string)
    requires SafeBrowserPolicy(p) && WorkerAccepts(b, p, v)
    requires Utf8.Decode(raw) == Some(text) && Loads(text) == Some(v) && 0 < |raw| <= MAX_PLAN_BYTES
    ensures Digest(b.lib, v, true).Str?
    ensures Loaded(b.lib, raw, Digest(b.lib, v, true).s) == Some(v)
  {
    hide WorkerAccepts, Utf8.Decode, Loads, RuntimeAccepts;
    AcceptedByRuntime(b, p, v);
  }

  /** The runtime takes a plan file if and only if its bytes are at most the limit and the UTF-8 text of a document that
      is a runtime plan and has the expected digest; it then takes that document. */
  lemma LoadedExactly(lib: Library, raw: seq<Byte>, expectedDigest: string, v: Json)
    ensures Loaded(lib, raw, expectedDigest) == Some(v) <==>
              && 0 < |raw| <= 65_536
              && (exists text :: Utf8.Decode(raw) == Some(text) && Loads(text) == Some(v))
              && RuntimeAccepts(v)
              && Str(lib.sha256(Utf8.Encode(Dumps(v, true)))) == Str(expectedDigest)
  {
    hide Utf8.Decode, Loads, RuntimeAccepts, Dumps;
  }

  // ---- exactly which plans the worker accepts ----

  /** Where a goto step may go: an https URL without credentials on an allowed host. */
  predicate MayGo(b: Browser, p: BrowserPolicy, f: map<string, Json>)
  {
    var url := Get(f, "url");
    && url.Str?
    && b.lib.urlsplit(url.s).Some?
    && var u := b.lib.urlsplit(url.s).value;
    && u.hostname != "" && u.username.None? && u.password.None?
    && b.normalizeHostname(u.hostname).Some? && b.normalizeHostname(u.hostname).value in p.allowedHosts
  }

  /** What the policy adds to the runtime's own checks of a step. */
  predicate PolicyAllows(b: Browser, p: BrowserPolicy, f: map<string, Json>)
  {
    var kind := Get(f, "type");
    && (kind == Str("goto") ==> MayGo(b, p, f))
    && (kind == Str("wait_for_selector") ==>
          Get(f, "timeout_ms").Num? && Get(f, "timeout_ms").n <= p.navigationTimeoutSeconds * 1000)
    && (kind == Str("extract_html") ==> Get(f, "max_bytes").Num? && Get(f, "max_bytes").n <= p.maxDomBytes)
  }

  lemma SelectorsAgree(v: Json)
    ensures SelectorOk(v) <==> RuntimeSelector(v)
  {
    if SelectorOk(v) {
      forall i | 0 <= i < |v.s| ensures v.s[i] !in ['\0', '\r', '\n'] { assert v.s[i] in v.s; }
    }
  }

  lemma GotosAgree(b: Browser, p: BrowserPolicy, f: map<string, Json>)
    ensures GotoShape(f) && UrlHost(b, p, Get(f, "url")).Some? <==> RuntimeGoto(f) && MayGo(b, p, f)
  {
    assert forall v: Json :: WaitUntilOk(v) <==> v.Str? && v.s in ["domcontentloaded", "load"];
  }

  lemma OthersAgree(b: Browser, p: BrowserPolicy, f: map<string, Json>)
    requires SafeBrowserPolicy(p) && Get(f, "type") != Str("goto")
    ensures var kind := Get(f, "type");
            OtherStep(p, f) <==>
              && PolicyAllows(b, p, f)
              && (if kind == Str("wait_for_selector") then RuntimeWait(f)
                  else if kind == Str("extract_text") then RuntimeExtract(f, "max_chars", 131_072)
                  else if kind == Str("extract_html") then RuntimeExtract(f, "max_bytes", 4_194_304)
                  else kind == Str("screenshot") && f.Keys == {"id", "type", "full_page"}
                       && Get(f, "full_page") == Bool(false))
  {
    hide SelectorOk, RuntimeSelector;
    if "selector" in f { SelectorsAgree(f["selector"]); }
    assert forall v: Json :: v == Str("attached") || v == Str("visible") <==> v.Str? && v.s in ["attached", "visible"];
  }

  lemma StepAcceptedExactly(b: Browser, p: BrowserPolicy, step: Json, index: nat)
    requires SafeBrowserPolicy(p)
    ensures WorkerStep(b, p, step, index) <==> RuntimeStep(step, index) && PolicyAllows(b, p, step.fields)
  {
    hide RequestId, GotoShape, UrlHost, MayGo, OtherStep, RuntimeGoto, RuntimeWait, RuntimeExtract;
    if step.Obj? {
      if Get(step.fields, "type") == Str("goto") {
        GotosAgree(b, p, step.fields);
      } else {
        OthersAgree(b, p, step.fields);
      }
    }
  }

  lemma {:induction false} GotosCounted(steps: seq<Json>)
    ensures GotoCount(steps) == |set i: nat | i < |steps| && IsGoto(steps[i])|
  {
    hide IsGoto;
    var now := set i: nat | i < |steps| && IsGoto(steps[i]);
    if steps == [] {
      assert now == {};
    } else {
      var n := |steps| - 1;
      GotosCounted(steps[..n]);
      var before := set i: nat | i < n && IsGoto(steps[..n][i]);
      assert now == if IsGoto(steps[n]) then before + {n} else before;
    }
  }

  /** Under every created policy that is enabled, the worker accepts a plan exactly if the runtime does and the policy
      allows it: its number of steps and of pages, where it goes, how long it waits and how much it extracts. */
  lemma PlanAcceptedExactly(b: Browser, p: BrowserPolicy, v: Json)
    requires SafeBrowserPolicy(p)
    ensures WorkerAccepts(b, p, v) <==>
            && p.enabled && RuntimeAccepts(v)
            && var steps := v.fields["steps"].items;
            && |steps| <= p.maxActions
            && |set i: nat | i < |steps| && IsGoto(steps[i])| <= p.maxPages
            && forall i :: 0 <= i < |steps| ==> PolicyAllows(b, p, steps[i].fields)
  {
    hide WorkerStep, RuntimeStep, PolicyAllows, Distinct, GotoCount, IsGoto;
    if PlanShape(v) {
      var steps := v.fields["steps"].items;
      GotosCounted(steps);
      forall i | 0 <= i < |steps|
        ensures RuntimeStep(steps[i], i) ==> steps[i].Obj?
        ensures WorkerStep(b, p, steps[i], i) <==> RuntimeStep(steps[i], i) && PolicyAllows(b, p, steps[i].fields)
      {
        StepIsObject(steps[i], i);
        StepAcceptedExactly(b, p, steps[i], i);
      }
    }
  }

  lemma StepIsObject(step: Json, i: nat)
    ensures RuntimeStep(step, i) ==> step.Obj?
  {
  }

  predicate IsAllowed(b: Browser, hosts: seq<string>, h: string)
  {
    exists i :: 0 <= i < |hosts| && b.normalizeHostname(hosts[i]) == Some(h)
  }

  /** A policy is created exactly from hosts that all have a normal form, one at least if it is enabled, and numbers
      within their ranges; it has those hosts, each once and in order, and those numbers. */
  lemma BrowserPolicyExactly(b: Browser, enabled: bool, hosts: seq<string>, maxPages: int, maxActions: int,
                             timeout: int, maxDom: int, maxScreenshot: int)
    ensures var r := CreateBrowserPolicy(b, enabled, hosts, maxPages, maxActions, timeout, maxDom, maxScreenshot);
            && (r.Some? <==>
                  && (forall i :: 0 <= i < |hosts| ==> b.normalizeHostname(hosts[i]).Some?)
                  && (enabled ==> hosts != [])
                  && 1 <= maxPages <= 2 && 1 <= maxActions <= 16 && 1 <= timeout <= 30
                  && 65_536 <= maxDom <= 4_194_304 && 65_536 <= maxScreenshot <= 4_194_304)
            && (r.Some? ==>
                  && r.value.enabled == enabled
                  && Ascending(r.value.allowedHosts)
                  && (forall h :: h in r.value.allowedHosts <==> IsAllowed(b, hosts, h))
                  && r.value.maxPages == maxPages && r.value.maxActions == maxActions
                  && r.value.navigationTimeoutSeconds == timeout
                  && r.value.maxDomBytes == maxDom && r.value.maxScreenshotBytes == maxScreenshot)
  {
    hide SortedKeys, Ascending;
    if forall i :: 0 <= i < |hosts| ==> b.normalizeHostname(hosts[i]).Some? {
      var normalized := set i | 0 <= i < |hosts| :: b.normalizeHostname(hosts[i]).value;
      var allowed := SortedKeys(normalized);
      forall h ensures h in allowed <==> IsAllowed(b, hosts, h) {
        if i :| 0 <= i < |hosts| && b.normalizeHostname(hosts[i]) == Some(h) { assert h in normalized; }
        if h in normalized {
          var i :| 0 <= i < |hosts| && b.normalizeHostname(hosts[i]).value == h;
          assert b.normalizeHostname(hosts[i]) == Some(h);
        }
      }
      if hosts != [] { assert IsAllowed(b, hosts, b.normalizeHostname(hosts[0]).value); }
      if allowed != [] { assert IsAllowed(b, hosts, allowed[0]); }
    }
  }
}
