/** What the browser runtime reports of a plan it ran, and how the worker validates the report. */
module BrowserResult {
  import opened Utf8
  import opened Json
  import opened JsonText
  import opened Egress
  import opened PolicyBinding
  import opened KeyValue
  import opened BrowserPlan
  import Base64
  import opened BrowserGateway
  import EgressBroker
  import GatewayWire

  const MAX_RESULT_BYTES: nat := 16_777_216

  const BUDGET_FIELDS: set<string> := GatewayWire.BUDGET_FIELDS

  const RESULT_FIELDS: set<string> := {
    "schema_version", "request_digest", "browser_policy_digest", "browser_egress_policy_digest", "browser_network",
    "gateway_transport", "gateway_live_forwarding", "final_url", "steps", "egress_budget"}

  /** The page after the steps so far; None where the browser raises. */
  datatype Page = Page(
    url: nat -> string,
    goes: nat -> bool,
    matches: nat -> bool,
    text: nat -> Option<string>,
    html: nat -> Option<string>,
    image: nat -> Option<seq<Byte>>)

  // ---- the runtime ----

  /** One iteration of the step loop. */
  function StepReport(lib: Library, page: Page, step: Json, i: nat, maxScreenshot: int): Option<Json>
    requires RuntimeStep(step, i)
  {
    var f := step.fields;
    var id, kind := Get(f, "id"), Get(f, "type");
    if kind == Str("goto") then
      if page.goes(i) then Some(Obj(map["id" := id, "type" := Str("goto"), "url" := Str(page.url(i))])) else None
    else if kind == Str("wait_for_selector") then
      if page.matches(i) then Some(Obj(map["id" := id, "type" := Str("wait_for_selector"), "matched" := Bool(true)]))
        else None
    else if kind == Str("extract_text") then
      match page.text(i)
      case None => None
      case Some(text) =>
        var maximum := Get(f, "max_chars").n;
        Some(Obj(map["id" := id, "type" := Str("extract_text"),
                     "text" := Str(if |text| > maximum then text[..maximum] else text),
                     "truncated" := Bool(|text| > maximum)]))
    else if kind == Str("extract_html") then
      match page.html(i)
      case None => None
      case Some(html) =>
        var (kept, truncated) := Truncate(html, Get(f, "max_bytes").n);
        Some(Obj(map["id" := id, "type" := Str("extract_html"), "html" := Str(kept), "truncated" := Bool(truncated)]))
    else
      match page.image(i)
      case None => None
      case Some(image) =>
        if |image| > maxScreenshot then None
        else
          Some(Obj(map["id" := id, "type" := Str("screenshot"), "media_type" := Str("image/png"),
                       "image_base64" := Str(Base64.Encode(image)), "size_bytes" := Num(|image|),
                       "sha256" := Str(lib.sha256(image))]))
  }

  // ---- what a report says of the page ----

  /** The step cannot be done: the browser raises, or the picture is over the limit. */
  predicate StepFails(page: Page, step: Json, i: nat, maxScreenshot: int)
    requires RuntimeStep(step, i)
  {
    var kind := Get(step.fields, "type");
    || (kind == Str("goto") && !page.goes(i))
    || (kind == Str("wait_for_selector") && !page.matches(i))
    || (kind == Str("extract_text") && page.text(i).None?)
    || (kind == Str("extract_html") && page.html(i).None?)
    || (kind == Str("screenshot") && (page.image(i).None? || |page.image(i).value| > maxScreenshot))
  }

  /** The text of the page, whole if it has at most so many characters and otherwise that many of its first. */
  predicate TextShown(f: map<string, Json>, text: string, maximum: int)
  {
    && f.Keys == {"id", "type", "text", "truncated"} && f["text"].Str?
    && f["text"].s <= text
    && f["truncated"] == Bool(f["text"].s != text)
    && (|text| <= maximum ==> f["text"].s == text)
    && (|text| > maximum ==> |f["text"].s| == maximum)
  }

  /** The longest prefix of whole characters that fits so many bytes. */
  predicate HtmlShown(f: map<string, Json>, html: string, maximum: int)
  {
    && f.Keys == {"id", "type", "html", "truncated"} && f["html"].Str?
    && f["html"].s <= html && |Utf8.Encode(f["html"].s)| <= maximum
    && (forall k :: |f["html"].s| < k <= |html| ==> |Utf8.Encode(html[..k])| > maximum)
    && f["truncated"] == Bool(f["html"].s != html)
  }

  predicate ImageShown(lib: Library, f: map<string, Json>, image: seq<Byte>)
  {
    && f.Keys == {"id", "type", "media_type", "image_base64", "size_bytes", "sha256"}
    && f["media_type"] == Str("image/png")
    && f["image_base64"].Str? && Base64.Decode(f["image_base64"].s) == Some(image)
    && f["size_bytes"] == Num(|image|) && f["sha256"] == Str(lib.sha256(image))
  }

  /** The report of a step: its id and kind, and what the page showed. */
  predicate Shows(lib: Library, page: Page, step: Json, i: nat, report: Json)
    requires RuntimeStep(step, i)
  {
    && report.Obj? && "id" in report.fields && "type" in report.fields
    && var f, kind := report.fields, Get(step.fields, "type");
    && f["id"] == Get(step.fields, "id") && f["type"] == kind
    && (kind == Str("goto") ==> f.Keys == {"id", "type", "url"} && f["url"] == Str(page.url(i)))
    && (kind == Str("wait_for_selector") ==> f.Keys == {"id", "type", "matched"} && f["matched"] == Bool(true))
    && (kind == Str("extract_text") ==>
          page.text(i).Some? && TextShown(f, page.text(i).value, Get(step.fields, "max_chars").n))
    && (kind == Str("extract_html") ==>
          page.html(i).Some? && HtmlShown(f, page.html(i).value, Get(step.fields, "max_bytes").n))
    && (kind == Str("screenshot") ==> page.image(i).Some? && ImageShown(lib, f, page.image(i).value))
  }

  lemma TextShows(id: Json, text: string, maximum: nat)
    ensures TextShown(map["id" := id, "type" := Str("extract_text"),
                          "text" := Str(if |text| > maximum then text[..maximum] else text),
                          "truncated" := Bool(|text| > maximum)], text, maximum)
  {
    if |text| > maximum { assert |text[..maximum]| != |text|; }
  }

  lemma HtmlShows(id: Json, html: string, maximum: nat)
    ensures var (kept, truncated) := Truncate(html, maximum);
            HtmlShown(map["id" := id, "type" := Str("extract_html"), "html" := Str(kept),
                          "truncated" := Bool(truncated)],
                      html, maximum)
  {
    hide Truncate, Utf8.Encode;
    TruncateKeepsLongestPrefix(html, maximum);
  }

  lemma PictureLookups(id: Json, text: Json, size: Json, digest: Json, f: map<string, Json>)
    requires f == map["id" := id, "type" := Str("screenshot"), "media_type" := Str("image/png"), "image_base64" := text,
                      "size_bytes" := size, "sha256" := digest]
    ensures && f.Keys == {"id", "type", "media_type", "image_base64", "size_bytes", "sha256"}
            && f["id"] == id && f["type"] == Str("screenshot") && f["media_type"] == Str("image/png")
            && f["image_base64"] == text && f["size_bytes"] == size && f["sha256"] == digest
  {
  }

  lemma ImageShows(lib: Library, page: Page, step: Json, i: nat, maxScreenshot: int)
    requires RuntimeStep(step, i) && Get(step.fields, "type") == Str("screenshot")
    requires StepReport(lib, page, step, i, maxScreenshot).Some?
    ensures Shows(lib, page, step, i, StepReport(lib, page, step, i, maxScreenshot).value)
  {
    hide Base64.Encode, Base64.Decode, RequestId, TextShown, HtmlShown;
    var image := page.image(i).value;
    Base64.DecodeEncode(image);
    var report := StepReport(lib, page, step, i, maxScreenshot).value;
    PictureLookups(Get(step.fields, "id"), Str(Base64.Encode(image)), Num(|image|), Str(lib.sha256(image)),
                   report.fields);
    hide StepReport;
  }

  lemma OtherShows(lib: Library, page: Page, step: Json, i: nat, maxScreenshot: int)
    requires RuntimeStep(step, i) && Get(step.fields, "type") != Str("screenshot")
    requires StepReport(lib, page, step, i, maxScreenshot).Some?
    ensures Shows(lib, page, step, i, StepReport(lib, page, step, i, maxScreenshot).value)
  {
    var id, kind := Get(step.fields, "id"), Get(step.fields, "type");
    if kind == Str("extract_text") {
      TextShows(id, page.text(i).value, Get(step.fields, "max_chars").n);
    } else if kind == Str("extract_html") {
      HtmlShows(id, page.html(i).value, Get(step.fields, "max_bytes").n);
    }
    hide TextShown, HtmlShown, ImageShown, RequestId, RuntimeSelector, Truncate, Base64.Encode;
  }

  lemma FailsExactly(lib: Library, page: Page, step: Json, i: nat, maxScreenshot: int)
    requires RuntimeStep(step, i)
    ensures StepReport(lib, page, step, i, maxScreenshot).None? <==> StepFails(page, step, i, maxScreenshot)
  {
    hide RequestId, RuntimeSelector, Truncate, Base64.Encode;
  }

  /** A step is reported exactly if it does not fail, and its report shows the page. */
  lemma StepReportShows(lib: Library, page: Page, step: Json, i: nat, maxScreenshot: int)
    requires RuntimeStep(step, i)
    ensures var r := StepReport(lib, page, step, i, maxScreenshot);
            && (r.None? <==> StepFails(page, step, i, maxScreenshot))
            && (r.Some? ==> Shows(lib, page, step, i, r.value))
  {
    StepTyped(step, i);
    hide StepReport, StepFails, Shows, RuntimeStep;
    FailsExactly(lib, page, step, i, maxScreenshot);
    if StepReport(lib, page, step, i, maxScreenshot).Some? {
      if Get(step.fields, "type") == Str("screenshot") {
        ImageShows(lib, page, step, i, maxScreenshot);
      } else {
        OtherShows(lib, page, step, i, maxScreenshot);
      }
    }
  }

  predicate AllReport(lib: Library, page: Page, steps: seq<Json>, maxScreenshot: int)
    requires forall i :: 0 <= i < |steps| ==> RuntimeStep(steps[i], i)
  {
    forall i :: 0 <= i < |steps| ==> StepReport(lib, page, steps[i], i, maxScreenshot).Some?
  }

  function Reports(lib: Library, page: Page, steps: seq<Json>, maxScreenshot: int): (rs: seq<Json>)
    requires forall i :: 0 <= i < |steps| ==> RuntimeStep(steps[i], i)
    requires AllReport(lib, page, steps, maxScreenshot)
    ensures |rs| == |steps|
    ensures forall i :: 0 <= i < |steps| ==> StepReport(lib, page, steps[i], i, maxScreenshot) == Some(rs[i])
  {
    seq(|steps|, i requires 0 <= i < |steps| => StepReport(lib, page, steps[i], i, maxScreenshot).value)
  }

  /** The step loop of `_live_navigation`. */
  method RunSteps(lib: Library, page: Page, plan: Json, maxScreenshot: int) returns (r: Option<seq<Json>>)
    requires RuntimeAccepts(plan)
    ensures var steps := plan.fields["steps"].items;
            r == if AllReport(lib, page, steps, maxScreenshot) then Some(Reports(lib, page, steps, maxScreenshot))
              else None
    ensures var steps := plan.fields["steps"].items;
            && (r.None? <==> exists i :: 0 <= i < |steps| && StepFails(page, steps[i], i, maxScreenshot))
            && (r.Some? ==>
                  |r.value| == |steps| && forall i :: 0 <= i < |steps| ==> Shows(lib, page, steps[i], i, r.value[i]))
  {
    hide RuntimeStep, StepReport, Distinct, StepFails, Shows;
    var steps := plan.fields["steps"].items;
    var results: seq<Json> := [];
    for i := 0 to |steps|
      invariant |results| == i
      invariant forall j :: 0 <= j < i ==> StepReport(lib, page, steps[j], j, maxScreenshot) == Some(results[j])
      invariant forall j :: 0 <= j < i ==>
                !StepFails(page, steps[j], j, maxScreenshot) && Shows(lib, page, steps[j], j, results[j])
    {
      StepReportShows(lib, page, steps[i], i, maxScreenshot);
      var report := StepReport(lib, page, steps[i], i, maxScreenshot);
      if report.None? { return None; }
      results := results + [report.value];
    }
    assert results == Reports(lib, page, steps, maxScreenshot);
    r := Some(results);
  }

  datatype Digests = Digests(request: string, browserPolicy: string, egressPolicy: string)

  function BudgetFields(budget: map<string, int>): Json
  {
    Obj(map k | k in budget :: Num(budget[k]))
  }

  /** The dict `_live_navigation` returns. */
  function ResultFields(d: Digests, finalUrl: string, steps: seq<Json>, budget: map<string, int>): map<string, Json>
  {
    map["schema_version" := Str("rdc.browser-navigation-result/v1"),
        "request_digest" := Str(d.request),
        "browser_policy_digest" := Str(d.browserPolicy),
        "browser_egress_policy_digest" := Str(d.egressPolicy),
        "browser_network" := Str("none"),
        "gateway_transport" := Str("unix"),
        "gateway_live_forwarding" := Bool(true),
        "final_url" := Str(finalUrl),
        "steps" := Arr(steps),
        "egress_budget" := BudgetFields(budget)]
  }

  // ---- the validator ----

  predicate HttpsText(v: Json) { v.Str? && "https://" <= v.s }

  /** A step result against the step of the plan at the same place. */
  predicate StepResultOk(lib: Library, planStep: Json, raw: Json, maxScreenshot: int)
  {
    && planStep.Obj? && Identified(raw) && Get(raw.fields, "type").Str?
    && Get(planStep.fields, "id") == Get(raw.fields, "id") && Get(planStep.fields, "type") == Get(raw.fields, "type")
    && BodyOk(lib, planStep.fields, raw.fields, maxScreenshot)
  }

  predicate BodyOk(lib: Library, plan: map<string, Json>, f: map<string, Json>, maxScreenshot: int)
  {
    var kind := Get(f, "type");
    if kind == Str("goto") then f.Keys == {"id", "type", "url"} && HttpsText(f["url"])
    else if kind == Str("wait_for_selector") then f.Keys == {"id", "type", "matched"} && f["matched"] == Bool(true)
    else if kind == Str("extract_text") then
      && f.Keys == {"id", "type", "text", "truncated"} && f["text"].Str? && f["truncated"].Bool?
      && Get(plan, "max_chars").Num? && |f["text"].s| <= Get(plan, "max_chars").n
    else if kind == Str("extract_html") then
      && f.Keys == {"id", "type", "html", "truncated"} && f["html"].Str? && f["truncated"].Bool?
      && Get(plan, "max_bytes").Num? && |Utf8.Encode(f["html"].s)| <= Get(plan, "max_bytes").n
    else if kind == Str("screenshot") then
      && f.Keys == {"id", "type", "media_type", "image_base64", "size_bytes", "sha256"}
      && Get(plan, "full_page") == Bool(false)
      && ScreenshotOk(lib, f, maxScreenshot)
    else false
  }

  predicate ScreenshotOk(lib: Library, f: map<string, Json>, maxScreenshot: int)
    requires f.Keys == {"id", "type", "media_type", "image_base64", "size_bytes", "sha256"}
  {
    && f["media_type"] == Str("image/png")
    && f["image_base64"].Str?
    && f["size_bytes"].Num? && 0 <= f["size_bytes"].n <= maxScreenshot
    && f["sha256"].Str? && DigestText(f["sha256"].s)
    && var image := Base64.Decode(f["image_base64"].s);
    && image.Some? && |image.value| == f["size_bytes"].n && lib.sha256(image.value) == f["sha256"].s
  }

  predicate BudgetValues(v: Json)
  {
    v.Obj? && v.fields.Keys == BUDGET_FIELDS && forall k :: k in v.fields ==> v.fields[k].Num? && v.fields[k].n >= 0
  }

  predicate BudgetWithin(b: map<string, int>)
    requires b.Keys == BUDGET_FIELDS
  {
    && b["requests_used"] <= b["max_requests"]
    && b["bytes_received"] <= b["max_total_bytes"]
    && b["redirects_used"] <= b["max_redirects"]
  }

  function Values(f: map<string, Json>): map<string, int>
    requires forall k :: k in f ==> f[k].Num?
  {
    map k | k in f :: f[k].n
  }

  predicate HeaderOk(d: Digests, v: Json)
  {
    && v.Obj? && v.fields.Keys == RESULT_FIELDS
    && v.fields["schema_version"] == Str("rdc.browser-navigation-result/v1")
    && v.fields["request_digest"] == Str(d.request)
    && v.fields["browser_policy_digest"] == Str(d.browserPolicy)
    && v.fields["browser_egress_policy_digest"] == Str(d.egressPolicy)
    && v.fields["browser_network"] == Str("none")
    && v.fields["gateway_transport"] == Str("unix")
    && v.fields["gateway_live_forwarding"] == Bool(true)
    && HttpsText(v.fields["final_url"])
    && v.fields["steps"].Arr?
  }

  predicate ExpectationsOk(lib: Library, d: Digests, plan: Json, maxScreenshot: int)
  {
    && DigestText(d.request) && DigestText(d.browserPolicy) && DigestText(d.egressPolicy)
    && 65_536 <= maxScreenshot <= 4_194_304
    && PlanShape(plan) && 1 <= |plan.fields["steps"].items| <= 16
    && Digest(lib, plan, true) == Str(d.request)
  }

  /** The results `validate_browser_navigation_result` accepts. */
  predicate ResultOk(lib: Library, d: Digests, plan: Json, maxScreenshot: int, v: Json)
  {
    && ExpectationsOk(lib, d, plan, maxScreenshot)
    && HeaderOk(d, v)
    && var planSteps, steps := plan.fields["steps"].items, v.fields["steps"].items;
    && |steps| == |planSteps|
    && (forall i :: 0 <= i < |steps| ==> StepResultOk(lib, planSteps[i], steps[i], maxScreenshot))
    && Distinct(Ids(steps))
    && BudgetValues(v.fields["egress_budget"])
    && BudgetWithin(Values(v.fields["egress_budget"].fields))
    && Size(v, true) <= MAX_RESULT_BYTES
  }

  /** `validate_browser_navigation_result`: the value comes back with its steps and budget copied. */
  method ValidateResult(lib: Library, d: Digests, plan: Json, maxScreenshot: int, v: Json) returns (r: Option<Json>)
    ensures r == if ResultOk(lib, d, plan, maxScreenshot, v) then Some(v) else None
  {
    hide ExpectationsOk, StepResultOk, Size, Distinct, Ids, Get, StepId, BudgetWithin;
    if !ExpectationsOk(lib, d, plan, maxScreenshot) { return None; }
    if !HeaderOk(d, v) { return None; }
    assert PlanShape(plan) by { PlanExpected(lib, d, plan, maxScreenshot); }
    var planSteps, steps := plan.fields["steps"].items, v.fields["steps"].items;
    if |steps| != |planSteps| { return None; }
    var seen: set<Json> := {};
    var normalized: seq<Json> := [];
    for i := 0 to |steps|
      invariant normalized == steps[..i]
      invariant seen == set k | 0 <= k < i :: StepId(steps[k])
      invariant forall j :: 0 <= j < i ==> StepResultOk(lib, planSteps[j], steps[j], maxScreenshot)
      invariant forall j, k :: 0 <= j < k < i ==> StepId(steps[j]) != StepId(steps[k])
    {
      if !StepResultOk(lib, planSteps[i], steps[i], maxScreenshot) { return None; }
      if StepId(steps[i]) in seen {
        RepeatedId(steps, i, seen);
        return None;
      }
      seen := seen + {StepId(steps[i])};
      normalized := normalized + [steps[i]];
    }
    assert normalized == steps;
    assert Distinct(Ids(steps)) by { AllDifferent(steps); }
    var raw := v.fields["egress_budget"];
    if !BudgetValues(raw) { return None; }
    var budget := CopyBudget(raw.fields);
    if !BudgetWithin(budget) { return None; }
    if Size(v, true) > MAX_RESULT_BYTES { return None; }
    assert BudgetFields(budget) == raw by { BudgetCopied(raw, budget); }
    var copy := v.fields["steps" := Arr(normalized)]["egress_budget" := BudgetFields(budget)];
    Rebuilt(v.fields, Arr(normalized), raw);
    r := Some(Obj(copy));
  }

  lemma Rebuilt(fields: map<string, Json>, steps: Json, budget: Json)
    requires "steps" in fields && fields["steps"] == steps
    requires "egress_budget" in fields && fields["egress_budget"] == budget
    ensures fields["steps" := steps]["egress_budget" := budget] == fields
  {
  }

  lemma PlanExpected(lib: Library, d: Digests, plan: Json, maxScreenshot: int)
    requires ExpectationsOk(lib, d, plan, maxScreenshot)
    ensures PlanShape(plan)
  {
    hide Digest;
  }

  lemma BudgetCopied(raw: Json, budget: map<string, int>)
    requires BudgetValues(raw) && budget == Values(raw.fields)
    ensures BudgetFields(budget) == raw
  {
    assert BudgetFields(budget).fields == raw.fields;
  }

  /** The loop that copies the budget. */
  method CopyBudget(fields: map<string, Json>) returns (budget: map<string, int>)
    requires forall k :: k in fields ==> fields[k].Num?
    ensures budget == Values(fields)
  {
    var keys := SortedKeys(fields.Keys);
    budget := map[];
    for i := 0 to |keys|
      invariant forall k :: k in budget ==> k in fields && budget[k] == fields[k].n
      invariant forall j :: 0 <= j < i ==> keys[j] in budget
    {
      assert keys[i] in fields.Keys;
      budget := budget[keys[i] := fields[keys[i]].n];
    }
    forall k | k in fields ensures k in budget {
      assert k in keys;
      var j :| 0 <= j < |keys| && keys[j] == k;
    }
    assert budget == Values(fields);
  }

  // ---- the validator takes what the runtime reports ----

  lemma ReportedIdentity(lib: Library, page: Page, step: Json, i: nat, maxScreenshot: int)
    requires RuntimeStep(step, i) && StepReport(lib, page, step, i, maxScreenshot).Some?
    ensures var raw := StepReport(lib, page, step, i, maxScreenshot).value;
            && Identified(raw)
            && Get(raw.fields, "id") == Get(step.fields, "id")
            && Get(raw.fields, "type") == Get(step.fields, "type")
  {
    hide RequestId, Truncate, Base64.Encode, RuntimeSelector;
  }

  lemma ScreenshotReported(lib: Library, step: Json, image: seq<Byte>, maxScreenshot: int, f: map<string, Json>)
    requires LawfulText(lib) && |image| <= maxScreenshot && step.Obj?
    requires f == map["id" := Get(step.fields, "id"), "type" := Str("screenshot"), "media_type" := Str("image/png"),
                      "image_base64" := Str(Base64.Encode(image)), "size_bytes" := Num(|image|),
                      "sha256" := Str(lib.sha256(image))]
    ensures f.Keys == {"id", "type", "media_type", "image_base64", "size_bytes", "sha256"}
            && ScreenshotOk(lib, f, maxScreenshot)
  {
    hide Base64.Encode, Base64.Decode, DigestText, Get;
    Base64.DecodeEncode(image);
    assert f["image_base64"] == Str(Base64.Encode(image)) && f["size_bytes"] == Num(|image|);
    assert f["sha256"] == Str(lib.sha256(image)) && f["media_type"] == Str("image/png");
  }

  /** Where the page must be for a goto step to be accepted. */
  predicate PageHttps(page: Page, step: Json, i: nat)
  {
    IsGoto(step) ==> "https://" <= page.url(i)
  }

  /** The report of a step is accepted exactly if, after a goto, the page is at an https URL. */
  lemma ReportAccepted(lib: Library, page: Page, step: Json, i: nat, maxScreenshot: int)
    requires LawfulText(lib) && RuntimeStep(step, i) && StepReport(lib, page, step, i, maxScreenshot).Some?
    ensures StepResultOk(lib, step, StepReport(lib, page, step, i, maxScreenshot).value, maxScreenshot) <==>
            PageHttps(page, step, i)
  {
    ReportedIdentity(lib, page, step, i, maxScreenshot);
    ReportBody(lib, page, step, i, maxScreenshot);
    hide RequestId, Truncate, Base64.Encode, RuntimeSelector, BodyOk, StepReport, RuntimeStep;
    assert step.Obj? && Get(step.fields, "type").Str? by { StepTyped(step, i); }
  }

  lemma StepTyped(step: Json, i: nat)
    requires RuntimeStep(step, i)
    ensures step.Obj? && Get(step.fields, "type").Str?
  {
  }

  lemma ReportBody(lib: Library, page: Page, step: Json, i: nat, maxScreenshot: int)
    requires LawfulText(lib) && RuntimeStep(step, i) && StepReport(lib, page, step, i, maxScreenshot).Some?
    ensures StepReport(lib, page, step, i, maxScreenshot).value.Obj?
    ensures BodyOk(lib, step.fields, StepReport(lib, page, step, i, maxScreenshot).value.fields, maxScreenshot)
            <==> PageHttps(page, step, i)
  {
    StepTyped(step, i);
    var kind := Get(step.fields, "type");
    if kind == Str("extract_html") {
      HtmlReported(lib, page, step, i, maxScreenshot);
    } else if kind == Str("screenshot") {
      ImageReported(lib, page, step, i, maxScreenshot);
    } else {
      OtherReported(lib, page, step, i, maxScreenshot);
    }
  }

  lemma HtmlReported(lib: Library, page: Page, step: Json, i: nat, maxScreenshot: int)
    requires RuntimeStep(step, i) && StepReport(lib, page, step, i, maxScreenshot).Some?
    requires Get(step.fields, "type") == Str("extract_html")
    ensures StepReport(lib, page, step, i, maxScreenshot).value.Obj?
    ensures BodyOk(lib, step.fields, StepReport(lib, page, step, i, maxScreenshot).value.fields, maxScreenshot)
  {
    hide RequestId, Truncate, Base64.Encode, RuntimeSelector, ScreenshotOk, Utf8.Encode;
    TruncateKeepsLongestPrefix(page.html(i).value, Get(step.fields, "max_bytes").n);
  }

  lemma ImageReported(lib: Library, page: Page, step: Json, i: nat, maxScreenshot: int)
    requires LawfulText(lib) && RuntimeStep(step, i) && StepReport(lib, page, step, i, maxScreenshot).Some?
    requires Get(step.fields, "type") == Str("screenshot")
    ensures StepReport(lib, page, step, i, maxScreenshot).value.Obj?
    ensures BodyOk(lib, step.fields, StepReport(lib, page, step, i, maxScreenshot).value.fields, maxScreenshot)
  {
    hide RequestId, Truncate, Base64.Encode, RuntimeSelector, ScreenshotOk;
    var f := StepReport(lib, page, step, i, maxScreenshot).value.fields;
    ScreenshotReported(lib, step, page.image(i).value, maxScreenshot, f);
  }

  lemma OtherReported(lib: Library, page: Page, step: Json, i: nat, maxScreenshot: int)
    requires RuntimeStep(step, i) && StepReport(lib, page, step, i, maxScreenshot).Some?
    requires Get(step.fields, "type") != Str("extract_html") && Get(step.fields, "type") != Str("screenshot")
    ensures StepReport(lib, page, step, i, maxScreenshot).value.Obj?
    ensures BodyOk(lib, step.fields, StepReport(lib, page, step, i, maxScreenshot).value.fields, maxScreenshot)
            <==> PageHttps(page, step, i)
  {
    hide RequestId, Truncate, Base64.Encode, RuntimeSelector, ScreenshotOk, Utf8.Encode;
  }

  lemma ResultLookups(d: Digests, finalUrl: string, steps: seq<Json>, budget: map<string, int>)
    ensures var f := ResultFields(d, finalUrl, steps, budget);
            && f.Keys == RESULT_FIELDS
            && (HeaderOk(d, Obj(f)) <==> "https://" <= finalUrl)
            && f["steps"] == Arr(steps)
            && f["egress_budget"] == BudgetFields(budget)
  {
    hide BudgetFields;
  }

  lemma BudgetReported(budget: map<string, int>)
    requires budget.Keys == BUDGET_FIELDS && forall k :: k in budget ==> budget[k] >= 0
    ensures BudgetValues(BudgetFields(budget)) && Values(BudgetFields(budget).fields) == budget
  {
    assert BudgetFields(budget).fields.Keys == budget.Keys;
    assert Values(BudgetFields(budget).fields) == budget;
  }

  lemma ReportedIds(lib: Library, page: Page, steps: seq<Json>, maxScreenshot: int)
    requires forall i :: 0 <= i < |steps| ==> RuntimeStep(steps[i], i)
    requires AllReport(lib, page, steps, maxScreenshot)
    ensures Ids(Reports(lib, page, steps, maxScreenshot)) == Ids(steps)
  {
    hide RuntimeStep, StepReport, Ids, Get, Identified;
    var reports := Reports(lib, page, steps, maxScreenshot);
    forall i | 0 <= i < |steps| ensures StepId(reports[i]) == StepId(steps[i]) {
      StepTyped(steps[i], i);
      ReportedObject(lib, page, steps[i], i, maxScreenshot);
    }
  }

  lemma ReportedObject(lib: Library, page: Page, step: Json, i: nat, maxScreenshot: int)
    requires RuntimeStep(step, i) && StepReport(lib, page, step, i, maxScreenshot).Some?
    ensures var raw := StepReport(lib, page, step, i, maxScreenshot).value;
            raw.Obj? && Get(raw.fields, "id") == Get(step.fields, "id")
  {
    hide RuntimeStep, StepReport, RequestId;
    ReportedIdentity(lib, page, step, i, maxScreenshot);
  }

  /**
   What the runtime reports of an acceptable plan is accepted, unchanged, exactly if every page it stopped at after a
   goto and the last page are https, the budget it saw last is within its limits, and the report fits 16,777,216 bytes.
   */
  lemma ReportIsAccepted(lib: Library, d: Digests, plan: Json, maxScreenshot: int, page: Page, finalUrl: string,
                         budget: map<string, int>)
    requires LawfulText(lib) && RuntimeAccepts(plan) && ExpectationsOk(lib, d, plan, maxScreenshot)
    requires AllReport(lib, page, plan.fields["steps"].items, maxScreenshot)
    requires budget.Keys == BUDGET_FIELDS && forall k :: k in budget ==> budget[k] >= 0
    ensures var steps := plan.fields["steps"].items;
            var v := Obj(ResultFields(d, finalUrl, Reports(lib, page, steps, maxScreenshot), budget));
            ResultOk(lib, d, plan, maxScreenshot, v) <==>
              && (forall i :: 0 <= i < |steps| ==> PageHttps(page, steps[i], i))
              && "https://" <= finalUrl
              && BudgetWithin(budget)
              && Size(v, true) <= MAX_RESULT_BYTES
  {
    hide ExpectationsOk, HeaderOk, StepResultOk, StepReport, RuntimeStep, ResultFields, BudgetFields, BudgetValues,
      Size, Ids, PageHttps, Values, Distinct, Reports;
    var steps := plan.fields["steps"].items;
    var reports := Reports(lib, page, steps, maxScreenshot);
    ResultLookups(d, finalUrl, reports, budget);
    BudgetReported(budget);
    ReportedIds(lib, page, steps, maxScreenshot);
    forall i | 0 <= i < |steps|
      ensures StepResultOk(lib, steps[i], reports[i], maxScreenshot) <==> PageHttps(page, steps[i], i)
    {
      ReportAccepted(lib, page, steps[i], i, maxScreenshot);
    }
    assert forall i :: 0 <= i < |steps| ==>
      StepResultOk(lib, steps[i], reports[i], maxScreenshot) == PageHttps(page, steps[i], i);
  }

  /** The same for a plan the worker accepted, under the digests of its receipt. */
  lemma WorkerPlanRoundTrip(b: Browser, p: BrowserPolicy, plan: Json, egressDigest: string, page: Page,
                            finalUrl: string, budget: map<string, int>)
    requires LawfulText(b.lib) && SafeBrowserPolicy(p) && WorkerAccepts(b, p, plan) && DigestText(egressDigest)
    requires budget.Keys == BUDGET_FIELDS && forall k :: k in budget ==> budget[k] >= 0
    ensures RuntimeAccepts(plan)
    ensures Digest(b.lib, plan, true).Str? && Digest(b.lib, BrowserPolicyJson(p), true).Str?
    ensures var steps := plan.fields["steps"].items;
            var d := Digests(Digest(b.lib, plan, true).s, Digest(b.lib, BrowserPolicyJson(p), true).s, egressDigest);
            AllReport(b.lib, page, steps, p.maxScreenshotBytes) ==>
              var v := Obj(ResultFields(d, finalUrl, Reports(b.lib, page, steps, p.maxScreenshotBytes), budget));
              ResultOk(b.lib, d, plan, p.maxScreenshotBytes, v) <==>
                && (forall i :: 0 <= i < |steps| ==> PageHttps(page, steps[i], i))
                && "https://" <= finalUrl
                && BudgetWithin(budget)
                && Size(v, true) <= MAX_RESULT_BYTES
  {
    AcceptedByRuntime(b, p, plan);
    var steps := plan.fields["steps"].items;
    var d := Digests(Digest(b.lib, plan, true).s, Digest(b.lib, BrowserPolicyJson(p), true).s, egressDigest);
    assert ExpectationsOk(b.lib, d, plan, p.maxScreenshotBytes) by {
      hide DigestText, RuntimeStep, WorkerStep, BrowserPolicyJson;
    }
    hide WorkerAccepts, RuntimeStep, ExpectationsOk, ResultOk, Reports, ResultFields, Size, StepReport, PageHttps;
    if AllReport(b.lib, page, steps, p.maxScreenshotBytes) {
      ReportIsAccepted(b.lib, d, plan, p.maxScreenshotBytes, page, finalUrl, budget);
    }
  }

  // ---- the validator takes nothing else ----

  /** What the validator does not compare: a text said to be cut is as long as it may be, an html has no room for every
      character, and a picture is spelled as base64 spells it. */
  predicate Exact(step: map<string, Json>, f: map<string, Json>)
  {
    var kind := Get(step, "type");
    && (kind == Str("extract_text") && Get(f, "truncated") == Bool(true) ==>
          Get(f, "text").Str? && Num(|Get(f, "text").s|) == Get(step, "max_chars"))
    && (kind == Str("extract_html") && Get(f, "truncated") == Bool(true) ==>
          Get(f, "html").Str? && Get(step, "max_bytes").Num?
          && |Utf8.Encode(Get(f, "html").s)| + 4 > Get(step, "max_bytes").n)
    && (kind == Str("screenshot") ==>
          && Get(f, "image_base64").Str? && Base64.Decode(Get(f, "image_base64").s).Some?
          && Base64.Encode(Base64.Decode(Get(f, "image_base64").s).value) == Get(f, "image_base64").s)
  }

  /** A page that shows just this, whatever is asked of it. */
  function Still(url: string, text: string, html: string, image: seq<Byte>): Page
  {
    Page(i => url, i => true, i => true, i => Some(text), i => Some(html), i => Some(image))
  }

  const WIDE: char := '\U{10000}'

  lemma WideSize()
    ensures |Utf8.Encode([WIDE])| == 4
  {
    assert [WIDE][1..] == "";
  }

  lemma CutHtml(kept: string, maximum: nat)
    requires |Utf8.Encode(kept)| <= maximum < |Utf8.Encode(kept)| + 4
    ensures Truncate(kept + [WIDE], maximum) == (kept, true)
  {
    hide Utf8.Encode, Truncate;
    var html := kept + [WIDE];
    EncodeAppend(kept, [WIDE]);
    WideSize();
    TruncateKeepsLongestPrefix(html, maximum);
    var (found, cut) := Truncate(html, maximum);
    assert html[..|kept|] == kept && html[..|html|] == html;
    assert found == html[..|found|];
  }

  lemma WholeHtml(html: string, maximum: nat)
    requires |Utf8.Encode(html)| <= maximum
    ensures Truncate(html, maximum) == (html, false)
  {
  }

  /** The page behind an accepted, exact step result. */
  function Behind(f: map<string, Json>): Page
  {
    var url := if Get(f, "url").Str? then Get(f, "url").s else "";
    var text := if Get(f, "text").Str? then Get(f, "text").s else "";
    var html := if Get(f, "html").Str? then Get(f, "html").s else "";
    var image := if Get(f, "image_base64").Str? then Base64.Decode(Get(f, "image_base64").s) else None;
    var more := Get(f, "truncated") == Bool(true);
    Still(url, if more then text + " " else text, if more then html + [WIDE] else html,
          if image.Some? then image.value else [])
  }

  lemma TextBehind(lib: Library, step: Json, i: nat, raw: Json, maxScreenshot: int)
    requires RuntimeStep(step, i) && StepResultOk(lib, step, raw, maxScreenshot) && Exact(step.fields, raw.fields)
    requires Get(step.fields, "type") == Str("extract_text")
    ensures StepReport(lib, Behind(raw.fields), step, i, maxScreenshot) == Some(raw)
  {
    hide RequestId, RuntimeSelector, Base64.Decode;
    var f, text := raw.fields, raw.fields["text"].s;
    assert (text + " ")[..|text|] == text;
    var report := StepReport(lib, Behind(f), step, i, maxScreenshot).value;
    assert report.fields == f;
  }

  lemma HtmlBehind(lib: Library, step: Json, i: nat, raw: Json, maxScreenshot: int)
    requires RuntimeStep(step, i) && StepResultOk(lib, step, raw, maxScreenshot) && Exact(step.fields, raw.fields)
    requires Get(step.fields, "type") == Str("extract_html")
    ensures StepReport(lib, Behind(raw.fields), step, i, maxScreenshot) == Some(raw)
  {
    hide RequestId, RuntimeSelector, Base64.Decode, Truncate, Utf8.Encode;
    var f, html := raw.fields, raw.fields["html"].s;
    var maximum := Get(step.fields, "max_bytes").n;
    if f["truncated"] == Bool(true) { CutHtml(html, maximum); } else { WholeHtml(html, maximum); }
    var report := StepReport(lib, Behind(f), step, i, maxScreenshot).value;
    assert report.fields == f;
  }

  lemma ImageBehind(lib: Library, step: Json, i: nat, raw: Json, maxScreenshot: int)
    requires RuntimeStep(step, i) && StepResultOk(lib, step, raw, maxScreenshot) && Exact(step.fields, raw.fields)
    requires Get(step.fields, "type") == Str("screenshot")
    ensures StepReport(lib, Behind(raw.fields), step, i, maxScreenshot) == Some(raw)
  {
    hide RequestId, DigestText, Base64.Decode, Base64.Encode;
    var f := raw.fields;
    var image := Base64.Decode(f["image_base64"].s).value;
    var report := StepReport(lib, Behind(f), step, i, maxScreenshot).value;
    PictureLookups(Get(step.fields, "id"), Str(Base64.Encode(image)), Num(|image|), Str(lib.sha256(image)),
                   report.fields);
    hide StepReport;
    assert report.fields == f;
  }

  lemma MoveBehind(lib: Library, step: Json, i: nat, raw: Json, maxScreenshot: int)
    requires RuntimeStep(step, i) && StepResultOk(lib, step, raw, maxScreenshot)
    requires Get(step.fields, "type") == Str("goto") || Get(step.fields, "type") == Str("wait_for_selector")
    ensures StepReport(lib, Behind(raw.fields), step, i, maxScreenshot) == Some(raw)
  {
    hide RequestId, RuntimeSelector, Base64.Decode;
    var f := raw.fields;
    var report := StepReport(lib, Behind(f), step, i, maxScreenshot).value;
    assert report.fields == f;
  }

  lemma ReportIsExact(lib: Library, page: Page, step: Json, i: nat, maxScreenshot: int)
    requires RuntimeStep(step, i) && StepReport(lib, page, step, i, maxScreenshot).Some?
    ensures Exact(step.fields, StepReport(lib, page, step, i, maxScreenshot).value.fields)
  {
    StepTyped(step, i);
    hide RequestId, RuntimeSelector, Base64.Decode, Base64.Encode, Truncate, Utf8.Encode;
    var kind := Get(step.fields, "type");
    if kind == Str("extract_html") {
      var html, maximum := page.html(i).value, Get(step.fields, "max_bytes").n;
      TruncateKeepsLongestPrefix(html, maximum);
      CutIsFull(html, maximum);
    } else if kind == Str("screenshot") {
      Base64.DecodeEncode(page.image(i).value);
    }
  }

  lemma CutIsFull(html: string, maximum: nat)
    ensures var (kept, cut) := Truncate(html, maximum); cut ==> |Utf8.Encode(kept)| + 4 > maximum
  {
    hide Truncate, Utf8.Encode;
    TruncateKeepsLongestPrefix(html, maximum);
    var (kept, cut) := Truncate(html, maximum);
    if cut {
      var next := html[..|kept| + 1];
      assert next == kept + [html[|kept|]];
      EncodeAppend(kept, [html[|kept|]]);
      OneCharacter(html[|kept|]);
    }
  }

  lemma OneCharacter(c: char)
    ensures |Utf8.Encode([c])| <= 4
  {
    assert [c][1..] == "";
  }

  lemma StepBehind(lib: Library, step: Json, i: nat, raw: Json, maxScreenshot: int)
    requires RuntimeStep(step, i) && StepResultOk(lib, step, raw, maxScreenshot) && Exact(step.fields, raw.fields)
    ensures raw.Obj? && StepReport(lib, Behind(raw.fields), step, i, maxScreenshot) == Some(raw)
  {
    StepTyped(step, i);
    StepKinds(step, i);
    assert raw.Obj?;
    hide StepReport, RuntimeStep, StepResultOk, Exact, Behind;
    var kind := Get(step.fields, "type");
    if kind == Str("extract_text") {
      TextBehind(lib, step, i, raw, maxScreenshot);
    } else if kind == Str("extract_html") {
      HtmlBehind(lib, step, i, raw, maxScreenshot);
    } else if kind == Str("screenshot") {
      ImageBehind(lib, step, i, raw, maxScreenshot);
    } else {
      MoveBehind(lib, step, i, raw, maxScreenshot);
    }
  }

  /** A step result is accepted, and exact, exactly if the runtime would report it of some page, at an https URL after a
      goto. */
  lemma AcceptedIsReport(lib: Library, step: Json, i: nat, raw: Json, maxScreenshot: int)
    requires LawfulText(lib) && RuntimeStep(step, i)
    ensures StepResultOk(lib, step, raw, maxScreenshot) && Exact(step.fields, raw.fields) <==>
            exists page :: StepReport(lib, page, step, i, maxScreenshot) == Some(raw) && PageHttps(page, step, i)
  {
    StepTyped(step, i);
    assert StepResultOk(lib, step, raw, maxScreenshot) ==> raw.Obj?;
    hide StepReport, RuntimeStep, StepResultOk, Exact, PageHttps, LawfulText, Behind;
    if page :| StepReport(lib, page, step, i, maxScreenshot) == Some(raw) && PageHttps(page, step, i) {
      ReportAccepted(lib, page, step, i, maxScreenshot);
      ReportIsExact(lib, page, step, i, maxScreenshot);
    }
    if StepResultOk(lib, step, raw, maxScreenshot) && Exact(step.fields, raw.fields) {
      StepBehind(lib, step, i, raw, maxScreenshot);
      ReportAccepted(lib, Behind(raw.fields), step, i, maxScreenshot);
    }
  }

  lemma StepKinds(step: Json, i: nat)
    requires RuntimeStep(step, i)
    ensures Get(step.fields, "type").s in
            {"goto", "wait_for_selector", "extract_text", "extract_html", "screenshot"}
  {
  }

  /** The page that shows, step by step, what the results say. */
  function Recalled(raws: seq<Json>): Page
  {
    var at := (i: nat) => if i < |raws| && raws[i].Obj? then Behind(raws[i].fields) else Still("", "", "", []);
    Page((i: nat) => at(i).url(i), (i: nat) => at(i).goes(i), (i: nat) => at(i).matches(i), (i: nat) => at(i).text(i),
         (i: nat) => at(i).html(i), (i: nat) => at(i).image(i))
  }

  lemma RecalledReports(lib: Library, raws: seq<Json>, step: Json, i: nat, maxScreenshot: int)
    requires i < |raws| && raws[i].Obj? && RuntimeStep(step, i)
    ensures StepReport(lib, Recalled(raws), step, i, maxScreenshot)
            == StepReport(lib, Behind(raws[i].fields), step, i, maxScreenshot)
  {
    hide Behind, RequestId, RuntimeSelector, Truncate, Base64.Encode;
    var all, one := Recalled(raws), Behind(raws[i].fields);
    assert all.url(i) == one.url(i) && all.goes(i) == one.goes(i) && all.matches(i) == one.matches(i);
    assert all.text(i) == one.text(i) && all.html(i) == one.html(i) && all.image(i) == one.image(i);
  }

  lemma StepsBehind(lib: Library, steps: seq<Json>, raws: seq<Json>, maxScreenshot: int)
    requires |raws| == |steps|
    requires forall i :: 0 <= i < |steps| ==>
               RuntimeStep(steps[i], i) && StepResultOk(lib, steps[i], raws[i], maxScreenshot)
               && Exact(steps[i].fields, raws[i].fields)
    ensures AllReport(lib, Recalled(raws), steps, maxScreenshot)
    ensures Reports(lib, Recalled(raws), steps, maxScreenshot) == raws
  {
    hide StepReport, RuntimeStep, StepResultOk, Exact, Behind, Recalled;
    forall i | 0 <= i < |steps| ensures StepReport(lib, Recalled(raws), steps[i], i, maxScreenshot) == Some(raws[i]) {
      StepBehind(lib, steps[i], i, raws[i], maxScreenshot);
      RecalledReports(lib, raws, steps[i], i, maxScreenshot);
    }
  }

  /** Every accepted result whose steps are exact is the runtime's own report, of some pages, some last URL and some
      budget. */
  lemma AcceptedResultIsReport(lib: Library, d: Digests, plan: Json, maxScreenshot: int, v: Json)
    returns (page: Page, finalUrl: string, budget: map<string, int>)
    requires RuntimeAccepts(plan) && ResultOk(lib, d, plan, maxScreenshot, v)
    requires var steps, raws := plan.fields["steps"].items, v.fields["steps"].items;
             forall i :: 0 <= i < |steps| ==> Exact(steps[i].fields, raws[i].fields)
    ensures var steps := plan.fields["steps"].items;
            && AllReport(lib, page, steps, maxScreenshot)
            && v == Obj(ResultFields(d, finalUrl, Reports(lib, page, steps, maxScreenshot), budget))
    ensures Digest(lib, plan, true) == Str(d.request) && 65_536 <= maxScreenshot <= 4_194_304
  {
    assert Digest(lib, plan, true) == Str(d.request) && 65_536 <= maxScreenshot <= 4_194_304;
    hide StepReport, RuntimeStep, StepResultOk, Exact, Behind, Recalled, ExpectationsOk, Distinct, Ids, Size,
      ResultFields, BudgetWithin;
    assert PlanShape(plan) by { PlanExpected(lib, d, plan, maxScreenshot); }
    var steps, raws := plan.fields["steps"].items, v.fields["steps"].items;
    StepsBehind(lib, steps, raws, maxScreenshot);
    page, finalUrl := Recalled(raws), v.fields["final_url"].s;
    var kept := v.fields["egress_budget"];
    budget := Values(kept.fields);
    BudgetCopied(kept, budget);
    ResultIsItsFields(d, v, raws, budget);
  }

  lemma ResultIsItsFields(d: Digests, v: Json, raws: seq<Json>, budget: map<string, int>)
    requires HeaderOk(d, v) && v.fields["steps"] == Arr(raws) && v.fields["egress_budget"] == BudgetFields(budget)
    ensures Obj(ResultFields(d, v.fields["final_url"].s, raws, budget)) == v
  {
    hide BudgetFields;
    var f := ResultFields(d, v.fields["final_url"].s, raws, budget);
    assert f.Keys == RESULT_FIELDS;
    assert f == v.fields;
  }

  // ---- the budget a session leaves behind ----

  /** `last_budget` of the runtime: nothing at first, then that of the last reply it got. */
  function LastBudget(g: Gateway, requests: seq<Json>): map<string, int>
  {
    if requests == [] then map k | k in BUDGET_FIELDS :: 0
    else
      var last := Serve(g, requests).replies[|requests| - 1];
      if last.Some? then GatewayWire.CounterValues(g.p, last.value.counters)
        else LastBudget(g, requests[..|requests| - 1])
  }

  /** The last reply is a redirect, forwarded after the byte counter had passed its limit. */
  predicate RedirectedPastLimit(g: Gateway, requests: seq<Json>)
  {
    exists j :: 0 <= j < |requests| && PastLimit(g, Serve(g, requests).replies[j])
                && forall k :: j < k < |requests| ==> Serve(g, requests).replies[k].None?
  }

  predicate PastLimit(g: Gateway, r: Option<Reply>)
  {
    r.Some? && r.value.redirect.Some? && r.value.counters.bytes > g.p.maxTotalBytes
  }

  lemma CountersWithin(p: Policy, c: Counters)
    requires SafePolicy(p)
    ensures var b := GatewayWire.CounterValues(p, c);
            && b.Keys == BUDGET_FIELDS && (forall k :: k in b ==> b[k] >= 0)
            && (BudgetWithin(b) <==>
                c.requests <= p.maxRequests && c.bytes <= p.maxTotalBytes && c.redirects <= p.maxRedirects)
  {
  }

  /** The budget of a reply is within its limits exactly unless it is a redirect past the byte limit. */
  lemma ReplyBudgetWithin(g: Gateway, requests: seq<Json>, j: nat)
    requires SafePolicy(g.p) && j < |requests| && Serve(g, requests).replies[j].Some?
    ensures var b := GatewayWire.CounterValues(g.p, Serve(g, requests).replies[j].value.counters);
            && b.Keys == BUDGET_FIELDS && (forall k :: k in b ==> b[k] >= 0)
            && (BudgetWithin(b) <==> !PastLimit(g, Serve(g, requests).replies[j]))
  {
    hide Serve, Handle, EgressBroker.SendsValidated, EgressBroker.Sends, Forwarded, DeliveredBytes, BudgetWithin,
      GatewayWire.CounterValues;
    var before := Serve(g, requests[..j]);
    SessionWithinPolicy(g, requests[..j]);
    HandleKept(g, requests[j], before.counters, before.history);
    ReplyOf(g, requests, j);
    CountersWithin(g.p, Serve(g, requests).replies[j].value.counters);
  }

  lemma {:induction false} LastBudgetWithin(g: Gateway, requests: seq<Json>)
    requires SafePolicy(g.p)
    ensures var b := LastBudget(g, requests);
            && b.Keys == BUDGET_FIELDS && (forall k :: k in b ==> b[k] >= 0)
            && (BudgetWithin(b) <==> !RedirectedPastLimit(g, requests))
  {
    hide Serve, PastLimit, GatewayWire.CounterValues;
    if requests != [] {
      var n := |requests| - 1;
      var replies := Serve(g, requests).replies;
      if replies[n].Some? {
        ReplyBudgetWithin(g, requests, n);
        assert PastLimit(g, replies[n]) ==> RedirectedPastLimit(g, requests);
      } else {
        LastBudgetWithin(g, requests[..n]);
        RepliesAreEarlier(g, requests, n);
        RefusedLast(g, requests);
      }
    }
  }

  lemma RefusedLast(g: Gateway, requests: seq<Json>)
    requires requests != [] && Serve(g, requests).replies[|requests| - 1].None?
    requires Serve(g, requests[..|requests| - 1]).replies == Serve(g, requests).replies[..|requests| - 1]
    ensures RedirectedPastLimit(g, requests) <==> RedirectedPastLimit(g, requests[..|requests| - 1])
  {
    hide Serve;
    var n := |requests| - 1;
    var front := requests[..n];
    var replies, earlier := Serve(g, requests).replies, Serve(g, front).replies;
    assert forall k :: 0 <= k < n ==> earlier[k] == replies[k];
    if RedirectedPastLimit(g, requests) {
      var j :| 0 <= j < |requests| && PastLimit(g, replies[j]) && forall k :: j < k < |requests| ==> replies[k].None?;
      assert j < n && PastLimit(g, earlier[j]);
    }
    if RedirectedPastLimit(g, front) {
      var j :| 0 <= j < n && PastLimit(g, earlier[j]) && forall k :: j < k < n ==> earlier[k].None?;
      assert PastLimit(g, replies[j]);
    }
  }

  /** Over every gateway session: the report with the session's own budget is accepted exactly if the pages are https,
      the report fits, and the last reply was not a redirect past the byte limit. */
  lemma SessionReportAccepted(g: Gateway, requests: seq<Json>, d: Digests, plan: Json, maxScreenshot: int, page: Page,
                              finalUrl: string)
    requires SafePolicy(g.p) && LawfulText(g.w.lib) && RuntimeAccepts(plan)
             && ExpectationsOk(g.w.lib, d, plan, maxScreenshot)
    requires AllReport(g.w.lib, page, plan.fields["steps"].items, maxScreenshot)
    ensures var steps := plan.fields["steps"].items;
            var v := Obj(ResultFields(d, finalUrl, Reports(g.w.lib, page, steps, maxScreenshot),
                                      LastBudget(g, requests)));
            ResultOk(g.w.lib, d, plan, maxScreenshot, v) <==>
              && (forall i :: 0 <= i < |steps| ==> PageHttps(page, steps[i], i))
              && "https://" <= finalUrl
              && !RedirectedPastLimit(g, requests)
              && Size(v, true) <= MAX_RESULT_BYTES
  {
    hide ExpectationsOk, ResultOk, LastBudget, RedirectedPastLimit, ResultFields, Size, PageHttps, RuntimeStep,
      StepReport, BudgetWithin, Reports;
    LastBudgetWithin(g, requests);
    ReportIsAccepted(g.w.lib, d, plan, maxScreenshot, page, finalUrl, LastBudget(g, requests));
  }
}
