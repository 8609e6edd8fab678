# The sandbox worker, modelled and proved

This project models the trusted sandbox worker: the worker process that takes a lease from the control plane, claims a
queue request, fetches what the Agent needs through its own network brokers, runs the Agent without a network, persists
what the Agent wrote and completes the queue request and the lease. It proves what the worker keeps in every run, however
the network, the control plane and the Agent answer, and that the parts which check each other's messages agree.

The modules follow the program:

- `RunTrace`, `RunOrder`, `RunCalls`, `RunProtocol`, `RunExample`: the run of one lease. Every client call and every local
  step may return or raise, as a function of all that happened before. The run leaves a trace of calls and replies, and the
  theorems are about that trace: what must have come before a call, and which call it comes directly after.
- `Egress`, `EgressBroker`, `PolicyBinding`: egress policies, target validation, the redirect loop and the batch broker
  over a shared budget, and the narrowing of the worker's policy by a project policy.
- `BrowserGateway`, `GatewayWire`, `GatewayExample`: the gateway session with its three counters, and the frames between
  gateway and browser runtime, in both directions, read back under every chunking.
- `WebFetch`, `QueueHttp`: the web-fetch envelope and its adapters, and the acquisition of a queue request's URL.
- `KeyValue`, `KeyValueRead`, `Dataset`: what the Agent's output may persist, validated on both sides.
- `BrowserPlan`, `BrowserResult`: navigation plans and reports, validated by worker and runtime independently.
- `Watchdog`: the lease watchdog, two threads interleaved step by step.
- `Activation`, `BodyReader`, `Retry`: the activation receipt on both sides, a bounded body reader, retries and leases.
- `Utf8`, `Base64`, `Json`, `JsonText`, `CanonicalJson`: the encodings. UTF-8 follows section 3 of RFC 3629, base64
  section 4 of RFC 4648, JSON text section 7 of RFC 8259.

Conventions. Exceptions become `None`, one error class a module; in the run protocol, where the class decides the
handler, they are values with the class hierarchy of the source. The standard library is a record of functions (`Library`:
`urlsplit`, `urljoin`, host normalization, UUID parsing, text decoding, SHA-256, …), DNS and HTTPS are functions of the
whole traffic so far (`Network`). Nothing is assumed of them beyond `LawfulText` and `LawfulUrls`, which some library
meets (`Egress.LawsAreConsistent`), and `Behaved`: statuses are 100 to 599 (section 15 of RFC 9110) and a Location has at
most 65,536 characters. SHA-256 is not assumed to be injective; the one statement that needs two digests to differ says so.
A JSON object is a map, as Python compares dicts; where insertion order matters (`CanonicalJson`) documents keep it.

Where a promise turns out not to hold of the code, the exact condition is proved. The queue HTTP digest escapes characters
beyond ASCII and the web-fetch digest keeps them, so an acquisition succeeds only if the two agree
(`QueueHttp.AcquireExactly`, `ClaimBeyondAsciiRefused`). The claim validator compares the scheme as parsed and the fetch
contract as spelled (`QueueHttp.CapitalSchemeRefused`); both failures have validated claims behind them
(`CapitalSchemeWitness`, `BeyondAsciiWitness`). An offline activation with a browser-policy digest or a Project
binding passes the worker and not the control plane (`Activation.WorkerImpliesControlPlaneExactly`, `OfflineLeniency`).
A queue request may stay claimed after its lease has ended: its completion is attempted exactly if every reply while it
is held is one its stage handles and no fault of the lease ends the Run first (`RunTrace.CompletionIsExact`, proved of
every run by `RunProtocol.Run`). `RunExample.StrandedRequest` is a run that leaves one claimed: the status call before the
Agent raises a `WorkerProtocolError`, which only the catch-all around the whole lease catches.
A browser report carries the budget of the last gateway reply, and a redirect may be forwarded after the byte counter has
passed its limit; exactly then the worker refuses the report on that account (`BrowserResult.SessionReportAccepted`), and
`GatewayExample.RedirectPastLimitWitness` is such a session.
The watchdog catches `OSError` and `RuntimeError` alone: an answer that is not JSON raises a `ValueError`, ends its thread
and is reported to nobody (`Watchdog.UncaughtFailureLost`). Which failed calls can end in a normal return, and which cannot,
is `Watchdog.ForgivenExactly`.

## Model

| member | source | states |
|---|---|---|
| RunProtocol.Run | workers/sandbox-runtime/worker.py:1137-1997 | For every lease and every way its calls may return or raise: HANDLED and SUCCEEDED are sent only when earned (exit 0, the mutations of the accepted output all acknowledged in index order and no others sent, the Dataset request made of the output that was read acknowledged); at most one Dataset append is sent; at most one queue completion is attempted, and one is attempted exactly if the claim was validated, no reply strayed past its handler and no fault of the lease ended the Run first; while a queue request is held, SUCCEEDED follows an acknowledged HANDLED; the Agent runs only for a lease fit for it, after its activation was accepted, its image loaded and RUNNING acknowledged, on an input pinned key by key (the claim without its token; what this claim's acquisitions, the Key-Value read and the web fetch returned, each under its own key; and the rest of the Run input unchanged but for the requests that were consumed); each call comes directly after the call it should, a call that raised or lacked its data is followed by nothing but a failing completion, and every failing completion carries the code of that very failure; before the activation nothing is asked of the control plane; at most three lease completions are attempted; a returned word means exactly one completion, the last control-plane call, was acknowledged with that outcome, and an exception means none was; a failure has a raised call, a refused reply, a non-zero exit or the lease itself to blame |
| RunProtocol.RunLease | workers/sandbox-runtime/worker.py:1169-1983 | The body of the outer `try` ends with the lease acknowledged, or with nothing acknowledged and at most two completions tried, so the catch-all's is the third at most |
| RunProtocol.ClaimWork | workers/sandbox-runtime/worker.py:1388-1445 | Goes on exactly with a validated claim when the lease has a queue, and without one otherwise; the input is then the Run's with the claim, without its token, under its own key and nothing else changed; SUCCEEDED here means the queue was empty |
| RunProtocol.AcquireWork | workers/sandbox-runtime/worker.py:1447-1576 | Goes on only with the claim still held and an input that is the Run's with the claim and exactly the values that its acquisitions by browser or HTTP returned; otherwise the lease is acknowledged FAILED, or an exception leaves nothing acknowledged |
| RunProtocol.ReadKeyValues | workers/sandbox-runtime/worker.py:1578-1640 | Goes on only with the claim held and exactly that input, in which, for a Key-Value Run, what the read returned has replaced the request to read; otherwise the lease is acknowledged FAILED, or an exception leaves nothing acknowledged |
| RunProtocol.FetchWebIntent | workers/sandbox-runtime/worker.py:1643-1710 | Goes on only with the claim held and the whole input assembled: that of before, with the fetch result added or the brokered results and budget in place of the requests; otherwise the lease is acknowledged FAILED, or an exception leaves nothing acknowledged |
| RunProtocol.MutateAll | workers/sandbox-runtime/worker.py:1757-1765 | The loop goes on past the end only with every wanted mutation acknowledged, in order and under queue-derived keys if a claim is held |
| RunProtocol.WriteKeyValues | workers/sandbox-runtime/worker.py:1742-1822 | Goes on after exit 0 of a Key-Value Run only with every wanted mutation acknowledged; otherwise the lease is acknowledged FAILED, or an exception leaves nothing acknowledged |
| RunProtocol.AppendDataset | workers/sandbox-runtime/worker.py:1824-1898 | Goes on after exit 0 of a Dataset Run only with the request made of the output that was read, valid and under the claim's key, acknowledged; otherwise the lease is acknowledged FAILED, or an exception leaves nothing acknowledged |
| RunProtocol.CompleteRequest | workers/sandbox-runtime/worker.py:1900-1923 | Goes on only when the lease completion it leads to is allowed, HANDLED acknowledged for SUCCEEDED of a held request; otherwise FAILED or an exception |
| RunProtocol.FailClosed | workers/sandbox-runtime/worker.py:1601-1640 | The shared failure handler: if it acknowledges anything it is FAILED, after exactly one queue completion if a request is held |
| RunTrace.LawfulEarned | workers/sandbox-runtime/worker.py:1713-1926 | In every lawful trace HANDLED and SUCCEEDED are earned: the claim, the exit, the accepted output and each acknowledged write are found earlier in the trace, in order, each mutation the output's own under its queue-derived key, and the append is the request made of the Dataset output read before it, member by member, under "queue:" and the request id |
| RunTrace.LawfulQueue | workers/sandbox-runtime/worker.py:1391-1983 | In every lawful trace there is at most one queue completion, and no SUCCEEDED for a held request before its acknowledged HANDLED |
| RunTrace.ServedShown | workers/sandbox-runtime/worker.py:1388-1997 | The exact condition told on the trace: a queue completion is attempted if and only if a claim was validated, no reply strayed (an exception its stage's handler does not name, any exception where there is no handler, missing data) and the lease has no acquisition fault, nor a web fault that no earlier refusal forestalls |
| RunExample.StrandedRequest | workers/sandbox-runtime/worker.py:1730-1740 | A concrete lease and surroundings: the status call raises a WorkerProtocolError, the lease is acknowledged FAILED, and the validated claim has no completion attempted |
| RunTrace.LawfulPreparation | workers/sandbox-runtime/worker.py:1168-1740 | In every lawful trace the activation comes before every other control-plane call, and image and status before the Agent; the lease is fit for it, and its input has exactly the keys it should, each with its value: the claim without its token, what calls earlier in the trace returned, the rest of the Run input unchanged |
| RunTrace.AssembledIs | workers/sandbox-runtime/worker.py:1388-1710 | The input put together on the way says, key by key, what the Agent's input should: which keys it has, and where the value of each comes from |
| RunOrder.OrderTold | workers/sandbox-runtime/worker.py:1137-1997 | In a trace in which every call comes directly after the one it should, nothing but a failing completion follows a call that raised or lacked its data, and every failing completion, of lease or request, reports the code of the failure before it |
| RunTrace.LawfulAppend | workers/sandbox-runtime/worker.py:1824-1898 | In every lawful trace at most one Dataset append is sent, acknowledged or not |
| RunTrace.AnswersShown | workers/sandbox-runtime/worker.py:1137-1997 | In every lawful trace at most one lease completion is acknowledged and no control-plane call follows it |
| RunTrace.ThreeCompletions | workers/sandbox-runtime/worker.py:1391-1997 | At most three lease completions are attempted |
| RunTrace.StoredShown | workers/sandbox-runtime/worker.py:1757-1765 | The acknowledged mutations stand in the trace in the order of their indices, and if none was refused no other was sent |
| PolicyBinding.NarrowingSimulates | workers/sandbox-runtime/worker.py:124-240 | A batch that succeeds under an accepted project policy succeeds under the worker's own policy with the same responses, counters and traffic |
| PolicyBinding.BatchFromSimulates | workers/sandbox-runtime/egress_broker.py:283-338 | The same from any point of a batch, for any policy that narrows another |
| PolicyBinding.FetchSimulates | workers/sandbox-runtime/egress_broker.py:222-280 | The same for one fetch and all its redirects |
| PolicyBinding.BoundExactly | workers/sandbox-runtime/worker.py:124-240 | A Project policy is taken as p exactly if p is canonical, the stored policy is p's own dict with integers for its numbers, p is within the worker's policy in every respect, and the receipt is well formed, sealed by its own digest, and has the digests of p in both spellings |
| PolicyBinding.DigestsCoverPolicy | workers/sandbox-runtime/egress_policy.py:172-199 | Each of the two dicts that a receipt has the digest of determines the policy, down to every limit |
| Egress.CreatePolicy | workers/sandbox-runtime/egress_policy.py:122-170 | Every created policy is within all the fixed bounds, timeouts included, with sorted hosts and only GET and HEAD |
| Egress.CreatedExactly | workers/sandbox-runtime/egress_policy.py:122-170 | A policy is created exactly from hosts with a normal form, 1 to 32 different ones, methods that are all GET or HEAD, and numbers within their ranges; it has those hosts and methods, each once and in order, and those numbers |
| Egress.ResolvePublicAddresses | workers/sandbox-runtime/egress_policy.py:80-108 | The distinct addresses, sorted, if there is one and every usable record is global; an error otherwise |
| Egress.TargetValidatedExactly | workers/sandbox-runtime/egress_policy.py:201-245 | Validation succeeds exactly if the URL is https without credentials, on an allowed host and no port but 443, and the host resolves to usable addresses that are all global; the target has the normal host, just those addresses, sorted, and the URL spelled out: https, the host, :443 if a port was named, the path or a slash, and the query if there is one; the host is looked up once, and only if the URL is admitted |
| Egress.SafeHeadersKeepLast | workers/sandbox-runtime/egress_broker.py:97-110 | A safe header is kept exactly if it was sent, with the last value sent under its name, cut to 2048 characters |
| Egress.GetHeaderJoins | workers/sandbox-runtime/egress_broker.py:167-197 | A header is looked up in any case, and the values of all the headers of a name are joined in order |
| Egress.ReplyTakenExactly | workers/sandbox-runtime/egress_broker.py:167-197 | A reply is taken exactly if it is not compressed and a wanted body is within the limit; status and safe headers are kept, Location only of a redirect, the body only of what is neither redirect nor HEAD |
| EgressBroker.Fetch | workers/sandbox-runtime/egress_broker.py:222-280 | The redirect loop over the shared budget computes FetchRun: response, budget and traffic |
| EgressBroker.BodyDecoded | workers/sandbox-runtime/egress_broker.py:113-132 | A body becomes text exactly if its content type names a kind of text, in its charset, and base64 otherwise; only a text that cannot be decoded is refused |
| EgressBroker.FetchFromSafe | workers/sandbox-runtime/egress_broker.py:222-280 | In every fetch each send is to the target validated for its URL just before, sends stay within budget and redirect limit, and a response reports what the last send got, at the end of a redirect chain: the first send is of the URL asked for, each later one of the URL before joined with its Location |
| EgressBroker.FetchSendsBounded | workers/sandbox-runtime/egress_broker.py:238-262 | A fetch sends at most max_redirects + 1 times |
| EgressBroker.FetchSucceedsExactly | workers/sandbox-runtime/egress_broker.py:222-280 | A fetch succeeds exactly if, after some number of redirects within both limits, each to a validated target, it lands on a reply that is no redirect, fits the byte budget and can be decoded |
| EgressBroker.RequestReadExactly | workers/sandbox-runtime/egress_broker.py:296-318 | An entry reads as a request exactly if it is an object whose id is well formed, whose method, GET if missing, is GET or HEAD in whichever case, and whose URL is not empty |
| EgressBroker.BrokerWebRequests | workers/sandbox-runtime/egress_broker.py:283-338 | The batch loop with its seen set and shared budget computes Batch and its output dict |
| EgressBroker.BatchFromSafe | workers/sandbox-runtime/egress_broker.py:283-338 | From any point of a batch: validated sends, within budget; on success one response per request, in order, with distinct ids, each at the end of the redirect chain from its request's URL |
| EgressBroker.BatchSucceedsExactly | workers/sandbox-runtime/egress_broker.py:283-338 | A batch succeeds exactly if it is a list within the request limit, every entry reads as a request, no id comes twice, and each fetch, from where the one before ended, succeeds |
| EgressBroker.BatchIsSafe | workers/sandbox-runtime/egress_broker.py:283-338 | Every batch: at most max_requests sends, each validated and under an allowed method; on success results match requests in order, by id, method and URL (each reports the last send of a redirect chain that starts at its request's URL and follows the Locations), no final status is a redirect, and the body sizes add up to bytes_received within max_total_bytes |
| EgressBroker.UnsafeCredentialSendsNothing | workers/sandbox-runtime/egress_broker.py:135-165 | With a credential that is empty, too long or has a line break, a batch sends nothing at all |
| EgressBroker.OutputSays | workers/sandbox-runtime/egress_broker.py:320-338 | The broker's output is the input without its requests, one result a response in their order, member by member, and the budget with what was used and what was allowed |
| BrowserGateway.BrowserGatewayBroker.Create | workers/sandbox-runtime/browser_gateway_transport.py:170-190 | A broker is made exactly if the digest is well formed and that of its policy, which allows some host; it has spent nothing |
| BrowserGateway.BrowserGatewayBroker.HandleRequest | workers/sandbox-runtime/browser_gateway_transport.py:192-293 | Reply, counters and traffic of one request are those of Handle, on every error path too; AnsweredExactly, HandleKept and SessionReports say what those are |
| BrowserGateway.AnsweredExactly | workers/sandbox-runtime/browser_gateway_transport.py:192-293 | A request is answered exactly if it is admitted, its reply taken, and a redirect may be forwarded or a body still fits the byte limit; an admitted request is counted, a body that was read is counted even if it does not fit, and a redirect is counted if it is forwarded |
| BrowserGateway.HandleKept | workers/sandbox-runtime/browser_gateway_transport.py:192-293 | One request: counters never go down, the sends are exactly those charged to the request counter and all validated, the limit is never passed, and a reply reports the counters it leaves behind |
| BrowserGateway.SessionWithinPolicy | workers/sandbox-runtime/browser_gateway_transport.py:152-293 | Over every sequence of requests: sends at most max_requests, forwarded redirects at most max_redirects, delivered bytes at most max_total_bytes, every send validated |
| BrowserGateway.SessionReports | workers/sandbox-runtime/browser_gateway_transport.py:192-293 | Every reply of every session has the id of its request and reports what the network answered to a send of that request's URL under its method, made between the requests before and after: the status, of the raw headers exactly the safe ones but Content-Length, each with its last value, the body, and for a redirect the freshly validated target of the joined Location |
| BrowserGateway.DigestCoversGateway | workers/sandbox-runtime/browser_gateway_transport.py:170-190 | The dict whose digest a broker is made with determines its policy, down to every limit |
| BrowserGateway.CountersNeverDecrease | workers/sandbox-runtime/browser_gateway_transport.py:152-293 | No counter goes down between any two moments of a session |
| BrowserGateway.ExhaustedStaysExhausted | workers/sandbox-runtime/browser_gateway_transport.py:271-280 | Once the byte counter has passed its limit, every later reply is an error or a redirect |
| GatewayWire.ReadLine | workers/sandbox-runtime/browser_gateway_transport.py:65-76 | Whatever the chunks, a line that is read is the stream up to its first newline; it is always read if the stream is within the limit and never if the line reaches it |
| GatewayWire.ReplyDecodes | workers/browser-runtime/browser_runtime.py:312-425 | The decoder takes every sendable reply apart into the same status, headers, body, redirect and budget |
| GatewayWire.DecodedExactly | workers/browser-runtime/browser_runtime.py:312-425 | A response is decoded exactly if it has the ten fields, the request's id and the policy's digest, a body of its size and digest, text under no forbidden header name, the six counters, none negative, and a redirect to https with an empty body exactly where its status says so; what comes out is what it says |
| GatewayWire.FrameFits | workers/sandbox-runtime/browser_gateway_transport.py:53-62 | Every sendable reply, encoded, fits 11,300,000 bytes with its newline |
| GatewayWire.SessionRepliesSendable | workers/sandbox-runtime/browser_gateway_transport.py:192-293 | Every reply of every session under a created policy is sendable |
| GatewayWire.FrameDecodes | workers/browser-runtime/browser_runtime.py:50-90 | Reading a frame back yields the reply it was made of |
| GatewayWire.SessionRepliesDecode | workers/browser-runtime/browser_runtime.py:428-452 | Every reply of every session is encoded within the frame, read back whole and decoded to the same values |
| GatewayWire.Deliver | workers/browser-runtime/browser_runtime.py:50-90 | Encoding, chunked reading and decoding, end to end, for any chunking |
| GatewayWire.RequestArrives | workers/browser-runtime/browser_runtime.py:428-452 | A request of the runtime is framed exactly if it fits 16,384 bytes; the line read back is decoded to the same object, and the broker reads it as the very request exactly if the id is well formed and the URL has at most 8,192 characters |
| GatewayWire.LiveRequestExactly | workers/sandbox-runtime/browser_gateway_transport.py:112-150 | The broker reads as a request exactly what the runtime sends for it: no field more, none less, none changed |
| GatewayWire.RequestFits | workers/sandbox-runtime/browser_gateway_transport.py:112-150 | Every request of an allowed resource type whose method, of at most 64 characters, and URL, of at most 8,192, are printable ASCII without quotes and backslashes fits the frame |
| GatewayWire.Submit | workers/sandbox-runtime/browser_gateway_transport.py:456-466 | Framing, chunked reading, decoding and validating a request, end to end: the broker gets that request or none, and exactly when |
| CanonicalJson.EncodePrintsValue | workers/sandbox-runtime/dataset_protocol.py:64-76 | Encoding a document with sorted keys prints its value, whatever the insertion order |
| CanonicalJson.CanonicalBytesFaithful | workers/sandbox-runtime/kv_protocol.py:73-85 | Two values have equal canonical bytes exactly when they are equal up to object key order |
| Json.LoadsDumps | workers/sandbox-runtime/browser_gateway_transport.py:35-62 | Parsing undoes printing, with either `ensure_ascii` setting, for every value |
| Json.DumpsInjective | workers/sandbox-runtime/dataset_protocol.py:64-76 | Different values print differently |
| JsonText.EnsureAsciiIrrelevant | workers/sandbox-runtime/web_fetch_contract.py:74-86 | The two `ensure_ascii` settings print a value alike exactly if it has no character beyond '~' |
| JsonText.DumpsPlain | workers/sandbox-runtime/browser_gateway_transport.py:53-62 | The escaped text has only printable ASCII, so no newline inside a frame |
| Utf8.DecodeEncode | workers/browser-runtime/browser_runtime.py:50-90 | Strict UTF-8 decoding undoes encoding |
| Utf8.DecodedExactly | workers/browser-runtime/browser_runtime.py:50-90 | Strict decoding accepts exactly the encodings of strings, and yields the string encoded |
| Utf8.TruncateKeepsLongestPrefix | workers/browser-runtime/browser_runtime.py:455-459 | Truncation keeps the longest prefix of whole characters that fits, and reports a cut exactly when the text does not fit |
| Base64.DecodeEncode | workers/sandbox-runtime/browser_navigation_result.py:192-204 | Strict base64 decoding undoes encoding |
| Base64.DecodedExactly | workers/sandbox-runtime/browser_navigation_result.py:192-204 | Strict decoding accepts exactly texts of whole groups of four with at most two paddings at the end, and yields three bytes a group but for one a padding |
| BrowserPlan.CreateBrowserPolicy | workers/sandbox-runtime/browser_policy.py:45-79 | Every created policy is within the fixed bounds |
| BrowserPlan.BrowserPolicyExactly | workers/sandbox-runtime/browser_policy.py:45-79 | A policy is created exactly from hosts that all have a normal form, one at least if it is enabled, and numbers within their ranges; it has those hosts, each once and in order, and those numbers |
| BrowserPlan.DigestCoversBrowserPolicy | workers/sandbox-runtime/browser_policy.py:27-43 | The dict whose digest a receipt carries determines the browser policy, down to every limit |
| BrowserPlan.ValidatePlan | workers/sandbox-runtime/browser_navigation_contract.py:98-269 | Accepts exactly the acceptable plans, and the plan rebuilt step by step is the plan given, with its digest and the hosts of its goto steps in order |
| BrowserPlan.ValidateRuntimePlan | workers/browser-runtime/browser_runtime.py:181-290 | Accepts exactly the plans acceptable to the runtime, unchanged |
| BrowserPlan.AcceptedByRuntime | workers/browser-runtime/browser_runtime.py:181-290 | Under every created policy the runtime's checks, written from its own code, accept what the worker's accept |
| BrowserPlan.PlanAcceptedExactly | workers/sandbox-runtime/browser_navigation_contract.py:98-269 | Under every created policy the worker accepts a plan exactly if the policy is enabled, the runtime accepts the plan, and the policy allows its number of steps and pages, where it goes, how long it waits and how much it extracts |
| BrowserPlan.AcceptedPlanLoads | workers/browser-runtime/browser_runtime.py:293-309 | A plan the worker accepted, in any JSON spelling within the limit, loads under the digest of its receipt |
| BrowserPlan.LoadedExactly | workers/browser-runtime/browser_runtime.py:293-309 | The runtime takes a plan file exactly if it is within the limit and the UTF-8 text of a runtime plan with the expected digest; it then takes that plan |
| BrowserResult.RunSteps | workers/browser-runtime/browser_runtime.py:539-625 | The step loop reports every step in order, each report showing the page by its kind (its URL, the match, the text or the HTML cut to its limit with the cut reported, the image with its size and digest), and fails exactly if some step does |
| BrowserResult.StepReportShows | workers/browser-runtime/browser_runtime.py:539-625 | A step is reported exactly if it does not fail, and its report shows the page |
| BrowserResult.ValidateResult | workers/sandbox-runtime/browser_navigation_result.py:37-243 | Accepts exactly the acceptable results and returns them unchanged |
| BrowserResult.ReportAccepted | workers/sandbox-runtime/browser_navigation_result.py:110-207 | The report of a step is accepted exactly if, after a goto, the page is at an https URL |
| BrowserResult.AcceptedIsReport | workers/sandbox-runtime/browser_navigation_result.py:110-207 | A step result is accepted, and exact, exactly if the runtime would report it of some page, at an https URL after a goto |
| BrowserResult.ReportIsAccepted | workers/sandbox-runtime/browser_navigation_result.py:37-243 | The runtime's report is accepted exactly if all page URLs are https, the last budget is within its limits and the report fits 16,777,216 bytes |
| BrowserResult.AcceptedResultIsReport | workers/sandbox-runtime/browser_navigation_result.py:37-243 | Every accepted result whose steps are exact is the runtime's own report of some pages, some last URL and some budget, for the plan with the expected digest |
| BrowserResult.WorkerPlanRoundTrip | workers/browser-runtime/browser_runtime.py:462-641 | The same from a plan accepted by the worker, under the digests of its receipt |
| BrowserResult.SessionReportAccepted | workers/browser-runtime/browser_runtime.py:486-524 | With the budget a gateway session leaves behind, the report is accepted exactly if pages are https, it fits, and the last reply was not a redirect past the byte limit |
| GatewayExample.RedirectPastLimitWitness | workers/sandbox-runtime/browser_gateway_transport.py:243-280 | A created gateway, lawful library and behaved network, and three requests after which the last reply is a redirect past the byte limit, so the budget of the report is beyond its limits |
| KeyValue.ValidateOutput | workers/sandbox-runtime/kv_worker_protocol.py:254-291 | Accepts exactly the acceptable outputs: valid mutations, distinct idempotency keys, within the envelope |
| KeyValue.OutputAcceptedExactly | workers/sandbox-runtime/kv_worker_protocol.py:254-291 | An output is accepted exactly if it is the envelope of some result and mutations, nothing more, the result nested at most 32 deep, at most four mutations, all valid and under different keys, and the whole within the limit |
| KeyValue.PersistedGrowth | workers/sandbox-runtime/queue_worker_protocol.py:165-179 | A queue-derived key makes a mutation at most 46 bytes longer |
| KeyValue.OutputReserves | workers/sandbox-runtime/kv_worker_protocol.py:254-291 | The output envelope exceeds each of its mutations by at least 70 bytes |
| KeyValue.PersistedStayValid | workers/sandbox-runtime/worker.py:1757-1765 | For every accepted output and claim the re-keyed mutations are valid, keep operation, key and value digest, and have pairwise distinct keys |
| KeyValueRead.ValidateReadResult | workers/sandbox-runtime/kv_worker_protocol.py:155-251 | Accepts exactly the acceptable read results for the keys asked, unchanged |
| KeyValueRead.RecordAcceptedExactly | workers/sandbox-runtime/kv_worker_protocol.py:155-251 | A record contributes the bytes it stands for exactly if it is of the key, and either not found and otherwise empty, or found with a version of at least 1 and a value that decodes to bytes of the size and digest it says |
| KeyValueRead.DecodersAgree | workers/sandbox-runtime/kv_worker_protocol.py:116-152 | The set decoder, by table, and the read decoder, by cases, yield the same bytes but for the set decoder's size limit |
| KeyValueRead.MutationAcceptedExactly | workers/sandbox-runtime/kv_protocol.py:147-233 | A mutation is accepted exactly if its head is right, it fits the envelope and, for a set, the read decoder could decode its value within the limit; it carries the request unchanged with that value's size and digest |
| KeyValueRead.SetThenRead | workers/sandbox-runtime/kv_worker_protocol.py:116-251 | Accepted sets, presented as found records with their digests, sizes and versions of at least 1, are accepted by the read validator exactly if their decoded bytes total at most 262,144 |
| Dataset.WorkerValidate | workers/sandbox-runtime/dataset_protocol.py:79-131 | The worker's validator accepts exactly Accepted, with its digest and size |
| Dataset.AppendAcceptedExactly | workers/sandbox-runtime/dataset_protocol.py:79-131 | A request is accepted exactly if it is an append of 1 to 100 objects under a well-formed key, nothing more, each object nested at most 32 deep and at most 65,536 bytes long, the whole at most 262,144; that key, those items and the digest and size of the canonical text are kept |
| Dataset.ControlPlaneValidate | apps/api/app/dataset_append_protocol.py:82-138 | The control plane's validator, which copies member by member, accepts exactly the same with the same digest and size |
| Dataset.CopyItem | apps/api/app/dataset_append_protocol.py:111-117 | The inner loop copies an item unchanged exactly if it is within depth |
| WebFetch.AdaptBrokerResult | workers/sandbox-runtime/web_fetch_contract.py:209-294 | The result adapter's loop computes Adapted |
| WebFetch.NormalizedExactly | workers/sandbox-runtime/web_fetch_contract.py:89-133 | A request is taken exactly if it has an id, a method and a URL, nothing more, the id well formed, the method GET or HEAD in whichever case, and the URL spelled https, of at most 8,192 characters, with a host and no credentials |
| WebFetch.ParsedExactly | workers/sandbox-runtime/web_fetch_contract.py:136-162 | An envelope is parsed exactly if it has its version and 1 to 32 requests, all taken, under different ids, and the envelope of what they are taken as fits 65,536 bytes |
| WebFetch.EnvelopeRoundTrip | workers/sandbox-runtime/web_fetch_contract.py:45-72 | The envelope built of parsed requests parses to the same requests |
| WebFetch.ResultTakenExactly | workers/sandbox-runtime/web_fetch_contract.py:173-294 | A result is taken exactly if it answers the request by id and method, came from an https URL with a status of 100 to 599, has text under safe header names only, a size and a digest, and not both a text and a base64 body |
| WebFetch.ResultSays | workers/sandbox-runtime/web_fetch_contract.py:173-294 | A result that is taken says the request's id and method, the URL and the status as they came, and the body with its size and digest, as text, as base64 or as none |
| WebFetch.AdapterTakesBrokerOutput | workers/sandbox-runtime/web_fetch_contract.py:209-294 | For every accepted envelope and every batch that succeeds, the adapter accepts the output: one result per request, in order, reporting the broker's response |
| QueueHttp.ValidatedClaimIsValid | workers/sandbox-runtime/queue_worker_protocol.py:72-128 | A validated claim has a canonical request id and an acceptable https URL, which is what the envelope of its fetch asks of it; what else it has is ClaimValidatedExactly |
| QueueHttp.ClaimValidatedExactly | workers/sandbox-runtime/queue_worker_protocol.py:72-128 | A claim is validated exactly if it has the six fields, its ids are UUIDs and that of its queue the expected one, its attempts are 1 to 100, its user data is nested at most 32 deep and takes at most 65,536 bytes, and its URL is an acceptable https URL; request id, queue id, token, URL, user data and attempts are each that field of the value |
| QueueHttp.EnvelopeParses | workers/sandbox-runtime/web_fetch_contract.py:136-162 | The envelope of a valid claim parses back to its one request exactly if the URL starts with "https://" as spelled |
| QueueHttp.AgentResultExactly | workers/sandbox-runtime/queue_worker_protocol.py:206-249 | A fetch result is wrapped for the Agent exactly if the claim still makes an envelope, the result has its four fields and that envelope's digest, and its one response answers the queue's one request; the wrapper has the claim's ids, that response and that budget |
| QueueHttp.AcquireExactly | workers/sandbox-runtime/worker.py:1513-1533 | The chain envelope, adapter, broker, result adapter, queue wrapper yields the claim's one response exactly if the URL is spelled "https://", the batch succeeds and the two digests of the envelope agree |
| QueueHttp.AsciiClaimAcquired | workers/sandbox-runtime/queue_worker_protocol.py:182-249 | For an ASCII URL the digests always agree |
| QueueHttp.ClaimBeyondAsciiRefused | workers/sandbox-runtime/queue_worker_protocol.py:206-217 | For a URL with a character beyond '~' the two digests hash different bytes, and unless they collide the claim is refused |
| QueueHttp.CapitalSchemeRefused | workers/sandbox-runtime/queue_worker_protocol.py:45-69 | Every valid claim spelled "HTTPS://" is refused by the fetch contract |
| QueueHttp.CapitalSchemeWitness | workers/sandbox-runtime/queue_worker_protocol.py:45-69 | A claim spelled "HTTPS://" that passes the claim validator and is refused |
| QueueHttp.BeyondAsciiWitness | workers/sandbox-runtime/queue_worker_protocol.py:206-217 | A claim with a character beyond ASCII in its fragment that passes the claim validator and is refused |
| Watchdog.Always | workers/sandbox-runtime/worker_recovery.py:155-215 | The invariant holds after every interleaving of the two threads |
| Watchdog.FailureNeverLost | workers/sandbox-runtime/worker_recovery.py:179-215 | A failed call whose completed-check read false rules out a normal return of `__exit__`, at any time, in every interleaving |
| Watchdog.SilentAfterReturn | workers/sandbox-runtime/worker_recovery.py:209-215 | When `__exit__` has returned normally the thread has ended and never calls again |
| Watchdog.RaisesForReason | workers/sandbox-runtime/worker_recovery.py:209-215 | `__exit__` raises only if the thread outlived the join or such a failure happened |
| Watchdog.FewLateCalls | workers/sandbox-runtime/worker_recovery.py:179-191 | After the stop at most two more client calls are made |
| Watchdog.CleansUpBeforeEnding | workers/sandbox-runtime/worker_recovery.py:192-200 | A thread that reported a failure has cleaned up the containers before it ended |
| Watchdog.LateFailureForgiven | workers/sandbox-runtime/worker_recovery.py:192-194 | A failure found after `mark_completed` can end in a normal return |
| Watchdog.ForgivenExactly | workers/sandbox-runtime/worker_recovery.py:179-215 | After any interleaving in which a heartbeat or renewal fails, some continuation returns normally exactly if `__exit__` has not raised yet and the exception is one the thread does not catch, or the lease is completed, or the `with` block can still complete it |
| Watchdog.UncaughtFailureLost | workers/sandbox-runtime/worker_recovery.py:181-201 | An interleaving in which the heartbeat raises something the thread does not catch, the lease is never completed, and `__exit__` returns normally |
| BodyReader.BoundedResponse.Create | apps/api/app/egress_canary_network_policy.py:164-168 | A limiter is made exactly for a limit of 1 to 1,048,576 bytes, and has received nothing |
| BodyReader.BoundedResponse.Accept | apps/api/app/egress_canary_network_policy.py:170-173 | Counts every chunk and refuses from the first byte over the limit |
| BodyReader.ReadBoundedBody | apps/api/app/egress_credential_canary_transport.py:194-221 | For every chunking the outcome depends only on stream length, declared length and limit |
| BodyReader.DeclaredLengthRead | apps/api/app/egress_credential_canary_transport.py:185-191 | A length printed in decimal, once or repeated, is the length read, and bounds the body |
| BodyReader.DisagreeingHeaders | apps/api/app/egress_credential_canary_transport.py:185-191 | Headers that differ in any character are refused |
| Activation.WorkerImpliesComposition | workers/sandbox-runtime/worker.py:330-937 | Every activation the worker accepts meets the control plane's acquisition and write clauses, never combines Dataset with Key-Value Store and never has two acquisition modes |
| Activation.CapabilitiesBacked | workers/sandbox-runtime/worker.py:330-937 | Each capability an accepted activation names is backed by the worker's own switch, the policies it needs and the receipt expected of the payload; one it does not name has no receipt |
| Activation.AcceptableExactly | workers/sandbox-runtime/worker.py:330-937 | An activation is acceptable to some worker, manifest and payload exactly if its members are coherent with each other |
| Activation.WorkerImpliesControlPlaneExactly | apps/api/app/execution_schemas.py:95-181 | The control plane accepts it too exactly unless it is offline and carries a browser-policy digest or a Project binding |
| Activation.OfflineLeniency | workers/sandbox-runtime/worker.py:838-850 | Concrete offline activations that the worker accepts and the control plane refuses |
| Retry.ChainIsBounded | apps/api/app/execution_recovery.py:57-70 | A retry chain makes at most max_attempts - 1 retries and waits at most (max_attempts - 1) * max_seconds |
| Retry.RetriedExactly | apps/api/app/execution_recovery.py:57-70 | Attempts are retried exactly as long as each asked for it, failed or ran out of time with its source still there, and was not the last one allowed |
| Retry.DelaysGrow | apps/api/app/execution_recovery.py:27-38 | Delays never shrink, and stay at the limit once there |
| Retry.TotalWhileDoubling | apps/api/app/execution_recovery.py:27-38 | Below the limit the delays double and sum to one base less than the next |
| Retry.ClampExpiry | apps/api/app/execution_recovery.py:12-24 | The expiry is the least of proposal, lifetime and deadline; an error for a bad lifetime or deadline |
| Retry.ExpiryIsBounded | apps/api/app/execution_recovery.py:12-24 | No sequence of renewals passes lifetime or deadline, and extensions never shorten a lease |

## Left out

- Egress.TargetValidatedExactly: hostnames, `urlsplit` and `urljoin` are functions of the library, so IDNA and URL syntax are not modelled.
- RunProtocol.Run: acquisitions, image loading, decryption, the Agent and the validation of a Key-Value read are single steps that return or raise anything, so what they do inside is not part of the trace; the signal that unwinds a worker at shutdown and the poll loop around `_run` are not modelled.
- Activation.WorkerImpliesControlPlaneExactly: each capability receipt is compared as a whole (absent, as expected, otherwise), so the members of the receipts are not spelled out.
- EgressBroker.Fetch: a request line with characters that HTTP cannot carry raises an exception of its own in the source; here it is a request without a reply, like any other network failure.
- BrowserPlan.AcceptedPlanLoads: the plan file's text is any JSON spelling of the plan; that the worker writes the file within 65,536 bytes is not stated, since a plan of many long URLs need not be.
- Json.LoadsDumps: numbers are integers; floats, lone surrogates, Python's limit on the digits of an integer and its recursion limit are not modelled.
- Watchdog.Always: `join` may time out at any moment, so how long it waits is not modelled; cleaning up containers is one step.
- BodyReader.DeclaredLengthRead: digits are ASCII; the other Latin-1 characters that `isdigit` admits are refused by `int`, which the model counts as invalid.
- Retry.ExpiryIsBounded: instants are whole numbers on one time line; time zones and the range of `datetime` are not modelled.
- Builds (`_build`), subprocesses, containers, zip extraction, file and socket handling: input and output without logic to prove.
- Cryptography and TLS: key pairs, envelope decryption, certificate checks and the inside of SHA-256.
- Database models, FastAPI wiring and the services that move queue requests, store versions and schedules: their transition logic is outside the modelled files.
- `validate_kv_read_request`: its outcome enters the run as the step CheckReadRequest, which may return or raise anything, so no theorem depends on which requests it accepts.
- `validate_browser_plan`: the older plan format; it is checked inside the activation step and nothing of it reaches the runtime or the result that are modelled.
- `queue_browser_navigation_plan` and the queue browser result: they build one fixed plan and read one report, of the kinds for which `BrowserPlan` and `BrowserResult` already say exactly when they are accepted.
- The control plane's copies of the Key-Value validators: they are called on the other side of the client calls, whose replies the run protocol leaves free.
