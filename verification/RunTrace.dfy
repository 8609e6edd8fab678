/**
 The traces that `_run` of `worker.py` leaves: calls to the control plane and steps inside the worker, each with its
 reply. `Lawful` says, call by call, what must have come before; the lemmas say what a lawful trace shows as a whole.
 */
module RunTrace {
  import opened Utf8
  import opened Json
  import opened Egress
  import opened KeyValue
  import opened QueueHttp
  import Dataset

  datatype Word = Succeeded | Failed | Aborted

  datatype Exception =
    | SandboxPolicyError | BrowserRuntimeError | WorkerProtocolError | EgressPolicyError
    | QueueBoundaryError | KvBoundaryError | DatasetProtocolError | BrowserContractError | WebFetchContractError
    | JsonDecodeError | UnicodeError | ValueError | TypeError | OsError | OtherError

  predicate IsValueError(e: Exception)
  {
    e in {QueueBoundaryError, KvBoundaryError, DatasetProtocolError, BrowserContractError, WebFetchContractError,
          JsonDecodeError, UnicodeError, ValueError}
  }

  datatype Call =
    // steps inside the worker
    | CancelRun
    | MakeWorkspace
    | CheckActivation
    | DecryptCredential
    | RunBrowser
    | CollectBrowserArtifacts
    | LoadImage
    | AcquireByBrowser(claim: Claim)
    | AcquireByHttp(claim: Claim)
    | CheckReadRequest(request: Json)
    | CheckReadResult(result: Json)
    | FetchWeb
    | FetchLegacy(input: map<string, Json>)
    | DecryptSecrets
    | RunAgent(input: map<string, Json>)
    | ReadKvOutput
    | WriteResult(result: Json)
    | ReadDatasetOutput
    | CollectOutput
    | CollectLog
    | UploadFile
    // calls to the control plane
    | CredentialEnvelope
    | GetWorker
    | SetRunning
    | ArtifactDownload
    | ArtifactUpload
    | SecretEnvelope
    | QueueClaim(queueId: string)
    | QueueComplete(claim: Claim, handled: bool, failureCode: string)
    | KvRead(request: Json)
    | KvMutate(mutation: map<string, Json>)
    | DatasetAppend(append: Json)
    | Complete(outcome: Word, errorCode: string)

  predicate IsClient(c: Call)
  {
    c.CredentialEnvelope? || c.GetWorker? || c.SetRunning? || c.ArtifactDownload? || c.ArtifactUpload?
      || c.SecretEnvelope?
    || c.QueueClaim? || c.QueueComplete? || c.KvRead? || c.KvMutate? || c.DatasetAppend? || c.Complete?
  }

  datatype Reply = Returned(value: Json) | Raised(error: Exception)

  datatype Event = Event(call: Call, reply: Reply)

  /** How the surroundings answer a call, depending on all that happened before it. */
  type Env = (seq<Event>, Call) -> Reply

  datatype Profile = Offline | BrokeredWebEgress | ControlledBrowser

  /** The lease payload, the activation accepted for it, and the worker's own policies, as far as `_run` looks at
      them. */
  datatype Lease = Lease(
    lib: Library,
    cancel: bool,
    authorized: bool,
    credential: bool,
    bindingDigest: bool,
    profile: Profile,
    queueId: Option<string>,
    queue: bool,
    queueHttp: bool,
    queueBrowser: bool,
    kv: bool,
    dataset: bool,
    egressPolicy: bool,
    browserPolicy: bool,
    inputReference: bool,
    input: map<string, Json>,
    webFetch: bool,
    secrets: bool)

  /** `_data`. */
  function Data(response: Json): Option<Json>
  {
    if response.Obj? && Get(response.fields, "data").Obj? then Some(Get(response.fields, "data")) else None
  }

  /** The claim without its token, as the Agent sees it. */
  function ClaimView(c: Claim): Json
  {
    Obj(map["schema_version" := Str("rdc.queue-worker-claim/v1"), "request_id" := Str(c.requestId),
            "queue_id" := Str(c.queueId), "url" := Str(c.url), "user_data" := c.userData,
            "attempt_count" := Num(c.attemptCount)])
  }

  /** The mutations to be persisted for an accepted output, in index order. */
  function Wanted(o: Output, claim: Option<Claim>): seq<map<string, Json>>
    requires |o.mutations| <= 4
  {
    seq(|o.mutations|, i requires 0 <= i < |o.mutations| =>
      if claim.Some? then Persisted(o.mutations[i], claim.value.requestId, i) else o.mutations[i])
  }

  /** `queue_dataset_idempotency_key`, for a validated claim. */
  function DatasetKey(claim: Claim): Json
  {
    Str("queue:" + claim.requestId)
  }

  // ---- the Agent's input ----

  const QUEUE_KEY: string := "_rdc_queue"
  const HTTP_KEY: string := "_rdc_queue_http"
  const BROWSER_KEY: string := "_rdc_queue_browser"
  const READ_KEY: string := "_rdc_kv_read"
  const KV_KEY: string := "_rdc_kv"
  const REQUESTS_KEY: string := "_rdc_web_requests"
  const FETCH_KEY: string := "_rdc_web_fetch_result"
  const RESULTS_KEY: string := "_rdc_web_results"
  const BUDGET_KEY: string := "_rdc_web_budget"

  /** The Run input asks for a Key-Value read. */
  predicate KvAsked(run: Lease)
  {
    run.kv && READ_KEY in run.input && run.input[READ_KEY] != Null
  }

  /** The Run has a versioned web fetch. */
  predicate WebFetched(run: Lease)
  {
    run.profile.BrokeredWebEgress? && !run.queueHttp && run.webFetch
  }

  /** The Run's web requests, if any, are in its input. */
  predicate Legacy(run: Lease)
  {
    run.profile.BrokeredWebEgress? && !run.queueHttp && !run.webFetch
  }

  /** What is taken out of the Run input. */
  function Dropped(run: Lease): set<string>
  {
    (if run.kv then {READ_KEY} else {}) + (if Legacy(run) then {REQUESTS_KEY} else {})
  }

  /** And what is put in, besides the claim. */
  function AcquiredKeys(run: Lease): set<string>
  {
    (if run.queue && run.queueHttp then {HTTP_KEY} else {}) +
      (if run.queue && run.queueBrowser then {BROWSER_KEY} else {})
  }

  function ReadKeys(run: Lease): set<string>
  {
    AcquiredKeys(run) + (if KvAsked(run) then {KV_KEY} else {})
  }

  function GivenKeys(run: Lease): set<string>
  {
    ReadKeys(run) + (if WebFetched(run) then {FETCH_KEY} else {}) +
      (if Legacy(run) then {RESULTS_KEY, BUDGET_KEY} else {})
  }

  /** The Run input without the keys dropped, with the claim and what was given put in. */
  function Assembled(run: Lease, claim: Option<Claim>, given: map<string, Json>, dropped: set<string>): map<string,
    Json>
  {
    (run.input - dropped) + (if claim.Some? then map[QUEUE_KEY := ClaimView(claim.value)] else map[]) + given
  }

  /** What a lease must be for its Agent to run at all. */
  predicate FitForAgent(run: Lease)
  {
    && run.authorized && !run.cancel
    && (run.credential ==>
          && run.bindingDigest && !run.queueBrowser && !run.profile.ControlledBrowser?
          && (run.profile.BrokeredWebEgress? || run.queueHttp))
    && (run.queueHttp || run.queueBrowser ==> run.queue && run.egressPolicy)
    && (run.queueBrowser ==> run.browserPolicy)
    && (run.queue ==>
          && run.queueId.Some? && "_rdc_queue" !in run.input
          && "_rdc_queue_http" !in run.input && "_rdc_queue_browser" !in run.input)
    && (run.kv ==> "_rdc_kv" !in run.input)
    && (run.webFetch ==> run.profile.BrokeredWebEgress?)
    && (run.profile.BrokeredWebEgress? ==> run.egressPolicy)
    && (run.profile.BrokeredWebEgress? && (run.queueHttp || run.webFetch) ==>
          !(run.queueHttp && run.webFetch) && "_rdc_web_requests" !in run.input)
  }

  // ---- what a trace has come to ----

  /** The Dataset output: not read yet, read and refused, made into a request, and that request sent or acknowledged. */
  datatype Appending = Unread | Unfit | Fit(request: Json) | Sent | Stored

  datatype Watch = Watch(
    claims: nat,
    held: bool,
    claim: Option<Claim>,
    given: map<string, Json>,
    exit: Option<Json>,
    wanted: Option<Output>,
    mutations: nat,
    stored: seq<map<string, Json>>,
    append: Appending,
    queueCompletions: nat,
    handled: bool,
    completions: nat,
    acked: Option<Word>,
    idle: bool,
    browsed: bool,
    activated: bool,
    loaded: bool,
    running: bool,
    bad: bool,
    stray: bool,
    refused: bool)

  const START: Watch :=
    Watch(claims := 0, held := false, claim := None, given := map[], exit := None, wanted := None, mutations := 0,
          stored := [], append := Unread, queueCompletions := 0, handled := false, completions := 0, acked := None,
          idle := false, browsed := false, activated := false, loaded := false, running := false, bad := false,
          stray := false, refused := false)

  function ClaimOf(run: Lease, queueId: string, reply: Reply): Option<Claim>
  {
    if reply.Raised? || Data(reply.value).None? then None else ValidateClaim(run.lib, Data(reply.value).value, queueId)
  }

  /** The accepted output, with its mutations as they are to be persisted. */
  function WantedOf(run: Lease, claim: Option<Claim>, reply: Reply): Option<Output>
  {
    if reply.Raised? then None
    else match AcceptedOutput(run.lib, reply.value)
      case None => None
      case Some(o) => Some(Output(o.result, Wanted(o, claim)))
  }

  /** The Dataset request made of an Agent's output. */
  function DatasetRequest(output: map<string, Json>, claim: Option<Claim>): Json
  {
    Obj(if claim.Some? then output["idempotency_key" := DatasetKey(claim.value)] else output)
  }

  predicate DatasetFits(run: Lease, claim: Option<Claim>, output: Json)
  {
    output.Obj? && Dataset.Accepted(run.lib, DatasetRequest(output.fields, claim)).Some?
  }

  function AppendingAfter(run: Lease, w: Watch, e: Event): Appending
  {
    if e.call.ReadDatasetOutput? then
      if e.reply.Returned? && DatasetFits(run, w.claim, e.reply.value)
      then Fit(DatasetRequest(e.reply.value.fields, w.claim)) else Unfit
    else if e.call.DatasetAppend? then
      if e.reply.Returned? then Stored else Sent
    else w.append
  }

  /** What the broker's output says under a key. */
  function Told(output: Json, key: string): Json
  {
    if output.Obj? then Get(output.fields, key) else Null
  }

  /** What has been given for the Agent's input. */
  function GivenAfter(given: map<string, Json>, e: Event): map<string, Json>
  {
    if e.reply.Raised? then given
    else if e.call.AcquireByHttp? then given[HTTP_KEY := e.reply.value]
    else if e.call.AcquireByBrowser? then given[BROWSER_KEY := e.reply.value]
    else if e.call.CheckReadResult? then given[KV_KEY := e.reply.value]
    else if e.call.FetchWeb? then given[FETCH_KEY := e.reply.value]
    else if e.call.FetchLegacy? then
      given[RESULTS_KEY := Told(e.reply.value, RESULTS_KEY)][BUDGET_KEY := Told(e.reply.value, BUDGET_KEY)]
    else given
  }

  /** A reply that makes the Run fail: something raised, was refused by a validator, or exited with another code than
      0. */
  predicate Fails(run: Lease, w: Watch, e: Event)
  {
    || e.reply.Raised?
    || match e.call
       case GetWorker => Data(e.reply.value).None?
       case ArtifactDownload => Data(e.reply.value).None?
       case ArtifactUpload => Data(e.reply.value).None?
       case KvRead(_) => Data(e.reply.value).None?
       case QueueClaim(queueId) => e.reply.value != Null && ClaimOf(run, queueId, e.reply).None?
       case RunAgent(_) => e.reply.value != Num(0)
       case ReadKvOutput => AcceptedOutput(run.lib, e.reply.value).None?
       case ReadDatasetOutput => !DatasetFits(run, w.claim, e.reply.value)
       case _ => false
  }

  // ---- the handlers of the stages that hold a queue request ----

  predicate BrowserAcquisitionFails(e: Exception)
  {
    e in {BrowserContractError, BrowserRuntimeError, QueueBoundaryError, JsonDecodeError, OsError, UnicodeError}
  }

  predicate HttpAcquisitionFails(e: Exception)
  {
    e in {QueueBoundaryError, WebFetchContractError, EgressPolicyError}
  }

  predicate KvReadFails(e: Exception)
  {
    e.KvBoundaryError? || e.WorkerProtocolError?
  }

  predicate KvWriteFails(e: Exception)
  {
    IsValueError(e) || e in {WorkerProtocolError, OsError, TypeError}
  }

  predicate DatasetWriteFails(e: Exception)
  {
    e in {DatasetProtocolError, WorkerProtocolError, JsonDecodeError, OsError, UnicodeError}
  }

  /** Calls whose exceptions no stage turns into a failed queue request. */
  predicate Unguarded(c: Call)
  {
    c.FetchWeb? || c.FetchLegacy? || c.SecretEnvelope? || c.GetWorker? || c.DecryptSecrets? || c.SetRunning?
      || c.RunAgent?
  }

  /** Calls before the web requests of the Run whose stage has a handler that fails the queue request. */
  predicate GuardedEarly(c: Call)
  {
    c.AcquireByBrowser? || c.AcquireByHttp? || c.CheckReadRequest? || c.KvRead? || c.CheckReadResult?
  }

  /** And those after the Agent. */
  predicate GuardedLate(c: Call)
  {
    c.ReadKvOutput? || c.KvMutate? || c.WriteResult? || c.ReadDatasetOutput? || c.DatasetAppend?
  }

  /** The exceptions that the handler of a guarded call names. */
  predicate Handles(c: Call, e: Exception)
  {
    if c.AcquireByBrowser? then BrowserAcquisitionFails(e)
    else if c.AcquireByHttp? then HttpAcquisitionFails(e)
    else if GuardedEarly(c) then KvReadFails(e)
    else if c.ReadKvOutput? || c.KvMutate? || c.WriteResult? then KvWriteFails(e)
    else DatasetWriteFails(e)
  }

  /** Replies that the stage asking for them does not turn into a failed queue request: the lease alone is failed. */
  predicate Stray(e: Event)
  {
    if e.reply.Raised? then
      Unguarded(e.call) || ((GuardedEarly(e.call) || GuardedLate(e.call)) && !Handles(e.call, e.reply.error))
    else
      (e.call.GetWorker? || e.call.KvRead?) && Data(e.reply.value).None?
  }

  /** Failures before the web requests of the Run that do fail the queue request. */
  predicate Refuses(e: Event)
  {
    e.reply.Raised? && GuardedEarly(e.call) && Handles(e.call, e.reply.error)
  }

  predicate ReservesQueueKeys(input: map<string, Json>)
  {
    "_rdc_queue" in input || "_rdc_queue_http" in input || "_rdc_queue_browser" in input
  }

  /** Contents of the lease that end the Run right after the claim. */
  predicate AcquisitionFault(run: Lease)
  {
    || ReservesQueueKeys(run.input)
    || (run.queueBrowser && !(run.egressPolicy && run.browserPolicy))
    || (run.queueHttp && !run.egressPolicy)
  }

  /** Contents of the lease that fail the queue request at the Key-Value read. */
  predicate KvReserved(run: Lease)
  {
    run.kv && "_rdc_kv" in run.input
  }

  /** Contents of the lease that end the Run at its web requests. */
  predicate WebFault(run: Lease)
  {
    || (run.webFetch && !run.profile.BrokeredWebEgress?)
    || (run.profile.BrokeredWebEgress? && !run.egressPolicy)
    || (run.profile.BrokeredWebEgress? && run.queueHttp && (run.webFetch || "_rdc_web_requests" in run.input))
    || (run.profile.BrokeredWebEgress? && run.webFetch && "_rdc_web_requests" in run.input)
  }

  /** Whether a validated request gets its completion: nothing strays, and no fault of the lease is met before a
      handler. */
  predicate Serviceable(run: Lease, stray: bool, refused: bool)
  {
    !stray && !AcquisitionFault(run) && (WebFault(run) ==> refused || KvReserved(run))
  }

  predicate Served(run: Lease, w: Watch)
  {
    w.claim.Some? ==> (w.queueCompletions > 0 <==> Serviceable(run, w.stray, w.refused))
  }

  function Observe(run: Lease, w: Watch, e: Event): Watch
  {
    var c, ok := e.call, e.reply.Returned?;
    Watch(
      claims := w.claims + (if c.QueueClaim? then 1 else 0),
      held := w.held || (c.QueueClaim? && ok && e.reply.value != Null),
      claim := if c.QueueClaim? then ClaimOf(run, c.queueId, e.reply) else w.claim,
      given := GivenAfter(w.given, e),
      exit := if c.RunAgent? then (if ok then Some(e.reply.value) else None) else w.exit,
      wanted := if c.ReadKvOutput? then WantedOf(run, w.claim, e.reply) else w.wanted,
      mutations := w.mutations + (if c.KvMutate? then 1 else 0),
      stored := if c.KvMutate? && ok then w.stored + [c.mutation] else w.stored,
      append := AppendingAfter(run, w, e),
      queueCompletions := w.queueCompletions + (if c.QueueComplete? then 1 else 0),
      handled := w.handled || (c.QueueComplete? && c.handled && ok),
      completions := w.completions + (if c.Complete? then 1 else 0),
      acked := if c.Complete? && ok then Some(c.outcome) else w.acked,
      idle := w.idle || (c.QueueClaim? && e.reply == Returned(Null)),
      browsed := w.browsed || (c.RunBrowser? && ok),
      activated := w.activated || (c.CheckActivation? && ok),
      loaded := w.loaded || (c.LoadImage? && ok),
      running := w.running || (c.SetRunning? && ok),
      bad := w.bad || Fails(run, w, e),
      stray := w.stray || Stray(e),
      refused := w.refused || Refuses(e))
  }

  function Watching(run: Lease, t: seq<Event>): Watch
  {
    if t == [] then START else Observe(run, Watching(run, t[..|t| - 1]), t[|t| - 1])
  }

  predicate AllStored(run: Lease, w: Watch)
  {
    run.kv ==> w.wanted.Some? && w.stored == w.wanted.value.mutations && w.mutations == |w.stored|
  }

  /** The controlled-browser branch, which claims nothing and runs no Agent. */
  predicate IsBrowserRun(run: Lease)
  {
    run.profile.ControlledBrowser? && !run.queueBrowser
  }

  /** What must have come before each call. */
  predicate Allowed(run: Lease, w: Watch, c: Call)
  {
    && (IsClient(c) ==> w.acked.None?)
    && (IsClient(c) && !c.Complete? ==> w.activated)
    && match c
       case SetRunning => w.queueCompletions == 0 && (w.claim.Some? || !run.queue || IsBrowserRun(run))
       case RunBrowser => w.activated && w.running && IsBrowserRun(run)
       case LoadImage => w.activated
       case QueueClaim(queueId) => w.claims == 0 && w.exit.None? && run.queueId == Some(queueId)
       case RunAgent(input) =>
         && w.exit.None? && w.queueCompletions == 0 && FitForAgent(run)
         && w.activated && w.loaded && w.running
         && (run.queue ==> w.claim.Some?)
         && w.given.Keys == GivenKeys(run) && input == Assembled(run, w.claim, w.given, Dropped(run))
       case AcquireByHttp(claim) => w.claim == Some(claim)
       case AcquireByBrowser(claim) => w.claim == Some(claim)
       case FetchLegacy(input) => input == Assembled(run, w.claim, w.given, if run.kv then {READ_KEY} else {})
       case ReadKvOutput => run.kv && w.exit == Some(Num(0)) && w.wanted.None? && w.mutations == 0
       case ReadDatasetOutput => run.dataset && w.exit == Some(Num(0)) && w.queueCompletions == 0 && w.append.Unread?
       case KvMutate(m) =>
         && w.exit == Some(Num(0)) && w.queueCompletions == 0
         && w.wanted.Some? && w.mutations == |w.stored| < |w.wanted.value.mutations|
         && m == w.wanted.value.mutations[|w.stored|]
       case DatasetAppend(request) => w.exit == Some(Num(0)) && w.queueCompletions == 0 && w.append == Fit(request)
       case QueueComplete(claim, handled, _) =>
         && w.queueCompletions == 0 && w.claim == Some(claim)
         && (handled ==> w.exit == Some(Num(0)) && AllStored(run, w) && (run.dataset ==> w.append.Stored?))
       case Complete(outcome, _) =>
         && w.completions < 3
         && (outcome.Succeeded? ==> w.held ==> w.handled)
         && (outcome.Succeeded? ==>
               w.idle || w.browsed || (w.exit == Some(Num(0)) && AllStored(run, w)
                                       && (run.dataset ==> w.append.Stored?)))
         && (outcome.Aborted? ==> run.cancel)
       case _ => true
  }

  predicate Lawful(run: Lease, t: seq<Event>)
  {
    forall i :: 0 <= i < |t| ==> Allowed(run, Watching(run, t[..i]), t[i].call)
  }

  lemma LawfulSnoc(run: Lease, t: seq<Event>, e: Event)
    ensures Watching(run, t + [e]) == Observe(run, Watching(run, t), e)
    ensures Lawful(run, t + [e]) <==> Lawful(run, t) && Allowed(run, Watching(run, t), e.call)
  {
    hide Observe, Allowed;
    var u := t + [e];
    assert u[..|t|] == t;
    assert forall i :: 0 <= i < |t| ==> u[..i] == t[..i] && u[i] == t[i];
    if Lawful(run, u) {
      assert Allowed(run, Watching(run, u[..|t|]), u[|t|].call);
      forall i | 0 <= i < |t| ensures Allowed(run, Watching(run, t[..i]), t[i].call) {
        assert Allowed(run, Watching(run, u[..i]), u[i].call);
      }
    }
  }

  // ---- what every trace shows ----

  predicate Acknowledged(e: Event)
  {
    e.call.Complete? && e.reply.Returned?
  }

  /** The indices of the lease completions attempted. */
  function Completions(t: seq<Event>): set<nat>
  {
    set i: nat | i < |t| && t[i].call.Complete?
  }

  /** One completion was acknowledged, with this outcome, and no call to the control plane came after it. */
  predicate AnsweredOnce(t: seq<Event>, word: Word)
  {
    exists i :: 0 <= i < |t| && Acknowledged(t[i]) && t[i].call.outcome == word && LastCall(t, i)
  }

  predicate LastCall(t: seq<Event>, i: nat)
    requires i < |t|
  {
    && (forall j :: 0 <= j < |t| && j != i ==> !Acknowledged(t[j]))
    && (forall j :: i < j < |t| ==> !IsClient(t[j].call))
  }

  predicate NeverAnswered(t: seq<Event>)
  {
    forall j :: 0 <= j < |t| ==> !Acknowledged(t[j])
  }

  predicate Exited(e: Event, code: Json)
  {
    e.call.RunAgent? && e.reply == Returned(code)
  }

  predicate ClaimedBy(run: Lease, e: Event, claim: Claim)
  {
    e.call.QueueClaim? && ClaimOf(run, e.call.queueId, e.reply) == Some(claim)
  }

  predicate ReadsOutput(run: Lease, e: Event)
  {
    e.call.ReadKvOutput? && e.reply.Returned? && AcceptedOutput(run.lib, e.reply.value).Some?
  }

  /** A Dataset output was read that makes this valid request, under the key of the claim if there is one. */
  predicate MakesAppend(run: Lease, e: Event, claim: Option<Claim>, request: Json)
  {
    && e.call.ReadDatasetOutput? && e.reply.Returned?
    && DatasetFits(run, claim, e.reply.value) && request == DatasetRequest(e.reply.value.fields, claim)
    && request.Obj?
    && (forall k :: k in e.reply.value.fields && !(claim.Some? && k == "idempotency_key") ==>
          k in request.fields && request.fields[k] == e.reply.value.fields[k])
    && (forall k :: k in request.fields ==> k in e.reply.value.fields || k == "idempotency_key")
    && (claim.Some? ==>
          "idempotency_key" in request.fields
            && request.fields["idempotency_key"] == Str("queue:" + claim.value.requestId))
  }

  lemma RequestMade(run: Lease, e: Event, claim: Option<Claim>)
    requires e.call.ReadDatasetOutput? && e.reply.Returned? && DatasetFits(run, claim, e.reply.value)
    ensures MakesAppend(run, e, claim, DatasetRequest(e.reply.value.fields, claim))
  {
  }

  predicate Appends(e: Event, request: Json)
  {
    e.call == DatasetAppend(request) && e.reply.Returned?
  }

  /** What the Agent wrote was read, and the request made of it was acknowledged. */
  predicate AppendsOutput(run: Lease, t: seq<Event>, j: int, k: int, claim: Option<Claim>)
  {
    && 0 <= j < k < |t|
    && t[k].call.DatasetAppend? && MakesAppend(run, t[j], claim, t[k].call.append)
    && Appends(t[k], t[k].call.append)
  }

  /** At most one append is sent, acknowledged or not. */
  predicate OneAppend(t: seq<Event>)
  {
    forall i, j :: 0 <= i < j < |t| && t[i].call.DatasetAppend? ==> !t[j].call.DatasetAppend?
  }

  predicate SendsHandled(e: Event)
  {
    e.call.QueueComplete? && e.call.handled
  }

  /** The mutations were acknowledged one after the other, in this order, at these indices of the trace. */
  predicate StoredAt(t: seq<Event>, at: seq<nat>, ms: seq<map<string, Json>>)
  {
    && |at| == |ms|
    && (forall k :: 0 <= k < |at| ==> at[k] < |t| && t[at[k]].call == KvMutate(ms[k]) && t[at[k]].reply.Returned?)
    && (forall k, l :: 0 <= k < l < |at| ==> at[k] < at[l])
  }

  /** Every mutation sent is at one of these indices. */
  predicate Covers(t: seq<Event>, at: seq<nat>)
  {
    forall j: nat :: j < |t| && t[j].call.KvMutate? ==> j in at
  }

  /** These mutations and no others were sent, in this order, and all of them were acknowledged. */
  ghost predicate ExactlyStored(t: seq<Event>, ms: seq<map<string, Json>>)
  {
    exists at: seq<nat> :: StoredAt(t, at, ms) && Covers(t, at)
  }

  /** The Agent exited with 0, and its writes, all of them and under the keys of the claim if there is one, were
      acknowledged. */
  ghost predicate Earned(run: Lease, t: seq<Event>, claim: Option<Claim>)
  {
    && (claim.Some? ==> exists j :: 0 <= j < |t| && ClaimedBy(run, t[j], claim.value))
    && (exists j :: 0 <= j < |t| && Exited(t[j], Num(0)))
    && (run.kv ==> exists j :: 0 <= j < |t| && ReadsOutput(run, t[j]) && StoredAll(run, t, t[j], claim))
    && (run.dataset ==> exists j, k :: AppendsOutput(run, t, j, k, claim))
  }

  /** The mutations of the output, in order, as they are but for the key of the claim if there is one. */
  predicate AsWanted(o: Output, claim: Option<Claim>, ms: seq<map<string, Json>>)
  {
    && |ms| == |o.mutations|
    && forall i :: 0 <= i < |ms| ==>
         && (claim.None? ==> ms[i] == o.mutations[i])
         && (claim.Some? ==>
               && "idempotency_key" in ms[i]
               && ms[i]["idempotency_key"] ==
                 Str("queue:" + claim.value.requestId + ":kv:" + ["0", "1", "2", "3"][i % 4])
               && ms[i] - {"idempotency_key"} == o.mutations[i] - {"idempotency_key"})
  }

  ghost predicate StoredAll(run: Lease, t: seq<Event>, e: Event, claim: Option<Claim>)
    requires ReadsOutput(run, e)
  {
    exists ms :: AsWanted(AcceptedOutput(run.lib, e.reply.value).value, claim, ms) && ExactlyStored(t, ms)
  }

  ghost predicate HandledIsEarned(run: Lease, t: seq<Event>)
  {
    forall i :: 0 <= i < |t| && SendsHandled(t[i]) ==> Earned(run, t[..i], Some(t[i].call.claim))
  }

  predicate SendsSucceeded(e: Event)
  {
    e.call.Complete? && e.call.outcome.Succeeded?
  }

  /** The queue was empty, or the browser ran. */
  predicate NoAgentNeeded(e: Event)
  {
    (e.call.QueueClaim? && e.reply == Returned(Null)) || (e.call.RunBrowser? && e.reply.Returned?)
  }

  /** SUCCEEDED is sent only for an empty queue, a browser that ran, or an Agent whose work is earned. */
  ghost predicate SuccessIsEarned(run: Lease, t: seq<Event>)
  {
    forall i :: 0 <= i < |t| && SendsSucceeded(t[i]) ==>
      || (exists j :: 0 <= j < i && NoAgentNeeded(t[j]))
      || Earned(run, t[..i], Watching(run, t[..i]).claim)
  }

  /** A lease whose own contents can make `_run` fail, whatever the replies. */
  predicate Misfit(run: Lease)
  {
    || !run.authorized
    || (run.credential && (run.profile.ControlledBrowser? || run.queueBrowser))
    || (run.credential && !run.profile.BrokeredWebEgress? && !run.queueHttp)
    || (run.credential && !run.bindingDigest)
    || (run.profile.ControlledBrowser? && !run.queueBrowser && !run.inputReference)
    || ((run.queueHttp || run.queueBrowser) && !(run.queue && run.egressPolicy))
    || (run.queueBrowser && !run.browserPolicy)
    || (run.queue && (run.queueId.None? || ReservesQueueKeys(run.input)))
    || (run.kv && "_rdc_kv" in run.input)
    || (run.webFetch && !run.profile.BrokeredWebEgress?)
    || (run.profile.BrokeredWebEgress? && !run.egressPolicy)
    || (run.webFetch && run.queueHttp)
    || ((run.webFetch || run.queueHttp) && "_rdc_web_requests" in run.input)
  }

  /** Something to blame a failure on. */
  predicate Blamed(run: Lease, t: seq<Event>)
  {
    Misfit(run) || exists i :: 0 <= i < |t| && Fails(run, Watching(run, t[..i]), t[i])
  }

  predicate Did(e: Event, c: Call)
  {
    e.call == c && e.reply.Returned?
  }

  predicate DidBefore(t: seq<Event>, i: nat, c: Call)
    requires i <= |t|
  {
    exists j :: 0 <= j < i && Did(t[j], c)
  }

  /** The claim as the Agent sees it: the six fields, and no token among them. */
  predicate ShowsClaim(v: Json, claim: Claim)
  {
    && v.Obj? && v.fields.Keys == {"schema_version", "request_id", "queue_id", "url", "user_data", "attempt_count"}
    && v.fields["schema_version"] == Str("rdc.queue-worker-claim/v1")
    && v.fields["request_id"] == Str(claim.requestId) && v.fields["queue_id"] == Str(claim.queueId)
    && v.fields["url"] == Str(claim.url) && v.fields["user_data"] == claim.userData
    && v.fields["attempt_count"] == Num(claim.attemptCount)
  }

  /** The call that gives the value under a key, for the claim held. */
  predicate Gives(e: Event, claim: Option<Claim>, key: string, value: Json)
  {
    && e.reply.Returned?
    && (|| (key == HTTP_KEY && claim.Some? && e.call == AcquireByHttp(claim.value) && e.reply.value == value)
        || (key == BROWSER_KEY && claim.Some? && e.call == AcquireByBrowser(claim.value) && e.reply.value == value)
        || (key == KV_KEY && e.call.CheckReadResult? && e.reply.value == value)
        || (key == FETCH_KEY && e.call.FetchWeb? && e.reply.value == value)
        || ((key == RESULTS_KEY || key == BUDGET_KEY) && e.call.FetchLegacy?
            && value == (if e.reply.value.Obj? && key in e.reply.value.fields then e.reply.value.fields[key]
                         else Null)))
  }

  predicate GivenBy(t: seq<Event>, claim: Option<Claim>, key: string, value: Json)
  {
    exists j :: 0 <= j < |t| && Gives(t[j], claim, key, value)
  }

  /**
   The Agent's input, key by key: the claim without its token; what acquisitions, Key-Value read and web requests of
   this Run returned, each under its own key; and of the Run input all the rest, unchanged, but for the read request of
   a Key-Value Run and the web requests that were brokered.
   */
  ghost predicate InputIs(run: Lease, t: seq<Event>, claim: Option<Claim>, input: map<string, Json>)
  {
    && (forall k :: k in input <==>
          || (k in run.input && !(run.kv && k == "_rdc_kv_read") && !(Legacy(run) && k == "_rdc_web_requests"))
          || (claim.Some? && k == "_rdc_queue")
          || k in GivenKeys(run))
    && (forall k :: k in input ==>
          if k in GivenKeys(run) then GivenBy(t, claim, k, input[k])
          else if claim.Some? && k == "_rdc_queue" then ShowsClaim(input[k], claim.value)
          else k in run.input && input[k] == run.input[k])
  }

  /** The Agent runs only after the activation was accepted, its image loaded and the status RUNNING acknowledged, on an
      input that is the Run's own with the claim held, without its token, and what was given for it. */
  ghost predicate AgentIsPrepared(run: Lease, t: seq<Event>)
  {
    forall i :: 0 <= i < |t| && t[i].call.RunAgent? ==>
      && FitForAgent(run)
      && DidBefore(t, i, CheckActivation) && DidBefore(t, i, LoadImage) && DidBefore(t, i, SetRunning)
      && (run.queue ==> Watching(run, t[..i]).claim.Some?)
      && InputIs(run, t[..i], Watching(run, t[..i]).claim, t[i].call.input)
  }

  /** Before the activation was accepted the control plane is asked for nothing and told nothing but a completion. */
  predicate NothingBeforeActivation(t: seq<Event>)
  {
    forall i :: 0 <= i < |t| && IsClient(t[i].call) && !t[i].call.Complete? ==> DidBefore(t, i, CheckActivation)
  }

  predicate OneQueueCompletion(t: seq<Event>)
  {
    forall i, j :: 0 <= i < j < |t| && t[i].call.QueueComplete? ==> !t[j].call.QueueComplete?
  }

  predicate Validates(run: Lease, e: Event)
  {
    e.call.QueueClaim? && ClaimOf(run, e.call.queueId, e.reply).Some?
  }

  predicate ClaimValidated(run: Lease, t: seq<Event>) { exists i :: 0 <= i < |t| && Validates(run, t[i]) }

  predicate CompletionAttempted(t: seq<Event>) { exists i :: 0 <= i < |t| && t[i].call.QueueComplete? }

  predicate WentAstray(t: seq<Event>) { exists i :: 0 <= i < |t| && Stray(t[i]) }

  predicate WasRefused(t: seq<Event>) { exists i :: 0 <= i < |t| && Refuses(t[i]) }

  /** The queue completion is attempted exactly for a validated claim none of whose replies strays and whose lease has
      no fault that ends the Run first. */
  predicate CompletionIsExact(run: Lease, t: seq<Event>)
  {
    CompletionAttempted(t) <==> ClaimValidated(run, t) && Serviceable(run, WentAstray(t), WasRefused(t))
  }

  predicate Holds(e: Event)
  {
    e.call.QueueClaim? && e.reply.Returned? && e.reply.value != Null
  }

  /** While a queue request is held, the lease is reported SUCCEEDED only after its HANDLED was acknowledged. */
  predicate SuccessIsHandled(t: seq<Event>)
  {
    forall i, c :: 0 <= c < i < |t| && Holds(t[c]) && SendsSucceeded(t[i]) ==>
      exists h :: 0 <= h < i && SendsHandled(t[h]) && t[h].reply.Returned?
  }

  lemma {:induction false} CompletionsCounted(run: Lease, t: seq<Event>)
    ensures |Completions(t)| == Watching(run, t).completions
  {
    hide Fails, ClaimOf, WantedOf, Stray, Refuses;
    if t == [] {
      assert Completions(t) == {};
    } else {
      var n := |t| - 1;
      CompletionsCounted(run, t[..n]);
      assert n !in Completions(t[..n]);
      assert Completions(t) == if t[n].call.Complete? then Completions(t[..n]) + {n} else Completions(t[..n]);
    }
  }

  lemma LawfulFront(run: Lease, t: seq<Event>)
    requires Lawful(run, t) && t != []
    ensures Lawful(run, t[..|t| - 1])
    ensures Allowed(run, Watching(run, t[..|t| - 1]), t[|t| - 1].call)
    ensures Watching(run, t) == Observe(run, Watching(run, t[..|t| - 1]), t[|t| - 1])
  {
    hide Allowed, Observe, Lawful, Watching;
    var front := t[..|t| - 1];
    assert t == front + [t[|t| - 1]];
    LawfulSnoc(run, front, t[|t| - 1]);
  }

  /** After an acknowledged completion no call to the control plane is allowed. */
  lemma AckedStep(run: Lease, w: Watch, e: Event)
    requires Allowed(run, w, e.call)
    ensures Observe(run, w, e).acked == if Acknowledged(e) then Some(e.call.outcome) else w.acked
    ensures w.acked.Some? ==> !IsClient(e.call) && !Acknowledged(e)
  {
    hide AllStored, ClaimOf, WantedOf, Fails, ClaimView, Stray, Refuses;
  }

  lemma AnsweredNow(t: seq<Event>, e: Event)
    requires NeverAnswered(t) && Acknowledged(e)
    ensures AnsweredOnce(t + [e], e.call.outcome)
  {
    assert LastCall(t + [e], |t|);
  }

  lemma AnsweredLater(t: seq<Event>, word: Word, e: Event)
    requires AnsweredOnce(t, word) && !IsClient(e.call)
    ensures AnsweredOnce(t + [e], word)
  {
    var i :| 0 <= i < |t| && Acknowledged(t[i]) && t[i].call.outcome == word && LastCall(t, i);
    var u := t + [e];
    assert u[i] == t[i];
    assert LastCall(u, i);
  }

  lemma NeverAnsweredLater(t: seq<Event>, e: Event)
    requires NeverAnswered(t) && !Acknowledged(e)
    ensures NeverAnswered(t + [e])
  {
  }

  lemma NothingYet(run: Lease)
    ensures Watching(run, []) == START && NeverAnswered([])
  {
  }

  lemma {:induction false} AnswersShown(run: Lease, t: seq<Event>)
    requires Lawful(run, t)
    ensures match Watching(run, t).acked
            case None => NeverAnswered(t)
            case Some(word) => AnsweredOnce(t, word)
  {
    hide Watching, Lawful, Observe, Allowed, NeverAnswered, AnsweredOnce, IsClient, Acknowledged;
    if t == [] {
      NothingYet(run);
    } else {
      var front, e := t[..|t| - 1], t[|t| - 1];
      assert t == front + [e];
      LawfulFront(run, t);
      AckedStep(run, Watching(run, front), e);
      AnswersShown(run, front);
      if Acknowledged(e) {
        AnsweredNow(front, e);
      } else if Watching(run, front).acked.None? {
        NeverAnsweredLater(front, e);
      } else {
        AnsweredLater(front, Watching(run, front).acked.value, e);
      }
    }
  }

  lemma AllowedCompletion(run: Lease, w: Watch, c: Call)
    requires Allowed(run, w, c) && c.Complete?
    ensures w.completions < 3
    ensures c.outcome.Succeeded? && w.held ==> w.handled
    ensures c.outcome.Succeeded? ==>
              w.idle || w.browsed || (w.exit == Some(Num(0)) && AllStored(run, w) && (run.dataset ==> w.append.Stored?))
  {
    hide AllStored, Fails, Stray, Refuses, ClaimOf, WantedOf;
  }

  lemma {:induction false} ThreeCompletions(run: Lease, t: seq<Event>)
    requires Lawful(run, t)
    ensures |Completions(t)| <= 3
    ensures Watching(run, t).completions <= 3
  {
    CompletionsCounted(run, t);
    if t != [] {
      hide Watching, Lawful, Allowed, Completions, Fails, Stray, Refuses, ClaimOf, WantedOf;
      var front, e := t[..|t| - 1], t[|t| - 1];
      LawfulFront(run, t);
      ThreeCompletions(run, front);
      if e.call.Complete? { AllowedCompletion(run, Watching(run, front), e.call); }
    }
  }

  // ---- what the fields of a watch say about the trace ----

  lemma {:induction false} ExitShown(run: Lease, t: seq<Event>)
    requires Watching(run, t).exit.Some?
    ensures exists j :: 0 <= j < |t| && Exited(t[j], Watching(run, t).exit.value)
  {
    hide Fails, Stray, Refuses, ClaimOf, WantedOf;
    var n := |t| - 1;
    var code := Watching(run, t).exit.value;
    if !Exited(t[n], code) {
      ExitShown(run, t[..n]);
      var j :| 0 <= j < n && Exited(t[..n][j], code);
      assert t[j] == t[..n][j];
    }
  }

  lemma {:induction false} ClaimShown(run: Lease, t: seq<Event>)
    requires Watching(run, t).claim.Some?
    ensures exists j :: 0 <= j < |t| && ClaimedBy(run, t[j], Watching(run, t).claim.value)
  {
    hide ClaimOf, Fails, Stray, Refuses, WantedOf;
    var n := |t| - 1;
    var claim := Watching(run, t).claim.value;
    if !ClaimedBy(run, t[n], claim) {
      ClaimShown(run, t[..n]);
      var j :| 0 <= j < n && ClaimedBy(run, t[..n][j], claim);
      assert t[j] == t[..n][j];
    }
  }

  lemma {:induction false} HandledShown(run: Lease, t: seq<Event>)
    requires Watching(run, t).handled
    ensures exists h :: 0 <= h < |t| && SendsHandled(t[h]) && t[h].reply.Returned?
  {
    hide Fails, Stray, Refuses, ClaimOf, WantedOf;
    var n := |t| - 1;
    if !(SendsHandled(t[n]) && t[n].reply.Returned?) {
      HandledShown(run, t[..n]);
      var h :| 0 <= h < n && SendsHandled(t[..n][h]) && t[..n][h].reply.Returned?;
      assert t[h] == t[..n][h];
    }
  }

  lemma {:induction false} NoAgentShown(run: Lease, t: seq<Event>)
    requires Watching(run, t).idle || Watching(run, t).browsed
    ensures exists j :: 0 <= j < |t| && NoAgentNeeded(t[j])
  {
    hide Fails, Stray, Refuses, ClaimOf, WantedOf;
    var n := |t| - 1;
    if !NoAgentNeeded(t[n]) {
      NoAgentShown(run, t[..n]);
      var j :| 0 <= j < n && NoAgentNeeded(t[..n][j]);
      assert t[j] == t[..n][j];
    }
  }

  lemma StepsPreparation(run: Lease, w: Watch, e: Event)
    ensures var v := Observe(run, w, e);
            && v.activated == (w.activated || Did(e, CheckActivation))
            && v.loaded == (w.loaded || Did(e, LoadImage))
            && v.running == (w.running || Did(e, SetRunning))
  {
    hide Fails, Stray, Refuses, ClaimOf, WantedOf;
  }

  lemma StepsFate(run: Lease, w: Watch, e: Event)
    ensures Observe(run, w, e).stray == (w.stray || Stray(e))
    ensures Observe(run, w, e).refused == (w.refused || Refuses(e))
  {
    hide Fails, Stray, Refuses, ClaimOf, WantedOf;
  }

  lemma StepsAttempt(run: Lease, w: Watch, e: Event)
    ensures Observe(run, w, e).queueCompletions == w.queueCompletions + (if e.call.QueueComplete? then 1 else 0)
  {
    hide Fails, Stray, Refuses, ClaimOf, WantedOf;
  }

  lemma StepsClaim(run: Lease, w: Watch, e: Event)
    ensures Observe(run, w, e).claims == w.claims + (if e.call.QueueClaim? then 1 else 0)
    ensures Observe(run, w, e).claim == if e.call.QueueClaim? then ClaimOf(run, e.call.queueId, e.reply) else w.claim
  {
    hide Fails, Stray, Refuses, ClaimOf, WantedOf;
  }

  lemma {:induction false} PreparationShown(run: Lease, t: seq<Event>)
    ensures Watching(run, t).activated ==> DidBefore(t, |t|, CheckActivation)
    ensures Watching(run, t).loaded ==> DidBefore(t, |t|, LoadImage)
    ensures Watching(run, t).running ==> DidBefore(t, |t|, SetRunning)
  {
    if t != [] {
      hide Observe, Did, DidBefore;
      var n := |t| - 1;
      PreparationShown(run, t[..n]);
      StepsPreparation(run, Watching(run, t[..n]), t[n]);
      DidLater(t, CheckActivation);
      DidLater(t, LoadImage);
      DidLater(t, SetRunning);
    }
  }

  lemma DidLater(t: seq<Event>, c: Call)
    requires t != []
    ensures DidBefore(t[..|t| - 1], |t| - 1, c) ==> DidBefore(t, |t|, c)
    ensures Did(t[|t| - 1], c) ==> DidBefore(t, |t|, c)
  {
    var n := |t| - 1;
    if DidBefore(t[..n], n, c) {
      var j :| 0 <= j < n && Did(t[..n][j], c);
      assert t[j] == t[..n][j];
    }
  }

  lemma {:induction false} BadShown(run: Lease, t: seq<Event>)
    requires Watching(run, t).bad
    ensures exists i :: 0 <= i < |t| && Fails(run, Watching(run, t[..i]), t[i])
  {
    hide Fails, Stray, Refuses, ClaimOf, WantedOf, GivenAfter, AppendingAfter;
    var n := |t| - 1;
    if !Fails(run, Watching(run, t[..n]), t[n]) {
      BadShown(run, t[..n]);
      var i :| 0 <= i < n && Fails(run, Watching(run, t[..n][..i]), t[..n][i]);
      assert t[i] == t[..n][i] && t[..i] == t[..n][..i];
    }
  }

  lemma {:induction false} HeldShown(run: Lease, t: seq<Event>, c: nat)
    requires c < |t| && Holds(t[c])
    ensures Watching(run, t).held
  {
    hide Fails, Stray, Refuses, ClaimOf, WantedOf;
    var n := |t| - 1;
    if c < n { HeldShown(run, t[..n], c); }
  }

  lemma {:induction false} QueueCompletionShown(run: Lease, t: seq<Event>, i: nat)
    requires i < |t| && t[i].call.QueueComplete?
    ensures Watching(run, t).queueCompletions > 0
  {
    hide Fails, Stray, Refuses, ClaimOf, WantedOf;
    var n := |t| - 1;
    if i < n { QueueCompletionShown(run, t[..n], i); }
  }

  /** Once the Agent has exited, the claim and the exit code stay; and nothing is read or written before it has. */
  lemma AllowedAfterExit(run: Lease, w: Watch, e: Event)
    requires Allowed(run, w, e.call)
    ensures w.exit.Some? ==> Observe(run, w, e).claim == w.claim && Observe(run, w, e).exit == w.exit
    ensures e.call.ReadKvOutput? || e.call.DatasetAppend? || e.call.KvMutate? ==> w.exit == Some(Num(0))
    ensures e.call.ReadKvOutput? ==> w.wanted.None? && w.mutations == 0
    ensures e.call.KvMutate? ==> w.wanted.Some?
    ensures e.call.ReadDatasetOutput? ==> w.exit == Some(Num(0)) && w.append.Unread?
    ensures e.call.DatasetAppend? ==> w.append == Fit(e.call.append)
  {
    hide AllStored, ClaimOf, WantedOf, Assembled, GivenKeys, Fails, Stray, Refuses, AppendingAfter, GivenAfter;
  }

  lemma StepsAppend(run: Lease, w: Watch, e: Event)
    ensures Observe(run, w, e).append == AppendingAfter(run, w, e)
    ensures Observe(run, w, e).given == GivenAfter(w.given, e)
  {
    hide Fails, Stray, Refuses, ClaimOf, WantedOf, AppendingAfter, GivenAfter;
  }

  lemma {:induction false} WritesAfterExit(run: Lease, t: seq<Event>)
    requires Lawful(run, t)
    ensures !Watching(run, t).append.Unread? || Watching(run, t).wanted.Some? || Watching(run, t).mutations > 0 ==>
              Watching(run, t).exit == Some(Num(0))
  {
    if t != [] {
      hide Allowed, Lawful, Fails, Stray, Refuses, ClaimOf, WantedOf, DatasetFits, GivenAfter;
      var n := |t| - 1;
      LawfulFront(run, t);
      WritesAfterExit(run, t[..n]);
      AllowedAfterExit(run, Watching(run, t[..n]), t[n]);
    }
  }

  lemma {:induction false} FitShown(run: Lease, t: seq<Event>)
    requires Lawful(run, t) && Watching(run, t).append.Fit?
    ensures exists j :: 0 <= j < |t| && MakesAppend(run, t[j], Watching(run, t).claim, Watching(run, t).append.request)
  {
    hide Allowed, Lawful, Observe, DatasetFits, DatasetRequest;
    var n := |t| - 1;
    LawfulFront(run, t);
    var w := Watching(run, t[..n]);
    AllowedAfterExit(run, w, t[n]);
    StepsAppend(run, w, t[n]);
    if t[n].call.ReadDatasetOutput? {
      RequestMade(run, t[n], w.claim);
    } else {
      FitShown(run, t[..n]);
      WritesAfterExit(run, t[..n]);
      var j :| 0 <= j < n && MakesAppend(run, t[..n][j], w.claim, w.append.request);
      assert t[j] == t[..n][j];
    }
  }

  lemma {:induction false} AppendShown(run: Lease, t: seq<Event>)
    requires Lawful(run, t) && Watching(run, t).append.Stored?
    ensures exists j, k :: AppendsOutput(run, t, j, k, Watching(run, t).claim)
  {
    hide Allowed, Lawful, Observe, MakesAppend, DatasetFits, DatasetRequest;
    var n := |t| - 1;
    LawfulFront(run, t);
    var w := Watching(run, t[..n]);
    AllowedAfterExit(run, w, t[n]);
    StepsAppend(run, w, t[n]);
    WritesAfterExit(run, t[..n]);
    if t[n].call.DatasetAppend? {
      FitShown(run, t[..n]);
      var j :| 0 <= j < n && MakesAppend(run, t[..n][j], w.claim, w.append.request);
      assert t[j] == t[..n][j];
      assert AppendsOutput(run, t, j, n, w.claim);
    } else {
      AppendShown(run, t[..n]);
      var j, k :| AppendsOutput(run, t[..n], j, k, w.claim);
      assert t[j] == t[..n][j] && t[k] == t[..n][k];
      assert AppendsOutput(run, t, j, k, w.claim);
    }
  }

  /** After an append, or an attempt at one, no other request can be sent. */
  lemma {:induction false} AppendTried(run: Lease, t: seq<Event>, i: nat)
    requires Lawful(run, t) && i < |t| && t[i].call.DatasetAppend?
    ensures Watching(run, t).append.Sent? || Watching(run, t).append.Stored?
  {
    hide Allowed, Lawful, Observe, DatasetFits;
    var n := |t| - 1;
    LawfulFront(run, t);
    AllowedAfterExit(run, Watching(run, t[..n]), t[n]);
    StepsAppend(run, Watching(run, t[..n]), t[n]);
    if i < n { AppendTried(run, t[..n], i); }
  }

  lemma LawfulAppend(run: Lease, t: seq<Event>)
    requires Lawful(run, t)
    ensures OneAppend(t)
  {
    hide Allowed, Watching;
    forall i, j | 0 <= i < j < |t| && t[i].call.DatasetAppend? ensures !t[j].call.DatasetAppend? {
      LawfulPrefix(run, t, j);
      AppendTried(run, t[..j], i);
      AllowedAfterExit(run, Watching(run, t[..j]), t[j]);
    }
  }

  // ---- what was given ----

  lemma GivenSnoc(t: seq<Event>, e: Event, claim: Option<Claim>, key: string, value: Json)
    ensures Gives(e, claim, key, value) || GivenBy(t, claim, key, value) ==> GivenBy(t + [e], claim, key, value)
  {
    hide Gives;
    var u := t + [e];
    assert u[|t|] == e;
    if GivenBy(t, claim, key, value) {
      var j :| 0 <= j < |t| && Gives(t[j], claim, key, value);
      assert u[j] == t[j];
    }
  }

  /** What the watch holds as given, for the claim it holds. */
  predicate WasGiven(t: seq<Event>, w: Watch)
  {
    forall k :: k in w.given ==> GivenBy(t, w.claim, k, w.given[k])
  }

  lemma AllowedAcquisition(run: Lease, w: Watch, e: Event)
    requires Allowed(run, w, e.call) && (w.claim.Some? ==> w.claims > 0)
    ensures e.call.AcquireByHttp? || e.call.AcquireByBrowser? ==> w.claim == Some(e.call.claim)
    ensures w.claim.Some? ==> Observe(run, w, e).claim == w.claim
    ensures !e.call.QueueClaim? ==> Observe(run, w, e).claim == w.claim
  {
    hide Observe, AllStored, Assembled, ClaimOf;
    StepsClaim(run, w, e);
  }

  /** Giving a value to a claim that is not there yet is giving it to none. */
  lemma GivenToNone(t: seq<Event>, claim: Option<Claim>, key: string, value: Json)
    requires GivenBy(t, None, key, value)
    ensures GivenBy(t, claim, key, value)
  {
    var j :| 0 <= j < |t| && Gives(t[j], None, key, value);
    assert Gives(t[j], claim, key, value);
  }

  lemma GivenNow(claim: Option<Claim>, given: map<string, Json>, e: Event, k: string)
    requires e.call.AcquireByHttp? || e.call.AcquireByBrowser? ==> claim == Some(e.call.claim)
    requires k in GivenAfter(given, e) && !(k in given && GivenAfter(given, e)[k] == given[k])
    ensures Gives(e, claim, k, GivenAfter(given, e)[k])
  {
  }

  lemma GivenStep(run: Lease, t: seq<Event>, w: Watch, e: Event)
    requires WasGiven(t, w) && Allowed(run, w, e.call) && (w.claim.Some? ==> w.claims > 0)
    ensures WasGiven(t + [e], Observe(run, w, e))
  {
    hide Observe, Allowed, GivenBy, Gives, GivenAfter;
    AllowedAcquisition(run, w, e);
    StepsAppend(run, w, e);
    var v := Observe(run, w, e);
    forall k | k in v.given ensures GivenBy(t + [e], v.claim, k, v.given[k]) {
      if k in w.given && v.given[k] == w.given[k] {
        if w.claim.None? { GivenToNone(t, v.claim, k, v.given[k]); }
      } else {
        GivenNow(w.claim, w.given, e, k);
        NotAClaim(w.given, e, k);
      }
      GivenSnoc(t, e, v.claim, k, v.given[k]);
    }
  }

  lemma NotAClaim(given: map<string, Json>, e: Event, k: string)
    requires k in GivenAfter(given, e) && !(k in given && GivenAfter(given, e)[k] == given[k])
    ensures !e.call.QueueClaim?
  {
  }

  lemma {:induction false} GivenShown(run: Lease, t: seq<Event>)
    requires Lawful(run, t)
    ensures WasGiven(t, Watching(run, t))
  {
    hide Watching, Observe, Lawful, Allowed, WasGiven;
    if t == [] {
      NothingYet(run);
      assert WasGiven([], START) by { NothingGiven(); }
    } else {
      var front, e := t[..|t| - 1], t[|t| - 1];
      assert t == front + [e];
      LawfulFront(run, t);
      GivenShown(run, front);
      ValidationShown(run, front);
      GivenStep(run, front, Watching(run, front), e);
    }
  }

  lemma NothingGiven()
    ensures WasGiven([], START)
  {
  }

  lemma ViewShows(claim: Claim)
    ensures ShowsClaim(ClaimView(claim), claim)
  {
  }

  lemma AssembledIs(run: Lease, t: seq<Event>, w: Watch, input: map<string, Json>)
    requires WasGiven(t, w) && w.given.Keys == GivenKeys(run) && input == Assembled(run, w.claim, w.given, Dropped(run))
    ensures InputIs(run, t, w.claim, input)
  {
    hide GivenBy, ClaimView, ShowsClaim, Legacy, GivenKeys;
    if w.claim.Some? { ViewShows(w.claim.value); }
    assert forall k :: k in w.given <==> k in GivenKeys(run);
    QueueIsNotGiven(run);
  }

  lemma QueueIsNotGiven(run: Lease)
    ensures QUEUE_KEY !in GivenKeys(run)
  {
  }

  predicate Asks(run: Lease, e: Event, claim: Option<Claim>, ms: seq<map<string, Json>>)
  {
    ReadsOutput(run, e) && ms == Wanted(AcceptedOutput(run.lib, e.reply.value).value, claim)
  }

  lemma {:induction false} WantedShown(run: Lease, t: seq<Event>)
    requires Lawful(run, t) && Watching(run, t).wanted.Some?
    ensures exists j :: 0 <= j < |t| && Asks(run, t[j], Watching(run, t).claim, Watching(run, t).wanted.value.mutations)
  {
    hide Allowed, Lawful, AcceptedOutput, ClaimOf, Wanted, Fails, Stray, Refuses;
    var n := |t| - 1;
    LawfulFront(run, t);
    var w := Watching(run, t[..n]);
    AllowedAfterExit(run, w, t[n]);
    if t[n].call.ReadKvOutput? {
      assert Asks(run, t[n], w.claim, Watching(run, t).wanted.value.mutations);
    } else {
      WantedShown(run, t[..n]);
      WritesAfterExit(run, t[..n]);
      var j :| 0 <= j < n && Asks(run, t[..n][j], w.claim, w.wanted.value.mutations);
      assert t[j] == t[..n][j];
    }
  }

  lemma StoredLater(t: seq<Event>, at: seq<nat>, ms: seq<map<string, Json>>, e: Event)
    requires StoredAt(t, at, ms)
    ensures StoredAt(t + [e], at, ms)
    ensures !e.call.KvMutate? && Covers(t, at) ==> Covers(t + [e], at)
    ensures e.call.KvMutate? && e.reply.Returned? ==> StoredAt(t + [e], at + [|t|], ms + [e.call.mutation])
    ensures e.call.KvMutate? && e.reply.Returned? && Covers(t, at) ==> Covers(t + [e], at + [|t|])
  {
  }

  /** The acknowledged mutations, and where; if none was refused, there are no others. */
  lemma {:induction false} StoredShown(run: Lease, t: seq<Event>) returns (at: seq<nat>)
    ensures StoredAt(t, at, Watching(run, t).stored)
    ensures |at| <= Watching(run, t).mutations
    ensures Watching(run, t).mutations == |at| ==> Covers(t, at)
  {
    at := [];
    if t != [] {
      hide StoredAt, Covers, ClaimOf, WantedOf, Fails, Stray, Refuses;
      var n := |t| - 1;
      var front, e := t[..n], t[n];
      assert t == front + [e];
      at := StoredShown(run, front);
      StoredLater(front, at, Watching(run, front).stored, e);
      if e.call.KvMutate? && e.reply.Returned? { at := at + [n]; }
    }
  }

  // ---- the theorems ----

  lemma AllowedHandled(run: Lease, w: Watch, c: Call)
    requires Allowed(run, w, c) && c.QueueComplete?
    ensures w.queueCompletions == 0 && w.claim == Some(c.claim)
    ensures c.handled ==> w.exit == Some(Num(0)) && AllStored(run, w) && (run.dataset ==> w.append.Stored?)
  {
    hide AllStored, Fails, Stray, Refuses, ClaimOf, WantedOf;
  }

  /** In a lawful trace HANDLED and SUCCEEDED are earned. */
  lemma LawfulEarned(run: Lease, t: seq<Event>)
    requires Lawful(run, t)
    ensures HandledIsEarned(run, t) && SuccessIsEarned(run, t)
  {
    hide Earned, Allowed, Watching, Fails, Stray, Refuses, ClaimOf, WantedOf;
    forall i | 0 <= i < |t| && SendsHandled(t[i]) ensures Earned(run, t[..i], Some(t[i].call.claim)) {
      LawfulPrefix(run, t, i);
      AllowedHandled(run, Watching(run, t[..i]), t[i].call);
      EarnedHere(run, t[..i]);
    }
    forall i | 0 <= i < |t| && SendsSucceeded(t[i])
      ensures (exists j :: 0 <= j < i && NoAgentNeeded(t[j])) || Earned(run, t[..i], Watching(run, t[..i]).claim)
    {
      LawfulPrefix(run, t, i);
      var w := Watching(run, t[..i]);
      AllowedCompletion(run, w, t[i].call);
      if w.idle || w.browsed {
        NoAgentShown(run, t[..i]);
        var j :| 0 <= j < i && NoAgentNeeded(t[..i][j]);
        assert t[j] == t[..i][j];
      } else {
        EarnedHere(run, t[..i]);
      }
    }
  }

  lemma LawfulPrefix(run: Lease, t: seq<Event>, i: nat)
    requires Lawful(run, t) && i < |t|
    ensures Lawful(run, t[..i]) && Allowed(run, Watching(run, t[..i]), t[i].call)
  {
    hide Allowed, Watching, Fails, Stray, Refuses, ClaimOf, WantedOf;
    assert forall j :: 0 <= j < i ==> t[..i][..j] == t[..j];
  }

  lemma EarnedHere(run: Lease, t: seq<Event>)
    requires Lawful(run, t)
    requires var w := Watching(run, t);
             w.exit == Some(Num(0)) && AllStored(run, w) && (run.dataset ==> w.append.Stored?)
    ensures Earned(run, t, Watching(run, t).claim)
  {
    hide Lawful, Allowed, Watching, ClaimedBy, Exited, AppendsOutput, StoredAt, Wanted, AsWanted, AcceptedOutput;
    if Watching(run, t).claim.Some? { ClaimShown(run, t); }
    ExitShown(run, t);
    if run.dataset { AppendShown(run, t); }
    if run.kv {
      WantedShown(run, t);
      var at := StoredShown(run, t);
      StoredLength(t, at, Watching(run, t).stored);
      assert ExactlyStored(t, Watching(run, t).stored);
      var claim, ms := Watching(run, t).claim, Watching(run, t).stored;
      var j :| 0 <= j < |t| && Asks(run, t[j], claim, ms);
      WantedAsWanted(AcceptedOutput(run.lib, t[j].reply.value).value, claim);
      assert StoredAll(run, t, t[j], claim);
    }
  }

  lemma WantedAsWanted(o: Output, claim: Option<Claim>)
    requires |o.mutations| <= 4
    ensures AsWanted(o, claim, Wanted(o, claim))
  {
    var ms := Wanted(o, claim);
    forall i | 0 <= i < |ms| && claim.Some?
      ensures "idempotency_key" in ms[i]
      ensures ms[i]["idempotency_key"] == Str("queue:" + claim.value.requestId + ":kv:" + ["0", "1", "2", "3"][i % 4])
      ensures ms[i] - {"idempotency_key"} == o.mutations[i] - {"idempotency_key"}
    {
      assert ms[i] == Persisted(o.mutations[i], claim.value.requestId, i);
      assert [Digit(i)] == ["0", "1", "2", "3"][i];
    }
  }

  lemma StoredLength(t: seq<Event>, at: seq<nat>, ms: seq<map<string, Json>>)
    requires StoredAt(t, at, ms)
    ensures |at| == |ms|
  {
  }

  lemma AllowedPreparation(run: Lease, w: Watch, c: Call)
    requires Allowed(run, w, c)
    ensures IsClient(c) && !c.Complete? ==> w.activated
    ensures c.RunAgent? ==>
              && w.activated && w.loaded && w.running && FitForAgent(run)
              && w.given.Keys == GivenKeys(run) && c.input == Assembled(run, w.claim, w.given, Dropped(run))
    ensures c.RunAgent? && run.queue ==> w.claim.Some?
  {
    hide AllStored, Assembled, GivenKeys, Dropped, FitForAgent;
  }

  lemma BeforeInPrefix(t: seq<Event>, i: nat, c: Call)
    requires i <= |t| && DidBefore(t[..i], i, c)
    ensures DidBefore(t, i, c)
  {
    var j :| 0 <= j < i && Did(t[..i][j], c);
    assert t[j] == t[..i][j];
  }

  /** In a lawful trace nothing happens before its preparation. */
  lemma LawfulPreparation(run: Lease, t: seq<Event>)
    requires Lawful(run, t)
    ensures AgentIsPrepared(run, t) && NothingBeforeActivation(t)
  {
    hide Allowed, Watching, InputIs, FitForAgent, Assembled, GivenKeys, Dropped, WasGiven, DidBefore, IsClient;
    forall i | 0 <= i < |t| && ((IsClient(t[i].call) && !t[i].call.Complete?) || t[i].call.RunAgent?)
      ensures DidBefore(t, i, CheckActivation)
      ensures t[i].call.RunAgent? ==>
                && FitForAgent(run) && DidBefore(t, i, LoadImage) && DidBefore(t, i, SetRunning)
                && (run.queue ==> Watching(run, t[..i]).claim.Some?)
                && InputIs(run, t[..i], Watching(run, t[..i]).claim, t[i].call.input)
    {
      LawfulPrefix(run, t, i);
      AllowedPreparation(run, Watching(run, t[..i]), t[i].call);
      PreparationShown(run, t[..i]);
      BeforeInPrefix(t, i, CheckActivation);
      if t[i].call.RunAgent? {
        BeforeInPrefix(t, i, LoadImage);
        BeforeInPrefix(t, i, SetRunning);
        GivenShown(run, t[..i]);
        AssembledIs(run, t[..i], Watching(run, t[..i]), t[i].call.input);
      }
    }
  }

  lemma LawfulQueue(run: Lease, t: seq<Event>)
    requires Lawful(run, t)
    ensures OneQueueCompletion(t) && SuccessIsHandled(t)
  {
    hide Allowed, Watching, Fails, Stray, Refuses, ClaimOf, WantedOf;
    forall i, j | 0 <= i < j < |t| && t[i].call.QueueComplete? ensures !t[j].call.QueueComplete? {
      if t[j].call.QueueComplete? {
        LawfulPrefix(run, t, j);
        QueueCompletionShown(run, t[..j], i);
        AllowedHandled(run, Watching(run, t[..j]), t[j].call);
      }
    }
    forall i, c | 0 <= c < i < |t| && Holds(t[c]) && SendsSucceeded(t[i])
      ensures exists h :: 0 <= h < i && SendsHandled(t[h]) && t[h].reply.Returned?
    {
      LawfulPrefix(run, t, i);
      HeldShown(run, t[..i], c);
      AllowedCompletion(run, Watching(run, t[..i]), t[i].call);
      HandledShown(run, t[..i]);
      var h :| 0 <= h < i && SendsHandled(t[..i][h]) && t[..i][h].reply.Returned?;
      assert t[h] == t[..i][h];
    }
  }

  // ---- when a held request gets its completion ----

  lemma StraySnoc(t: seq<Event>, e: Event)
    ensures WentAstray(t + [e]) <==> WentAstray(t) || Stray(e)
  {
    hide Stray, Refuses;
    var u := t + [e];
    assert u[|t|] == e && forall i :: 0 <= i < |t| ==> u[i] == t[i];
  }

  lemma {:induction false} StrayShown(run: Lease, t: seq<Event>)
    ensures Watching(run, t).stray <==> WentAstray(t)
  {
    if t != [] {
      hide Observe, Stray, Refuses, WentAstray;
      var front, e := t[..|t| - 1], t[|t| - 1];
      assert t == front + [e];
      StrayShown(run, front);
      StepsFate(run, Watching(run, front), e);
      StraySnoc(front, e);
    }
  }

  lemma RefusalSnoc(t: seq<Event>, e: Event)
    ensures WasRefused(t + [e]) <==> WasRefused(t) || Refuses(e)
  {
    hide Stray, Refuses;
    var u := t + [e];
    assert u[|t|] == e && forall i :: 0 <= i < |t| ==> u[i] == t[i];
  }

  lemma {:induction false} RefusalShown(run: Lease, t: seq<Event>)
    ensures Watching(run, t).refused <==> WasRefused(t)
  {
    if t != [] {
      hide Observe, Stray, Refuses, WasRefused;
      var front, e := t[..|t| - 1], t[|t| - 1];
      assert t == front + [e];
      RefusalShown(run, front);
      StepsFate(run, Watching(run, front), e);
      RefusalSnoc(front, e);
    }
  }

  lemma AttemptSnoc(t: seq<Event>, e: Event)
    ensures CompletionAttempted(t + [e]) <==> CompletionAttempted(t) || e.call.QueueComplete?
  {
    hide Stray, Refuses;
    var u := t + [e];
    assert u[|t|] == e && forall i :: 0 <= i < |t| ==> u[i] == t[i];
  }

  lemma {:induction false} AttemptShown(run: Lease, t: seq<Event>)
    ensures Watching(run, t).queueCompletions > 0 <==> CompletionAttempted(t)
  {
    if t != [] {
      hide Observe, Stray, Refuses, CompletionAttempted;
      var front, e := t[..|t| - 1], t[|t| - 1];
      assert t == front + [e];
      AttemptShown(run, front);
      StepsAttempt(run, Watching(run, front), e);
      AttemptSnoc(front, e);
    }
  }

  lemma ClaimStep(run: Lease, w: Watch, e: Event)
    requires Allowed(run, w, e.call) && (w.claim.Some? ==> w.claims > 0)
    ensures var v := Observe(run, w, e);
            && (v.claim.Some? <==> w.claim.Some? || Validates(run, e))
            && (v.claim.Some? ==> v.claims > 0)
  {
    hide Observe, AllStored, Assembled, ClaimOf;
    StepsClaim(run, w, e);
  }

  lemma ValidatedSnoc(run: Lease, t: seq<Event>, e: Event)
    ensures ClaimValidated(run, t + [e]) <==> ClaimValidated(run, t) || Validates(run, e)
  {
    hide Validates;
    var u := t + [e];
    assert u[|t|] == e && forall i :: 0 <= i < |t| ==> u[i] == t[i];
  }

  /** There is one claim, and the watch keeps what became of it. */
  lemma {:induction false} ValidationShown(run: Lease, t: seq<Event>)
    requires Lawful(run, t)
    ensures Watching(run, t).claim.Some? <==> ClaimValidated(run, t)
    ensures Watching(run, t).claim.Some? ==> Watching(run, t).claims > 0
  {
    hide Watching, Observe, Lawful, Allowed, ClaimValidated, Validates;
    if t == [] {
      NothingYet(run);
      assert !ClaimValidated(run, t) by { NoneValidated(run); }
    } else {
      var front, e := t[..|t| - 1], t[|t| - 1];
      assert t == front + [e];
      LawfulFront(run, t);
      ValidationShown(run, front);
      ClaimStep(run, Watching(run, front), e);
      ValidatedSnoc(run, front, e);
    }
  }

  lemma NoneValidated(run: Lease)
    ensures !ClaimValidated(run, [])
  {
  }

  lemma {:induction false} CompletionNeedsClaim(run: Lease, t: seq<Event>)
    requires Lawful(run, t) && Watching(run, t).queueCompletions > 0
    ensures ClaimValidated(run, t)
  {
    hide Stray, Refuses, Fails, ClaimOf, WantedOf, Allowed, Lawful, ClaimValidated;
    AttemptShown(run, t);
    var i :| 0 <= i < |t| && t[i].call.QueueComplete?;
    LawfulPrefix(run, t, i);
    AllowedHandled(run, Watching(run, t[..i]), t[i].call);
    ValidationShown(run, t[..i]);
    ValidatedLater(run, t, i);
  }

  lemma ValidatedLater(run: Lease, t: seq<Event>, i: nat)
    requires i <= |t| && ClaimValidated(run, t[..i])
    ensures ClaimValidated(run, t)
  {
    hide Validates;
    var j :| 0 <= j < i && Validates(run, t[..i][j]);
    assert t[j] == t[..i][j];
  }

  /** The watch of a whole run, told on its trace. */
  lemma ServedShown(run: Lease, t: seq<Event>)
    requires Lawful(run, t) && Served(run, Watching(run, t))
    ensures CompletionIsExact(run, t)
  {
    hide Lawful, Watching, Serviceable, WentAstray, WasRefused, CompletionAttempted, ClaimValidated;
    StrayShown(run, t);
    RefusalShown(run, t);
    AttemptShown(run, t);
    ValidationShown(run, t);
    if Watching(run, t).queueCompletions > 0 { CompletionNeedsClaim(run, t); }
  }
}
