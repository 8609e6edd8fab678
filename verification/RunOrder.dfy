/**
 The order of the calls of `_run` of `worker.py`, told backwards: for each call, the call it comes directly after, and
 for each failure, the code it is reported under.
 */
module RunOrder {
  import opened Utf8
  import opened Json
  import opened Egress
  import opened KeyValue
  import opened QueueHttp
  import opened RunTrace

  predicate NeedsData(c: Call)
  {
    c.GetWorker? || c.ArtifactDownload? || c.ArtifactUpload? || c.KvRead?
  }

  predicate Refused(c: Call, r: Reply)
  {
    r.Raised? || (NeedsData(c) && Data(r.value).None?)
  }

  function Last(t: seq<Event>): Event
    requires t != []
  {
    t[|t| - 1]
  }

  /** This call came last, and was answered. */
  predicate After(t: seq<Event>, c: Call)
  {
    t != [] && Last(t).call == c && !Refused(c, Last(t).reply)
  }

  // ---- where each stage ends ----

  /** The credential of the egress policy is possible, and bound. */
  predicate CredentialFits(run: Lease)
  {
    && !run.profile.ControlledBrowser? && !run.queueBrowser
    && (run.profile.BrokeredWebEgress? || run.queueHttp)
    && run.bindingDigest
  }

  predicate EndPrepare(run: Lease, t: seq<Event>)
  {
    if run.credential then CredentialFits(run) && After(t, DecryptCredential) else After(t, CheckActivation)
  }

  predicate EndClaim(run: Lease, t: seq<Event>)
  {
    if run.queue then
      && t != [] && Last(t).call.QueueClaim? && Last(t).reply.Returned?
      && Watching(run, t).claim.Some? && !ReservesQueueKeys(run.input)
    else !run.queueHttp && !run.queueBrowser && After(t, LoadImage)
  }

  predicate EndBrowse(run: Lease, t: seq<Event>)
  {
    if run.queue && run.queueBrowser then t != [] && Last(t).call.AcquireByBrowser? && Last(t).reply.Returned?
    else EndClaim(run, t)
  }

  predicate EndAcquire(run: Lease, t: seq<Event>)
  {
    if run.queue && run.queueHttp then t != [] && Last(t).call.AcquireByHttp? && Last(t).reply.Returned?
    else EndBrowse(run, t)
  }

  predicate EndRead(run: Lease, t: seq<Event>)
  {
    && !KvReserved(run)
    && if KvAsked(run) then t != [] && Last(t).call.CheckReadResult? && Last(t).reply.Returned? else EndAcquire(run, t)
  }

  predicate EndWeb(run: Lease, t: seq<Event>)
  {
    && !WebFault(run)
    && if WebFetched(run) then After(t, FetchWeb)
       else if Legacy(run) then t != [] && Last(t).call.FetchLegacy? && Last(t).reply.Returned?
       else EndRead(run, t)
  }

  predicate EndSecrets(run: Lease, t: seq<Event>)
  {
    if run.secrets then After(t, DecryptSecrets) else EndWeb(run, t)
  }

  predicate EndAgent(t: seq<Event>)
  {
    t != [] && Last(t).call.RunAgent? && Last(t).reply.Returned?
  }

  predicate ExitsZero(run: Lease, t: seq<Event>)
  {
    Watching(run, t).exit == Some(Num(0))
  }

  /** Between two writes of an accepted output. */
  predicate Storing(run: Lease, t: seq<Event>)
  {
    && t != [] && (Last(t).call.ReadKvOutput? || Last(t).call.KvMutate?) && Last(t).reply.Returned?
    && Watching(run, t).wanted.Some?
  }

  predicate EndKv(run: Lease, t: seq<Event>)
  {
    if run.kv && ExitsZero(run, t) then t != [] && Last(t).call.WriteResult? && Last(t).reply.Returned? else EndAgent(t)
  }

  predicate EndDataset(run: Lease, t: seq<Event>)
  {
    if run.dataset && ExitsZero(run, t) then t != [] && Last(t).call.DatasetAppend? && Last(t).reply.Returned?
    else EndKv(run, t)
  }

  predicate EndRequest(run: Lease, t: seq<Event>)
  {
    if Watching(run, t).claim.Some? then
      && t != [] && Last(t).call.QueueComplete? && Last(t).reply.Returned?
      && Watching(run, t).exit.Some? && Last(t).call.handled == ExitsZero(run, t)
    else EndDataset(run, t)
  }

  /** The artifacts found and not yet uploaded. */
  function Pending(t: seq<Event>): int
  {
    if t == [] then 0
    else
      var e, before := Last(t), t[..|t| - 1];
      if e.call.CollectOutput? then (if e.reply == Returned(Bool(true)) then 1 else 0)
      else if e.call.CollectBrowserArtifacts? then 2
      else if e.call.CollectLog? then Pending(before) + (if e.reply == Returned(Bool(true)) then 1 else 0)
      else if e.call.ArtifactUpload? then Pending(before)
      else if e.call.UploadFile? then Pending(before) - (if e.reply.Returned? then 1 else 0)
      else 0
  }

  /** Where an artifact, or nothing more, is to be uploaded. */
  predicate BetweenUploads(t: seq<Event>)
  {
    After(t, CollectLog) || After(t, CollectBrowserArtifacts) || After(t, UploadFile)
  }

  predicate EndUploads(t: seq<Event>)
  {
    BetweenUploads(t) && Pending(t) == 0
  }

  // ---- codes ----

  const RUN_FAILED: string := "SANDBOX_RUN_FAILED"

  predicate ClaimFails(e: Exception)
  {
    e.QueueBoundaryError? || e.WorkerProtocolError?
  }

  /** The code of the handler that catches this exception of this call; that of the catch-all if none does. */
  function RaisedCode(run: Lease, idle: bool, c: Call, e: Exception): string
  {
    match c
    case SetRunning =>
      if IsBrowserRun(run) && (e.BrowserRuntimeError? || e.SandboxPolicyError?) then "BROWSER_RUNTIME_FAILED"
        else RUN_FAILED
    case RunBrowser => if e.BrowserRuntimeError? || e.SandboxPolicyError? then "BROWSER_RUNTIME_FAILED" else RUN_FAILED
    case QueueClaim(_) => if ClaimFails(e) then "REQUEST_QUEUE_CLAIM_FAILED" else RUN_FAILED
    case Complete(outcome, _) =>
      if outcome.Succeeded? && idle && ClaimFails(e) then "REQUEST_QUEUE_CLAIM_FAILED" else RUN_FAILED
    case AcquireByBrowser(_) => if BrowserAcquisitionFails(e) then "QUEUE_BROWSER_NAVIGATION_FAILED" else RUN_FAILED
    case AcquireByHttp(_) => if HttpAcquisitionFails(e) then "QUEUE_HTTP_FETCH_FAILED" else RUN_FAILED
    case CheckReadRequest(_) => if KvReadFails(e) then "KV_READ_FAILED" else RUN_FAILED
    case KvRead(_) => if KvReadFails(e) then "KV_READ_FAILED" else RUN_FAILED
    case CheckReadResult(_) => if KvReadFails(e) then "KV_READ_FAILED" else RUN_FAILED
    case FetchWeb =>
      if e.WebFetchContractError? then "WEB_FETCH_CONTRACT_INVALID"
      else if e.EgressPolicyError? then "WEB_FETCH_POLICY_DENIED"
      else RUN_FAILED
    case ReadKvOutput => if KvWriteFails(e) then "KV_MUTATION_FAILED" else RUN_FAILED
    case KvMutate(_) => if KvWriteFails(e) then "KV_MUTATION_FAILED" else RUN_FAILED
    case WriteResult(_) => if KvWriteFails(e) then "KV_MUTATION_FAILED" else RUN_FAILED
    case ReadDatasetOutput => if DatasetWriteFails(e) then "DATASET_APPEND_FAILED" else RUN_FAILED
    case DatasetAppend(_) => if DatasetWriteFails(e) then "DATASET_APPEND_FAILED" else RUN_FAILED
    case QueueComplete(_, _, _) => if e.WorkerProtocolError? then "REQUEST_QUEUE_COMPLETION_FAILED" else RUN_FAILED
    case _ => RUN_FAILED
  }

  /** The code for what was returned: a claim, an output or a request that is not valid, a reserved key of the input, or
      another exit code than 0. A completion of the request repeats its own. */
  function ReturnedCode(run: Lease, t: seq<Event>): string
    requires t != []
  {
    var c, value := Last(t).call, if Last(t).reply.Returned? then Last(t).reply.value else Null;
    var w := Watching(run, t);
    if c.QueueComplete? then c.failureCode
    else if c.QueueClaim? && Data(value).Some? && (w.claim.None? || ReservesQueueKeys(run.input)) then
      "REQUEST_QUEUE_CLAIM_FAILED"
    else if c.ReadKvOutput? && w.wanted.None? then "KV_MUTATION_FAILED"
    else if c.ReadDatasetOutput? && !w.append.Fit? then "DATASET_APPEND_FAILED"
    else if KvReserved(run) && EndAcquire(run, t) then "KV_READ_FAILED"
    else if EndUploads(t) && w.exit.Some? && !ExitsZero(run, t) then "AGENT_EXIT_NONZERO"
    else RUN_FAILED
  }

  /** The code a failure met at this point is reported under. */
  function FailureCode(run: Lease, t: seq<Event>): string
  {
    if t == [] then (if run.authorized then RUN_FAILED else "SANDBOX_POLICY_DENIED")
    else if Last(t).reply.Raised? then RaisedCode(run, Watching(run, t).idle, Last(t).call, Last(t).reply.error)
    else ReturnedCode(run, t)
  }

  // ---- what comes directly before each call ----

  predicate Follows(run: Lease, t: seq<Event>, c: Call)
  {
    match c
    case CancelRun => t == [] && run.cancel
    case MakeWorkspace => t == [] && !run.cancel && run.authorized
    case CheckActivation => After(t, MakeWorkspace)
    case CredentialEnvelope => run.credential && CredentialFits(run) && After(t, CheckActivation)
    case GetWorker => After(t, CredentialEnvelope) || After(t, SecretEnvelope)
    case DecryptCredential => After(t, GetWorker) && !Watching(run, t).loaded
    case ArtifactDownload => !IsBrowserRun(run) && EndPrepare(run, t)
    case LoadImage => After(t, ArtifactDownload)
    case QueueClaim(_) => run.queue && After(t, LoadImage)
    case AcquireByBrowser(_) => run.queue && run.queueBrowser && run.egressPolicy && run.browserPolicy
      && EndClaim(run, t)
    case AcquireByHttp(_) => run.queue && run.queueHttp && run.egressPolicy && EndBrowse(run, t)
    case CheckReadRequest(request) =>
      KvAsked(run) && !KvReserved(run) && request == run.input[READ_KEY] && EndAcquire(run, t)
    case KvRead(request) => t != [] && Last(t).call.CheckReadRequest? && Last(t).reply == Returned(request)
    case CheckReadResult(data) =>
      t != [] && Last(t).call.KvRead? && Last(t).reply.Returned? && Data(Last(t).reply.value) == Some(data)
    case FetchWeb => WebFetched(run) && !WebFault(run) && EndRead(run, t)
    case FetchLegacy(_) => Legacy(run) && !WebFault(run) && EndRead(run, t)
    case SecretEnvelope => run.secrets && EndWeb(run, t)
    case DecryptSecrets => After(t, GetWorker) && Watching(run, t).loaded
    case SetRunning => if IsBrowserRun(run) then run.inputReference && EndPrepare(run, t) else EndSecrets(run, t)
    case RunBrowser => IsBrowserRun(run) && After(t, SetRunning)
    case CollectBrowserArtifacts => After(t, RunBrowser)
    case RunAgent(_) => !IsBrowserRun(run) && After(t, SetRunning)
    case ReadKvOutput => run.kv && ExitsZero(run, t) && EndAgent(t)
    case KvMutate(_) => Storing(run, t)
    case WriteResult(result) =>
      && Storing(run, t) && result == Watching(run, t).wanted.value.result
      && Watching(run, t).stored == Watching(run, t).wanted.value.mutations
    case ReadDatasetOutput => run.dataset && ExitsZero(run, t) && EndKv(run, t)
    case DatasetAppend(_) => t != [] && Last(t).call.ReadDatasetOutput? && Last(t).reply.Returned?
    case QueueComplete(_, handled, code) =>
      if EndDataset(run, t) then handled == ExitsZero(run, t) && code == "AGENT_EXIT_NONZERO"
      else !handled && code == FailureCode(run, t) && code != RUN_FAILED
    case CollectOutput => EndRequest(run, t)
    case CollectLog => After(t, CollectOutput)
    case ArtifactUpload => BetweenUploads(t) && Pending(t) > 0
    case UploadFile => After(t, ArtifactUpload)
    case Complete(outcome, code) =>
      match outcome
      case Aborted => After(t, CancelRun) && code == ""
      case Succeeded =>
        && code == ""
        && (|| (t != [] && Last(t).call.QueueClaim? && Last(t).reply == Returned(Null))
            || (EndUploads(t) && (Watching(run, t).exit.Some? ==> ExitsZero(run, t))))
      case Failed => code == FailureCode(run, t)
  }

  /** Every call comes directly after the one it must. */
  predicate Ordered(run: Lease, t: seq<Event>)
  {
    forall i :: 0 <= i < |t| ==> Follows(run, t[..i], t[i].call)
  }

  lemma OrderedSnoc(run: Lease, t: seq<Event>, e: Event)
    requires Ordered(run, t) && Follows(run, t, e.call)
    ensures Ordered(run, t + [e])
  {
    hide Follows;
    var u := t + [e];
    forall i | 0 <= i < |u| ensures Follows(run, u[..i], u[i].call) {
      assert u[..i] == t[..i];
      if i == |t| { assert t[..i] == t; } else { assert u[i] == t[i]; }
    }
  }

  // ---- what the order says ----

  /** After a call that raised, or whose answer lacked its data, nothing is called but a completion that reports it. */
  predicate FailureStops(t: seq<Event>)
  {
    forall i :: 0 <= i && i + 1 < |t| && Refused(t[i].call, t[i].reply) ==>
      || (t[i + 1].call.QueueComplete? && !t[i + 1].call.handled)
      || (t[i + 1].call.Complete? && t[i + 1].call.outcome == Failed)
  }

  lemma StopsAfter(run: Lease, t: seq<Event>, c: Call)
    requires t != [] && Refused(Last(t).call, Last(t).reply) && Follows(run, t, c)
    ensures (c.QueueComplete? && !c.handled) || (c.Complete? && c.outcome == Failed)
  {
    hide Watching, FailureCode, Pending;
  }

  /** Every completion that fails reports the code of the failure before it, the request's as the lease's. */
  predicate CodesAreRight(run: Lease, t: seq<Event>)
  {
    forall i :: 0 <= i < |t| ==>
      && (t[i].call.Complete? && t[i].call.outcome == Failed ==> t[i].call.errorCode == FailureCode(run, t[..i]))
      && (t[i].call.QueueComplete? && !EndDataset(run, t[..i]) ==> t[i].call.failureCode == FailureCode(run, t[..i]))
  }

  lemma OrderTold(run: Lease, t: seq<Event>)
    requires Ordered(run, t)
    ensures FailureStops(t) && CodesAreRight(run, t)
  {
    hide FailureCode, Watching, EndDataset;
    forall i | 0 <= i && i + 1 < |t| && Refused(t[i].call, t[i].reply)
      ensures (t[i + 1].call.QueueComplete? && !t[i + 1].call.handled)
              || (t[i + 1].call.Complete? && t[i + 1].call.outcome == Failed)
    {
      assert Last(t[..i + 1]) == t[i];
      assert Follows(run, t[..i + 1], t[i + 1].call);
      StopsAfter(run, t[..i + 1], t[i + 1].call);
    }
    forall i | 0 <= i < |t|
      ensures t[i].call.Complete? && t[i].call.outcome == Failed ==> t[i].call.errorCode == FailureCode(run, t[..i])
      ensures t[i].call.QueueComplete? && !EndDataset(run, t[..i]) ==> t[i].call.failureCode == FailureCode(run, t[..i])
    {
      assert Follows(run, t[..i], t[i].call);
    }
  }
}
