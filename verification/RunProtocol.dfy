/** `_run` of `worker.py`: one lease, with every client call and every local step free to return or to raise. */
module RunProtocol {
  import opened Utf8
  import opened Json
  import opened Egress
  import opened KeyValue
  import opened QueueHttp
  import opened RunTrace
  import opened RunOrder
  import opened RunCalls
  import Dataset

  // ---- stages ----

  /** After a stretch that does not simply go on: either the lease is completed, or nothing is acknowledged yet; and a
      validated request got its completion exactly if it could. */
  predicate Settled(run: Lease, env: Env, flow: Flow, u: seq<Event>)
  {
    && Kept(run, env, u)
    && (!flow.Next? ==> Served(run, Watching(run, u)))
    && match flow
       case Next => true
       case Done(word) =>
         && Watching(run, u).acked == Some(word) && !word.Aborted?
         && (word.Failed? ==> Misfit(run) || Watching(run, u).bad)
       case Thrown(_) =>
         && Watching(run, u).acked.None? && Watching(run, u).completions <= 2
         && (Misfit(run) || Watching(run, u).bad)
         && FailureCode(run, u) == RUN_FAILED
  }

  /** No completion and no write yet; a held claim is a validated one. */
  predicate Holding(run: Lease, env: Env, t: seq<Event>, claim: Option<Claim>, exit: Option<Json>)
  {
    && Kept(run, env, t)
    && var w := Watching(run, t);
    && (w.held ==> claim.Some?)
    && w == LOADED.(claims := w.claims, held := w.held, claim := claim, given := w.given, exit := exit,
                    running := w.running, bad := w.bad)
    && (exit.Some? && exit.value != Num(0) ==> w.bad)
  }

  /** After the writes: nothing completed, and all writes acknowledged if the Agent succeeded. */
  predicate Written(run: Lease, env: Env, t: seq<Event>, claim: Option<Claim>, exit: Json, kv: bool, dataset: bool)
  {
    && Kept(run, env, t)
    && var w := Watching(run, t);
    && (w.held ==> claim.Some?)
    && w.claim == claim && w.exit == Some(exit) && w.activated
    && w.queueCompletions == 0 && !w.handled && w.completions == 0 && w.acked.None? && !w.idle
    && (exit != Num(0) ==> w.bad)
    && (kv && exit == Num(0) ==> AllStored(run, w))
    && (!dataset ==> w.append.Unread?)
    && (dataset && exit == Num(0) && run.dataset ==> w.append.Stored?)
  }

  lemma NextSettles(run: Lease, env: Env, u: seq<Event>)
    requires Kept(run, env, u)
    ensures Settled(run, env, Next, u)
  {
    hide Kept, Watching;
  }

  lemma SettledKept(run: Lease, env: Env, u: seq<Event>)
    requires Settled(run, env, Next, u)
    ensures Kept(run, env, u)
  {
    hide Kept, Watching;
  }

  lemma StraySettles(run: Lease, env: Env, u: seq<Event>, error: Exception)
    requires Kept(run, env, u)
    requires var v := Watching(run, u);
             v.stray && v.bad && v.acked.None? && v.completions <= 2 && v.queueCompletions == 0
    requires FailureCode(run, u) == RUN_FAILED
    ensures Settled(run, env, Thrown(error), u)
  {
    hide Watching, Kept, AcquisitionFault, WebFault, Misfit, FailureCode;
  }

  predicate Completable(run: Lease, t: seq<Event>, claim: Option<Claim>)
  {
    claim.Some? ==> Serviceable(run, Watching(run, t).stray, Watching(run, t).refused)
  }

  /** The calls whose exceptions nothing catches. */
  predicate EndsRaising(t: seq<Event>, error: Exception)
  {
    && t != []
    && var last := t[|t| - 1];
    && last.reply == Raised(error) && (last.call.Complete? || last.call.CancelRun? || last.call.MakeWorkspace?)
  }

  /** `client.complete`, then `return`. */
  method Finish(run: Lease, env: Env, t: seq<Event>, word: Word, code: string) returns (flow: Flow, u: seq<Event>)
    requires Kept(run, env, t) && Allowed(run, Watching(run, t), Complete(word, code))
    requires Follows(run, t, Complete(word, code))
    ensures !flow.Next? && Kept(run, env, u)
    ensures flow.Done? ==> flow.word == word
    ensures var w, v := Watching(run, t), Watching(run, u);
            && v.completions == w.completions + 1
            && v.acked == (if flow.Done? then Some(word) else w.acked)
            && v.bad == (w.bad || flow.Thrown?)
            && v.queueCompletions == w.queueCompletions && v.idle == w.idle
            && v.claim == w.claim && v.stray == w.stray && v.refused == w.refused
    ensures flow.Thrown? ==> EndsRaising(u, flow.error)
    ensures flow.Thrown? ==>
              FailureCode(run, u) ==
              if word.Succeeded? && Watching(run, t).idle && ClaimFails(flow.error) then "REQUEST_QUEUE_CLAIM_FAILED"
              else RUN_FAILED
  {
    hide Watching, Kept, Follows, FailureCode;
    var r;
    r, u := Perform(run, env, t, Complete(word, code));
    if r.Raised? { RaisedLast(run, t, Complete(word, code), r.error); }
    flow := if r.Raised? then Thrown(r.error) else Done(word);
  }

  lemma FailedAllowed(run: Lease, w: Watch, code: string)
    requires w.acked.None? && w.completions < 3
    ensures Allowed(run, w, Complete(Failed, code))
  {
    hide AllStored;
  }

  /** The queue completion of a failure. */
  method FailRequest(run: Lease, env: Env, t: seq<Event>, claim: Claim, code: string) returns (r: Reply, u: seq<Event>)
    requires Kept(run, env, t)
    requires var w := Watching(run, t);
             w.claim == Some(claim) && w.queueCompletions == 0 && w.acked.None? && w.activated
    requires Follows(run, t, QueueComplete(claim, false, code))
    ensures Kept(run, env, u) && u == t + [Event(QueueComplete(claim, false, code), r)]
    ensures var w, v := Watching(run, t), Watching(run, u);
            && v.queueCompletions == 1 && v.completions == w.completions && v.acked == w.acked
            && v.bad == (w.bad || r.Raised?)
            && v.claim == w.claim && v.stray == w.stray && v.refused == w.refused
  {
    hide Watching, Kept, AllStored, Observe, Follows;
    r, u := CompleteQueue(run, env, t, claim, false, code);
  }

  /** A completion of the request that failed it repeats its code; one that raised has a code of its own. */
  lemma RequestCode(run: Lease, t: seq<Event>, claim: Claim, code: string, r: Reply)
    ensures var u := t + [Event(QueueComplete(claim, false, code), r)];
            FailureCode(run, u) ==
            if r.Returned? then code
            else if r.error.WorkerProtocolError? then "REQUEST_QUEUE_COMPLETION_FAILED"
            else RUN_FAILED
  {
    hide Watching, Pending, EndAcquire;
    assert Last(t + [Event(QueueComplete(claim, false, code), r)]) == Event(QueueComplete(claim, false, code), r);
  }

  lemma FailureFollows(run: Lease, t: seq<Event>, claim: Claim, code: string)
    ensures FailureCode(run, t) == code ==> Follows(run, t, Complete(Failed, code))
    ensures FailureCode(run, t) == code && code != RUN_FAILED && !EndDataset(run, t) ==>
              Follows(run, t, QueueComplete(claim, false, code))
  {
    hide FailureCode, EndDataset, ExitsZero, RUN_FAILED;
  }

  lemma CompleteFollows(run: Lease, t: seq<Event>)
    ensures Follows(run, t, Complete(Failed, FailureCode(run, t)))
  {
    hide FailureCode;
  }

  /** The handlers that fail the queue request first, if there is one, and then the lease. */
  method FailClosed(run: Lease, env: Env, t: seq<Event>, claim: Option<Claim>, code: string)
    returns (flow: Flow, u: seq<Event>)
    requires Kept(run, env, t)
    requires var w := Watching(run, t);
             && w.claim == claim && w.queueCompletions == 0 && w.completions == 0 && w.acked.None? && w.activated
             && (Misfit(run) || w.bad)
             && (claim.Some? ==> Serviceable(run, w.stray, w.refused))
    requires FailureCode(run, t) == code && code != RUN_FAILED && !EndDataset(run, t)
    ensures !flow.Next? && Settled(run, env, flow, u)
    ensures flow.Done? ==> flow.word.Failed? && Watching(run, u).queueCompletions == (if claim.Some? then 1 else 0)
  {
    hide Watching, Kept, Allowed, Observe, Misfit, Serviceable, Follows, FailureCode, EndDataset, ClaimFails,
      RUN_FAILED;
    u := t;
    if claim.Some? {
      var r;
      FailureFollows(run, u, claim.value, code);
      r, u := FailRequest(run, env, u, claim.value, code);
      RequestCode(run, t, claim.value, code, r);
      CompleteFollows(run, u);
      if r.Raised? && r.error.WorkerProtocolError? {
        FailedAllowed(run, Watching(run, u), "REQUEST_QUEUE_COMPLETION_FAILED");
        flow, u := Finish(run, env, u, Failed, "REQUEST_QUEUE_COMPLETION_FAILED");
        return;
      }
      if r.Raised? { return Thrown(r.error), u; }
    }
    FailedAllowed(run, Watching(run, u), code);
    CompleteFollows(run, u);
    flow, u := Finish(run, env, u, Failed, code);
  }

  // ---- calls that follow another ----

  lemma PreparationFollows(run: Lease, t: seq<Event>)
    ensures After(t, MakeWorkspace) ==> Follows(run, t, CheckActivation)
    ensures run.credential && CredentialFits(run) && After(t, CheckActivation) ==> Follows(run, t, CredentialEnvelope)
    ensures After(t, CredentialEnvelope) || After(t, SecretEnvelope) ==> Follows(run, t, GetWorker)
    ensures After(t, GetWorker) ==>
            Follows(run, t, if Watching(run, t).loaded then DecryptSecrets else DecryptCredential)
    ensures !IsBrowserRun(run) && EndPrepare(run, t) ==> Follows(run, t, ArtifactDownload)
    ensures After(t, ArtifactDownload) ==> Follows(run, t, LoadImage)
    ensures run.secrets && EndWeb(run, t) ==> Follows(run, t, SecretEnvelope)
  {
    hide After, Watching, CredentialFits, EndPrepare, EndWeb, IsBrowserRun;
  }

  lemma ArtifactFollows(run: Lease, t: seq<Event>)
    ensures IsBrowserRun(run) && run.inputReference && EndPrepare(run, t) ==> Follows(run, t, SetRunning)
    ensures IsBrowserRun(run) && After(t, SetRunning) ==> Follows(run, t, RunBrowser)
    ensures After(t, RunBrowser) ==> Follows(run, t, CollectBrowserArtifacts)
    ensures EndRequest(run, t) ==> Follows(run, t, CollectOutput)
    ensures After(t, CollectOutput) ==> Follows(run, t, CollectLog)
    ensures BetweenUploads(t) && Pending(t) > 0 ==> Follows(run, t, ArtifactUpload)
    ensures After(t, ArtifactUpload) ==> Follows(run, t, UploadFile)
    ensures EndUploads(t) && Watching(run, t).exit.None? ==> Follows(run, t, Complete(Succeeded, ""))
    ensures After(t, CancelRun) ==> Follows(run, t, Complete(Aborted, ""))
    ensures t == [] && run.cancel ==> Follows(run, t, CancelRun)
    ensures t == [] && !run.cancel && run.authorized ==> Follows(run, t, MakeWorkspace)
  {
    hide After, Watching, EndPrepare, EndRequest, BetweenUploads, EndUploads, Pending, IsBrowserRun;
  }

  // ---- where a fault of the lease is met ----

  /** A fault met right after one of these is for the catch-all. */
  lemma FaultAfter(run: Lease, t: seq<Event>, c: Call)
    requires After(t, c) && (c.CheckActivation? || c.DecryptCredential? || c.LoadImage?)
    requires c.LoadImage? ==> !EndAcquire(run, t)
    ensures FailureCode(run, t) == RUN_FAILED
  {
    hide Watching, Pending, KvReserved;
  }

  lemma FaultInPrepared(run: Lease, t: seq<Event>)
    requires EndPrepare(run, t)
    ensures FailureCode(run, t) == RUN_FAILED
  {
    hide FailureCode, CredentialFits;
    FaultAfter(run, t, if run.credential then DecryptCredential else CheckActivation);
  }

  lemma FaultInAcquisition(run: Lease, t: seq<Event>)
    requires run.queue
    requires (EndClaim(run, t) && run.queueBrowser) || (EndBrowse(run, t) && run.queueHttp && !EndAcquire(run, t))
    ensures FailureCode(run, t) == RUN_FAILED
  {
    hide Watching, Pending, KvReserved, Data, ReservesQueueKeys;
  }

  lemma BrowserNotHttp(run: Lease, t: seq<Event>)
    requires run.queue && run.queueHttp && (EndClaim(run, t) || (t != [] && Last(t).call.AcquireByBrowser?))
    ensures !EndAcquire(run, t)
  {
    hide Watching;
  }

  lemma ReservedCode(run: Lease, t: seq<Event>)
    requires EndAcquire(run, t) && KvReserved(run)
    ensures FailureCode(run, t) == "KV_READ_FAILED" && !EndDataset(run, t)
  {
    hide Watching, Pending, KvReserved, Data, ReservesQueueKeys;
  }

  lemma FaultInWeb(run: Lease, t: seq<Event>)
    requires EndRead(run, t)
    ensures FailureCode(run, t) == RUN_FAILED
  {
    hide Watching, Pending, Data, ReservesQueueKeys;
  }

  /** The credential of the egress policy. */
  method FetchCredential(run: Lease, env: Env, t: seq<Event>) returns (flow: Flow, u: seq<Event>)
    requires Kept(run, env, t) && Watching(run, t) == ACTIVATED && run.credential && After(t, CheckActivation)
    ensures Settled(run, env, flow, u) && !flow.Done?
    ensures flow.Next? ==> Watching(run, u) == ACTIVATED && EndPrepare(run, u)
  {
    hide Watching, Kept, Observe, Allowed, Serviceable, Refused, IsClient, FailureCode, After, Follows;
    FaultAfter(run, t, CheckActivation);
    PreparationFollows(run, t);
    u := t;
    if run.profile.ControlledBrowser? || run.queueBrowser { return Thrown(SandboxPolicyError), u; }
    if !run.profile.BrokeredWebEgress? && !run.queueHttp { return Thrown(SandboxPolicyError), u; }
    if !run.bindingDigest { return Thrown(SandboxPolicyError), u; }
    hide Misfit;
    var r;
    flow, u, r := TryAside(run, env, u, CredentialEnvelope);
    if flow.Thrown? { return; }
    PreparationFollows(run, u);
    flow, u, r := TryUnguarded(run, env, u, GetWorker);
    if flow.Thrown? { return; }
    PreparationFollows(run, u);
    flow, u, r := TryAside(run, env, u, DecryptCredential);
  }

  /** Policies, activation, and the credential. */
  method Prepare(run: Lease, env: Env, t: seq<Event>) returns (flow: Flow, u: seq<Event>)
    requires Kept(run, env, t) && Watching(run, t) == START && After(t, MakeWorkspace)
    ensures Settled(run, env, flow, u) && !flow.Done?
    ensures flow.Next? ==>
            Watching(run, u) == ACTIVATED && EndPrepare(run, u) && (run.credential ==> CredentialFits(run))
  {
    hide Watching, Kept, Observe, Allowed, Serviceable, Misfit, FailureCode, CredentialFits, Follows;
    var r;
    PreparationFollows(run, t);
    r, u := Activate(run, env, t);
    if r.Raised? {
      RaisedLast(run, t, CheckActivation, r.error);
      return Thrown(r.error), u;
    }
    if run.credential { flow, u := FetchCredential(run, env, u); } else { flow := Next; }
  }

  /** One artifact: its grant, then the file. */
  method UploadOne(run: Lease, env: Env, t: seq<Event>) returns (flow: Flow, u: seq<Event>)
    requires Kept(run, env, t) && Watching(run, t).acked.None? && Watching(run, t).activated
    requires BetweenUploads(t) && Pending(t) > 0
    ensures Kept(run, env, u) && !flow.Done?
    ensures Watching(run, u) == if flow.Thrown? then Watching(run, t).(bad := true) else Watching(run, t)
    ensures flow.Thrown? ==> FailureCode(run, u) == RUN_FAILED
    ensures flow.Next? ==> BetweenUploads(u) && Pending(u) == Pending(t) - 1
  {
    hide Watching, Kept, Observe, Allowed, IsClient, Refused, FailureCode, After, Pending, Follows;
    var r;
    ArtifactFollows(run, t);
    flow, u, r := TryAside(run, env, t, ArtifactUpload);
    if flow.Thrown? { return; }
    ArtifactFollows(run, u);
    UploadCounted(t, Event(ArtifactUpload, r));
    var v := u;
    flow, u, r := TryAside(run, env, u, UploadFile);
    UploadCounted(v, Event(UploadFile, r));
  }

  lemma UploadCounted(t: seq<Event>, e: Event)
    ensures e.call.ArtifactUpload? ==> Pending(t + [e]) == Pending(t)
    ensures e.call.UploadFile? && e.reply.Returned? ==> Pending(t + [e]) == Pending(t) - 1
    ensures e.call.CollectBrowserArtifacts? ==> Pending(t + [e]) == 2
    ensures e.call.CollectOutput? ==> Pending(t + [e]) == if e.reply == Returned(Bool(true)) then 1 else 0
    ensures e.call.CollectLog? ==> Pending(t + [e]) == Pending(t) + if e.reply == Returned(Bool(true)) then 1 else 0
  {
    assert (t + [e])[..|t|] == t;
  }

  /** `_upload_artifacts` for `count` artifacts. */
  method Upload(run: Lease, env: Env, t: seq<Event>, count: nat) returns (flow: Flow, u: seq<Event>)
    requires Kept(run, env, t) && Served(run, Watching(run, t))
    requires Watching(run, t).acked.None? && Watching(run, t).completions <= 2 && Watching(run, t).activated
    requires BetweenUploads(t) && Pending(t) == count
    ensures Settled(run, env, flow, u) && !flow.Done?
    ensures flow.Next? ==> Watching(run, u) == Watching(run, t) && EndUploads(u)
  {
    hide Watching, Kept, Observe, Misfit, Serviceable, FailureCode, BetweenUploads, Pending;
    u, flow := t, Next;
    for i := 0 to count
      invariant flow.Next? && Kept(run, env, u) && Watching(run, u) == Watching(run, t)
      invariant BetweenUploads(u) && Pending(u) == count - i
    {
      flow, u := UploadOne(run, env, u);
      if flow.Thrown? { return; }
    }
  }

  /** The inner `try` of the controlled-browser branch. */
  method Browse(run: Lease, env: Env, t: seq<Event>) returns (r: Reply, u: seq<Event>)
    requires Kept(run, env, t) && Watching(run, t) == ACTIVATED && IsBrowserRun(run)
    requires EndPrepare(run, t) && run.inputReference
    ensures Kept(run, env, u)
    ensures r.Raised? ==>
              var v := Watching(run, u); v == ACTIVATED.(running := v.running, bad := true, stray := v.stray)
    ensures r.Returned? ==> Watching(run, u) == ACTIVATED.(running := true, browsed := true) && After(u, RunBrowser)
    ensures r.Raised? ==>
              FailureCode(run, u) ==
              if r.error.BrowserRuntimeError? || r.error.SandboxPolicyError? then "BROWSER_RUNTIME_FAILED"
                else RUN_FAILED
  {
    hide Watching, Kept, Observe, Allowed, FailureCode, EndPrepare, Follows, After, IsBrowserRun;
    ArtifactFollows(run, t);
    r, u := ReportRunning(run, env, t);
    BrowserCodes(run, t, SetRunning, r);
    if r.Returned? {
      var v := u;
      ArtifactFollows(run, u);
      r, u := LaunchBrowser(run, env, u);
      BrowserCodes(run, v, RunBrowser, r);
    }
  }

  lemma BrowserCodes(run: Lease, t: seq<Event>, c: Call, r: Reply)
    requires IsBrowserRun(run) && (c.SetRunning? || c.RunBrowser?)
    ensures var u := t + [Event(c, r)];
            && (r.Returned? ==> After(u, c))
            && (r.Raised? ==>
                  FailureCode(run, u) ==
                  if r.error.BrowserRuntimeError? || r.error.SandboxPolicyError? then "BROWSER_RUNTIME_FAILED"
                    else RUN_FAILED)
  {
    hide Watching, IsBrowserRun;
    assert Last(t + [Event(c, r)]) == Event(c, r);
  }

  /** The controlled-browser branch, which runs no Agent. */
  method BrowserRun(run: Lease, env: Env, t: seq<Event>) returns (flow: Flow, u: seq<Event>)
    requires Kept(run, env, t) && Watching(run, t) == ACTIVATED && IsBrowserRun(run) && EndPrepare(run, t)
    ensures !flow.Next? && Settled(run, env, flow, u)
  {
    hide Watching, Kept, Observe, AllStored, Refused, Serviceable, FailureCode, EndPrepare, After, Pending, ClaimFails,
      Follows;
    FaultInPrepared(run, t);
    if !run.inputReference { return Thrown(SandboxPolicyError), t; }
    var r;
    r, u := Browse(run, env, t);
    CompleteFollows(run, u);
    if r.Raised? && (r.error.BrowserRuntimeError? || r.error.SandboxPolicyError?) {
      flow, u := Finish(run, env, u, Failed, "BROWSER_RUNTIME_FAILED");
      return;
    }
    if r.Raised? { return Thrown(r.error), u; }
    var v := u;
    ArtifactFollows(run, u);
    flow, u, r := TryAside(run, env, u, CollectBrowserArtifacts);
    if flow.Thrown? { return; }
    UploadCounted(v, Event(CollectBrowserArtifacts, r));
    flow, u := Upload(run, env, u, 2);
    if !flow.Next? { return; }
    ArtifactFollows(run, u);
    flow, u := Finish(run, env, u, Succeeded, "");
  }

  /** The image of the Agent. */
  method FetchImage(run: Lease, env: Env, t: seq<Event>) returns (flow: Flow, u: seq<Event>)
    requires Kept(run, env, t) && Watching(run, t) == ACTIVATED && EndPrepare(run, t) && !IsBrowserRun(run)
    ensures Settled(run, env, flow, u) && !flow.Done?
    ensures flow.Next? ==> Watching(run, u) == LOADED && After(u, LoadImage)
  {
    hide Watching, Kept, Observe, Allowed, Serviceable, Misfit, EndPrepare, FailureCode, Data, IsBrowserRun, Follows;
    var r;
    PreparationFollows(run, t);
    flow, u, r := TryAside(run, env, t, ArtifactDownload);
    if flow.Thrown? { return; }
    PreparationFollows(run, u);
    var v := u;
    r, u := Load(run, env, u);
    if r.Raised? { RaisedLast(run, v, LoadImage, r.error); }
    flow := if r.Raised? then Thrown(r.error) else Next;
  }

  // ---- the input so far ----

  /** The input is the Run's own but for these keys, with the claim and what was given under those. */
  predicate InputSoFar(run: Lease, w: Watch, input: map<string, Json>, dropped: set<string>, keys: set<string>)
  {
    input == Assembled(run, w.claim, w.given, dropped) && w.given.Keys == keys
  }

  lemma Give(run: Lease, claim: Option<Claim>, given: map<string, Json>, dropped: set<string>, k: string, v: Json)
    ensures Assembled(run, claim, given[k := v], dropped) == Assembled(run, claim, given, dropped)[k := v]
  {
    hide ClaimView;
  }

  lemma Drop(run: Lease, claim: Option<Claim>, given: map<string, Json>, dropped: set<string>, k: string)
    requires k != QUEUE_KEY && k !in given
    ensures Assembled(run, claim, given, dropped) - {k} == Assembled(run, claim, given, dropped + {k})
  {
    hide ClaimView;
  }

  lemma Untouched(run: Lease, claim: Option<Claim>, given: map<string, Json>, dropped: set<string>, k: string)
    requires k != QUEUE_KEY && k !in given && k !in dropped
    ensures k in Assembled(run, claim, given, dropped) <==> k in run.input
    ensures Get(Assembled(run, claim, given, dropped), k) == Get(run.input, k)
  {
    hide ClaimView;
  }

  lemma ClaimPutIn(run: Lease, claim: Claim)
    ensures Assembled(run, Some(claim), map[], {}) == run.input[QUEUE_KEY := ClaimView(claim)]
    ensures Assembled(run, None, map[], {}) == run.input
  {
    hide ClaimView;
  }

  lemma NoClaimPutIn(run: Lease)
    ensures Assembled(run, None, map[], {}) == run.input
  {
  }

  // ---- the claim ----

  /** Where a claim that raised, or found nothing, leaves the trace. */
  lemma ClaimRaised(run: Lease, t: seq<Event>, queueId: string, r: Reply)
    ensures var u := t + [Event(QueueClaim(queueId), r)];
            && (r.Raised? ==> FailureCode(run, u) == if ClaimFails(r.error) then "REQUEST_QUEUE_CLAIM_FAILED"
                else RUN_FAILED)
            && (r == Returned(Null) ==> Follows(run, u, Complete(Succeeded, "")))
  {
    hide Watching, ClaimFails, EndUploads;
    assert Last(t + [Event(QueueClaim(queueId), r)]) == Event(QueueClaim(queueId), r);
  }

  /** And one that returned something. */
  lemma ClaimReturned(run: Lease, t: seq<Event>, queueId: string, r: Reply)
    requires run.queue && r.Returned?
    ensures var u := t + [Event(QueueClaim(queueId), r)];
            && (Data(r.value).None? ==> FailureCode(run, u) == RUN_FAILED)
            && (Data(r.value).Some? && (Watching(run, u).claim.None? || ReservesQueueKeys(run.input)) ==>
                  FailureCode(run, u) == "REQUEST_QUEUE_CLAIM_FAILED")
            && (Watching(run, u).claim.Some? && !ReservesQueueKeys(run.input) ==> EndClaim(run, u))
  {
    hide Watching, Pending, ReservesQueueKeys, ValidateClaim, Data, KvReserved;
    var u := t + [Event(QueueClaim(queueId), r)];
    assert Last(u) == Event(QueueClaim(queueId), r);
    if Data(r.value).None? { NoDataNoClaim(run, t, queueId, r); }
  }

  lemma NoDataNoClaim(run: Lease, t: seq<Event>, queueId: string, r: Reply)
    requires r.Returned? && Data(r.value).None?
    ensures Watching(run, t + [Event(QueueClaim(queueId), r)]).claim.None?
  {
    hide Observe, Data;
    var u := t + [Event(QueueClaim(queueId), r)];
    assert u[..|t|] == t;
    StepsClaim(run, Watching(run, t), Event(QueueClaim(queueId), r));
  }

  /** The claim itself, inside its `try`: none to be had completes the lease. */
  method TryClaim(run: Lease, env: Env, t: seq<Event>, queueId: string)
    returns (flow: Flow, u: seq<Event>, claim: Option<Claim>)
    requires Kept(run, env, t) && Watching(run, t) == LOADED && After(t, LoadImage)
    requires run.queue && run.queueId == Some(queueId)
    ensures Kept(run, env, u)
    ensures flow.Done? ==> flow.word.Succeeded? && Settled(run, env, flow, u) && Watching(run, u).idle
    ensures flow.Next? ==>
              && claim.Some? && !ReservesQueueKeys(run.input) && EndClaim(run, u)
              && Watching(run, u) == LOADED.(claims := 1, claim := claim, held := true)
    ensures flow.Thrown? ==>
              var v := Watching(run, u);
              && v.acked.None? && v.completions <= 1 && v.queueCompletions == 0 && (Misfit(run) || v.bad)
              && (v.claim.Some? ==> ReservesQueueKeys(run.input))
              && FailureCode(run, u) == if ClaimFails(flow.error) then "REQUEST_QUEUE_CLAIM_FAILED" else RUN_FAILED
  {
    hide Watching, Kept, Observe, ValidateClaim, AllStored, WebFault, FailureCode, ClaimFails, Follows,
      ReservesQueueKeys, EndClaim, Serviceable, Misfit;
    claim := None;
    var r;
    ClaimFollows(run, t, queueId);
    r, u := ClaimRequest(run, env, t, queueId);
    ClaimRaised(run, t, queueId, r);
    if r.Raised? { return Thrown(r.error), u, claim; }
    if r == Returned(Null) {
      flow, u := Finish(run, env, u, Succeeded, "");
      return;
    }
    ClaimReturned(run, t, queueId, r);
    ClaimFailsEither(SandboxPolicyError);
    ClaimFailsEither(QueueBoundaryError);
    if Data(r.value).None? { return Thrown(SandboxPolicyError), u, claim; }
    claim := ValidateClaim(run.lib, Data(r.value).value, queueId);
    if claim.None? { return Thrown(QueueBoundaryError), u, claim; }
    if ReservesQueueKeys(run.input) {
      assert Misfit(run) by { ReservedMisfit(run); }
      return Thrown(QueueBoundaryError), u, claim;
    }
    flow := Next;
  }

  lemma ReservedMisfit(run: Lease)
    requires run.queue && ReservesQueueKeys(run.input)
    ensures Misfit(run)
  {
  }

  /** The queue claim: none to be had completes the lease; a claim that is not valid fails it. */
  method ClaimWork(run: Lease, env: Env, t: seq<Event>)
    returns (flow: Flow, u: seq<Event>, claim: Option<Claim>, next: map<string, Json>)
    requires Kept(run, env, t) && Watching(run, t) == LOADED && After(t, LoadImage)
    ensures Settled(run, env, flow, u)
    ensures flow == Done(Succeeded) ==> Watching(run, u).idle
    ensures flow.Next? ==> Holding(run, env, u, claim, None) && (claim.Some? <==> run.queue) && EndClaim(run, u)
    ensures flow.Next? ==>
            InputSoFar(run, Watching(run, u), next, {}, {}) && (claim.Some? ==> !ReservesQueueKeys(run.input))
    ensures flow.Next? ==> if run.queue then run.queueId.Some? else !run.queueHttp && !run.queueBrowser
  {
    hide Watching, Kept, Observe, ValidateClaim, ClaimView, AllStored, WebFault, FailureCode, ClaimFails, Assembled,
      Follows, ReservesQueueKeys;
    u, claim, next := t, None, run.input;
    NoClaimPutIn(run);
    if (run.queueHttp || run.queueBrowser) && !run.queue {
      UnqueuedFault(run, t);
      return Thrown(SandboxPolicyError), u, claim, next;
    }
    if !run.queue { return Next, u, claim, next; }
    if run.queueId.None? {
      UnqueuedFault(run, t);
      return Thrown(SandboxPolicyError), u, claim, next;
    }
    hide Misfit, EndClaim;
    flow, u, claim := TryClaim(run, env, u, run.queueId.value);
    if flow.Thrown? {
      ClaimFailsEither(flow.error);
      CompleteFollows(run, u);
      FailedAllowed(run, Watching(run, u), "REQUEST_QUEUE_CLAIM_FAILED");
    }
    if flow.Thrown? && (flow.error.QueueBoundaryError? || flow.error.WorkerProtocolError?) {
      flow, u := Finish(run, env, u, Failed, "REQUEST_QUEUE_CLAIM_FAILED");
    } else if flow.Next? {
      ClaimPutIn(run, claim.value);
      next := run.input["_rdc_queue" := ClaimView(claim.value)];
    }
  }

  lemma ClaimFailsEither(e: Exception)
    ensures ClaimFails(e) <==> e.QueueBoundaryError? || e.WorkerProtocolError?
  {
  }

  lemma ClaimFollows(run: Lease, t: seq<Event>, queueId: string)
    requires run.queue && After(t, LoadImage)
    ensures Follows(run, t, QueueClaim(queueId))
  {
  }

  lemma UnqueuedFault(run: Lease, t: seq<Event>)
    requires After(t, LoadImage) && (run.queue || run.queueHttp || run.queueBrowser)
    ensures FailureCode(run, t) == RUN_FAILED
  {
    hide Watching, FailureCode, KvReserved;
    FaultAfter(run, t, LoadImage);
  }

  // ---- acquisitions ----

  /** Where an acquisition, or the last call of a read, leaves the trace. */
  lemma GiverCodes(run: Lease, t: seq<Event>, c: Call, r: Reply)
    requires Giver(c) && r.Raised?
    ensures var u := t + [Event(c, r)];
            && !EndDataset(run, u)
            && FailureCode(run, u) ==
               if !Handles(c, r.error) then RUN_FAILED
               else if c.AcquireByBrowser? then "QUEUE_BROWSER_NAVIGATION_FAILED"
               else if c.AcquireByHttp? then "QUEUE_HTTP_FETCH_FAILED"
               else "KV_READ_FAILED"
  {
    hide Watching, BrowserAcquisitionFails, HttpAcquisitionFails, KvReadFails, KvWriteFails, DatasetWriteFails,
      FailureCode;
    assert Last(t + [Event(c, r)]) == Event(c, r);
    RaisedLast(run, t, c, r.error);
  }

  lemma AcquisitionFollows(run: Lease, t: seq<Event>, claim: Claim)
    requires run.queue
    ensures run.queueBrowser && run.egressPolicy && run.browserPolicy && EndClaim(run, t) ==>
              Follows(run, t, AcquireByBrowser(claim))
    ensures run.queueHttp && run.egressPolicy && EndBrowse(run, t) ==> Follows(run, t, AcquireByHttp(claim))
  {
    hide EndClaim, EndBrowse;
  }

  lemma BrowseEnds(run: Lease, t: seq<Event>)
    ensures !(run.queue && run.queueBrowser) && EndClaim(run, t) ==> EndBrowse(run, t)
    ensures !(run.queue && run.queueHttp) && EndBrowse(run, t) ==> EndAcquire(run, t)
  {
    hide EndClaim;
  }

  lemma AcquisitionEnds(run: Lease, t: seq<Event>, c: Call, r: Reply)
    requires r.Returned? && run.queue
    ensures c.AcquireByBrowser? && run.queueBrowser ==> EndBrowse(run, t + [Event(c, r)])
    ensures c.AcquireByBrowser? && run.queueHttp ==> !EndAcquire(run, t + [Event(c, r)])
    ensures c.AcquireByHttp? && run.queueHttp ==> EndAcquire(run, t + [Event(c, r)])
  {
    hide Watching;
    assert Last(t + [Event(c, r)]) == Event(c, r);
  }

  /** The claim's URL, fetched by the browser. */
  method BrowseClaim(run: Lease, env: Env, t: seq<Event>, claim: Claim, input: map<string, Json>)
    returns (flow: Flow, u: seq<Event>, next: map<string, Json>)
    requires Holding(run, env, t, Some(claim), None) && EndClaim(run, t)
             && InputSoFar(run, Watching(run, t), input, {}, {})
    requires run.queue && run.queueBrowser && !ReservesQueueKeys(run.input)
    ensures Settled(run, env, flow, u) && (flow.Done? ==> flow.word.Failed?)
    ensures flow.Next? ==>
              && Holding(run, env, u, Some(claim), None) && run.egressPolicy && run.browserPolicy
              && EndBrowse(run, u) && (run.queueHttp ==> !EndAcquire(run, u))
              && InputSoFar(run, Watching(run, u), next, {}, {BROWSER_KEY})
  {
    hide Watching, Kept, Observe, Allowed, IsClient, BrowserAcquisitionFails, HttpAcquisitionFails, KvReadFails,
      WebFault, FailureCode, Follows, EndClaim, EndBrowse, EndAcquire, EndDataset, Assembled, ReservesQueueKeys;
    u, next, flow := t, input, Next;
    if !run.egressPolicy || !run.browserPolicy {
      FaultInAcquisition(run, t);
      return Thrown(SandboxPolicyError), u, next;
    }
    AcquisitionFollows(run, t, claim);
    var r;
    r, u := AskGiver(run, env, u, AcquireByBrowser(claim));
    if r.Raised? { GiverCodes(run, t, AcquireByBrowser(claim), r); }
    if r.Raised? && BrowserAcquisitionFails(r.error) {
      flow, u := FailClosed(run, env, u, Some(claim), "QUEUE_BROWSER_NAVIGATION_FAILED");
      return;
    }
    if r.Raised? { return Thrown(r.error), u, next; }
    AcquisitionEnds(run, t, AcquireByBrowser(claim), r);
    Give(run, Some(claim), Watching(run, t).given, {}, BROWSER_KEY, r.value);
    next := next["_rdc_queue_browser" := r.value];
  }

  /** The claim's URL, fetched by the HTTP broker. */
  method FetchClaim(run: Lease, env: Env, t: seq<Event>, claim: Claim, input: map<string, Json>, keys: set<string>)
    returns (flow: Flow, u: seq<Event>, next: map<string, Json>)
    requires Holding(run, env, t, Some(claim), None) && EndBrowse(run, t) && !EndAcquire(run, t)
    requires InputSoFar(run, Watching(run, t), input, {}, keys)
    requires run.queue && run.queueHttp && !ReservesQueueKeys(run.input)
    requires run.queueBrowser ==> run.egressPolicy && run.browserPolicy
    ensures Settled(run, env, flow, u) && (flow.Done? ==> flow.word.Failed?)
    ensures flow.Next? ==>
              && Holding(run, env, u, Some(claim), None) && run.egressPolicy && EndAcquire(run, u)
              && InputSoFar(run, Watching(run, u), next, {}, keys + {HTTP_KEY})
  {
    hide Watching, Kept, Observe, Allowed, IsClient, BrowserAcquisitionFails, HttpAcquisitionFails, KvReadFails,
      WebFault, FailureCode, Follows, EndClaim, EndBrowse, EndAcquire, EndDataset, Assembled, ReservesQueueKeys;
    u, next, flow := t, input, Next;
    if !run.egressPolicy {
      FaultInAcquisition(run, t);
      return Thrown(SandboxPolicyError), u, next;
    }
    AcquisitionFollows(run, t, claim);
    var r;
    r, u := AskGiver(run, env, u, AcquireByHttp(claim));
    if r.Raised? { GiverCodes(run, t, AcquireByHttp(claim), r); }
    if r.Raised? && HttpAcquisitionFails(r.error) {
      flow, u := FailClosed(run, env, u, Some(claim), "QUEUE_HTTP_FETCH_FAILED");
      return;
    }
    if r.Raised? { return Thrown(r.error), u, next; }
    AcquisitionEnds(run, t, AcquireByHttp(claim), r);
    Give(run, Some(claim), Watching(run, t).given, {}, HTTP_KEY, r.value);
    next := next["_rdc_queue_http" := r.value];
  }

  /** The claim's URL, fetched by the browser, by the HTTP broker, or not at all. */
  method AcquireWork(run: Lease, env: Env, t: seq<Event>, claim: Option<Claim>, input: map<string, Json>)
    returns (flow: Flow, u: seq<Event>, next: map<string, Json>)
    requires Holding(run, env, t, claim, None) && EndClaim(run, t) && InputSoFar(run, Watching(run, t), input, {}, {})
    requires (claim.Some? <==> run.queue) && (claim.Some? ==> !ReservesQueueKeys(run.input))
    ensures Settled(run, env, flow, u) && (flow.Done? ==> flow.word.Failed?)
    ensures flow.Next? ==>
              && Holding(run, env, u, claim, None) && (claim.Some? ==> !AcquisitionFault(run)) && EndAcquire(run, u)
              && InputSoFar(run, Watching(run, u), next, {}, AcquiredKeys(run))
  {
    hide Watching, Kept, Settled, Holding, EndClaim, EndBrowse, EndAcquire, InputSoFar, ReservesQueueKeys;
    u, next, flow := t, input, Next;
    var keys: set<string> := {};
    BrowseEnds(run, u);
    HoldingKept(run, env, u, claim);
    if claim.Some? && run.queueBrowser {
      flow, u, next := BrowseClaim(run, env, u, claim.value, next);
      if !flow.Next? { return; }
      keys := {BROWSER_KEY};
    } else if claim.Some? && run.queueHttp {
      BrowserNotHttp(run, u);
    }
    BrowseEnds(run, u);
    if claim.Some? && run.queueHttp {
      flow, u, next := FetchClaim(run, env, u, claim.value, next, keys);
      if !flow.Next? { return; }
      keys := keys + {HTTP_KEY};
    }
    assert keys == AcquiredKeys(run);
    HoldingKept(run, env, u, claim);
    NextSettles(run, env, u);
  }

  lemma HoldingKept(run: Lease, env: Env, t: seq<Event>, claim: Option<Claim>)
    requires Holding(run, env, t, claim, None)
    ensures Kept(run, env, t)
  {
    hide Kept, Watching;
  }

  // ---- the Key-Value read ----

  function ReadRaised(w: Watch, e: Exception): Watch
  {
    w.(bad := true, stray := w.stray || !KvReadFails(e), refused := w.refused || KvReadFails(e))
  }

  function ReadCode(e: Exception): string
  {
    if KvReadFails(e) then "KV_READ_FAILED" else RUN_FAILED
  }

  lemma ReadCodes(run: Lease, t: seq<Event>, c: Call, r: Reply)
    requires c.CheckReadRequest? || c.KvRead? || c.CheckReadResult?
    ensures !EndDataset(run, t + [Event(c, r)])
    ensures r.Raised? ==> FailureCode(run, t + [Event(c, r)]) == ReadCode(r.error)
    ensures c.KvRead? && r.Returned? ==> FailureCode(run, t + [Event(c, r)]) == RUN_FAILED
    ensures c.CheckReadRequest? && r.Returned? ==> Follows(run, t + [Event(c, r)], KvRead(r.value))
    ensures c.KvRead? && r.Returned? && Data(r.value).Some? ==>
              Follows(run, t + [Event(c, r)], CheckReadResult(Data(r.value).value))
  {
    hide Watching, KvReadFails, Pending, Data, KvReserved;
    assert Last(t + [Event(c, r)]) == Event(c, r);
  }

  lemma ReadHandled(c: Call, e: Exception)
    requires c.CheckReadRequest? || c.KvRead? || c.CheckReadResult?
    ensures Handles(c, e) == KvReadFails(e) && GuardedEarly(c)
  {
    hide KvReadFails;
  }

  /** One call of a Key-Value read, before its last. */
  method AskRead(run: Lease, env: Env, t: seq<Event>, c: Call) returns (r: Reply, u: seq<Event>)
    requires Kept(run, env, t) && Watching(run, t).acked.None? && Watching(run, t).activated && Follows(run, t, c)
    requires c.CheckReadRequest? || c.KvRead?
    ensures Kept(run, env, u) && u == t + [Event(c, r)]
    ensures r.Returned? && !Refused(c, r) ==> Watching(run, u) == Watching(run, t)
    ensures r.Returned? && Refused(c, r) ==> Watching(run, u) == Watching(run, t).(bad := true, stray := true)
    ensures r.Raised? ==> Watching(run, u) == ReadRaised(Watching(run, t), r.error)
  {
    hide Watching, Kept, Observe, Allowed, IsClient, Data, KvReadFails, Follows, Handles, GuardedEarly;
    ReadHandled(c, KvBoundaryError);
    r, u := AskGuarded(run, env, t, c);
    if r.Raised? { ReadHandled(c, r.error); }
  }

  /** One Key-Value read; a response without data raises like any other refusal. */
  method ReadRequested(run: Lease, env: Env, t: seq<Event>, request: Json) returns (r: Reply, u: seq<Event>)
    requires Kept(run, env, t) && Watching(run, t).acked.None? && Watching(run, t).activated
    requires Follows(run, t, CheckReadRequest(request))
    ensures Kept(run, env, u) && u != [] && !EndDataset(run, u)
    ensures r.Raised? ==>
            Watching(run, u) == ReadRaised(Watching(run, t), r.error) && FailureCode(run, u) == ReadCode(r.error)
    ensures r.Returned? ==>
              && Watching(run, u) == Watching(run, t).(given := Watching(run, t).given[KV_KEY := r.value])
              && Last(u).call.CheckReadResult? && Last(u).reply.Returned?
  {
    hide Watching, Kept, Observe, Allowed, IsClient, Data, Follows, FailureCode, EndDataset, Handles;
    r, u := AskRead(run, env, t, CheckReadRequest(request));
    ReadCodes(run, t, CheckReadRequest(request), r);
    if r.Raised? { return; }
    var t1, c1 := u, KvRead(r.value);
    r, u := AskRead(run, env, u, c1);
    ReadCodes(run, t1, c1, r);
    if r.Raised? { return; }
    if Data(r.value).None? { return Raised(SandboxPolicyError), u; }
    var t2, c2 := u, CheckReadResult(Data(r.value).value);
    r, u := AskGiver(run, env, u, c2);
    ReadCodes(run, t2, c2, r);
    if r.Raised? { ReadHandled(c2, r.error); }
  }

  lemma KvMisfit(run: Lease)
    requires KvReserved(run)
    ensures Misfit(run)
  {
  }

  lemma ReadFollows(run: Lease, t: seq<Event>, request: Json)
    requires run.kv && !KvReserved(run) && EndAcquire(run, t) && request == Get(run.input, READ_KEY) && request != Null
    ensures KvAsked(run) && Follows(run, t, CheckReadRequest(request))
  {
    hide EndAcquire;
  }

  lemma ReadEnds(run: Lease, t: seq<Event>)
    requires !KvReserved(run)
    ensures !KvAsked(run) && EndAcquire(run, t) ==> EndRead(run, t)
    ensures KvAsked(run) && t != [] && Last(t).call.CheckReadResult? && Last(t).reply.Returned? ==> EndRead(run, t)
  {
    hide EndAcquire, KvReserved;
  }

  lemma KvKeysUntouched(run: Lease, claim: Option<Claim>, given: map<string, Json>, input: map<string, Json>)
    requires input == Assembled(run, claim, given, {}) && given.Keys == AcquiredKeys(run)
    ensures KV_KEY in input <==> KV_KEY in run.input
    ensures Get(input, READ_KEY) == Get(run.input, READ_KEY)
    ensures input - {READ_KEY} == Assembled(run, claim, given, {READ_KEY})
  {
    assert KV_KEY !in AcquiredKeys(run) && READ_KEY !in AcquiredKeys(run);
    assert {} + {READ_KEY} == {READ_KEY};
    hide Assembled, AcquiredKeys;
    Untouched(run, claim, given, {}, KV_KEY);
    Untouched(run, claim, given, {}, READ_KEY);
    Drop(run, claim, given, {}, READ_KEY);
  }

  /** The keys taken out of the input of a Key-Value Run. */
  function ReadDropped(run: Lease): set<string>
  {
    if run.kv then {READ_KEY} else {}
  }

  /** The Key-Value reads the Run input asks for. */
  method ReadKeyValues(run: Lease, env: Env, t: seq<Event>, claim: Option<Claim>, input: map<string, Json>)
    returns (flow: Flow, u: seq<Event>, next: map<string, Json>)
    requires Holding(run, env, t, claim, None) && EndAcquire(run, t) && (claim.Some? ==> !AcquisitionFault(run))
    requires InputSoFar(run, Watching(run, t), input, {}, AcquiredKeys(run))
    ensures Settled(run, env, flow, u) && (flow.Done? ==> flow.word.Failed?)
    ensures flow.Next? ==>
              && Holding(run, env, u, claim, None) && !KvReserved(run) && EndRead(run, u)
              && InputSoFar(run, Watching(run, u), next, ReadDropped(run), ReadKeys(run))
  {
    hide Watching, Kept, Observe, Allowed, AcquisitionFault, WebFault, Misfit, FailureCode, Follows, EndAcquire,
      EndRead, EndDataset, Assembled, AcquiredKeys, KvReadFails;
    KvKeysUntouched(run, claim, Watching(run, t).given, input);
    u, next, flow := t, input, Next;
    if !run.kv {
      ReadEnds(run, u);
      return;
    }
    var r := Returned(Null);
    if "_rdc_kv" in input {
      r := Raised(KvBoundaryError);
      KvMisfit(run);
      ReservedCode(run, u);
      assert KvReadFails(KvBoundaryError) by { BoundaryIsHandled(); }
    } else {
      var request := Get(input, "_rdc_kv_read");
      next := input - {"_rdc_kv_read"};
      if request != Null {
        ReadFollows(run, u, request);
        r, u := ReadRequested(run, env, u, request);
        if r.Returned? {
          Give(run, claim, Watching(run, t).given, {READ_KEY}, KV_KEY, r.value);
          next := next["_rdc_kv" := r.value];
        }
      }
      ReadEnds(run, u);
    }
    if r.Raised? && KvReadFails(r.error) {
      flow, u := FailClosed(run, env, u, claim, "KV_READ_FAILED");
    } else if r.Raised? {
      flow := Thrown(r.error);
    }
  }

  lemma BoundaryIsHandled()
    ensures KvReadFails(KvBoundaryError)
  {
  }

  // ---- the web requests ----

  /** No fault of the lease is left to be met while the request is held. */
  predicate Cleared(run: Lease, claim: Option<Claim>)
  {
    claim.Some? ==> !AcquisitionFault(run) && !WebFault(run)
  }

  /** What the broker's output makes of the input it was given. */
  function Brokered(input: map<string, Json>, output: Json): map<string, Json>
  {
    (input - {"_rdc_web_requests"})
      ["_rdc_web_results" := Told(output, "_rdc_web_results")]["_rdc_web_budget" := Told(output, "_rdc_web_budget")]
  }

  lemma FetchCodes(run: Lease, t: seq<Event>, c: Call, r: Reply)
    requires c.FetchWeb? || c.FetchLegacy?
    ensures var u := t + [Event(c, r)];
            && (r.Raised? && c.FetchLegacy? ==> FailureCode(run, u) == RUN_FAILED)
            && (r.Raised? && c.FetchWeb? ==>
                  FailureCode(run, u) ==
                  if r.error.WebFetchContractError? then "WEB_FETCH_CONTRACT_INVALID"
                  else if r.error.EgressPolicyError? then "WEB_FETCH_POLICY_DENIED"
                  else RUN_FAILED)
            && (r.Returned? && !WebFault(run) && c.FetchWeb? && WebFetched(run) ==> EndWeb(run, u))
            && (r.Returned? && !WebFault(run) && c.FetchLegacy? && Legacy(run) ==> EndWeb(run, u))
  {
    hide Watching, WebFault, FailureCode;
    assert Last(t + [Event(c, r)]) == Event(c, r);
    if r.Raised? { RaisedLast(run, t, c, r.error); }
  }

  /** The versioned web fetch of a brokered Run; its handlers fail the lease and leave a queue request alone. */
  method FetchEnvelope(run: Lease, env: Env, t: seq<Event>, claim: Option<Claim>)
    returns (flow: Flow, u: seq<Event>, result: Json)
    requires Holding(run, env, t, claim, None) && EndRead(run, t) && WebFetched(run) && !WebFault(run)
    ensures Settled(run, env, flow, u) && (flow.Done? ==> flow.word.Failed?)
    ensures flow.Next? ==>
              && Holding(run, env, u, claim, None) && EndWeb(run, u)
              && Watching(run, u).given == Watching(run, t).given[FETCH_KEY := result]
  {
    hide Watching, Kept, Observe, Allowed, IsClient, AcquisitionFault, WebFault, Misfit, FailureCode, Follows, EndRead,
      EndWeb, ClaimFails;
    var r;
    result := Null;
    assert Follows(run, t, FetchWeb) by { WebFollows(run, t, map[]); }
    r, u := AskFetch(run, env, t, FetchWeb);
    FetchCodes(run, t, FetchWeb, r);
    CompleteFollows(run, u);
    if r.Raised? && r.error.WebFetchContractError? {
      FailedAllowed(run, Watching(run, u), "WEB_FETCH_CONTRACT_INVALID");
      flow, u := Finish(run, env, u, Failed, "WEB_FETCH_CONTRACT_INVALID");
    } else if r.Raised? && r.error.EgressPolicyError? {
      FailedAllowed(run, Watching(run, u), "WEB_FETCH_POLICY_DENIED");
      flow, u := Finish(run, env, u, Failed, "WEB_FETCH_POLICY_DENIED");
    } else if r.Raised? {
      flow := Thrown(r.error);
    } else {
      flow, result := Next, r.value;
    }
  }

  lemma WebFollows(run: Lease, t: seq<Event>, input: map<string, Json>)
    requires EndRead(run, t) && !WebFault(run)
    ensures WebFetched(run) ==> Follows(run, t, FetchWeb)
    ensures Legacy(run) ==> Follows(run, t, FetchLegacy(input))
  {
    hide EndRead, WebFault;
  }

  /** The legacy requests of a brokered Run. */
  method FetchRequests(run: Lease, env: Env, t: seq<Event>, claim: Option<Claim>, input: map<string, Json>)
    returns (flow: Flow, u: seq<Event>, output: Json)
    requires Holding(run, env, t, claim, None) && EndRead(run, t) && Legacy(run) && !WebFault(run)
    requires InputSoFar(run, Watching(run, t), input, ReadDropped(run), ReadKeys(run))
    ensures Settled(run, env, flow, u) && !flow.Done?
    ensures flow.Next? ==>
              && Holding(run, env, u, claim, None) && EndWeb(run, u)
              && Watching(run, u).given
                 == Watching(run, t).given[RESULTS_KEY := Told(output, RESULTS_KEY)][BUDGET_KEY :=
                     Told(output, BUDGET_KEY)]
  {
    hide Watching, Kept, Observe, Allowed, IsClient, AcquisitionFault, WebFault, Misfit, FailureCode, Follows, EndRead,
      EndWeb, Assembled, Legacy, ReadKeys;
    output := Null;
    WebFollows(run, t, input);
    var r;
    r, u := AskFetch(run, env, t, FetchLegacy(input));
    FetchCodes(run, t, FetchLegacy(input), r);
    if r.Raised? { return Thrown(r.error), u, output; }
    flow, output := Next, r.value;
  }

  lemma RequestsUntouched(run: Lease, claim: Option<Claim>, given: map<string, Json>)
    requires given.Keys == ReadKeys(run)
    ensures REQUESTS_KEY in Assembled(run, claim, given, ReadDropped(run)) <==> REQUESTS_KEY in run.input
  {
    assert REQUESTS_KEY !in ReadKeys(run) && REQUESTS_KEY !in ReadDropped(run);
    hide Assembled, ReadKeys, ReadDropped;
    Untouched(run, claim, given, ReadDropped(run), REQUESTS_KEY);
  }

  lemma GiveBrokered(run: Lease, claim: Option<Claim>, given: map<string, Json>, output: Json)
    requires given.Keys == ReadKeys(run)
    ensures Brokered(Assembled(run, claim, given, ReadDropped(run)), output) ==
            Assembled(run, claim,
                      given[RESULTS_KEY := Told(output, RESULTS_KEY)][BUDGET_KEY := Told(output, BUDGET_KEY)],
                      ReadDropped(run) + {REQUESTS_KEY})
  {
    assert REQUESTS_KEY !in ReadKeys(run);
    hide Assembled, ReadKeys, ReadDropped, Told;
    Drop(run, claim, given, ReadDropped(run), REQUESTS_KEY);
    var dropped := ReadDropped(run) + {REQUESTS_KEY};
    Give(run, claim, given, dropped, RESULTS_KEY, Told(output, RESULTS_KEY));
    Give(run, claim, given[RESULTS_KEY := Told(output, RESULTS_KEY)], dropped, BUDGET_KEY, Told(output, BUDGET_KEY));
  }

  lemma DroppedIs(run: Lease)
    ensures Dropped(run) == if Legacy(run) then ReadDropped(run) + {REQUESTS_KEY} else ReadDropped(run)
    ensures GivenKeys(run) ==
            if WebFetched(run) then ReadKeys(run) + {FETCH_KEY}
            else if Legacy(run) then ReadKeys(run) + {RESULTS_KEY} + {BUDGET_KEY}
            else ReadKeys(run)
  {
    hide ReadKeys;
    assert {RESULTS_KEY, BUDGET_KEY} == {RESULTS_KEY} + {BUDGET_KEY};
  }

  lemma WebEnds(run: Lease, t: seq<Event>)
    requires EndRead(run, t) && !WebFault(run) && !WebFetched(run) && !Legacy(run)
    ensures EndWeb(run, t)
  {
    hide EndRead, WebFault;
  }

  /** The web requests of a brokered Run. */
  method FetchWebIntent(run: Lease, env: Env, t: seq<Event>, claim: Option<Claim>, input: map<string, Json>)
    returns (flow: Flow, u: seq<Event>, next: map<string, Json>)
    requires Holding(run, env, t, claim, None) && EndRead(run, t) && !KvReserved(run)
    requires claim.Some? ==> !AcquisitionFault(run)
    requires InputSoFar(run, Watching(run, t), input, ReadDropped(run), ReadKeys(run))
    ensures Settled(run, env, flow, u) && (flow.Done? ==> flow.word.Failed?)
    ensures flow.Next? ==>
              && Holding(run, env, u, claim, None) && Cleared(run, claim) && !WebFault(run) && EndWeb(run, u)
              && InputSoFar(run, Watching(run, u), next, Dropped(run), GivenKeys(run))
  {
    hide Watching, Kept, Observe, Allowed, IsClient, AcquisitionFault, FailureCode, EndRead, EndWeb, Assembled,
      ReadKeys, ReadDropped, Dropped, GivenKeys, Brokered;
    u, next, flow := t, input, Next;
    RequestsUntouched(run, claim, Watching(run, t).given);
    DroppedIs(run);
    FaultInWeb(run, t);
    if run.webFetch && !run.profile.BrokeredWebEgress? { return Thrown(SandboxPolicyError), u, next; }
    if !run.profile.BrokeredWebEgress? {
      WebEnds(run, u);
      return;
    }
    if !run.egressPolicy { return Thrown(SandboxPolicyError), u, next; }
    if run.queueHttp {
      if run.webFetch || "_rdc_web_requests" in input { return Thrown(SandboxPolicyError), u, next; }
      WebEnds(run, u);
    } else if run.webFetch {
      if "_rdc_web_requests" in input { return Thrown(SandboxPolicyError), u, next; }
      var result;
      flow, u, result := FetchEnvelope(run, env, u, claim);
      Give(run, claim, Watching(run, t).given, ReadDropped(run), FETCH_KEY, result);
      next := next["_rdc_web_fetch_result" := result];
    } else {
      var output;
      flow, u, output := FetchRequests(run, env, u, claim, input);
      GiveBrokered(run, claim, Watching(run, t).given, output);
      next := Brokered(input, output);
    }
  }

  /** The secrets the manifest names. */
  method FetchSecrets(run: Lease, env: Env, t: seq<Event>, claim: Option<Claim>) returns (flow: Flow, u: seq<Event>)
    requires Holding(run, env, t, claim, None) && EndWeb(run, t)
    ensures Settled(run, env, flow, u) && !flow.Done?
    ensures flow.Next? ==>
              && Holding(run, env, u, claim, None) && EndSecrets(run, u)
              && Watching(run, u).given == Watching(run, t).given
  {
    hide Watching, Kept, Observe, Allowed, IsClient, Refused, Misfit, AcquisitionFault, WebFault, FailureCode, EndWeb,
      After, Follows;
    u, flow := t, Next;
    if !run.secrets { return; }
    var r;
    PreparationFollows(run, u);
    flow, u, r := TryUnguarded(run, env, u, SecretEnvelope);
    if flow.Thrown? { return; }
    PreparationFollows(run, u);
    flow, u, r := TryUnguarded(run, env, u, GetWorker);
    if flow.Thrown? { return; }
    PreparationFollows(run, u);
    flow, u, r := TryUnguarded(run, env, u, DecryptSecrets);
  }

  lemma RunningFollows(run: Lease, t: seq<Event>)
    requires EndSecrets(run, t) && !IsBrowserRun(run)
    ensures Follows(run, t, SetRunning)
  {
    hide EndSecrets, IsBrowserRun;
  }

  lemma AgentFollows(run: Lease, t: seq<Event>, r: Reply, input: map<string, Json>)
    requires !IsBrowserRun(run)
    ensures r.Returned? ==> Follows(run, t + [Event(SetRunning, r)], RunAgent(input))
    ensures r.Raised? ==> FailureCode(run, t + [Event(SetRunning, r)]) == RUN_FAILED
  {
    hide Watching, IsBrowserRun;
    assert Last(t + [Event(SetRunning, r)]) == Event(SetRunning, r);
  }

  lemma AgentEnds(run: Lease, t: seq<Event>, r: Reply, input: map<string, Json>)
    ensures r.Returned? ==> EndAgent(t + [Event(RunAgent(input), r)])
    ensures r.Raised? ==> FailureCode(run, t + [Event(RunAgent(input), r)]) == RUN_FAILED
  {
    hide Watching;
    assert Last(t + [Event(RunAgent(input), r)]) == Event(RunAgent(input), r);
  }

  /** Status, and the Agent itself. `run_agent` returns an exit code. */
  method ExecuteAgent(run: Lease, env: Env, t: seq<Event>, claim: Option<Claim>, input: map<string, Json>)
    returns (flow: Flow, u: seq<Event>, exit: Json)
    requires Holding(run, env, t, claim, None) && EndSecrets(run, t)
    requires InputSoFar(run, Watching(run, t), input, Dropped(run), GivenKeys(run))
    requires (claim.Some? <==> run.queue) && !IsBrowserRun(run) && FitForAgent(run)
    ensures Settled(run, env, flow, u) && !flow.Done?
    ensures flow.Next? ==> Holding(run, env, u, claim, Some(exit)) && EndAgent(u)
  {
    hide Watching, Kept, Observe, FitForAgent, Assembled, GivenKeys, Dropped, Misfit, AcquisitionFault, WebFault,
      AllStored, FailureCode, Follows, EndSecrets, EndAgent, IsBrowserRun;
    u, exit := t, Null;
    var r;
    RunningFollows(run, t);
    r, u := ReportRunning(run, env, u);
    AgentFollows(run, t, r, input);
    if r.Raised? { return Thrown(r.error), u, exit; }
    var v := u;
    r, u := LaunchAgent(run, env, u, input);
    AgentEnds(run, v, r, input);
    if r.Raised? { return Thrown(r.error), u, exit; }
    flow, exit := Next, r.value;
  }

  /** The loop over the mutations of an accepted output: it stops at the first that is not acknowledged. */
  method MutateAll(run: Lease, env: Env, t: seq<Event>, claim: Option<Claim>, exit: Json, o: Output)
    returns (flow: Flow, u: seq<Event>)
    requires Written(run, env, t, claim, exit, false, false) && exit == Num(0) && |o.mutations| <= 4
    requires var w := Watching(run, t);
             w.wanted == Some(Output(o.result, Wanted(o, claim))) && w.mutations == 0 && w.stored == []
    requires Storing(run, t) && run.kv
    ensures !flow.Done? && Written(run, env, u, claim, exit, flow.Next?, false)
    ensures flow.Thrown? ==> Watching(run, u).bad && FailureCode(run, u) == WriteCode(flow.error) && !EndDataset(run, u)
    ensures flow.Next? ==> Follows(run, u, WriteResult(o.result))
    ensures var w, v := Watching(run, t), Watching(run, u);
            && v.refused == w.refused
            && v.stray == (w.stray || (flow.Thrown? && !KvWriteFails(flow.error)))
  {
    hide Watching, Kept, Observe, Allowed, Persisted, KvWriteFails, FailureCode, Follows, Storing, EndDataset, Wanted,
      WriteCode;
    u := t;
    var r;
    WantedLength(o, claim);
    for i := 0 to |o.mutations|
      invariant Written(run, env, u, claim, exit, false, false)
      invariant Storing(run, u)
      invariant var w := Watching(run, u);
                && w.wanted == Some(Output(o.result, Wanted(o, claim)))
                && w.mutations == i && w.stored == Wanted(o, claim)[..i]
                && w.stray == Watching(run, t).stray && w.refused == Watching(run, t).refused
    {
      var mutation := o.mutations[i];
      if claim.Some? { mutation := Persisted(mutation, claim.value.requestId, i); }
      WantedIs(o, claim, i);
      assert Wanted(o, claim)[..i + 1] == Wanted(o, claim)[..i] + [mutation];
      StoringFollows(run, u, mutation);
      var v := u;
      r, u := Mutate(run, env, u, mutation);
      MutateCodes(run, v, mutation, r);
      if r.Raised? { return Thrown(r.error), u; }
    }
    assert Wanted(o, claim)[..|o.mutations|] == Wanted(o, claim);
    WriteFollows(run, u);
    flow := Next;
  }

  function WriteCode(e: Exception): string
  {
    if KvWriteFails(e) then "KV_MUTATION_FAILED" else RUN_FAILED
  }

  lemma WantedLength(o: Output, claim: Option<Claim>)
    requires |o.mutations| <= 4
    ensures |Wanted(o, claim)| == |o.mutations|
  {
  }

  lemma WantedIs(o: Output, claim: Option<Claim>, i: nat)
    requires |o.mutations| <= 4 && i < |o.mutations|
    ensures i < |Wanted(o, claim)|
    ensures Wanted(o, claim)[i] ==
            if claim.Some? then Persisted(o.mutations[i], claim.value.requestId, i) else o.mutations[i]
  {
    hide Persisted;
  }

  lemma StoringFollows(run: Lease, t: seq<Event>, m: map<string, Json>)
    requires Storing(run, t)
    ensures Follows(run, t, KvMutate(m))
  {
    hide Storing;
  }

  lemma WriteFollows(run: Lease, t: seq<Event>)
    requires Storing(run, t) && Watching(run, t).wanted.Some?
    requires Watching(run, t).stored == Watching(run, t).wanted.value.mutations
    ensures Follows(run, t, WriteResult(Watching(run, t).wanted.value.result))
  {
    hide Storing, Watching;
  }

  lemma MutateCodes(run: Lease, t: seq<Event>, m: map<string, Json>, r: Reply)
    ensures var u := t + [Event(KvMutate(m), r)];
            && (r.Returned? && Watching(run, u).wanted.Some? ==> Storing(run, u))
            && (r.Raised? ==> FailureCode(run, u) == WriteCode(r.error) && !EndDataset(run, u))
  {
    hide Watching, KvWriteFails;
    assert Last(t + [Event(KvMutate(m), r)]) == Event(KvMutate(m), r);
  }

  lemma OutputCodes(run: Lease, t: seq<Event>, r: Reply)
    ensures var u := t + [Event(ReadKvOutput, r)];
            && !EndDataset(run, u)
            && (r.Raised? ==> FailureCode(run, u) == WriteCode(r.error))
            && (r.Returned? && Watching(run, u).wanted.Some? ==> Storing(run, u))
            && (r.Returned? && Watching(run, u).wanted.None? ==> FailureCode(run, u) == "KV_MUTATION_FAILED")
  {
    hide Watching, KvWriteFails, Pending;
    assert Last(t + [Event(ReadKvOutput, r)]) == Event(ReadKvOutput, r);
  }

  lemma ResultCodes(run: Lease, t: seq<Event>, result: Json, r: Reply)
    requires run.kv
    ensures var u := t + [Event(WriteResult(result), r)];
            && (r.Raised? ==> FailureCode(run, u) == WriteCode(r.error))
            && (r.Raised? && ExitsZero(run, u) ==> !EndDataset(run, u))
            && (r.Returned? && ExitsZero(run, u) ==> EndKv(run, u))
  {
    hide Watching, KvWriteFails;
    assert Last(t + [Event(WriteResult(result), r)]) == Event(WriteResult(result), r);
  }

  lemma OutputFollows(run: Lease, t: seq<Event>)
    requires run.kv && ExitsZero(run, t) && EndAgent(t)
    ensures Follows(run, t, ReadKvOutput)
  {
    hide ExitsZero, EndAgent;
  }

  /** The inner `try` of the Key-Value stage. */
  method StoreOutput(run: Lease, env: Env, t: seq<Event>, claim: Option<Claim>, exit: Json)
    returns (flow: Flow, u: seq<Event>)
    requires Holding(run, env, t, claim, Some(exit)) && run.kv && exit == Num(0) && EndAgent(t)
    ensures !flow.Done? && Written(run, env, u, claim, exit, flow.Next?, false)
    ensures var v := Watching(run, u);
            && (flow.Thrown? ==> v.bad) && !v.refused
            && v.stray == (flow.Thrown? && !KvWriteFails(flow.error))
    ensures if flow.Thrown? then FailureCode(run, u) == WriteCode(flow.error) && !EndDataset(run, u) else EndKv(run, u)
  {
    hide Watching, Kept, Observe, AcceptedOutput, Wanted, FailureCode, Follows, EndAgent, EndKv, EndDataset, Storing,
      Handles;
    var r;
    OutputFollows(run, t);
    assert KvWriteFails(KvBoundaryError) by { BoundaryIsWritten(); }
    hide KvWriteFails;
    r, u := ReadOutput(run, env, t);
    OutputCodes(run, t, r);
    if r.Raised? { return Thrown(r.error), u; }
    var output := AcceptedOutput(run.lib, r.value);
    if output.None? { return Thrown(KvBoundaryError), u; }
    flow, u := MutateAll(run, env, u, claim, exit, output.value);
    if flow.Thrown? { return; }
    var v := u;
    r, u := AskGuarded(run, env, u, WriteResult(output.value.result));
    ResultCodes(run, v, output.value.result, r);
    if r.Raised? {
      ResultHandled(output.value.result, r.error);
      flow := Thrown(r.error);
    }
  }

  lemma BoundaryIsWritten()
    ensures KvWriteFails(KvBoundaryError)
  {
  }

  lemma ResultHandled(result: Json, e: Exception)
    ensures Handles(WriteResult(result), e) == KvWriteFails(e)
  {
    hide KvWriteFails;
  }

  lemma HeldIsWritten(run: Lease, env: Env, t: seq<Event>, claim: Option<Claim>, exit: Json)
    requires Holding(run, env, t, claim, Some(exit)) && (run.kv ==> exit != Num(0))
    ensures Written(run, env, t, claim, exit, true, false) && !Watching(run, t).stray
  {
    hide Watching, Kept;
  }

  /** The Key-Value output of a successful Agent. */
  method WriteKeyValues(run: Lease, env: Env, t: seq<Event>, claim: Option<Claim>, exit: Json)
    returns (flow: Flow, u: seq<Event>)
    requires Holding(run, env, t, claim, Some(exit)) && Cleared(run, claim) && EndAgent(t)
    ensures Settled(run, env, flow, u) && (flow.Done? ==> flow.word.Failed?)
    ensures flow.Next? ==> Written(run, env, u, claim, exit, true, false) && Completable(run, u, claim) && EndKv(run, u)
  {
    hide Watching, Kept, Observe, Allowed, KvWriteFails, AcquisitionFault, WebFault, Settled, Misfit, AllStored,
      FailureCode, EndAgent, EndDataset;
    u, flow := t, Next;
    if !run.kv || exit != Num(0) {
      HeldIsWritten(run, env, t, claim, exit);
      NextSettles(run, env, t);
      return;
    }
    flow, u := StoreOutput(run, env, u, claim, exit);
    if flow.Next? {
      NextSettles(run, env, u);
    } else if KvWriteFails(flow.error) {
      flow, u := FailClosed(run, env, u, claim, "KV_MUTATION_FAILED");
    } else {
      StraySettles(run, env, u, flow.error);
    }
  }

  /** The Agent's output made into an append, or the exception that stands for its refusal. */
  method ReadAppend(run: Lease, env: Env, t: seq<Event>, claim: Option<Claim>)
    returns (flow: Flow, u: seq<Event>, payload: Json)
    requires Kept(run, env, t) && run.dataset
    requires var w := Watching(run, t);
             w.exit == Some(Num(0)) && w.claim == claim && w.queueCompletions == 0 && w.append.Unread?
    requires EndKv(run, t)
    ensures !flow.Done? && Kept(run, env, u) && !EndDataset(run, u)
    ensures flow.Thrown? ==> Watching(run, u) == AppendRaised(Watching(run, t), Unfit, flow.error)
    ensures flow.Thrown? ==> FailureCode(run, u) == AppendCode(flow.error)
    ensures flow.Next? ==>
              Watching(run, u) == Watching(run, t).(append := Fit(payload)) && Follows(run, u, DatasetAppend(payload))
  {
    hide Watching, Kept, Observe, Allowed, Dataset.Accepted, DatasetRequest, AppendRaised, FailureCode, EndKv,
      EndDataset, Follows, AppendCode;
    var r;
    payload := Null;
    DatasetFollows(run, t);
    r, u := ReadDataset(run, env, t);
    DatasetCodes(run, t, r);
    RaisedAppend(Watching(run, t), Unfit, DatasetProtocolError);
    if r.Raised? { return Thrown(r.error), u, payload; }
    if !r.value.Obj? { return Thrown(DatasetProtocolError), u, payload; }
    payload := DatasetRequest(r.value.fields, claim);
    flow := if Dataset.Accepted(run.lib, payload).None? then Thrown(DatasetProtocolError) else Next;
  }

  /** The inner `try` of the Dataset stage. */
  method AppendOutput(run: Lease, env: Env, t: seq<Event>, claim: Option<Claim>) returns (flow: Flow, u: seq<Event>)
    requires Kept(run, env, t) && run.dataset
    requires var w := Watching(run, t);
             && w.exit == Some(Num(0)) && w.claim == claim && w.queueCompletions == 0 && w.append.Unread?
             && w.acked.None? && w.activated
    requires EndKv(run, t)
    ensures !flow.Done? && Kept(run, env, u)
    ensures flow.Thrown? ==> AppendFailed(Watching(run, t), Watching(run, u), flow.error)
    ensures flow.Next? ==> Watching(run, u) == Watching(run, t).(append := Stored)
    ensures if flow.Thrown? then FailureCode(run, u) == AppendCode(flow.error) && !EndDataset(run, u)
            else EndDataset(run, u)
  {
    hide Watching, Kept, Observe, Allowed, AppendRaised, FailureCode, EndKv, EndDataset, Follows, AppendCode;
    var payload;
    flow, u, payload := ReadAppend(run, env, t, claim);
    if flow.Thrown? { return; }
    var r;
    var v := u;
    r, u := Append(run, env, u, payload);
    AppendCodes(run, v, payload, r);
    if r.Raised? { RaisedAppend(Watching(run, v), Sent, r.error); }
    if r.Raised? { SentRaised(Watching(run, t), payload, r.error); }
    flow := if r.Raised? then Thrown(r.error) else Next;
  }

  function AppendCode(e: Exception): string
  {
    if DatasetWriteFails(e) then "DATASET_APPEND_FAILED" else RUN_FAILED
  }

  lemma RaisedAppend(w: Watch, at: Appending, e: Exception)
    ensures AppendRaised(w, at, e).append == at && AppendRaised(w, at, e).exit == w.exit
  {
  }

  lemma DatasetFollows(run: Lease, t: seq<Event>)
    requires run.dataset && Watching(run, t).exit == Some(Num(0)) && EndKv(run, t)
    ensures Follows(run, t, ReadDatasetOutput)
  {
    hide EndKv, Watching;
  }

  lemma DatasetCodes(run: Lease, t: seq<Event>, r: Reply)
    ensures var u := t + [Event(ReadDatasetOutput, r)];
            && !EndDataset(run, u)
            && (r.Raised? ==> FailureCode(run, u) == AppendCode(r.error))
            && (r.Returned? && !Watching(run, u).append.Fit? ==>
                FailureCode(run, u) == AppendCode(DatasetProtocolError))
            && (r.Returned? ==> forall request :: Follows(run, u, DatasetAppend(request)))
  {
    hide Watching, Pending;
    assert Last(t + [Event(ReadDatasetOutput, r)]) == Event(ReadDatasetOutput, r);
  }

  lemma AppendCodes(run: Lease, t: seq<Event>, request: Json, r: Reply)
    requires run.dataset
    ensures var u := t + [Event(DatasetAppend(request), r)];
            ExitsZero(run, u) ==>
              && (r.Raised? ==> FailureCode(run, u) == AppendCode(r.error) && !EndDataset(run, u))
              && (r.Returned? ==> EndDataset(run, u))
  {
    hide Watching, DatasetWriteFails;
    assert Last(t + [Event(DatasetAppend(request), r)]) == Event(DatasetAppend(request), r);
  }

  lemma SentRaised(w: Watch, request: Json, e: Exception)
    ensures AppendRaised(w.(append := Fit(request)), Sent, e) == AppendRaised(w, Sent, e)
  {
  }

  /** The output could not be read or used, or the request made of it was not acknowledged. */
  predicate AppendFailed(w: Watch, v: Watch, e: Exception)
  {
    v == AppendRaised(w, Unfit, e) || v == AppendRaised(w, Sent, e)
  }

  lemma FailedKeeps(w: Watch, v: Watch, e: Exception)
    requires AppendFailed(w, v, e)
    ensures && v.claim == w.claim && v.queueCompletions == w.queueCompletions && v.completions == w.completions
            && v.acked == w.acked && v.activated == w.activated && v.refused == w.refused && v.bad
            && v.stray == (w.stray || !DatasetWriteFails(e))
  {
    hide DatasetWriteFails, AppendRaised;
    RaisedKeeps(w, Unfit, e);
    RaisedKeeps(w, Sent, e);
  }

  lemma RaisedKeeps(w: Watch, at: Appending, e: Exception)
    ensures var v := AppendRaised(w, at, e);
            && v.claim == w.claim && v.queueCompletions == w.queueCompletions && v.completions == w.completions
            && v.acked == w.acked && v.activated == w.activated && v.refused == w.refused && v.bad
            && v.stray == (w.stray || !DatasetWriteFails(e))
  {
    hide DatasetWriteFails;
  }

  lemma StoredKeeps(run: Lease, w: Watch)
    ensures AllStored(run, w.(append := Stored)) == AllStored(run, w)
  {
  }

  lemma WrittenAppended(run: Lease, env: Env, t: seq<Event>, u: seq<Event>, claim: Option<Claim>, exit: Json,
                        flow: Flow)
    requires Written(run, env, t, claim, exit, true, false) && Kept(run, env, u) && exit == Num(0)
    requires flow.Thrown? ==> AppendFailed(Watching(run, t), Watching(run, u), flow.error)
    requires flow.Next? ==> Watching(run, u) == Watching(run, t).(append := Stored)
    requires !flow.Done?
    ensures flow.Next? ==> Written(run, env, u, claim, exit, true, true)
    ensures var w, v := Watching(run, t), Watching(run, u);
            && v.claim == claim && v.queueCompletions == 0 && v.completions == 0 && v.acked.None? && v.activated
            && v.refused == w.refused && v.stray == (w.stray || (flow.Thrown? && !DatasetWriteFails(flow.error)))
            && (flow.Thrown? ==> v.bad)
  {
    hide Watching, Kept, DatasetWriteFails, AppendFailed, AllStored;
    if flow.Thrown? {
      FailedKeeps(Watching(run, t), Watching(run, u), flow.error);
    } else {
      StoredKeeps(run, Watching(run, t));
    }
  }

  /** The Dataset output of a successful Agent. */
  method AppendDataset(run: Lease, env: Env, t: seq<Event>, claim: Option<Claim>, exit: Json)
    returns (flow: Flow, u: seq<Event>)
    requires Written(run, env, t, claim, exit, true, false) && Completable(run, t, claim) && EndKv(run, t)
    ensures Settled(run, env, flow, u) && (flow.Done? ==> flow.word.Failed?)
    ensures flow.Next? ==>
            Written(run, env, u, claim, exit, true, true) && Completable(run, u, claim) && EndDataset(run, u)
  {
    hide Watching, Kept, Observe, Allowed, DatasetWriteFails, Serviceable, Settled, Misfit, AllStored, AppendFailed,
      FailureCode, EndKv;
    u, flow := t, Next;
    if !run.dataset || exit != Num(0) {
      NextSettles(run, env, t);
      return;
    }
    flow, u := AppendOutput(run, env, u, claim);
    WrittenAppended(run, env, t, u, claim, exit, flow);
    if flow.Next? {
      NextSettles(run, env, u);
    } else if DatasetWriteFails(flow.error) {
      flow, u := FailClosed(run, env, u, claim, "DATASET_APPEND_FAILED");
    } else {
      StraySettles(run, env, u, flow.error);
    }
  }

  /** After the queue completion: what the lease completion still has to say. */
  predicate Answerable(run: Lease, env: Env, t: seq<Event>, exit: Json)
  {
    && Kept(run, env, t)
    && Allowed(run, Watching(run, t), Complete(if exit == Num(0) then Succeeded else Failed, ""))
    && Watching(run, t).completions == 0 && !Watching(run, t).idle && Watching(run, t).exit == Some(exit)
    && Watching(run, t).activated && Watching(run, t).acked.None?
    && Served(run, Watching(run, t))
    && (exit != Num(0) ==> Watching(run, t).bad)
  }

  lemma SucceededAllowed(run: Lease, w: Watch)
    requires w.acked.None? && w.completions < 3 && (w.held ==> w.handled)
    requires w.exit == Some(Num(0)) && AllStored(run, w) && (run.dataset ==> w.append.Stored?)
    ensures Allowed(run, w, Complete(Succeeded, ""))
  {
    hide AllStored;
  }

  lemma AnswerableAlone(run: Lease, env: Env, t: seq<Event>, exit: Json)
    requires Written(run, env, t, None, exit, true, true)
    ensures Answerable(run, env, t, exit)
  {
    hide Watching, Kept, Allowed;
    if exit == Num(0) { SucceededAllowed(run, Watching(run, t)); } else { FailedAllowed(run, Watching(run, t), ""); }
  }

  lemma AnswerableAfter(run: Lease, env: Env, t: seq<Event>, u: seq<Event>, claim: Claim, exit: Json, r: Reply)
    requires Written(run, env, t, Some(claim), exit, true, true) && Completable(run, t, Some(claim))
             && Kept(run, env, u)
    requires Watching(run, u) == QueueCompleted(Watching(run, t), exit == Num(0), r)
    ensures Served(run, Watching(run, u))
    ensures r.Returned? ==> Answerable(run, env, u, exit)
  {
    hide Watching, Kept, Allowed, Serviceable;
    if r.Returned? {
      if exit == Num(0) { SucceededAllowed(run, Watching(run, u)); } else { FailedAllowed(run, Watching(run, u), ""); }
    }
  }

  method CompleteRequest(run: Lease, env: Env, t: seq<Event>, claim: Option<Claim>, exit: Json)
    returns (flow: Flow, u: seq<Event>)
    requires Written(run, env, t, claim, exit, true, true) && Completable(run, t, claim) && EndDataset(run, t)
    ensures Settled(run, env, flow, u) && (flow.Done? ==> flow.word.Failed?)
    ensures flow.Next? ==> Answerable(run, env, u, exit) && EndRequest(run, u)
  {
    hide Watching, Kept, Observe, Allowed, Serviceable, Misfit, AllStored, Answerable, FailureCode, Follows, EndDataset,
      ClaimFails;
    u, flow := t, Next;
    if claim.None? {
      AnswerableAlone(run, env, t, exit);
      return;
    }
    var r;
    RequestFollows(run, t, claim.value);
    r, u := CompleteQueue(run, env, u, claim.value, exit == Num(0), "AGENT_EXIT_NONZERO");
    AnswerableAfter(run, env, t, u, claim.value, exit, r);
    RequestCodes(run, t, claim.value, exit == Num(0), r);
    CompleteFollows(run, u);
    if r.Raised? && r.error.WorkerProtocolError? {
      FailedAllowed(run, Watching(run, u), "REQUEST_QUEUE_COMPLETION_FAILED");
      flow, u := Finish(run, env, u, Failed, "REQUEST_QUEUE_COMPLETION_FAILED");
    } else if r.Raised? {
      flow := Thrown(r.error);
    }
  }

  lemma RequestFollows(run: Lease, t: seq<Event>, claim: Claim)
    requires EndDataset(run, t)
    ensures Follows(run, t, QueueComplete(claim, ExitsZero(run, t), "AGENT_EXIT_NONZERO"))
  {
    hide EndDataset, ExitsZero;
  }

  lemma RequestCodes(run: Lease, t: seq<Event>, claim: Claim, handled: bool, r: Reply)
    ensures var u := t + [Event(QueueComplete(claim, handled, "AGENT_EXIT_NONZERO"), r)];
            && (r.Raised? ==>
                  FailureCode(run, u)
                  == if r.error.WorkerProtocolError? then "REQUEST_QUEUE_COMPLETION_FAILED" else RUN_FAILED)
            && (r.Returned? && Watching(run, u).claim.Some? && Watching(run, u).exit.Some?
                && handled == ExitsZero(run, u) ==>
                  EndRequest(run, u))
  {
    hide Watching;
    var e := Event(QueueComplete(claim, handled, "AGENT_EXIT_NONZERO"), r);
    assert Last(t + [e]) == e;
  }

  /** The output and the log, where there are any. */
  method CollectArtifacts(run: Lease, env: Env, t: seq<Event>, exit: Json)
    returns (flow: Flow, u: seq<Event>, count: nat)
    requires Answerable(run, env, t, exit) && EndRequest(run, t)
    ensures Settled(run, env, flow, u) && !flow.Done?
    ensures flow.Next? ==> Answerable(run, env, u, exit) && BetweenUploads(u) && Pending(u) == count
  {
    hide Answerable, Settled, Pending, EndRequest, After, Follows;
    var r;
    ArtifactFollows(run, t);
    flow, u, r := CollectOne(run, env, t, CollectOutput, exit);
    count := 0;
    if flow.Thrown? { return; }
    UploadCounted(t, Event(CollectOutput, r));
    if r == Returned(Bool(true)) { count := 1; }
    var v := u;
    ArtifactFollows(run, u);
    flow, u, r := CollectOne(run, env, u, CollectLog, exit);
    UploadCounted(v, Event(CollectLog, r));
    if r == Returned(Bool(true)) { count := count + 1; }
  }

  method CollectOne(run: Lease, env: Env, t: seq<Event>, c: Call, exit: Json)
    returns (flow: Flow, u: seq<Event>, r: Reply)
    requires Answerable(run, env, t, exit) && (c == CollectOutput || c == CollectLog) && Follows(run, t, c)
    ensures Settled(run, env, flow, u) && !flow.Done? && u == t + [Event(c, r)]
    ensures flow.Next? ==> Answerable(run, env, u, exit) && After(u, c)
  {
    hide Watching, Kept, Observe, Allowed, Misfit, IsClient, Serviceable, Refused, FailureCode, Follows, After;
    flow, u, r := TryAside(run, env, t, c);
  }

  lemma SuccessFollows(run: Lease, t: seq<Event>)
    requires EndUploads(t) && Watching(run, t).exit == Some(Num(0))
    ensures Follows(run, t, Complete(Succeeded, ""))
  {
    hide Watching, EndUploads;
  }

  lemma ExitCode(run: Lease, t: seq<Event>)
    requires EndUploads(t) && Watching(run, t).exit.Some? && Watching(run, t).exit != Some(Num(0))
    ensures FailureCode(run, t) == "AGENT_EXIT_NONZERO"
  {
    hide Watching, Pending;
  }

  /** The queue completion, the artifacts and the lease completion. */
  method ConcludeRun(run: Lease, env: Env, t: seq<Event>, claim: Option<Claim>, exit: Json)
    returns (flow: Flow, u: seq<Event>)
    requires Written(run, env, t, claim, exit, true, true) && Completable(run, t, claim) && EndDataset(run, t)
    ensures !flow.Next? && Settled(run, env, flow, u)
    ensures flow == Done(Succeeded) ==> exit == Num(0)
  {
    hide Watching, Kept, Observe, Allowed, Misfit, Serviceable, FailureCode, Follows, EndDataset, EndRequest,
      BetweenUploads, EndUploads, Pending, ClaimFails;
    flow, u := CompleteRequest(run, env, t, claim, exit);
    if !flow.Next? { return; }
    var count;
    flow, u, count := CollectArtifacts(run, env, u, exit);
    if !flow.Next? { return; }
    flow, u := Upload(run, env, u, count);
    if !flow.Next? { return; }
    if exit == Num(0) {
      SuccessFollows(run, u);
      flow, u := Finish(run, env, u, Succeeded, "");
    } else {
      ExitCode(run, u);
      CompleteFollows(run, u);
      FailedAllowed(run, Watching(run, u), "AGENT_EXIT_NONZERO");
      flow, u := Finish(run, env, u, Failed, "AGENT_EXIT_NONZERO");
    }
  }

  lemma InputKept(run: Lease, env: Env, t: seq<Event>, u: seq<Event>, input: map<string, Json>, claim: Option<Claim>)
    requires Holding(run, env, t, claim, None) && Holding(run, env, u, claim, None)
    requires Watching(run, u).given == Watching(run, t).given
    requires InputSoFar(run, Watching(run, t), input, Dropped(run), GivenKeys(run))
    ensures InputSoFar(run, Watching(run, u), input, Dropped(run), GivenKeys(run))
  {
    hide Watching, Kept, Assembled, Dropped, GivenKeys;
  }

  lemma FitGathered(run: Lease)
    requires run.authorized && !run.cancel && (run.credential ==> CredentialFits(run))
    requires if run.queue then run.queueId.Some? && !AcquisitionFault(run) else !run.queueHttp && !run.queueBrowser
    requires !KvReserved(run) && !WebFault(run)
    ensures FitForAgent(run)
  {
  }

  /** The body of the outer `try`. */
  method RunLease(run: Lease, env: Env, t: seq<Event>) returns (flow: Flow, u: seq<Event>)
    requires Kept(run, env, t) && Watching(run, t) == START && After(t, MakeWorkspace) && run.authorized && !run.cancel
    ensures !flow.Next? && Settled(run, env, flow, u)
  {
    hide Watching, Kept, Observe, Misfit, Serviceable, CredentialFits, FitForAgent, Cleared, AcquisitionFault, WebFault,
      FailureCode, After, EndPrepare, EndClaim, EndAcquire, EndRead, EndWeb, EndSecrets, EndAgent, EndKv, EndDataset,
      InputSoFar, Holding, Written, Settled, Completable, KvReserved, IsBrowserRun, ReservesQueueKeys;
    flow, u := Prepare(run, env, t);
    if !flow.Next? { return; }
    SettledKept(run, env, u);
    if IsBrowserRun(run) {
      flow, u := BrowserRun(run, env, u);
      return;
    }
    flow, u := FetchImage(run, env, u);
    if !flow.Next? { return; }
    SettledKept(run, env, u);
    var claim, input;
    flow, u, claim, input := ClaimWork(run, env, u);
    if !flow.Next? { return; }
    flow, u, input := AcquireWork(run, env, u, claim, input);
    if !flow.Next? { return; }
    flow, u, input := ReadKeyValues(run, env, u, claim, input);
    if !flow.Next? { return; }
    flow, u, input := FetchWebIntent(run, env, u, claim, input);
    if !flow.Next? { return; }
    ghost var v := u;
    flow, u := FetchSecrets(run, env, u, claim);
    if !flow.Next? { return; }
    InputKept(run, env, v, u, input, claim);
    FitGathered(run);
    var exit;
    flow, u, exit := ExecuteAgent(run, env, u, claim, input);
    if !flow.Next? { return; }
    flow, u := WriteKeyValues(run, env, u, claim, exit);
    if !flow.Next? { return; }
    flow, u := AppendDataset(run, env, u, claim, exit);
    if !flow.Next? { return; }
    flow, u := ConcludeRun(run, env, u, claim, exit);
  }

  /**
   `_run`. However the calls are answered: each call comes directly after the one it should, nothing but a completion
   with the failure's own code comes after a failure, nothing is done before the activation is accepted, and the Agent
   runs prepared; HANDLED and SUCCEEDED are sent only when earned; at most one queue completion and one append are
   attempted; while a queue request is held SUCCEEDED follows an acknowledged HANDLED; at most three lease completions
   are attempted; `_run` returns a word exactly if one completion, the last call of all, was acknowledged with that
   outcome; and it fails only when a reply or the lease itself is to blame.
   */
  method Run(run: Lease, env: Env) returns (flow: Flow, t: seq<Event>)
    ensures !flow.Next? && Genuine(env, t)
    ensures HandledIsEarned(run, t) && SuccessIsEarned(run, t)
    ensures OneQueueCompletion(t) && SuccessIsHandled(t) && OneAppend(t)
    ensures CompletionIsExact(run, t)
    ensures AgentIsPrepared(run, t) && NothingBeforeActivation(t) && Lawful(run, t)
    ensures Ordered(run, t) && FailureStops(t) && CodesAreRight(run, t)
    ensures |Completions(t)| <= 3
    ensures flow.Done? ==> AnsweredOnce(t, flow.word)
    ensures flow.Thrown? ==> NeverAnswered(t) && EndsRaising(t, flow.error)
    ensures flow.Thrown? || flow.word.Failed? ==> Blamed(run, t)
    ensures flow == Done(Aborted) ==> run.cancel
    ensures flow == Done(Succeeded) ==> !run.cancel && run.authorized
  {
    hide Watching, Lawful, Genuine, Ordered, FailureStops, CodesAreRight, Earned, Misfit, Fails, LastCall, Served,
      CompletionIsExact;
    flow, t := RunWatched(run, env);
    OrderTold(run, t);
    LawfulEarned(run, t);
    LawfulQueue(run, t);
    LawfulAppend(run, t);
    LawfulPreparation(run, t);
    ServedShown(run, t);
    ThreeCompletions(run, t);
    AnswersShown(run, t);
    if Watching(run, t).bad { BadShown(run, t); }
  }

  lemma Begins(run: Lease, env: Env)
    ensures Kept(run, env, []) && Watching(run, []) == START
    ensures !run.authorized ==> Misfit(run) && FailureCode(run, []) == "SANDBOX_POLICY_DENIED"
  {
  }

  /** `_run`, seen through its watch. */
  method RunWatched(run: Lease, env: Env) returns (flow: Flow, t: seq<Event>)
    ensures !flow.Next? && Kept(run, env, t)
    ensures flow.Done? ==> Watching(run, t).acked == Some(flow.word)
    ensures flow.Thrown? ==> Watching(run, t).acked.None? && EndsRaising(t, flow.error)
    ensures Served(run, Watching(run, t))
    ensures flow.Thrown? || flow.word.Failed? ==> Misfit(run) || Watching(run, t).bad
    ensures flow == Done(Aborted) ==> run.cancel
    ensures flow == Done(Succeeded) ==> !run.cancel && run.authorized
  {
    hide Watching, Kept, Observe, AllStored, Misfit, Serviceable, FailureCode, ClaimFails, After, Follows;
    var r;
    t := [];
    Begins(run, env);
    CompleteFollows(run, t);
    ArtifactFollows(run, t);
    if run.cancel {
      flow, t, r := TryAside(run, env, t, CancelRun);
      if flow.Thrown? { return; }
      ArtifactFollows(run, t);
      flow, t := Finish(run, env, t, Aborted, "");
      return;
    }
    if !run.authorized {
      flow, t := Finish(run, env, t, Failed, "SANDBOX_POLICY_DENIED");
      return;
    }
    flow, t, r := TryAside(run, env, t, MakeWorkspace);
    if flow.Thrown? { return; }
    flow, t := RunLease(run, env, t);
    if flow.Thrown? {
      CompleteFollows(run, t);
      flow, t := Finish(run, env, t, Failed, "SANDBOX_RUN_FAILED");
    }
  }
}
