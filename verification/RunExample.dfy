/** A run that fails its lease and leaves its queue request claimed. */
module RunExample {
  import opened Utf8
  import opened Json
  import opened Egress
  import opened QueueHttp
  import opened RunTrace
  import opened RunOrder
  import opened RunCalls
  import opened RunProtocol

  /** A lease with a queue and nothing else. */
  function QueueLease(): Lease
  {
    Lease(lib := SampleLibrary([]), cancel := false, authorized := true, credential := false, bindingDigest := false,
          profile := Offline, queueId := Some(SAMPLE_QUEUE), queue := true, queueHttp := false, queueBrowser := false,
          kv := false, dataset := false, egressPolicy := false, browserPolicy := false, inputReference := true,
          input := map[], webFetch := false, secrets := false)
  }

  function WithData(data: Json): Reply
  {
    Returned(Obj(map["data" := data]))
  }

  /** Everything returns, and the queue has a valid request, but the status call meets an HTTP error. */
  function StatusRefused(t: seq<Event>, c: Call): Reply
  {
    if c.SetRunning? then Raised(WorkerProtocolError)
    else if c.QueueClaim? then WithData(SampleClaimJson(SAMPLE_SITE))
    else WithData(Obj(map[]))
  }

  lemma ReplyData(data: Json)
    requires data.Obj?
    ensures WithData(data).Returned? && WithData(data).value != Null && Data(WithData(data).value) == Some(data)
  {
  }

  lemma SiteFacts()
    ensures |SAMPLE_SITE| == 19 && Lower(SAMPLE_SITE[..19]) == SAMPLE_SITE && ' ' !in SAMPLE_SITE
  {
    assert SAMPLE_SITE[..19] == SAMPLE_SITE;
    assert Lower(SAMPLE_SITE) == SAMPLE_SITE;
  }

  lemma ClaimIsGood(queueId: string)
    requires queueId == SAMPLE_QUEUE
    ensures var r := WithData(SampleClaimJson(SAMPLE_SITE)); r.value != Null && ClaimOf(QueueLease(), queueId, r).Some?
  {
    SiteFacts();
    hide ValidateClaim, SampleLibrary, Data, Lower, WithData;
    ReplyData(SampleClaimJson(SAMPLE_SITE));
    SampleClaimValidates([], SAMPLE_SITE);
  }

  /** In such a run only a status call can be to blame, and by then the request is held. */
  lemma OnlyStatusFails(w: Watch, t: seq<Event>, e: Event)
    requires e.reply == StatusRefused(t, e.call) && Allowed(QueueLease(), w, e.call) && !e.call.RunAgent?
    requires Fails(QueueLease(), w, e)
    ensures e.call.SetRunning? && w.claim.Some?
  {
    hide ValidateClaim, SampleLibrary, Data, ClaimOf, AllStored, Assembled, WithData;
    ReplyData(Obj(map[]));
    ReplyData(SampleClaimJson(SAMPLE_SITE));
    ClaimIsGood(SAMPLE_QUEUE);
    assert e.reply.Raised? <==> e.call.SetRunning?;
  }

  lemma NeverRunning(t: seq<Event>, i: nat)
    requires Genuine(StatusRefused, t) && i <= |t|
    ensures !DidBefore(t, i, SetRunning)
  {
    hide WithData;
  }

  lemma NeverRuns(t: seq<Event>, i: nat)
    requires Genuine(StatusRefused, t) && AgentIsPrepared(QueueLease(), t) && i < |t|
    ensures !t[i].call.RunAgent?
  {
    hide DidBefore, InputIs, Watching, QueueLease;
    NeverRunning(t, i);
  }

  lemma NeverSucceeds(t: seq<Event>, i: nat)
    requires Genuine(StatusRefused, t) && AgentIsPrepared(QueueLease(), t) && Lawful(QueueLease(), t)
    requires SuccessIsEarned(QueueLease(), t) && i < |t|
    ensures !SendsSucceeded(t[i])
  {
    hide Watching, AgentIsPrepared, ClaimedBy, AppendsOutput, StoredAll, ReadsOutput, Genuine, Lawful;
    forall j | 0 <= j < i ensures !NoAgentNeeded(t[j]) { AgentNeeded(t, j); }
    if SendsSucceeded(t[i]) {
      var j :| 0 <= j < |t[..i]| && Exited(t[..i][j], Num(0));
      assert t[j] == t[..i][j];
      NeverRuns(t, j);
    }
  }

  lemma AgentNeeded(t: seq<Event>, j: nat)
    requires Genuine(StatusRefused, t) && Lawful(QueueLease(), t) && j < |t|
    ensures !NoAgentNeeded(t[j])
  {
    hide Watching, AllStored, WithData, Assembled;
    ReplyData(SampleClaimJson(SAMPLE_SITE));
    LawfulPrefix(QueueLease(), t, j);
  }

  /**
   The lease is acknowledged FAILED while the request, claimed and validated, has no completion attempted: the status
   call raised what the handlers of other stages catch, and no handler stood around it.
   */
  method StrandedRequest() returns (flow: Flow, t: seq<Event>)
    ensures flow == Done(Failed) && AnsweredOnce(t, Failed)
    ensures exists j :: 0 <= j < |t| && Holds(t[j]) && Validates(QueueLease(), t[j])
    ensures !CompletionAttempted(t)
  {
    hide Watching, Lawful, Genuine, AgentIsPrepared, SuccessIsEarned, HandledIsEarned, SendsSucceeded, Serviceable,
      Fails, LastCall, Stray, WentAstray, Validates, Holds, CompletionAttempted, ClaimValidated, Misfit;
    flow, t := Run(QueueLease(), StatusRefused);
    Unraised(flow, t);
    if flow == Done(Succeeded) {
      var i :| 0 <= i < |t| && Acknowledged(t[i]) && t[i].call.outcome == Succeeded && LastCall(t, i);
      Sends(t[i]);
      NeverSucceeds(t, i);
    }
    Stranded(t);
  }

  lemma Sends(e: Event)
    requires Acknowledged(e) && e.call.outcome == Succeeded
    ensures SendsSucceeded(e)
  {
  }

  lemma Unraised(flow: Flow, t: seq<Event>)
    requires Genuine(StatusRefused, t)
    ensures !(flow.Thrown? && EndsRaising(t, flow.error))
  {
    hide WithData;
    ReplyData(Obj(map[]));
  }

  lemma Stranded(t: seq<Event>)
    requires Genuine(StatusRefused, t) && Lawful(QueueLease(), t) && AgentIsPrepared(QueueLease(), t)
    requires Blamed(QueueLease(), t) && CompletionIsExact(QueueLease(), t)
    ensures exists j :: 0 <= j < |t| && Holds(t[j]) && Validates(QueueLease(), t[j])
    ensures !CompletionAttempted(t)
  {
    hide Watching, Lawful, AgentIsPrepared, Allowed, Fails, ClaimOf, AcquisitionFault, WebFault, Handles, Data,
      CompletionAttempted, ClaimValidated;
    var run := QueueLease();
    assert !Misfit(run);
    var i :| 0 <= i < |t| && Fails(run, Watching(run, t[..i]), t[i]);
    LawfulPrefix(run, t, i);
    NeverRuns(t, i);
    OnlyStatusFails(Watching(run, t[..i]), t[..i], t[i]);
    assert Stray(t[i]) by { StatusStrays(t[..i], t[i]); }
    ClaimShown(run, t[..i]);
    var j :| 0 <= j < |t[..i]| && ClaimedBy(run, t[..i][j], Watching(run, t[..i]).claim.value);
    assert t[j] == t[..i][j];
    ClaimHolds(run, t[j], Watching(run, t[..i]).claim.value);
  }

  lemma StatusStrays(t: seq<Event>, e: Event)
    requires e.reply == StatusRefused(t, e.call) && e.call.SetRunning?
    ensures Stray(e)
  {
  }

  lemma ClaimHolds(run: Lease, e: Event, claim: Claim)
    requires ClaimedBy(run, e, claim)
    ensures Holds(e) && Validates(run, e)
  {
    hide ValidateClaim;
  }
}
