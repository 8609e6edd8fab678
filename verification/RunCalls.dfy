/** One call of each kind that `_run` of `worker.py` makes, and what it makes of the trace and its watch. */
module RunCalls {
  import opened Utf8
  import opened Json
  import opened Egress
  import opened KeyValue
  import opened QueueHttp
  import opened RunTrace
  import opened RunOrder
  import Dataset

  /** How a stretch of `_run` ended. */
  datatype Flow = Next | Done(word: Word) | Thrown(error: Exception)

  /** Each reply is the one the surroundings give after the events before it. */
  predicate Genuine(env: Env, t: seq<Event>)
  {
    forall i :: 0 <= i < |t| ==> t[i].reply == env(t[..i], t[i].call)
  }

  predicate Kept(run: Lease, env: Env, t: seq<Event>)
  {
    Lawful(run, t) && Genuine(env, t) && Ordered(run, t)
  }

  method Perform(run: Lease, env: Env, t: seq<Event>, c: Call) returns (r: Reply, u: seq<Event>)
    requires Kept(run, env, t) && Allowed(run, Watching(run, t), c) && Follows(run, t, c)
    ensures r == env(t, c) && u == t + [Event(c, r)]
    ensures Watching(run, u) == Observe(run, Watching(run, t), Event(c, r))
    ensures Kept(run, env, u)
  {
    hide Lawful, Allowed, Observe, Watching, Follows, Ordered;
    r := env(t, c);
    u := t + [Event(c, r)];
    LawfulSnoc(run, t, Event(c, r));
    OrderedSnoc(run, t, Event(c, r));
    assert u[..|t|] == t;
    assert forall i :: 0 <= i < |t| ==> u[..i] == t[..i];
  }

  // ---- one call of each kind, and what it makes of the watch ----

  const ACTIVATED: Watch := START.(activated := true)

  const LOADED: Watch := ACTIVATED.(loaded := true)

  function AppendRaised(w: Watch, at: Appending, e: Exception): Watch
  {
    w.(append := at, bad := true, stray := w.stray || !DatasetWriteFails(e))
  }

  /** Calls that a watch takes no notice of, unless they fail. */
  predicate Plain(c: Call)
  {
    !(c.CheckActivation? || c.LoadImage? || c.SetRunning? || c.RunBrowser? || c.RunAgent? || c.ReadKvOutput?
      || c.AcquireByBrowser? || c.AcquireByHttp? || c.CheckReadResult? || c.FetchWeb? || c.FetchLegacy?
      || c.ReadDatasetOutput? || c.QueueClaim? || c.QueueComplete?
        || c.KvMutate? || c.DatasetAppend? || c.Complete?)
  }

  lemma PlainAllowed(run: Lease, w: Watch, c: Call)
    requires Plain(c) && w.acked.None? && (IsClient(c) ==> w.activated)
    ensures Allowed(run, w, c)
  {
    hide AllStored, Assembled, Dataset.Accepted;
  }

  lemma PlainFails(run: Lease, w: Watch, c: Call, r: Reply)
    requires Plain(c)
    ensures Fails(run, w, Event(c, r)) == Refused(c, r)
    ensures Stray(Event(c, r)) || Refuses(Event(c, r)) ==> Refused(c, r)
  {
    hide Data, ClaimOf, Dataset.Accepted, AcceptedOutput, Handles;
  }

  lemma PlainObserved(run: Lease, w: Watch, c: Call, r: Reply)
    requires Plain(c)
    ensures !Refused(c, r) ==> Observe(run, w, Event(c, r)) == w
    ensures Refused(c, r) ==>
              var e := Event(c, r);
              Observe(run, w, e) == w.(bad := true, stray := w.stray || Stray(e), refused := w.refused || Refuses(e))
  {
    hide ClaimOf, WantedOf, Fails, Stray, Refuses, Refused;
    PlainFails(run, w, c, r);
  }

  method Ask(run: Lease, env: Env, t: seq<Event>, c: Call) returns (r: Reply, u: seq<Event>)
    requires Kept(run, env, t) && Follows(run, t, c)
    requires Plain(c) && Watching(run, t).acked.None? && (IsClient(c) ==> Watching(run, t).activated)
    ensures r == env(t, c) && u == t + [Event(c, r)] && Kept(run, env, u)
    ensures !Refused(c, r) ==> Watching(run, u) == Watching(run, t)
    ensures Refused(c, r) ==>
              var w, e := Watching(run, t), Event(c, r);
              Watching(run, u) == w.(bad := true, stray := w.stray || Stray(e), refused := w.refused || Refuses(e))
  {
    hide Watching, Kept, Observe, Allowed, IsClient, Plain, Refused, Stray, Refuses, Follows;
    PlainAllowed(run, Watching(run, t), c);
    r, u := Perform(run, env, t, c);
    PlainObserved(run, Watching(run, t), c, r);
  }

  lemma AsidePlain(c: Call, r: Reply)
    requires Plain(c) && !Unguarded(c) && !GuardedEarly(c) && !GuardedLate(c)
    ensures !Stray(Event(c, r)) && !Refuses(Event(c, r))
  {
    hide Handles, Data;
  }

  lemma UnguardedFate(c: Call, r: Reply)
    requires Unguarded(c) && Refused(c, r)
    ensures Stray(Event(c, r)) && !Refuses(Event(c, r))
  {
    hide Handles, Data;
  }

  /** A call that has no handler of its own is reported under the code of the catch-all. */
  lemma CatchAll(run: Lease, t: seq<Event>, c: Call, r: Reply)
    requires Refused(c, r) && Plain(c) && !GuardedEarly(c) && !GuardedLate(c)
    ensures FailureCode(run, t + [Event(c, r)]) == RUN_FAILED
  {
    hide Watching, Data, Pending, IsBrowserRun, KvReserved;
    assert Last(t + [Event(c, r)]) == Event(c, r);
  }

  /** How a call ends when nothing but its success matters. */
  function Outcome(c: Call, r: Reply): Flow
  {
    if r.Raised? then Thrown(r.error) else if Refused(c, r) then Thrown(SandboxPolicyError) else Next
  }

  /** A plain call that plays no part in the fate of a queue request. */
  method TryAside(run: Lease, env: Env, t: seq<Event>, c: Call) returns (flow: Flow, u: seq<Event>, r: Reply)
    requires Kept(run, env, t) && Watching(run, t).acked.None? && (IsClient(c) ==> Watching(run, t).activated)
    requires Plain(c) && !Unguarded(c) && !GuardedEarly(c) && !GuardedLate(c) && Follows(run, t, c)
    ensures flow == Outcome(c, r) && Kept(run, env, u) && u == t + [Event(c, r)]
    ensures Watching(run, u) == if flow.Thrown? then Watching(run, t).(bad := true) else Watching(run, t)
    ensures if flow.Thrown? then FailureCode(run, u) == RUN_FAILED else After(u, c)
  {
    hide Watching, Kept, IsClient, Plain, NeedsData, Data, Stray, Refuses, Unguarded, GuardedEarly, GuardedLate,
      Follows, FailureCode;
    r, u := Ask(run, env, t, c);
    AsidePlain(c, r);
    if Refused(c, r) { CatchAll(run, t, c, r); }
    flow := Outcome(c, r);
  }

  /** A plain call whose failure leaves a queue request alone. */
  method TryUnguarded(run: Lease, env: Env, t: seq<Event>, c: Call) returns (flow: Flow, u: seq<Event>, r: Reply)
    requires Kept(run, env, t) && Watching(run, t).acked.None? && Watching(run, t).activated
    requires Plain(c) && Unguarded(c) && Follows(run, t, c)
    ensures flow == Outcome(c, r) && Kept(run, env, u) && u == t + [Event(c, r)]
    ensures Watching(run, u) == if flow.Thrown? then Watching(run, t).(bad := true, stray := true) else Watching(run, t)
    ensures if flow.Thrown? then FailureCode(run, u) == RUN_FAILED else After(u, c)
  {
    hide Watching, Kept, IsClient, Plain, NeedsData, Data, Stray, Refuses, Unguarded, Follows, FailureCode;
    r, u := Ask(run, env, t, c);
    if Refused(c, r) {
      UnguardedFate(c, r);
      UnguardedIsAlone(c);
      CatchAll(run, t, c, r);
    }
    flow := Outcome(c, r);
  }

  lemma UnguardedIsAlone(c: Call)
    requires Unguarded(c)
    ensures !GuardedEarly(c) && !GuardedLate(c)
  {
  }

  lemma GuardedFate(c: Call, r: Reply)
    requires Refused(c, r) && (GuardedEarly(c) || c.WriteResult?)
    ensures var handled := r.Raised? && Handles(c, r.error);
            Stray(Event(c, r)) == !handled && Refuses(Event(c, r)) == (handled && GuardedEarly(c))
  {
    hide Data, Handles;
  }

  /** A plain call inside a stage with a handler. Missing data raises past the handler. */
  method AskGuarded(run: Lease, env: Env, t: seq<Event>, c: Call) returns (r: Reply, u: seq<Event>)
    requires Kept(run, env, t) && Watching(run, t).acked.None? && Watching(run, t).activated
    requires Plain(c) && (GuardedEarly(c) || c.WriteResult?) && Follows(run, t, c)
    ensures r == env(t, c) && u == t + [Event(c, r)] && Kept(run, env, u)
    ensures !Refused(c, r) ==> Watching(run, u) == Watching(run, t)
    ensures Refused(c, r) ==>
              var w, handled := Watching(run, t), r.Raised? && Handles(c, r.error);
              Watching(run, u)
              == w.(bad := true, stray := w.stray || !handled, refused := w.refused || (handled && GuardedEarly(c)))
  {
    hide Watching, Kept, IsClient, Plain, Handles, Data, Refused, Stray, Refuses, GuardedEarly, Follows;
    r, u := Ask(run, env, t, c);
    if Refused(c, r) { GuardedFate(c, r); }
  }

  /** Calls inside a stage with a handler whose result goes into the Agent's input. */
  predicate Giver(c: Call)
  {
    c.AcquireByBrowser? || c.AcquireByHttp? || c.CheckReadResult?
  }

  /** What such a call makes of a watch. */
  function Acquired(w: Watch, c: Call, r: Reply): Watch
  {
    if r.Raised? then
      w.(bad := true, stray := w.stray || !Handles(c, r.error), refused := w.refused || Handles(c, r.error))
    else w.(given := GivenAfter(w.given, Event(c, r)))
  }

  lemma GiverFate(run: Lease, w: Watch, c: Call, r: Reply)
    requires Giver(c)
    ensures var e := Event(c, r);
            && Fails(run, w, e) == r.Raised?
            && Stray(e) == (r.Raised? && !Handles(c, r.error)) && Refuses(e) == (r.Raised? && Handles(c, r.error))
  {
    hide Handles;
  }

  lemma GiverObserved(run: Lease, w: Watch, c: Call, r: Reply)
    requires Giver(c)
    ensures Observe(run, w, Event(c, r)) == Acquired(w, c, r)
  {
    hide ClaimOf, WantedOf, Fails, Stray, Refuses, Handles, GivenAfter;
    GiverFate(run, w, c, r);
    if r.Raised? { GivenUnless(w.given, Event(c, r)); }
  }

  lemma GivenUnless(given: map<string, Json>, e: Event)
    requires e.reply.Raised?
    ensures GivenAfter(given, e) == given
  {
  }

  lemma GiverAllowed(run: Lease, w: Watch, c: Call)
    requires Giver(c) && (!c.CheckReadResult? ==> w.claim == Some(c.claim))
    ensures Allowed(run, w, c)
  {
    hide AllStored, Assembled;
  }

  method AskGiver(run: Lease, env: Env, t: seq<Event>, c: Call) returns (r: Reply, u: seq<Event>)
    requires Kept(run, env, t) && Giver(c) && Follows(run, t, c)
    requires !c.CheckReadResult? ==> Watching(run, t).claim == Some(c.claim)
    ensures Kept(run, env, u) && u == t + [Event(c, r)] && Watching(run, u) == Acquired(Watching(run, t), c, r)
  {
    hide Watching, Kept, Observe, Allowed, Acquired, Giver, Follows;
    GiverAllowed(run, Watching(run, t), c);
    r, u := Perform(run, env, t, c);
    GiverObserved(run, Watching(run, t), c, r);
  }

  /** What the web requests of the Run make of a watch. */
  function Fetched(w: Watch, c: Call, r: Reply): Watch
  {
    if r.Raised? then w.(bad := true, stray := true) else w.(given := GivenAfter(w.given, Event(c, r)))
  }

  lemma FetchFate(run: Lease, w: Watch, e: Event)
    requires e.call.FetchWeb? || e.call.FetchLegacy?
    ensures Fails(run, w, e) == e.reply.Raised? && Stray(e) == e.reply.Raised? && !Refuses(e)
  {
    hide Handles;
  }

  lemma FetchObserved(run: Lease, w: Watch, c: Call, r: Reply)
    requires c.FetchWeb? || c.FetchLegacy?
    ensures Observe(run, w, Event(c, r)) == Fetched(w, c, r)
  {
    hide ClaimOf, WantedOf, Fails, Stray, Refuses, GivenAfter;
    FetchFate(run, w, Event(c, r));
    if r.Raised? { GivenUnless(w.given, Event(c, r)); }
  }

  lemma FetchAllowed(run: Lease, w: Watch, c: Call)
    requires c.FetchWeb? || c.FetchLegacy?
    requires c.FetchLegacy? ==> c.input == Assembled(run, w.claim, w.given, if run.kv then {READ_KEY} else {})
    ensures Allowed(run, w, c)
  {
    hide AllStored, Assembled;
  }

  method AskFetch(run: Lease, env: Env, t: seq<Event>, c: Call) returns (r: Reply, u: seq<Event>)
    requires Kept(run, env, t) && (c.FetchWeb? || c.FetchLegacy?) && Follows(run, t, c)
    requires var w := Watching(run, t);
             c.FetchLegacy? ==> c.input == Assembled(run, w.claim, w.given, if run.kv then {READ_KEY} else {})
    ensures Kept(run, env, u) && u == t + [Event(c, r)] && Watching(run, u) == Fetched(Watching(run, t), c, r)
  {
    hide Watching, Kept, Observe, Allowed, Fetched, Follows, Assembled;
    FetchAllowed(run, Watching(run, t), c);
    r, u := Perform(run, env, t, c);
    FetchObserved(run, Watching(run, t), c, r);
  }

  /** The code of a call that raised, which the handler around it decides. */
  lemma RaisedLast(run: Lease, t: seq<Event>, c: Call, e: Exception)
    ensures var u := t + [Event(c, Raised(e))];
            FailureCode(run, u) == RaisedCode(run, Watching(run, u).idle, c, e)
  {
    hide Watching, RaisedCode;
    assert Last(t + [Event(c, Raised(e))]) == Event(c, Raised(e));
  }

  /** Tracked calls that do not bear on a queue request but by raising. */
  lemma AsideFate(run: Lease, w: Watch, e: Event)
    requires e.call.CheckActivation? || e.call.LoadImage? || e.call.RunBrowser? || e.call.QueueComplete?
             || e.call.Complete?
    ensures Fails(run, w, e) == e.reply.Raised? && !Stray(e) && !Refuses(e)
  {
    hide Handles;
  }

  lemma MutateFate(run: Lease, w: Watch, e: Event)
    requires e.call.KvMutate?
    ensures Fails(run, w, e) == e.reply.Raised? && !Refuses(e)
    ensures Stray(e) == (e.reply.Raised? && !KvWriteFails(e.reply.error))
  {
    hide BrowserAcquisitionFails, HttpAcquisitionFails, KvReadFails, KvWriteFails, DatasetWriteFails;
  }

  lemma AppendFate(run: Lease, w: Watch, e: Event)
    requires e.call.DatasetAppend?
    ensures Fails(run, w, e) == e.reply.Raised? && !Refuses(e)
    ensures Stray(e) == (e.reply.Raised? && !DatasetWriteFails(e.reply.error))
  {
    hide BrowserAcquisitionFails, HttpAcquisitionFails, KvReadFails, KvWriteFails, DatasetWriteFails;
  }

  lemma ActivateObserved(run: Lease, w: Watch, r: Reply)
    ensures Observe(run, w, Event(CheckActivation, r)) == if r.Raised? then w.(bad := true) else w.(activated := true)
  {
    hide ClaimOf, WantedOf, Fails, Stray, Refuses;
    AsideFate(run, w, Event(CheckActivation, r));
  }

  method Activate(run: Lease, env: Env, t: seq<Event>) returns (r: Reply, u: seq<Event>)
    requires Kept(run, env, t) && Follows(run, t, CheckActivation)
    ensures Kept(run, env, u) && u == t + [Event(CheckActivation, r)]
    ensures Watching(run, u) == if r.Raised? then Watching(run, t).(bad := true)
            else Watching(run, t).(activated := true)
  {
    hide Watching, Kept, Observe, AllStored, Assembled, Follows;
    r, u := Perform(run, env, t, CheckActivation);
    ActivateObserved(run, Watching(run, t), r);
  }

  lemma LoadObserved(run: Lease, w: Watch, r: Reply)
    ensures Observe(run, w, Event(LoadImage, r)) == if r.Raised? then w.(bad := true) else w.(loaded := true)
  {
    hide ClaimOf, WantedOf, Fails, Stray, Refuses;
    AsideFate(run, w, Event(LoadImage, r));
  }

  method Load(run: Lease, env: Env, t: seq<Event>) returns (r: Reply, u: seq<Event>)
    requires Kept(run, env, t) && Watching(run, t).activated && Follows(run, t, LoadImage)
    ensures Kept(run, env, u) && u == t + [Event(LoadImage, r)]
    ensures Watching(run, u) == if r.Raised? then Watching(run, t).(bad := true) else Watching(run, t).(loaded := true)
  {
    hide Watching, Kept, Observe, AllStored, Assembled, Follows;
    r, u := Perform(run, env, t, LoadImage);
    LoadObserved(run, Watching(run, t), r);
  }

  lemma RunningObserved(run: Lease, w: Watch, r: Reply)
    ensures Observe(run, w, Event(SetRunning, r)) == if r.Raised? then w.(bad := true, stray := true)
            else w.(running := true)
  {
    hide ClaimOf, WantedOf, Handles, Data;
  }

  lemma RunningAllowed(run: Lease, w: Watch)
    requires w.activated && w.acked.None? && w.queueCompletions == 0
             && (w.claim.Some? || !run.queue || IsBrowserRun(run))
    ensures Allowed(run, w, SetRunning)
  {
    hide AllStored, Assembled;
  }

  method ReportRunning(run: Lease, env: Env, t: seq<Event>) returns (r: Reply, u: seq<Event>)
    requires Kept(run, env, t) && Follows(run, t, SetRunning)
    requires var w := Watching(run, t);
             && w.activated && w.acked.None? && w.queueCompletions == 0
             && (w.claim.Some? || !run.queue || IsBrowserRun(run))
    ensures Kept(run, env, u) && u == t + [Event(SetRunning, r)]
    ensures Watching(run, u) ==
            if r.Raised? then Watching(run, t).(bad := true, stray := true) else Watching(run, t).(running := true)
  {
    hide Watching, Kept, Observe, Allowed, Follows;
    RunningAllowed(run, Watching(run, t));
    r, u := Perform(run, env, t, SetRunning);
    RunningObserved(run, Watching(run, t), r);
  }

  lemma LaunchBrowserObserved(run: Lease, w: Watch, r: Reply)
    ensures Observe(run, w, Event(RunBrowser, r)) == if r.Raised? then w.(bad := true) else w.(browsed := true)
  {
    hide ClaimOf, WantedOf, Fails, Stray, Refuses;
    AsideFate(run, w, Event(RunBrowser, r));
  }

  method LaunchBrowser(run: Lease, env: Env, t: seq<Event>) returns (r: Reply, u: seq<Event>)
    requires Kept(run, env, t) && Watching(run, t).activated && Watching(run, t).running && IsBrowserRun(run)
    requires Follows(run, t, RunBrowser)
    ensures Kept(run, env, u) && u == t + [Event(RunBrowser, r)]
    ensures Watching(run, u) == if r.Raised? then Watching(run, t).(bad := true) else Watching(run, t).(browsed := true)
  {
    hide Watching, Kept, Observe, AllStored, Assembled, Follows;
    r, u := Perform(run, env, t, RunBrowser);
    LaunchBrowserObserved(run, Watching(run, t), r);
  }

  method LaunchAgent(run: Lease, env: Env, t: seq<Event>, input: map<string, Json>) returns (r: Reply, u: seq<Event>)
    requires Kept(run, env, t) && Allowed(run, Watching(run, t), RunAgent(input)) && Follows(run, t, RunAgent(input))
    ensures Kept(run, env, u) && u == t + [Event(RunAgent(input), r)]
    ensures r.Raised? ==> Watching(run, u) == Watching(run, t).(bad := true, stray := true)
    ensures r.Returned? ==>
              Watching(run, u) == Watching(run, t).(exit := Some(r.value),
                                                    bad := Watching(run, t).bad || r.value != Num(0))
  {
    hide Watching, Kept, ClaimOf, WantedOf, AllStored, Handles, Data, Assembled, Follows;
    r, u := Perform(run, env, t, RunAgent(input));
  }

  /** The watch after the claim. */
  function Claimed(run: Lease, queueId: string, r: Reply): Watch
  {
    var claim := ClaimOf(run, queueId, r);
    LOADED.(claims := 1, claim := claim, held := r.Returned? && r.value != Null, idle := r == Returned(Null),
            bad := r.Raised? || (r.value != Null && claim.None?))
  }

  lemma ClaimObserved(run: Lease, queueId: string, r: Reply)
    ensures Observe(run, LOADED, Event(QueueClaim(queueId), r)) == Claimed(run, queueId, r)
  {
    hide ClaimOf, WantedOf, Handles, Data;
  }

  method ClaimRequest(run: Lease, env: Env, t: seq<Event>, queueId: string) returns (r: Reply, u: seq<Event>)
    requires Kept(run, env, t) && Watching(run, t) == LOADED && run.queueId == Some(queueId)
    requires Follows(run, t, QueueClaim(queueId))
    ensures Kept(run, env, u) && u == t + [Event(QueueClaim(queueId), r)]
            && Watching(run, u) == Claimed(run, queueId, r)
  {
    hide Watching, Kept, Observe, Claimed, AllStored, Assembled, Follows;
    r, u := Perform(run, env, t, QueueClaim(queueId));
    ClaimObserved(run, queueId, r);
  }

  /** What an output that was read makes of a watch. */
  function OutputRead(run: Lease, w: Watch, r: Reply): Watch
  {
    if r.Raised? then w.(bad := true, stray := w.stray || !KvWriteFails(r.error), wanted := None)
    else w.(wanted := WantedOf(run, w.claim, r), bad := w.bad || AcceptedOutput(run.lib, r.value).None?)
  }

  lemma OutputFate(run: Lease, w: Watch, r: Reply)
    ensures var e := Event(ReadKvOutput, r);
            && Fails(run, w, e) == (r.Raised? || AcceptedOutput(run.lib, r.value).None?)
            && Stray(e) == (r.Raised? && !KvWriteFails(r.error)) && !Refuses(e)
  {
    hide AcceptedOutput, BrowserAcquisitionFails, HttpAcquisitionFails, KvReadFails, KvWriteFails, DatasetWriteFails;
  }

  lemma OutputObserved(run: Lease, w: Watch, r: Reply)
    ensures Observe(run, w, Event(ReadKvOutput, r)) == OutputRead(run, w, r)
  {
    OutputFate(run, w, r);
    hide ClaimOf, AcceptedOutput, KvWriteFails, Fails, Stray, Refuses, Wanted;
  }

  method ReadOutput(run: Lease, env: Env, t: seq<Event>) returns (r: Reply, u: seq<Event>)
    requires Kept(run, env, t) && Allowed(run, Watching(run, t), ReadKvOutput) && Follows(run, t, ReadKvOutput)
    ensures Kept(run, env, u) && u == t + [Event(ReadKvOutput, r)]
    ensures Watching(run, u) == OutputRead(run, Watching(run, t), r)
  {
    hide Watching, Kept, Observe, Allowed, OutputRead, Follows;
    r, u := Perform(run, env, t, ReadKvOutput);
    OutputObserved(run, Watching(run, t), r);
  }

  function Mutated(w: Watch, m: map<string, Json>): Watch
  {
    w.(mutations := w.mutations + 1, stored := w.stored + [m])
  }

  function MutateRaised(w: Watch, e: Exception): Watch
  {
    w.(mutations := w.mutations + 1, bad := true, stray := w.stray || !KvWriteFails(e))
  }

  lemma MutateObserved(run: Lease, w: Watch, m: map<string, Json>, r: Reply)
    ensures Observe(run, w, Event(KvMutate(m), r)) == if r.Raised? then MutateRaised(w, r.error) else Mutated(w, m)
  {
    hide ClaimOf, WantedOf, KvWriteFails, Fails, Stray, Refuses;
    MutateFate(run, w, Event(KvMutate(m), r));
  }

  lemma MutateAllowed(run: Lease, w: Watch, m: map<string, Json>)
    requires w.exit == Some(Num(0)) && w.queueCompletions == 0 && w.acked.None? && w.activated
    requires IsNext(w, m)
    ensures Allowed(run, w, KvMutate(m))
  {
    hide AllStored, Assembled;
  }

  /** The next mutation in order. */
  predicate IsNext(w: Watch, m: map<string, Json>)
  {
    && w.wanted.Some? && w.mutations == |w.stored| < |w.wanted.value.mutations|
    && m == w.wanted.value.mutations[|w.stored|]
  }

  method Mutate(run: Lease, env: Env, t: seq<Event>, m: map<string, Json>) returns (r: Reply, u: seq<Event>)
    requires Kept(run, env, t) && IsNext(Watching(run, t), m) && Follows(run, t, KvMutate(m))
    requires var w := Watching(run, t);
             w.exit == Some(Num(0)) && w.queueCompletions == 0 && w.acked.None? && w.activated
    ensures Kept(run, env, u) && u == t + [Event(KvMutate(m), r)]
    ensures Watching(run, u) == if r.Raised? then MutateRaised(Watching(run, t), r.error)
            else Mutated(Watching(run, t), m)
  {
    hide Watching, Kept, Observe, Allowed, IsNext, Mutated, MutateRaised, Follows;
    MutateAllowed(run, Watching(run, t), m);
    r, u := Perform(run, env, t, KvMutate(m));
    MutateObserved(run, Watching(run, t), m, r);
  }

  /** What a Dataset output that was read makes of a watch. */
  function DatasetRead(run: Lease, w: Watch, r: Reply): Watch
  {
    if r.Raised? then AppendRaised(w, Unfit, r.error)
    else if DatasetFits(run, w.claim, r.value) then w.(append := Fit(DatasetRequest(r.value.fields, w.claim)))
    else AppendRaised(w, Unfit, DatasetProtocolError)
  }

  lemma DatasetReadObserved(run: Lease, w: Watch, r: Reply)
    ensures Observe(run, w, Event(ReadDatasetOutput, r)) ==
            DatasetRead(run, w, r)
  {
    hide ClaimOf, WantedOf, DatasetFits, DatasetRequest, Fails, Stray, Refuses, DatasetWriteFails;
    DatasetReadFate(run, w, r);
    assert DatasetWriteFails(DatasetProtocolError) by { DatasetErrorHandled(); }
  }

  lemma DatasetErrorHandled()
    ensures DatasetWriteFails(DatasetProtocolError)
  {
  }

  lemma DatasetReadAllowed(run: Lease, w: Watch)
    requires run.dataset && w.exit == Some(Num(0)) && w.queueCompletions == 0 && w.append.Unread?
    ensures Allowed(run, w, ReadDatasetOutput)
  {
    hide AllStored, Assembled;
  }

  method ReadDataset(run: Lease, env: Env, t: seq<Event>) returns (r: Reply, u: seq<Event>)
    requires Kept(run, env, t) && run.dataset
    requires var w := Watching(run, t); w.exit == Some(Num(0)) && w.queueCompletions == 0 && w.append.Unread?
    requires Follows(run, t, ReadDatasetOutput)
    ensures Kept(run, env, u) && u == t + [Event(ReadDatasetOutput, r)]
    ensures Watching(run, u) == DatasetRead(run, Watching(run, t), r)
  {
    hide Watching, Kept, Observe, Allowed, DatasetRead, Follows;
    DatasetReadAllowed(run, Watching(run, t));
    r, u := Perform(run, env, t, ReadDatasetOutput);
    DatasetReadObserved(run, Watching(run, t), r);
  }

  lemma DatasetReadFate(run: Lease, w: Watch, r: Reply)
    ensures var e := Event(ReadDatasetOutput, r);
            && Fails(run, w, e) == (r.Raised? || !DatasetFits(run, w.claim, r.value))
            && Stray(e) == (r.Raised? && !DatasetWriteFails(r.error)) && !Refuses(e)
  {
    hide DatasetFits, Data, BrowserAcquisitionFails, HttpAcquisitionFails, KvReadFails, KvWriteFails, DatasetWriteFails;
  }

  lemma AppendObserved(run: Lease, w: Watch, append: Json, r: Reply)
    ensures Observe(run, w, Event(DatasetAppend(append), r)) ==
            if r.Raised? then AppendRaised(w, Sent, r.error) else w.(append := Stored)
  {
    hide ClaimOf, WantedOf, DatasetFits, DatasetWriteFails, Fails, Stray, Refuses;
    AppendFate(run, w, Event(DatasetAppend(append), r));
  }

  lemma AppendAllowed(run: Lease, w: Watch, append: Json)
    requires w.exit == Some(Num(0)) && w.queueCompletions == 0 && w.acked.None? && w.activated
    requires w.append == Fit(append)
    ensures Allowed(run, w, DatasetAppend(append))
  {
    hide AllStored, Assembled;
  }

  method Append(run: Lease, env: Env, t: seq<Event>, append: Json) returns (r: Reply, u: seq<Event>)
    requires Kept(run, env, t) && Watching(run, t).append == Fit(append) && Follows(run, t, DatasetAppend(append))
    requires var w := Watching(run, t);
             w.exit == Some(Num(0)) && w.queueCompletions == 0 && w.acked.None? && w.activated
    ensures Kept(run, env, u) && u == t + [Event(DatasetAppend(append), r)]
    ensures var w := Watching(run, t);
            Watching(run, u) == if r.Raised? then AppendRaised(w, Sent, r.error) else w.(append := Stored)
  {
    hide Watching, Kept, Observe, Allowed, AppendRaised, Follows;
    AppendAllowed(run, Watching(run, t), append);
    r, u := Perform(run, env, t, DatasetAppend(append));
    AppendObserved(run, Watching(run, t), append, r);
  }

  function QueueCompleted(w: Watch, handled: bool, r: Reply): Watch
  {
    w.(queueCompletions := 1, handled := w.handled || (handled && r.Returned?), bad := w.bad || r.Raised?)
  }

  lemma QueueObserved(run: Lease, w: Watch, c: Call, r: Reply)
    requires c.QueueComplete? && w.queueCompletions == 0
    ensures Observe(run, w, Event(c, r)) == QueueCompleted(w, c.handled, r)
  {
    hide ClaimOf, WantedOf, Fails, Stray, Refuses;
    AsideFate(run, w, Event(c, r));
  }

  method CompleteQueue(run: Lease, env: Env, t: seq<Event>, claim: Claim, handled: bool, code: string)
    returns (r: Reply, u: seq<Event>)
    requires Kept(run, env, t)
    requires var w := Watching(run, t);
             && w.claim == Some(claim) && w.queueCompletions == 0 && w.acked.None? && w.activated
             && (handled ==> w.exit == Some(Num(0)) && AllStored(run, w) && (run.dataset ==> w.append.Stored?))
    requires Follows(run, t, QueueComplete(claim, handled, code))
    ensures Kept(run, env, u) && u == t + [Event(QueueComplete(claim, handled, code), r)]
    ensures Watching(run, u) == QueueCompleted(Watching(run, t), handled, r)
  {
    hide Watching, Kept, Observe, QueueCompleted, AllStored, Assembled, Follows;
    r, u := Perform(run, env, t, QueueComplete(claim, handled, code));
    QueueObserved(run, Watching(run, t), QueueComplete(claim, handled, code), r);
  }
}
