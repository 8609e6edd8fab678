/** `_require_canary_activation` of `worker.py` beside `SandboxActivation.validate_capability_receipt` of the control
    plane. */
module Activation {
  import opened Utf8
  import opened Json

  /** The members of the activation that name capabilities; an absent member is Null. */
  datatype Activation = Activation(
    profile: Json,
    egressDigest: Json,
    browserDigest: Json,
    bindingDigest: Json,
    dataset: Json,
    keyValueStore: Json,
    queue: Json,
    queueHttp: Json,
    queueBrowser: Json,
    queueDataset: Json,
    queueKeyValueStore: Json)

  /** The capabilities of the Agent manifest. */
  datatype Manifest = Manifest(secrets: bool, browser: Json, dataset: Json, keyValueStore: Json, queue: Json,
                               network: Json)

  /** A capability receipt in the payload, compared with the one the worker expects. */
  datatype Receipt = Absent | Expected | Unexpected

  /** The rest of the payload: who it is bound to, its receipts and its input. */
  datatype Payload = Payload(
    identityMatches: bool,
    runStart: bool,
    datasetReceipt: Receipt,
    keyValueReceipt: Receipt,
    keyValueInput: bool,
    queueReceipt: Receipt,
    queueBinding: bool,
    queueDatasetReceipt: Receipt,
    queueKeyValueReceipt: Receipt,
    projectBinding: Option<Json>,
    inputReference: bool,
    browserInput: bool)

  /** The worker's own switches and the digests of its policies. */
  datatype Worker = Worker(
    dataset: bool,
    keyValueStore: bool,
    queue: bool,
    queueHttp: bool,
    queueBrowser: bool,
    queueDataset: bool,
    queueKeyValueStore: bool,
    egressPolicy: Option<string>,
    browserPolicy: Option<string>)

  predicate WellFormed(m: Manifest)
  {
    !m.secrets && m.browser.Bool? && m.dataset.Bool? && m.keyValueStore.Bool? && m.queue.Bool?
  }

  predicate KvRun(m: Manifest, p: Payload) requires WellFormed(m) { m.keyValueStore.b && p.runStart }

  predicate QueueRun(m: Manifest, p: Payload) requires WellFormed(m) { m.queue.b && p.runStart }

  predicate HttpRun(m: Manifest, p: Payload)
    requires WellFormed(m)
  {
    QueueRun(m, p) && m.network == Str("web-egress") && !m.browser.b
  }

  predicate BrowserRun(m: Manifest, p: Payload)
    requires WellFormed(m)
  {
    QueueRun(m, p) && m.network == Str("web-egress") && m.browser.b
  }

  predicate CompositionOk(w: Worker, a: Activation, m: Manifest, p: Payload)
    requires WellFormed(m)
  {
    var kv, queue := KvRun(m, p), QueueRun(m, p);
    && !(m.dataset.b && kv)
    && !(m.browser.b && kv && !(queue && kv))
    && !(queue && kv && !w.queueKeyValueStore)
    && a.queueKeyValueStore == Bool(queue && kv)
    && !(queue && m.dataset.b && !w.queueDataset)
    && a.queueDataset == Bool(queue && m.dataset.b)
  }

  predicate DatasetOk(w: Worker, a: Activation, m: Manifest, p: Payload)
    requires WellFormed(m)
  {
    && a.dataset == m.dataset
    && if m.dataset.b then
         && p.runStart && !(m.browser.b && !(QueueRun(m, p) && m.dataset.b)) && w.dataset
         && (QueueRun(m, p) ==> p.queueBinding)
         && p.datasetReceipt.Expected?
       else p.datasetReceipt.Absent?
  }

  predicate KeyValueOk(w: Worker, a: Activation, m: Manifest, p: Payload)
    requires WellFormed(m)
  {
    && a.keyValueStore == Bool(KvRun(m, p))
    && if KvRun(m, p) then
         && w.keyValueStore && p.inputReference && p.keyValueInput
         && (QueueRun(m, p) ==> p.queueBinding)
         && p.keyValueReceipt.Expected?
       else p.keyValueReceipt.Absent?
  }

  predicate QueueOk(w: Worker, a: Activation, m: Manifest, p: Payload)
    requires WellFormed(m)
  {
    && a.queue == Bool(QueueRun(m, p))
    && a.queueHttp == Bool(HttpRun(m, p))
    && a.queueBrowser == Bool(BrowserRun(m, p))
    && if QueueRun(m, p) then
         && w.queue && (HttpRun(m, p) ==> w.queueHttp) && (BrowserRun(m, p) ==> w.queueBrowser)
         && p.inputReference && p.queueBinding
         && (BrowserRun(m, p) ==> w.egressPolicy.Some? && w.browserPolicy.Some?)
         && (HttpRun(m, p) ==> w.egressPolicy.Some?)
         && (if m.dataset.b then p.queueDatasetReceipt.Expected? else p.queueDatasetReceipt.Absent?)
         && (if KvRun(m, p) then p.queueKeyValueReceipt.Expected? else p.queueKeyValueReceipt.Absent?)
         && p.queueReceipt.Expected?
       else p.queueReceipt.Absent?
  }

  predicate BindingOk(w: Worker, a: Activation, p: Payload)
  {
    if a.bindingDigest != Null then a.bindingDigest.Str? && p.projectBinding == Some(a.bindingDigest)
      && w.egressPolicy.Some?
    else p.projectBinding.None?
  }

  predicate ProfileOk(w: Worker, a: Activation, m: Manifest, p: Payload)
    requires WellFormed(m)
  {
    if a.profile == Str("offline-minimal") then
      m.network == Str("none") && a.egressDigest == Null && !HttpRun(m, p)
    else if a.profile == Str("brokered-web-egress") then
      && !m.browser.b && m.network == Str("web-egress")
      && w.egressPolicy.Some? && a.egressDigest == Str(w.egressPolicy.value)
      && a.browserDigest == Null
      && (QueueRun(m, p) ==> HttpRun(m, p))
    else if a.profile == Str("controlled-browser") then
      && p.runStart && m.browser.b && m.network == Str("web-egress")
      && w.egressPolicy.Some? && w.browserPolicy.Some?
      && a.egressDigest == Str(w.egressPolicy.value)
      && a.browserDigest == Str(w.browserPolicy.value)
      && p.inputReference
      && (!BrowserRun(m, p) ==> p.browserInput)
    else false
  }

  /** The activations the worker accepts. */
  predicate WorkerAccepts(w: Worker, a: Activation, m: Manifest, p: Payload)
  {
    && p.identityMatches && WellFormed(m)
    && CompositionOk(w, a, m, p)
    && DatasetOk(w, a, m, p)
    && KeyValueOk(w, a, m, p)
    && QueueOk(w, a, m, p)
    && BindingOk(w, a, p)
    && ProfileOk(w, a, m, p)
  }

  // ---- the control plane ----

  predicate On(flag: Json) { flag == Bool(true) }

  predicate ProfileClauses(a: Activation)
  {
    && (a.profile == Str("brokered-web-egress") ==> a.egressDigest != Null && a.browserDigest == Null)
    && (a.profile == Str("controlled-browser") ==> a.egressDigest != Null && a.browserDigest != Null)
    && (a.profile == Str("offline-minimal") ==>
        a.egressDigest == Null && a.browserDigest == Null && a.bindingDigest == Null)
    && (a.bindingDigest != Null ==> a.egressDigest != Null)
  }

  predicate QueueClauses(a: Activation)
  {
    && (On(a.queueHttp) ==> On(a.queue) && a.profile == Str("brokered-web-egress") && a.egressDigest != Null)
    && (On(a.queueBrowser) ==>
          On(a.queue) && a.profile == Str("controlled-browser") && a.egressDigest != Null && a.browserDigest != Null)
    && !(On(a.queueHttp) && On(a.queueBrowser))
  }

  predicate WriteClauses(a: Activation)
  {
    && (On(a.queueDataset) ==> On(a.queue) && On(a.dataset))
    && (On(a.queue) && On(a.dataset) ==> On(a.queueDataset))
    && (On(a.queueKeyValueStore) ==> On(a.queue) && On(a.keyValueStore))
    && (On(a.queue) && On(a.keyValueStore) ==> On(a.queueKeyValueStore))
  }

  /** `validate_capability_receipt`. */
  predicate ControlPlaneAccepts(a: Activation)
  {
    ProfileClauses(a) && QueueClauses(a) && WriteClauses(a)
  }

  /** Whatever the worker accepts meets all the clauses of the control plane on acquisition and on writes, never
      combines Dataset with Key-Value Store, and never has two acquisition modes. */
  lemma WorkerImpliesComposition(w: Worker, a: Activation, m: Manifest, p: Payload)
    requires WorkerAccepts(w, a, m, p)
    ensures QueueClauses(a) && WriteClauses(a)
    ensures !(On(a.dataset) && On(a.keyValueStore))
    ensures !(On(a.queueHttp) && On(a.queueBrowser))
  {
    if On(a.queueHttp) {
      assert a.profile == Str("brokered-web-egress");
    } else if On(a.queueBrowser) {
      assert a.profile == Str("controlled-browser");
    }
  }

  /** The worker's acceptance carries over to the control plane exactly outside the offline profile, or inside it when
      the activation carries neither a browser-policy digest nor a Project egress-policy binding. */
  lemma WorkerImpliesControlPlaneExactly(w: Worker, a: Activation, m: Manifest, p: Payload)
    requires WorkerAccepts(w, a, m, p)
    ensures ControlPlaneAccepts(a) <==>
            !(a.profile == Str("offline-minimal") && (a.browserDigest != Null || a.bindingDigest != Null))
  {
    WorkerImpliesComposition(w, a, m, p);
    if a.bindingDigest != Null && a.profile != Str("offline-minimal") { assert a.egressDigest.Str?; }
  }

  /** An offline activation without capabilities: the worker accepts it with any browser-policy digest, and with any
      Project binding that its receipt repeats, while the control plane refuses both. */
  lemma OfflineLeniency(w: Worker, digest: string)
    requires w.egressPolicy.Some?
    ensures var off := Bool(false);
            var none := Manifest(false, off, off, off, off, Str("none"));
            var p := Payload(true, true, Absent, Absent, false, Absent, false, Absent, Absent, None, true, false);
            var withBrowser :=
              Activation(Str("offline-minimal"), Null, Str(digest), Null, off, off, off, off, off, off, off);
            var bound := Activation(Str("offline-minimal"), Null, Null, Str(digest), off, off, off, off, off, off, off);
            && WorkerAccepts(w, withBrowser, none, p) && !ControlPlaneAccepts(withBrowser)
            && WorkerAccepts(w, bound, none, p.(projectBinding := Some(Str(digest)))) && !ControlPlaneAccepts(bound)
  {
    var off := Bool(false);
    var bound := Activation(Str("offline-minimal"), Null, Null, Str(digest), off, off, off, off, off, off, off);
    assert bound.bindingDigest != Null;
  }

  /** What the worker asks of itself and of the payload for each capability the activation names: its own switch and the
      receipt it expects; a capability that is not named must have no receipt. */
  lemma CapabilitiesBacked(w: Worker, a: Activation, m: Manifest, p: Payload)
    requires WorkerAccepts(w, a, m, p)
    ensures p.identityMatches && !m.secrets
    ensures if On(a.dataset) then w.dataset && p.runStart && p.datasetReceipt == Expected
            else p.datasetReceipt == Absent
    ensures if On(a.keyValueStore)
            then w.keyValueStore && p.runStart && p.keyValueInput && p.inputReference && p.keyValueReceipt == Expected
            else p.keyValueReceipt == Absent
    ensures if On(a.queue)
            then && w.queue && p.runStart && p.queueBinding && p.inputReference && p.queueReceipt == Expected
                 && p.queueDatasetReceipt == (if On(a.dataset) then Expected else Absent)
                 && p.queueKeyValueReceipt == (if On(a.keyValueStore) then Expected else Absent)
            else p.queueReceipt == Absent
    ensures On(a.queueHttp) ==> w.queueHttp && w.egressPolicy.Some? && m.network == Str("web-egress")
    ensures On(a.queueBrowser) ==> w.queueBrowser && w.egressPolicy.Some? && w.browserPolicy.Some?
    ensures On(a.queueDataset) ==> w.queueDataset
    ensures On(a.queueKeyValueStore) ==> w.queueKeyValueStore
    ensures p.projectBinding == (if a.bindingDigest == Null then None else Some(a.bindingDigest))
    ensures a.bindingDigest != Null ==> a.bindingDigest.Str? && w.egressPolicy.Some?
    ensures a.profile != Str("offline-minimal") ==>
              w.egressPolicy.Some? && a.egressDigest == Str(w.egressPolicy.value) && m.network == Str("web-egress")
    ensures a.profile == Str("controlled-browser") ==>
              && w.browserPolicy.Some? && a.browserDigest == Str(w.browserPolicy.value) && p.runStart
                && p.inputReference
              && (!On(a.queueBrowser) ==> p.browserInput)
  {
    assert a.profile == Str("offline-minimal") || a.profile == Str("brokered-web-egress")
        || a.profile == Str("controlled-browser");
  }

  predicate Flags(a: Activation)
  {
    && a.dataset.Bool? && a.keyValueStore.Bool? && a.queue.Bool? && a.queueHttp.Bool? && a.queueBrowser.Bool?
    && a.queueDataset.Bool? && a.queueKeyValueStore.Bool?
  }

  /** Which activations some worker accepts, for some manifest and payload. */
  predicate Coherent(a: Activation)
  {
    && Flags(a)
    && !(a.dataset.b && a.keyValueStore.b)
    && a.queueDataset.b == (a.queue.b && a.dataset.b)
    && a.queueKeyValueStore.b == (a.queue.b && a.keyValueStore.b)
    && (a.bindingDigest == Null || a.bindingDigest.Str?)
    && (|| (a.profile == Str("offline-minimal") && a.egressDigest == Null && !a.queueHttp.b && !a.queueBrowser.b)
        || (a.profile == Str("brokered-web-egress") && a.egressDigest.Str? && a.browserDigest == Null
            && a.queueHttp.b == a.queue.b && !a.queueBrowser.b)
        || (a.profile == Str("controlled-browser") && a.egressDigest.Str? && a.browserDigest.Str?
            && !a.queueHttp.b && a.queueBrowser.b == a.queue.b
            && (a.dataset.b || a.keyValueStore.b ==> a.queue.b)))
  }

  /** The widest worker, manifest and payload for an activation. */
  function WideWorker(a: Activation): Worker
  {
    Worker(true, true, true, true, true, true, true,
           Some(if a.egressDigest.Str? then a.egressDigest.s else ""),
           Some(if a.browserDigest.Str? then a.browserDigest.s else ""))
  }

  function WideManifest(a: Activation): Manifest
  {
    Manifest(false, Bool(a.profile == Str("controlled-browser")), a.dataset, a.keyValueStore, a.queue,
             Str(if a.profile == Str("offline-minimal") then "none" else "web-egress"))
  }

  function WidePayload(a: Activation): Payload
  {
    var receipt := (on: bool) => if on then Expected else Absent;
    Payload(true, true, receipt(On(a.dataset)), receipt(On(a.keyValueStore)), true, receipt(On(a.queue)), true,
            receipt(On(a.queueDataset)), receipt(On(a.queueKeyValueStore)),
            if a.bindingDigest == Null then None else Some(a.bindingDigest), true, true)
  }

  /** An activation is acceptable to some worker exactly if it is coherent. */
  lemma AcceptableExactly(a: Activation)
    ensures (exists w, m, p :: WorkerAccepts(w, a, m, p)) <==> Coherent(a)
  {
    if Coherent(a) {
      CoherentAccepted(a);
    }
    if w, m, p :| WorkerAccepts(w, a, m, p) {
      AcceptedCoherent(w, a, m, p);
    }
  }

  lemma CoherentAccepted(a: Activation)
    requires Coherent(a)
    ensures WorkerAccepts(WideWorker(a), a, WideManifest(a), WidePayload(a))
  {
  }

  lemma AcceptedCoherent(w: Worker, a: Activation, m: Manifest, p: Payload)
    requires WorkerAccepts(w, a, m, p)
    ensures Coherent(a)
  {
  }
}
