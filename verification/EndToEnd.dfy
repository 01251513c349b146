/** From the provider's answer to the policy's verdict: the handler writes the scan information into an
    annotation, the policy reads it back. */
module EndToEnd {
  import opened GoErrors
  import opened Contracts
  import opened JsonCodec
  import opened CacheStore
  import opened RetryPolicy
  import opened Handler
  import opened ProviderCache
  import opened Protocol
  import opened ProtocolInvariants
  import opened ProtocolSafety
  import opened Policy

  /** What `GetContainersVulnerabilityScanInfo` returns. The placeholders of an empty pod are a list
      nothing was appended to: nil. */
  function ProviderResult(a: Answer): Attempt<Slice<ScanInfo>> {
    match a
    case CachedList(list) => Attempt(list, None)
    case CachedError(e) => Attempt(NilSlice, Some(e))
    case FreshList(scanned) => Attempt(Slice(scanned), None)
    case FreshError(e) => Attempt(NilSlice, Some(e))
    case Blocked(placeholders) => Attempt(if placeholders == [] then NilSlice else Slice(placeholders), None)
    case TimeoutError => Attempt(NilSlice, Some(Wrapped("third timeout", TimeOutReached)))
  }

  /** The containers the policy finds in the annotation; `None` where Rego is undefined. */
  function PolicyInput(annotations: Option<Annotations>): Option<Slice<ScanInfo>> {
    if SCAN_INFO_ANNOTATION !in Base(annotations) then None
    else
      var v := Base(annotations)[SCAN_INFO_ANNOTATION];
      if v.Doc? && v.tree.JObject? then DecodeSlice(Field(v.tree.fields, "containers"), DecodeInfo) else None
  }

  function Verdict(matches: Matches, p: Parameters, annotations: Option<Annotations>): set<Violation> {
    var input := PolicyInput(annotations);
    if input.None? then {} else Violations(matches, p, input.value)
  }

  /** The verdict on a request that the handler looks at, once its response has been applied. */
  function Admitted(matches: Matches, p: Parameters, c: HandlerConfiguration, req: AdmissionRequest,
      provider: Attempt<Slice<ScanInfo>>, timestamp: string): set<Violation> {
    Verdict(matches, p, Effect(c, req, None, provider, timestamp))
  }

  /** The requests that are not filtered. */
  predicate LooksAt(c: HandlerConfiguration, req: AdmissionRequest) {
    req.namespace != c.ownNamespace && req.kind in c.supportedKinds && req.operation in {"CREATE", "UPDATE"}
  }

  /** What the provider answered is what the policy judges, except that an empty data map is dropped on
      the way. */
  lemma PolicySeesTheAnswer(matches: Matches, p: Parameters, c: HandlerConfiguration, req: AdmissionRequest,
      list: Slice<ScanInfo>, timestamp: string)
    requires LooksAt(c, req) && !c.dryRun
    ensures Admitted(matches, p, c, req, Attempt(list, None), timestamp) == Violations(matches, p, NormalizeList(list))
  {
    ListRoundTrip(list);
    var after := Effect(c, req, None, Attempt(list, None), timestamp);
    assert Base(after)[SCAN_INFO_ANNOTATION] == ScanInfoValue(timestamp, list);
    assert Field(MarshalAnnotation(timestamp, list).fields, "containers") == EncodeSlice(list, EncodeInfo);
  }

  /** A provider error never blocks: no scan information is left for the policy to judge, whatever the
      object carried before and also under dry run. */
  lemma ErrorNeverBlocks(matches: Matches, p: Parameters, c: HandlerConfiguration, req: AdmissionRequest,
      err: Error, timestamp: string)
    requires LooksAt(c, req)
    ensures Admitted(matches, p, c, req, Attempt(NilSlice, Some(err)), timestamp) == {}
  {
  }

  /** The violation that the timeout placeholder of a container causes. */
  function TimeoutViolation(c: Container): Violation {
    MustBeScanned(c.image, c.name, Some(map[UNSCANNED_REASON_KEY := TIMEOUT_REASON]))
  }

  /** A timeout answer blocks every container of the pod, with the timeout as the reason, exactly when
      no image of the pod is excluded; one excluded image and the pod is let in. */
  lemma TimeoutBlocksIff(matches: Matches, p: Parameters, c: HandlerConfiguration, req: AdmissionRequest,
      pod: PodSpec, timestamp: string)
    requires LooksAt(c, req) && !c.dryRun
    ensures Admitted(matches, p, c, req, ProviderResult(Blocked(TimeoutList(pod))), timestamp) ==
            if exists k :: k in AllContainers(pod) && Excluded(matches, p, k.image) then {}
            else set k | k in AllContainers(pod) :: TimeoutViolation(k)
  {
    var all, list := AllContainers(pod), TimeoutList(pod);
    PolicySeesTheAnswer(matches, p, c, req, ProviderResult(Blocked(list)).value, timestamp);
    if all != [] {
      assert UNSCANNED_REASON_KEY in map[UNSCANNED_REASON_KEY := TIMEOUT_REASON];
      assert NormalizeList(Slice(list)).elems == list;
      TimeoutVerdict(matches, p, pod);
    }
  }

  lemma TimeoutVerdict(matches: Matches, p: Parameters, pod: PodSpec)
    ensures Violations(matches, p, Slice(TimeoutList(pod))) ==
            if exists k :: k in AllContainers(pod) && Excluded(matches, p, k.image) then {}
            else set k | k in AllContainers(pod) :: TimeoutViolation(k)
  {
    var all, list := AllContainers(pod), TimeoutList(pod);
    FilterContainersMeans(matches, p, list);
    assert UNSCANNED != HEALTHY by { assert UNSCANNED[0] == 'u' && HEALTHY[0] == 'h'; }
    hide Excluded, FilterContainers;
    forall i | 0 <= i < |all|
      ensures list[i] in list && all[i] in all
      ensures IsApplicable(matches, p, list[i]) <==> !Excluded(matches, p, all[i].image)
      ensures ContainerViolations(p, list[i]) == {TimeoutViolation(all[i])}
    {
    }
    if k :| k in all && Excluded(matches, p, k.image) {
      var i :| 0 <= i < |all| && all[i] == k;
      assert !IsApplicable(matches, p, list[i]);
    } else {
      TimeoutViolations(p, all, list);
    }
  }

  lemma TimeoutViolations(p: Parameters, all: seq<Container>, list: seq<ScanInfo>)
    requires |all| == |list|
    requires forall i :: 0 <= i < |all| ==> ContainerViolations(p, list[i]) == {TimeoutViolation(all[i])}
    ensures AllViolations(p, list) == set k | k in all :: TimeoutViolation(k)
  {
  }

  /** The verdict on an answer of the provider that reaches the annotation. */
  function AnswerVerdict(matches: Matches, p: Parameters, pod: PodSpec, a: Answer): set<Violation> {
    match a
    case FreshList(list) => Violations(matches, p, Slice(list))
    case CachedList(list) => Violations(matches, p, NormalizeList(list))
    case Blocked(_) =>
      if exists k :: k in pod.initContainers + pod.containers && Excluded(matches, p, k.image) then {}
      else set k | k in pod.initContainers + pod.containers :: TimeoutViolation(k)
    case _ => {}
  }

  predicate IsErrorAnswer(a: Answer) {
    a.CachedError? || a.FreshError? || a.TimeoutError?
  }

  /** The whole way, over every run of the answer protocol and for every request. A request whose
      workload reaches the provider is judged by the provider's answer alone: fresh results as they
      are, cached ones but for empty data maps, a timeout answer as a violation for every container
      unless some image is excluded, and no violation after an error, from the worker, from the cache
      or from the third timeout. A request that is filtered, that fails to be extracted, or that
      succeeds under dry run is judged by the annotation the object came with, whoever wrote it. */
  lemma WhatBlocks(cc: Config, events: seq<Event>, id: nat, matches: Matches, p: Parameters,
      c: HandlerConfiguration, req: AdmissionRequest, extraction: Err, timestamp: string)
    requires ValidConfig(cc)
    requires id in Run(cc, Init, events).requests && Run(cc, Init, events).requests[id].pc.Done?
    ensures var r := Run(cc, Init, events).requests[id];
            var verdict := Verdict(matches, p, Effect(c, req, extraction, ProviderResult(r.pc.answer), timestamp));
      && (r.pc.answer.FreshList? ==> r.worker == Sent(Scanned(r.pc.answer.scanned)))
      && verdict == if LooksAt(c, req) && extraction.None? && (IsErrorAnswer(r.pc.answer) || !c.dryRun)
                    then AnswerVerdict(matches, p, r.pod, r.pc.answer)
                    else Verdict(matches, p, req.original)
  {
    var r := Run(cc, Init, events).requests[id];
    AnswersAreHonest(cc, events, id);
    Reachable(cc, events);
    assert RequestOk(r);
    if LooksAt(c, req) && extraction.None? && (IsErrorAnswer(r.pc.answer) || !c.dryRun) {
      AnswerIsJudged(matches, p, c, req, r, timestamp);
    }
  }

  lemma AnswerIsJudged(matches: Matches, p: Parameters, c: HandlerConfiguration, req: AdmissionRequest, r: Request,
      timestamp: string)
    requires r.pc.Done? && LooksAt(c, req) && (IsErrorAnswer(r.pc.answer) || !c.dryRun)
    requires r.pc.answer.FreshList? ==> WorkerOutcome(r.pod, Scanned(r.pc.answer.scanned))
    requires r.pc.answer.Blocked? ==> r.pc.answer == Blocked(TimeoutList(r.pod))
    ensures Admitted(matches, p, c, req, ProviderResult(r.pc.answer), timestamp) ==
            AnswerVerdict(matches, p, r.pod, r.pc.answer)
  {
    match r.pc.answer
    case FreshList(list) =>
      PolicySeesTheAnswer(matches, p, c, req, Slice(list), timestamp);
      FreshIsNormal(r.pod, list);
    case CachedList(list) => PolicySeesTheAnswer(matches, p, c, req, list, timestamp);
    case Blocked(_) => TimeoutBlocksIff(matches, p, c, req, r.pod, timestamp);
    case CachedError(e) => ErrorNeverBlocks(matches, p, c, req, e, timestamp);
    case FreshError(e) => ErrorNeverBlocks(matches, p, c, req, e, timestamp);
    case TimeoutError => ErrorNeverBlocks(matches, p, c, req, Wrapped("third timeout", TimeOutReached), timestamp);
  }

  lemma FreshIsNormal(pod: PodSpec, list: seq<ScanInfo>)
    requires WorkerOutcome(pod, Scanned(list))
    ensures NormalizeList(Slice(list)) == Slice(list)
  {
  }
}
