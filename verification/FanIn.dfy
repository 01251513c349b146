/** Scanning the containers of a pod: one goroutine per container sends its result into a channel with
    room for all of them, and one receiver takes as many results as there are containers, returning at
    the first failed one. */
module FanIn {
  import opened GoErrors
  import opened Contracts
  import opened KeySpace
  import opened Seqs
  import opened RetryPolicy
  import opened DigestResolution
  import opened ArgDataProvider
  import opened Protocol

  // One container.

  /** What the collaborators answer for a container: the parsed reference, the resolved digest, and the
      scan data for that digest. */
  datatype Answers = Answers(reference: Attempt<ImageReference>, digest: Attempt<string>, scan: Attempt<ScanData>)

  datatype Single = Info(info: ScanInfo) | SingleFailed(err: Error)

  /** `TryParseErrToUnscannedWithReason` on a failure of a collaborator. */
  function UnscannedOrFailed(c: Container, e: Error, context: string): Single {
    match UnscannedReason(e)
    case Some(reason) => Info(UnscannedInfo(c, reason))
    case None => SingleFailed(Wrapped(context, e))
  }

  /** `getSingleContainerVulnerabilityScanInfo`. */
  function SingleContainer(c: Container, x: Answers): Single {
    if x.reference.err.Some? then SingleFailed(Wrapped("image reference", x.reference.err.value))
    else if !IsAcr(x.reference.value.registry) then Info(UnscannedInfo(c, NOT_IN_ACR_REASON))
    else if x.digest.err.Some? then UnscannedOrFailed(c, x.digest.err.value, "resolve digest")
    else if x.scan.err.Some? then UnscannedOrFailed(c, x.scan.err.value, "results from ARG")
    else Info(ScanInfo(c.name, Image(c.image, x.digest.value), x.scan.value.status, x.scan.value.findings, None))
  }

  /** Every exit of the path. A reference that does not parse is an error of that cause, and another
      registry is "not in ACR". For an ACR reference the first error of digest and scan decides: a cause
      with a known reason is that reason, any other an error of that cause; without an error the
      container carries exactly what was found. The result names its container, is never the timeout
      placeholder, and survives JSON. */
  lemma SingleMeans(c: Container, x: Answers)
    ensures var r := SingleContainer(c, x);
      && (x.reference.err.Some? ==> r.SingleFailed? && Cause(r.err) == Cause(x.reference.err.value))
      && (r.Info? && r.info.additionalData == Some(map[UNSCANNED_REASON_KEY := NOT_IN_ACR_REASON])
          <==> x.reference.err.None? && !IsAcr(x.reference.value.registry))
      && (r.Info? ==> r.info.name == c.name && r.info.image.name == c.image
                      && !IsTimeoutPlaceholder(r.info) && r.info.additionalData != Some(map[]))
      && (r.Info? && r.info.additionalData.Some? ==>
            r.info.scanStatus == UNSCANNED && r.info.image.digest == "" && r.info.scanFindings.NilSlice?)
      && (r.Info? && r.info.additionalData.None? <==>
            x.reference.err.None? && IsAcr(x.reference.value.registry) && x.digest.err.None? && x.scan.err.None?)
      && (r.Info? && r.info.additionalData.None? ==> x.digest == Attempt(r.info.image.digest, None)
                                                     && x.scan == Attempt(ScanData(r.info.scanStatus, r.info.scanFindings), None))
      && (x.reference.err.None? && IsAcr(x.reference.value.registry) && (x.digest.err.Some? || x.scan.err.Some?) ==>
            var e := if x.digest.err.Some? then x.digest.err.value else x.scan.err.value;
            match UnscannedReason(e)
            case None => r.SingleFailed? && Cause(r.err) == Cause(e)
            case Some(reason) => r.Info? && r.info.additionalData == Some(map[UNSCANNED_REASON_KEY := reason]))
      && (r.SingleFailed? && x.reference.err.None? ==> UnscannedReason(r.err).None?)
  {
    ReasonsDiffer();
    forall a: string, b: string | map[UNSCANNED_REASON_KEY := a] == map[UNSCANNED_REASON_KEY := b] ensures a == b {
      assert map[UNSCANNED_REASON_KEY := a][UNSCANNED_REASON_KEY] == map[UNSCANNED_REASON_KEY := b][UNSCANNED_REASON_KEY];
    }
    assert TIMEOUT_REASON[0] == 'G' && UNAUTHORIZED_REASON[0] == 'R' && NO_REGISTRY_REASON[0] == 'R';
    assert NO_IMAGE_REASON[5] == 'D' && NOT_IN_ACR_REASON[5] == 'I' && NOT_IN_ACR_REASON[0] == 'I' && NO_IMAGE_REASON[0] == 'I';
  }

  /** A container of an ACR registry whose tag does not resolve: the reason it is reported with is
      decided by the root cause of the last registry call, and an unknown cause is an error. */
  lemma ContainerReason(c: Container, x: Answers, config: RetryPolicyConfiguration, env: Env)
    requires x.reference.err.None? && IsAcr(x.reference.value.registry) && x.reference.value.Tag?
    requires config.retryAttempts >= 1 && OutsideEnv(env)
    requires var r := Resolved(config, env, x.reference.value);
             r.err.Some? && x.digest.err == Wrap(r.err, "get digest")
    ensures var r, trace := SingleContainer(c, x), Resolved(config, env, x.reference.value).trace;
      |trace| > 0 &&
      var auth := trace[|trace| - 1];
      var last := LastReply(config, env, x.reference.value, auth);
      && (r == Info(UnscannedInfo(c, NO_REGISTRY_REASON)) <==>
            trace == [ACRAttach] && env.acrKeychain.Some? && Cause(env.acrKeychain.value).RegistryIsNotFound?)
      && (r == Info(UnscannedInfo(c, NO_IMAGE_REASON)) <==> KeychainErr(env, auth).None? && AnswersImageNotFound(last))
      && (r == Info(UnscannedInfo(c, UNAUTHORIZED_REASON)) <==> auth == Default && AnswersUnauthorized(last))
      && (r.SingleFailed? <==> UnscannedReason(x.digest.err.value).None?)
  {
    var ref := x.reference.value;
    TraceMeans(config, env, ref, Chain(ref));
    ReasonMeans(config, env, ref);
    assert UnscannedReason(x.digest.err.value) == UnscannedReason(Resolved(config, env, ref).err.value);
    ReasonsDiffer();
    InfoOfReason(c);
  }

  lemma InfoOfReason(c: Container)
    ensures forall a, b :: UnscannedInfo(c, a) == UnscannedInfo(c, b) ==> a == b
  {
    forall a, b | UnscannedInfo(c, a) == UnscannedInfo(c, b) ensures a == b {
      assert UnscannedInfo(c, a).additionalData.value[UNSCANNED_REASON_KEY] == a;
      assert UnscannedInfo(c, b).additionalData.value[UNSCANNED_REASON_KEY] == b;
    }
  }

  // The channel between the goroutines and the receiver.

  /** Goroutines still at work, results in the channel and results taken, by container number. */
  datatype Fan = Fan(working: set<nat>, buffer: seq<nat>, closed: bool, taken: seq<nat>, answer: Option<Outcome>)

  datatype FanEvent = SenderSends(i: nat) | ReceiverTakes | ReceiverCloses

  function Indices(n: nat): (s: seq<nat>)
    ensures |s| == n && forall i :: 0 <= i < n ==> s[i] == i
  {
    seq(n, i => i)
  }

  function FanInit(n: nat): Fan {
    Fan(set i | i in Indices(n), [], false, [], None)
  }

  function InfoAt(results: seq<Single>): nat -> ScanInfo {
    (i: nat) => if i < |results| && results[i].Info? then results[i].info else UnscannedInfo(Container("", ""), "")
  }

  predicate Fails(results: seq<Single>, i: nat) {
    i < |results| && results[i].SingleFailed?
  }

  /** Every container is at work, in the channel or taken, and counted once. */
  predicate Conserved(n: nat, s: Fan) {
    multiset(s.working) + multiset(s.buffer) + multiset(s.taken) == multiset(Indices(n))
  }

  /** The receiver goes on exactly as long as every result it took is good. */
  predicate ReceiverOk(results: seq<Single>, s: Fan) {
    && (s.closed <==> s.answer.Some? && s.answer.value.Scanned?)
    && (s.answer.None? ==> forall i :: i in s.taken ==> !Fails(results, i))
    && (s.closed ==> |s.taken| == |results| && (forall i :: i in s.taken ==> !Fails(results, i))
                     && s.answer.value.list == Map(InfoAt(results), s.taken))
    && (s.answer.Some? && s.answer.value.Failed? ==>
          exists i :: i in s.taken && Fails(results, i) && s.answer.value.err == Wrapped("single container", results[i].err))
  }

  predicate FanInv(results: seq<Single>, s: Fan) {
    Conserved(|results|, s) && ReceiverOk(results, s)
  }

  lemma ConservedSizes(n: nat, s: Fan)
    requires Conserved(n, s)
    ensures |s.working| + |s.buffer| + |s.taken| == n
    ensures forall i :: i in s.working || i in s.buffer || i in s.taken ==> i < n
  {
    assert |multiset(s.working)| == |s.working|;
    forall i | i in s.working || i in s.buffer || i in s.taken ensures i < n {
      assert i in multiset(s.working) + multiset(s.buffer) + multiset(s.taken);
      assert i in multiset(Indices(n));
    }
  }

  /** One step of one goroutine; `None` when it cannot be taken. A send waits while the channel is full,
      and would panic if it were closed. */
  function FanStep(results: seq<Single>, s: Fan, e: FanEvent): Option<Fan>
    requires FanInv(results, s)
  {
    ConservedSizes(|results|, s);
    match e
    case SenderSends(i) =>
      if i !in s.working || |s.buffer| >= |results| || s.closed then None
      else Some(s.(working := s.working - {i}, buffer := s.buffer + [i]))
    case ReceiverTakes =>
      if s.answer.Some? || |s.taken| == |results| || s.buffer == [] then None
      else
        assert s.buffer[0] in s.buffer;
        var r, next := results[s.buffer[0]], s.(buffer := s.buffer[1..], taken := s.taken + [s.buffer[0]]);
        Some(if r.SingleFailed? then next.(answer := Some(Outcome.Failed(Wrapped("single container", r.err)))) else next)
    case ReceiverCloses =>
      if s.answer.Some? || |s.taken| < |results| then None
      else Some(s.(closed := true, answer := Some(Scanned(Map(InfoAt(results), s.taken)))))
  }

  lemma StepConserves(results: seq<Single>, s: Fan, e: FanEvent)
    requires FanInv(results, s) && FanStep(results, s, e).Some?
    ensures Conserved(|results|, FanStep(results, s, e).value)
  {
    var s' := FanStep(results, s, e).value;
    hide ReceiverOk, Fails, InfoAt;
    match e
    case SenderSends(i) =>
      assert multiset(s'.working) == multiset(s.working) - multiset{i};
      assert multiset(s'.buffer) == multiset(s.buffer) + multiset{i};
    case ReceiverTakes =>
      assert s.buffer == [s.buffer[0]] + s.buffer[1..];
      assert s'.working == s.working && s'.buffer == s.buffer[1..] && s'.taken == s.taken + [s.buffer[0]];
    case ReceiverCloses =>
      assert s'.working == s.working && s'.buffer == s.buffer && s'.taken == s.taken;
  }

  lemma StepKeepsReceiver(results: seq<Single>, s: Fan, e: FanEvent)
    requires FanInv(results, s) && FanStep(results, s, e).Some?
    ensures ReceiverOk(results, FanStep(results, s, e).value)
  {
    ConservedSizes(|results|, s);
    hide Conserved, InfoAt;
    if e.ReceiverTakes? {
      var i, s' := s.buffer[0], FanStep(results, s, e).value;
      assert i in s.buffer && s'.taken[|s.taken|] == i;
      assert i in s'.taken;
    }
  }

  lemma StepKeepsFan(results: seq<Single>, s: Fan, e: FanEvent)
    requires FanInv(results, s) && FanStep(results, s, e).Some?
    ensures FanInv(results, FanStep(results, s, e).value)
  {
    StepConserves(results, s, e);
    StepKeepsReceiver(results, s, e);
  }

  /** Any schedule: events that are not enabled change nothing. */
  function FanRun(results: seq<Single>, s: Fan, events: seq<FanEvent>): (s': Fan)
    requires FanInv(results, s)
    ensures FanInv(results, s')
    decreases |events|
  {
    if events == [] then s
    else
      var next := FanStep(results, s, events[0]);
      if next.None? then FanRun(results, s, events[1..])
      else StepKeepsFan(results, s, events[0]); FanRun(results, next.value, events[1..])
  }

  lemma FanStarts(results: seq<Single>)
    ensures FanInv(results, FanInit(|results|))
  {
    var n := |results|;
    forall i: nat ensures multiset(Indices(n))[i] == if i < n then 1 else 0 {
      IndexOnce(n, i);
    }
    assert multiset(FanInit(n).working) == multiset(Indices(n));
  }

  lemma {:induction false} IndexOnce(n: nat, i: nat)
    ensures multiset(Indices(n))[i] == if i < n then 1 else 0
  {
    if n > 0 {
      IndexOnce(n - 1, i);
      assert Indices(n) == Indices(n - 1) + [n - 1];
    }
  }

  /** In no schedule does a goroutine wait on a full channel or meet a closed one, also after the
      receiver has returned early: every goroutine still at work can send at once. */
  lemma SendersNeverBlock(results: seq<Single>, s: Fan, i: nat)
    requires FanInv(results, s) && i in s.working
    ensures FanStep(results, s, SenderSends(i)).Some?
  {
    ConservedSizes(|results|, s);
    assert |s.working| > 0;
  }

  /** Nothing is stuck before everything is done: while a goroutine is at work or the receiver has not
      answered, some step can be taken. */
  predicate AllDone(s: Fan) {
    s.working == {} && s.answer.Some?
  }

  lemma NeverStuck(results: seq<Single>, s: Fan)
    requires FanInv(results, s)
    ensures AllDone(s) <==> forall e :: FanStep(results, s, e).None?
  {
    ConservedSizes(|results|, s);
    if AllDone(s) {
    } else if i :| i in s.working {
      SendersNeverBlock(results, s, i);
    } else {
      assert FanStep(results, s, if s.buffer == [] then ReceiverCloses else ReceiverTakes).Some?;
    }
  }

  /** What is left: sends, receives, and the final close. */
  function Remaining(n: nat, s: Fan): int {
    2 * |s.working| + |s.buffer| + if s.answer.None? then 1 else 0
  }

  lemma StepUsesUp(results: seq<Single>, s: Fan, e: FanEvent)
    requires FanInv(results, s) && FanStep(results, s, e).Some?
    ensures 0 <= Remaining(|results|, FanStep(results, s, e).value) < Remaining(|results|, s)
  {
  }

  /** How many events of a schedule are steps. */
  function StepsTaken(results: seq<Single>, s: Fan, events: seq<FanEvent>): nat
    requires FanInv(results, s)
    decreases |events|
  {
    if events == [] then 0
    else
      var next := FanStep(results, s, events[0]);
      if next.None? then StepsTaken(results, s, events[1..])
      else StepKeepsFan(results, s, events[0]); 1 + StepsTaken(results, next.value, events[1..])
  }

  /** Every schedule takes at most 2n + 1 steps: n sends, n receives and the close. */
  lemma {:induction false} Terminates(results: seq<Single>, s: Fan, events: seq<FanEvent>)
    requires FanInv(results, s)
    ensures StepsTaken(results, s, events) <= Remaining(|results|, s)
    ensures s == FanInit(|results|) ==> StepsTaken(results, s, events) <= 2 * |results| + 1
    decreases |events|
  {
    if events != [] {
      var next := FanStep(results, s, events[0]);
      if next.None? {
        Terminates(results, s, events[1..]);
      } else {
        StepKeepsFan(results, s, events[0]);
        StepUsesUp(results, s, events[0]);
        Terminates(results, next.value, events[1..]);
      }
    }
    ConservedSizes(|results|, s);
  }

  /** On success no container failed, and the list holds every container's result exactly once, in some
      order; success is the answer of a finished schedule exactly when no container failed; and a failure
      is the wrapped error of a container that failed. */
  lemma AnswerMeans(results: seq<Single>, s: Fan)
    requires FanInv(results, s)
    ensures s.answer.Some? && s.answer.value.Scanned? ==>
              && (forall i :: 0 <= i < |results| ==> results[i].Info?)
              && multiset(s.answer.value.list) == multiset(seq(|results|, i requires 0 <= i < |results| => results[i].info))
    ensures s.answer.Some? && s.answer.value.Failed? ==>
              exists i :: 0 <= i < |results| && results[i].SingleFailed?
                          && s.answer.value.err.Wrapped? && s.answer.value.err.inner == results[i].err
    ensures AllDone(s) ==> (s.answer.value.Scanned? <==> forall i :: 0 <= i < |results| ==> results[i].Info?)
  {
    ConservedSizes(|results|, s);
    if s.closed {
      assert s.working == {} && s.buffer == [];
      assert multiset(s.taken) == multiset(Indices(|results|));
      MapMultiset(InfoAt(results), s.taken, Indices(|results|));
      forall i | 0 <= i < |results| ensures results[i].Info? {
        AllGoodWhenClosed(results, s, i);
      }
      assert Map(InfoAt(results), Indices(|results|)) == seq(|results|, i requires 0 <= i < |results| => results[i].info);
    } else if s.answer.Some? {
      var i :| i in s.taken && Fails(results, i) && s.answer.value.err == Wrapped("single container", results[i].err);
    }
  }

  /** The results of a pod's containers. */
  function PodResults(pod: PodSpec, answers: nat -> Answers): (results: seq<Single>)
    ensures |results| == |AllContainers(pod)|
  {
    var all := AllContainers(pod);
    seq(|all|, i requires 0 <= i < |all| => SingleContainer(all[i], answers(i)))
  }

  /** What the worker ends with: the receiver's answer, its error wrapped once more. */
  function WorkerAnswer(answer: Outcome): Outcome {
    if answer.Failed? then Outcome.Failed(Wrapped("getVulnSecInfoContainers", answer.err)) else answer
  }

  /** A schedule of the scan of a pod. */
  function Schedule(pod: PodSpec, answers: nat -> Answers, events: seq<FanEvent>): (s: Fan)
    ensures FanInv(PodResults(pod, answers), s)
  {
    var results := PodResults(pod, answers);
    FanStarts(results);
    FanRun(results, FanInit(|results|), events)
  }

  /** Every schedule of every pod ends a worker in the way the answer protocol expects of it: with the
      result of every init and every regular container, once each and as it is, or with an error of the
      cause that one of them failed of. */
  lemma FanInIsAWorker(pod: PodSpec, answers: nat -> Answers, events: seq<FanEvent>)
    requires Schedule(pod, answers, events).answer.Some?
    ensures var out, all := WorkerAnswer(Schedule(pod, answers, events).answer.value), pod.initContainers + pod.containers;
      && WorkerOutcome(pod, out)
      && (out.Scanned? ==>
            && (forall i :: 0 <= i < |all| ==> SingleContainer(all[i], answers(i)).Info?)
            && multiset(out.list) == multiset(seq(|all|, i requires 0 <= i < |all| => SingleContainer(all[i], answers(i)).info)))
      && (out.Failed? ==>
            exists i :: 0 <= i < |all| && SingleContainer(all[i], answers(i)).SingleFailed?
                        && Cause(out.err) == Cause(SingleContainer(all[i], answers(i)).err))
  {
    var all, results, s := pod.initContainers + pod.containers, PodResults(pod, answers), Schedule(pod, answers, events);
    AnswerMeans(results, s);
    PodResultsAre(pod, answers);
    hide PodResults, SingleContainer, FanInv, Schedule, WorkerOutcome;
    if s.answer.value.Scanned? {
      var inOrder := seq(|all|, i requires 0 <= i < |all| => results[i].info);
      assert forall i :: 0 <= i < |all| ==> SingleContainer(all[i], answers(i)).Info?;
      assert inOrder == seq(|all|, i requires 0 <= i < |all| => SingleContainer(all[i], answers(i)).info);
      InOrderIsAWorker(pod, answers, s.answer.value.list, inOrder);
    } else {
      var i :| 0 <= i < |results| && results[i].SingleFailed?
               && s.answer.value.err.Wrapped? && s.answer.value.err.inner == results[i].err;
      assert SingleContainer(all[i], answers(i)).SingleFailed?;
      FailureIsAWorker(pod, s.answer.value);
    }
  }

  lemma PodResultsAre(pod: PodSpec, answers: nat -> Answers)
    ensures var all, results := pod.initContainers + pod.containers, PodResults(pod, answers);
            |results| == |all| && forall i :: 0 <= i < |all| ==> results[i] == SingleContainer(all[i], answers(i))
  {
  }

  lemma FailureIsAWorker(pod: PodSpec, answer: Outcome)
    requires answer.Failed? && answer.err.Wrapped?
    ensures var out := WorkerAnswer(answer); out.Failed? && WorkerOutcome(pod, out) && Cause(out.err) == Cause(answer.err.inner)
  {
  }

  lemma InOrderIsAWorker(pod: PodSpec, answers: nat -> Answers, list: seq<ScanInfo>, inOrder: seq<ScanInfo>)
    requires |inOrder| == |AllContainers(pod)| && multiset(list) == multiset(inOrder)
    requires forall i :: 0 <= i < |inOrder| ==> Info(inOrder[i]) == SingleContainer(AllContainers(pod)[i], answers(i))
    ensures WorkerOutcome(pod, Scanned(list))
  {
    var all := AllContainers(pod);
    forall i | 0 <= i < |all|
      ensures NameAndImage(inOrder[i]) == all[i] && !IsTimeoutPlaceholder(inOrder[i])
      ensures inOrder[i].additionalData != Some(map[])
    {
      SingleMeans(all[i], answers(i));
    }
    assert Map(NameAndImage, inOrder) == all;
    MapMultiset(NameAndImage, list, inOrder);
    forall info | info in list ensures !IsTimeoutPlaceholder(info) && info.additionalData != Some(map[]) {
      assert info in multiset(inOrder);
    }
  }

  lemma AllGoodWhenClosed(results: seq<Single>, s: Fan, i: nat)
    requires FanInv(results, s) && s.closed && i < |results|
    ensures results[i].Info?
  {
    ConservedSizes(|results|, s);
    assert multiset(s.taken) == multiset(Indices(|results|));
    assert Indices(|results|)[i] == i && i in multiset(s.taken);
    assert !Fails(results, i);
  }
}
