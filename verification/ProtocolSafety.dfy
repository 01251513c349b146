/** What the invariants of the answer protocol mean: theorems about every run from the start. */
module ProtocolSafety {
  import opened GoErrors
  import opened Contracts
  import opened JsonCodec
  import opened CacheStore
  import opened KeySpace
  import opened PodKeys
  import opened ProviderCache
  import opened Protocol
  import opened ProtocolInvariants
  import opened Seqs

  /** In every run the timeout status of a plain key reads as 0, 1 or 2, so it always parses, and
      testing for exactly three strikes decides as testing for three or more would. */
  lemma StatusAlwaysParses(c: Config, events: seq<Event>, podKey: string)
    requires ValidConfig(c) && PlainKey(podKey)
    ensures var s := Run(c, Init, events);
            var read := StatusRead(s.cache, podKey, s.now, false);
            && read.Some? && 0 <= read.value <= 2
            && (NextStatus(read).None? <==> read.value + 1 >= THRESHOLD)
  {
    Reachable(c, events);
    var s := Run(c, Init, events);
    assert StatusEntryOk(s.cache, podKey);
    SmallStatusReads(s.cache, podKey, s.now);
  }

  function AnswerOfStored(out: Outcome): Answer {
    match out
    case Scanned(list) => CachedList(Slice(list))
    case Failed(err) => CachedAnswer(StoredError(Plain(Message(err))))
  }

  lemma StoredReadsBack(out: Outcome, pod: PodSpec)
    requires WorkerOutcome(pod, out)
    ensures var stored := UnmarshalScanResults(MarshalScanResults(OutcomeList(out), OutcomeErr(out)));
            stored.Some? && CachedAnswer(stored.value) == AnswerOfStored(out)
  {
    match out
    case Scanned(list) => ListSurvivesIff(Slice(list));
    case Failed(err) => ErrorSurvivesIff(NilSlice, err); StoreThenLoad(NilSlice, Some(err));
  }

  /** What a look-up of `r` finds in the entry that `source`'s worker left. */
  lemma EntryServes(c: Config, r: Request, source: Request, entry: Entry, now: nat)
    requires ValidConfig(c) && RequestOk(source) && StoredFor(c, source, PodKey(r), entry) && Live(entry, now)
    ensures now < entry.storedAt + c.resultTtl
    ensures var stored := UnmarshalScanResults(entry.value.tree);
            && stored.Some? && CachedAnswer(stored.value) == AnswerOfStored(source.worker.out)
    ensures PlainPod(r.pod) && PlainPod(source.pod) && source.worker.out.Scanned? ==>
              multiset(Map(NameAndImage, source.worker.out.list)) == multiset(AllContainers(r.pod))
  {
    StoredReadsBack(source.worker.out, source.pod);
    ExpiryAfterNow(c, entry.storedAt);
    if PlainPod(r.pod) && PlainPod(source.pod) {
      KeyIsCanonical(r.pod, source.pod);
    }
  }

  /** `answer` is the outcome of the worker of `source`, which ran for a pod with the key of `r`; it
      lists exactly the containers of `r` when both pods are plain, and no timeout placeholder. */
  predicate ServedFrom(r: Request, source: Request, answer: Answer) {
    && PodKey(source) == PodKey(r) && HasOutcome(source)
    && answer == AnswerOfStored(source.worker.out)
    && (answer.CachedList? ==> forall info | info in Elems(answer.list) :: !IsTimeoutPlaceholder(info))
    && (PlainPod(r.pod) && PlainPod(source.pod) && answer.CachedList? ==>
          multiset(Map(NameAndImage, Elems(answer.list))) == multiset(AllContainers(r.pod)))
  }

  /** Result-cache soundness, over every run: a look-up that hits is served the outcome of a worker
      that ran for a pod with the same key, stored less than the time-to-live ago, the list
      unchanged or the error with its message. */
  lemma HitIsAWorkersOutcome(c: Config, events: seq<Event>, id: nat)
    requires ValidConfig(c)
    requires var s := Run(c, Init, events);
             && id in s.requests && PlainKey(PodKey(s.requests[id]))
             && ResultRead(s.cache, PodKey(s.requests[id]), s.now, false).Some?
    ensures var s := Run(c, Init, events);
            var r := s.requests[id];
            var answer := CachedAnswer(ResultRead(s.cache, PodKey(r), s.now, false).value);
            && s.now < s.cache[ResultKey(PodKey(r))].storedAt + c.resultTtl
            && exists owner :: owner in s.requests && ServedFrom(r, s.requests[owner], answer)
  {
    Reachable(c, events);
    HitInState(c, Run(c, Init, events), id);
  }

  lemma HitInState(c: Config, s: State, id: nat)
    requires Inv(c, s) && id in s.requests && PlainKey(PodKey(s.requests[id]))
    requires ResultRead(s.cache, PodKey(s.requests[id]), s.now, false).Some?
    ensures var r := s.requests[id];
            var answer := CachedAnswer(ResultRead(s.cache, PodKey(r), s.now, false).value);
            && s.now < s.cache[ResultKey(PodKey(r))].storedAt + c.resultTtl
            && exists owner :: owner in s.requests && ServedFrom(r, s.requests[owner], answer)
  {
    var r := s.requests[id];
    assert ResultEntryOk(c, s, PodKey(r));
    var entry := s.cache[ResultKey(PodKey(r))];
    var owner :| owner in s.requests && StoredFor(c, s.requests[owner], PodKey(r), entry);
    EntryServes(c, r, s.requests[owner], entry, s.now);
    var answer := CachedAnswer(ResultRead(s.cache, PodKey(r), s.now, false).value);
    assert ServedFrom(r, s.requests[owner], answer);
  }

  /** Every request answered from the cache has such a source. */
  ghost predicate Sourced(s: State) {
    forall id {:trigger HasSource(s, id)} :: id in s.requests ==> HasSource(s, id)
  }

  ghost predicate HasSource(s: State, id: nat)
    requires id in s.requests
  {
    var r := s.requests[id];
    PlainKey(PodKey(r)) && r.pc.Done? && FromCache(r.pc.answer) ==>
      exists owner :: owner in s.requests && ServedFrom(r, s.requests[owner], r.pc.answer)
  }

  /** Requests stay, with their pods and the outcomes of their workers. */
  lemma OutcomesStay(c: Config, s: State, e: Event, id: nat)
    requires id in s.requests && RequestOk(s.requests[id])
    ensures var s' := Apply(c, s, e);
      && id in s'.requests && s'.requests[id].pod == s.requests[id].pod
      && (HasOutcome(s.requests[id]) ==> HasOutcome(s'.requests[id]) && s'.requests[id].worker.out == s.requests[id].worker.out)
      && (s'.requests[id].pc != s.requests[id].pc && s'.requests[id].pc.Done? && FromCache(s'.requests[id].pc.answer) ==>
            && ResultRead(s.cache, PodKey(s.requests[id]), s.now, false).Some?
            && s'.requests[id].pc.answer == CachedAnswer(ResultRead(s.cache, PodKey(s.requests[id]), s.now, false).value))
  {
    if !e.Arrive? && !e.Tick? && !e.Evict? && !e.ForeignSet? && e.id == id && Step(c, s, s.requests[id], e).Some? {
      StepKeepsWorker(c, s, s.requests[id], e);
      OnlyLookUpAnswersFromCache(c, s, s.requests[id], e);
    }
    hide Step, CacheStep, RequestOk, ResultRead, CachedAnswer, PodKey, Put, HasOutcome, FromCache;
  }

  lemma OnlyLookUpAnswersFromCache(c: Config, s: State, r: Request, e: Event)
    requires Step(c, s, r, e).Some?
    ensures var r' := Step(c, s, r, e).value;
      r'.pc != r.pc && r'.pc.Done? && FromCache(r'.pc.answer) ==>
            && ResultRead(s.cache, PodKey(r), s.now, false).Some?
            && r'.pc.answer == CachedAnswer(ResultRead(s.cache, PodKey(r), s.now, false).value)
  {
  }

  lemma SourceStays(c: Config, s: State, e: Event, id: nat)
    requires Inv(c, s) && id in s.requests
    ensures var s' := Apply(c, s, e);
      && id in s'.requests && s'.requests[id].pod == s.requests[id].pod
      && (HasOutcome(s.requests[id]) ==> HasOutcome(s'.requests[id]) && s'.requests[id].worker.out == s.requests[id].worker.out)
  {
    assert RequestOk(s.requests[id]);
    OutcomesStay(c, s, e, id);
  }

  lemma ServedFromStays(r: Request, source: Request, r': Request, source': Request, answer: Answer)
    requires ServedFrom(r, source, answer) && r'.pod == r.pod && source'.pod == source.pod
    requires HasOutcome(source') && source'.worker.out == source.worker.out
    ensures ServedFrom(r', source', answer)
  {
  }

  lemma ApplyKeepsSourced(c: Config, s: State, e: Event)
    requires Inv(c, s) && Sourced(s)
    ensures Sourced(Apply(c, s, e))
  {
    var s' := Apply(c, s, e);
    forall id | id in s'.requests ensures HasSource(s', id) {
      if id in s.requests {
        assert RequestOk(s.requests[id]);
        OutcomesStay(c, s, e, id);
        var r, r' := s.requests[id], s'.requests[id];
        hide Apply, ServedFrom, Inv, ResultRead;
        if PlainKey(PodKey(r')) && r'.pc.Done? && FromCache(r'.pc.answer) {
          if r'.pc == r.pc {
            assert HasSource(s, id);
          } else {
            HitInState(c, s, id);
          }
          var owner :| owner in s.requests && ServedFrom(r, s.requests[owner], r'.pc.answer);
          SourceStays(c, s, e, owner);
          OwnerHasOutcome(r, s.requests[owner], r'.pc.answer);
          ServedFromStays(r, s.requests[owner], r', s'.requests[owner], r'.pc.answer);
        }
      }
    }
  }

  lemma OwnerHasOutcome(r: Request, source: Request, answer: Answer)
    requires ServedFrom(r, source, answer)
    ensures HasOutcome(source)
  {
  }

  lemma {:induction false} RunKeepsSourced(c: Config, s: State, events: seq<Event>)
    requires Inv(c, s) && Sourced(s)
    ensures Sourced(Run(c, s, events))
    decreases |events|
  {
    if events != [] {
      ApplyKeepsInv(c, s, events[0]);
      ApplyKeepsSourced(c, s, events[0]);
      RunKeepsSourced(c, Apply(c, s, events[0]), events[1..]);
    }
  }

  /** In every run, an answer given from the cache is the outcome of some request's worker for a pod of
      the same key. */
  lemma CachedAnswersAreOutcomes(c: Config, events: seq<Event>, id: nat)
    requires ValidConfig(c)
    requires var s := Run(c, Init, events);
             && id in s.requests && PlainKey(PodKey(s.requests[id]))
             && s.requests[id].pc.Done? && FromCache(s.requests[id].pc.answer)
    ensures var s := Run(c, Init, events);
            exists owner :: owner in s.requests && ServedFrom(s.requests[id], s.requests[owner], s.requests[id].pc.answer)
  {
    Reachable(c, []);
    RunKeepsSourced(c, Init, events);
    assert HasSource(Run(c, Init, events), id);
  }

  /** An event that removes or overwrites a provider's entry. */
  predicate Touches(s: State, e: Event, key: string) {
    || e == Evict(key)
    || ((e.StoreResult? || e.WriteStatus? || e.ResetStore?) && e.w != Lost && e.id in s.requests
        && var r := s.requests[e.id];
           if e.StoreResult? then ResultKey(PodKey(r)) == key && r.storing.StorePending?
           else TimeoutKey(PodKey(r)) == key && (if e.WriteStatus? then r.pc.WritingStatus? else r.resetting.ResetWriting?))
  }

  predicate Untouched(c: Config, s: State, events: seq<Event>, key: string)
    decreases |events|
  {
    events == [] || (!Touches(s, events[0], key) && Untouched(c, Apply(c, s, events[0]), events[1..], key))
  }

  lemma UntouchedEntryStays(c: Config, s: State, e: Event, podKey: string, key: string)
    requires PlainKey(podKey) && (key == TimeoutKey(podKey) || key == ResultKey(podKey))
    requires !Touches(s, e, key) && key in s.cache
    ensures var s' := Apply(c, s, e); s.now <= s'.now && key in s'.cache && s'.cache[key] == s.cache[key]
  {
    if e.ForeignSet? && ForeignKey(e.key) {
      ForeignKeysSeparate(e.key, podKey);
    } else if !e.Arrive? && !e.Tick? && !e.Evict? && !e.ForeignSet? && e.id in s.requests {
      var r := s.requests[e.id];
      ProviderKeysSeparate(PodKey(r), podKey);
      ProviderKeysSeparate(podKey, PodKey(r));
      if PodKey(r) != podKey {
        CacheStepFrame(c, s, r, e, key);
      }
    }
    hide Step, PodKey;
  }

  lemma {:induction false} UntouchedRun(c: Config, s: State, events: seq<Event>, podKey: string, key: string)
    requires PlainKey(podKey) && (key == TimeoutKey(podKey) || key == ResultKey(podKey))
    requires Untouched(c, s, events, key) && key in s.cache
    ensures var s' := Run(c, s, events); s.now <= s'.now && key in s'.cache && s'.cache[key] == s.cache[key]
    decreases |events|
  {
    hide Apply, Touches;
    if events != [] {
      UntouchedEntryStays(c, s, events[0], podKey, key);
      UntouchedRun(c, Apply(c, s, events[0]), events[1..], podKey, key);
    }
  }

  /** A worker's outcome is stored whether or not its request has already been answered. Over any
      further run that does not remove or overwrite it, look-ups of the key find exactly that outcome,
      exactly until the results' time-to-live has passed. */
  lemma StoreThenHit(c: Config, s: State, id: nat, w: WriteOutcome, events: seq<Event>)
    requires Inv(c, s) && id in s.requests && s.requests[id].storing.StorePending? && w != Lost
    requires PlainKey(PodKey(s.requests[id]))
    requires Untouched(c, Apply(c, s, StoreResult(id, w)), events, ResultKey(PodKey(s.requests[id])))
    ensures var r, s' := s.requests[id], Run(c, Apply(c, s, StoreResult(id, w)), events);
            var hit := ResultRead(s'.cache, PodKey(r), s'.now, false);
      && HasOutcome(r)
      && (hit.Some? <==> s'.now < ExpiryAt(c.backend, s.now, c.resultTtl).value)
      && (hit.Some? ==> CachedAnswer(hit.value) == AnswerOfStored(r.worker.out))
  {
    var r := s.requests[id];
    var podKey, list, err := PodKey(r), OutcomeList(r.worker.out), OutcomeErr(r.worker.out);
    assert RequestOk(r);
    StoredReadsBack(r.worker.out, r.pod);
    StoreSteps(c, s, id, w);
    var s1 := Apply(c, s, StoreResult(id, w));
    UntouchedRun(c, s1, events, podKey, ResultKey(podKey));
    var s2 := Run(c, s1, events);
    WrittenResultIsRead(c, s.cache, podKey, list, err, s.now, s2.now, w);
    SameEntryReads(s1.cache, s2.cache, podKey, s2.now);
    hide ResultRead, CachedAnswer, AnswerOfStored, UnmarshalScanResults, MarshalScanResults, PodKey, RequestOk, Run, Apply, Untouched;
  }

  lemma StoreSteps(c: Config, s: State, id: nat, w: WriteOutcome)
    requires id in s.requests && s.requests[id].storing.StorePending? && w != Lost && RequestOk(s.requests[id])
    ensures var r, s' := s.requests[id], Apply(c, s, StoreResult(id, w));
      && s'.now == s.now && HasOutcome(r) && ResultKey(PodKey(r)) in s'.cache
      && s'.cache == ResultWrite(c, s.cache, PodKey(r), OutcomeList(r.worker.out), OutcomeErr(r.worker.out), s.now, w)
  {
  }

  lemma SameEntryReads(store: Store, store': Store, podKey: string, now: nat)
    requires var key := ResultKey(podKey); key in store && key in store' && store'[key] == store[key]
    ensures ResultRead(store', podKey, now, false) == ResultRead(store, podKey, now, false)
  {
  }

  /** In every run the timeout record is reset by exactly the requests that answered fresh results, which
      also are the ones that close their channel; a cache hit, an error or a timeout resets nothing. */
  lemma OnlySuccessResets(c: Config, events: seq<Event>, id: nat)
    requires ValidConfig(c) && id in Run(c, Init, events).requests
    ensures var r := Run(c, Init, events).requests[id];
      && (r.resetting != ResetIdle <==> r.pc.Done? && r.pc.answer.FreshList?)
      && (r.chan.closed <==> r.pc.Done? && r.pc.answer.FreshList?)
  {
    Reachable(c, events);
    assert RequestOk(Run(c, Init, events).requests[id]);
  }

  /** No send ever blocks or panics: in every run a worker that has something to send finds room in
      its open, capacity-1 channel, and a request still racing a finished worker can receive. */
  lemma SendNeverBlocks(c: Config, events: seq<Event>, id: nat)
    requires ValidConfig(c) && id in Run(c, Init, events).requests
    ensures var r := Run(c, Init, events).requests[id];
            && |r.chan.buffer| <= CHANNEL_CAPACITY
            && (r.worker.Sending? ==> SendStep(r).Some?)
            && (r.worker.Sent? && r.pc == Racing ==> ReceiveStep(r).Some?)
  {
    Reachable(c, events);
    var s := Run(c, Init, events);
    assert RequestOk(s.requests[id]);
  }

  /** In every run, what a request was answered is its own worker's outcome, with one entry for each
      of its containers, or the full placeholder list, or came from the cache without a worker. */
  lemma AnswersAreHonest(c: Config, events: seq<Event>, id: nat)
    requires ValidConfig(c)
    requires id in Run(c, Init, events).requests && Run(c, Init, events).requests[id].pc.Done?
    ensures var r := Run(c, Init, events).requests[id];
            match r.pc.answer
            case FreshList(list) =>
              && r.worker == Sent(Scanned(list))
              && multiset(Map(NameAndImage, list)) == multiset(r.pod.initContainers) + multiset(r.pod.containers)
            case FreshError(err) => r.worker.Sent? && r.worker.out.Failed? && Cause(err) == Cause(r.worker.out.err)
            case Blocked(list) => list == TimeoutList(r.pod)
            case TimeoutError => !r.worker.NotStarted?
            case _ => r.worker.NotStarted?
  {
    Reachable(c, events);
    var s := Run(c, Init, events);
    assert RequestOk(s.requests[id]);
  }

  // Counting over a run.

  function WorkerOf(s: State, id: nat): Worker {
    if id in s.requests then s.requests[id].worker else NotStarted
  }

  const STARTED := 1
  const SENT := 3

  function Stage(w: Worker): nat {
    match w
    case NotStarted => 0
    case Computing => STARTED
    case Sending(_) => 2
    case Sent(_) => SENT
  }

  /** How many events of a run take the worker of a request to a stage. */
  function Entered(c: Config, s: State, events: seq<Event>, id: nat, stage: nat): nat
    decreases |events|
  {
    if events == [] then 0
    else
      var s' := Apply(c, s, events[0]);
      (if Stage(WorkerOf(s, id)) < stage <= Stage(WorkerOf(s', id)) then 1 else 0) + Entered(c, s', events[1..], id, stage)
  }

  /** A worker starts exactly when its own request looks up the result cache and misses. */
  lemma StartsOnlyOnMiss(c: Config, s: State, e: Event, id: nat)
    requires id in s.requests && RequestOk(s.requests[id])
    ensures Stage(WorkerOf(s, id)) <= Stage(WorkerOf(Apply(c, s, e), id)) <= Stage(WorkerOf(s, id)) + 1
    ensures (s.requests[id].worker.NotStarted? && !WorkerOf(Apply(c, s, e), id).NotStarted?) <==>
            (e.LookUp? && e.id == id && s.requests[id].pc == LookingUp
             && ResultRead(s.cache, PodKey(s.requests[id]), s.now, e.faulty).None?)
  {
  }

  lemma {:induction false} EnteredOnce(c: Config, s: State, events: seq<Event>, id: nat, stage: nat)
    requires Inv(c, s)
    ensures Stage(WorkerOf(s, id)) <= Stage(WorkerOf(Run(c, s, events), id))
    ensures Entered(c, s, events, id, stage) ==
            if Stage(WorkerOf(s, id)) < stage <= Stage(WorkerOf(Run(c, s, events), id)) then 1 else 0
    decreases |events|
  {
    if events != [] {
      if id in s.requests {
        assert RequestOk(s.requests[id]);
        StartsOnlyOnMiss(c, s, events[0], id);
      }
      ApplyKeepsInv(c, s, events[0]);
      EnteredOnce(c, Apply(c, s, events[0]), events[1..], id, stage);
    }
  }

  /** In every run each request starts at most one worker and that worker sends at most once; a
      request that has been through the look-up has started one exactly when it was not answered
      from the cache. */
  lemma OneWorkerOneSend(c: Config, events: seq<Event>, id: nat)
    requires ValidConfig(c)
    ensures var s := Run(c, Init, events);
            && Entered(c, Init, events, id, STARTED) <= 1
            && Entered(c, Init, events, id, SENT) <= Entered(c, Init, events, id, STARTED)
            && (id in s.requests && s.requests[id].pc != LookingUp ==>
                  (Entered(c, Init, events, id, STARTED) == 0
                   <==> s.requests[id].pc.Done? && FromCache(s.requests[id].pc.answer)))
  {
    Reachable(c, []);
    EnteredOnce(c, Init, events, id, STARTED);
    EnteredOnce(c, Init, events, id, SENT);
    Reachable(c, events);
    var s := Run(c, Init, events);
    if id in s.requests {
      assert RequestOk(s.requests[id]);
    }
  }

  /** An answer, once given, is never taken back: a late worker or store cannot change it. */
  lemma {:induction false} AnswerIsFinal(c: Config, s: State, events: seq<Event>, id: nat)
    requires id in s.requests && s.requests[id].pc.Done?
    ensures var s' := Run(c, s, events);
            id in s'.requests && s'.requests[id].pc == s.requests[id].pc
    decreases |events|
  {
    if events != [] {
      AnswerIsFinal(c, Apply(c, s, events[0]), events[1..], id);
    }
  }
}
