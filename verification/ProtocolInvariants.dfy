/** What every reachable state of the answer protocol satisfies, and what that means for the
    answers. */
module ProtocolInvariants {
  import opened GoErrors
  import opened Contracts
  import opened JsonCodec
  import opened CacheStore
  import opened Decimal
  import opened KeySpace
  import opened PodKeys
  import opened ProviderCache
  import opened Protocol

  predicate HasOutcome(r: Request) {
    r.worker.Sending? || r.worker.Sent?
  }

  predicate InTimeoutHandler(r: Request) {
    r.pc.ReadingStatus? || r.pc.WritingStatus?
  }

  predicate FromCache(a: Answer) {
    a.CachedList? || a.CachedError?
  }

  /** Each answer is what its source says: the worker's outcome, the placeholder list, or the cache. */
  predicate AnswerOk(r: Request, a: Answer) {
    match a
    case CachedList(_) => r.worker.NotStarted?
    case CachedError(_) => r.worker.NotStarted?
    case FreshList(list) => r.worker == Sent(Scanned(list))
    case FreshError(_) => r.worker.Sent? && r.worker.out.Failed? && a == FreshAnswer(r.worker.out)
    case Blocked(list) => !r.worker.NotStarted? && list == TimeoutList(r.pod)
    case TimeoutError => !r.worker.NotStarted?
  }

  /** The worker, its channel and the store it spawned. */
  predicate WorkerOk(r: Request) {
    && (!r.worker.Sent? ==> r.chan == Channel([], false))
    && (r.worker.Sent? && r.chan.buffer != [] ==> r.chan == Channel([r.worker.out], false))
    && (r.worker.Sent? && r.pc == Racing ==> r.chan.buffer != [])
    && (HasOutcome(r) ==> WorkerOutcome(r.pod, r.worker.out))
    && (r.storing.StoreIdle? <==> !HasOutcome(r))
    && (r.storing.StorePending? ==> r.storing.out == r.worker.out)
  }

  /** Where the request stands, and what it was answered. */
  predicate ControlOk(r: Request) {
    && (r.pc == LookingUp ==> r.worker.NotStarted?)
    && (r.pc == Racing || InTimeoutHandler(r) ==> !r.worker.NotStarted?)
    && (r.resetting != ResetIdle <==> r.pc.Done? && r.pc.answer.FreshList?)
    && (r.chan.closed <==> r.pc.Done? && r.pc.answer.FreshList?)
    && (r.pc.Done? ==> AnswerOk(r, r.pc.answer))
  }

  predicate RequestOk(r: Request) {
    WorkerOk(r) && ControlOk(r)
  }

  predicate SmallStatus(v: Value) {
    v == Text(Itoa(0)) || v == Text(Itoa(1)) || v == Text(Itoa(2))
  }

  predicate StatusEntryOk(store: Store, podKey: string) {
    TimeoutKey(podKey) in store ==> SmallStatus(store[TimeoutKey(podKey)].value)
  }

  /** `entry` holds the outcome of `r`'s worker, kept for the results' time-to-live. */
  predicate StoredFor(c: Config, r: Request, podKey: string, entry: Entry) {
    && PodKey(r) == podKey
    && HasOutcome(r)
    && entry.value == Doc(MarshalScanResults(OutcomeList(r.worker.out), OutcomeErr(r.worker.out)))
    && entry.expiresAt == ExpiryAt(c.backend, entry.storedAt, c.resultTtl)
  }

  ghost predicate ResultEntryOk(c: Config, s: State, podKey: string) {
    ResultKey(podKey) in s.cache ==>
      && s.cache[ResultKey(podKey)].storedAt <= s.now
      && exists id :: id in s.requests && StoredFor(c, s.requests[id], podKey, s.cache[ResultKey(podKey)])
  }

  /** A status about to be written: an attempt is left, and the count is 1 or 2. */
  predicate PendingOk(c: Config, r: Request) {
    r.pc.WritingStatus? ==> 1 <= r.pc.left <= c.attempts && (PlainKey(PodKey(r)) ==> 1 <= r.pc.next <= 2)
  }

  ghost predicate Inv(c: Config, s: State) {
    && ValidConfig(c)
    && (forall id :: id in s.requests ==> RequestOk(s.requests[id]) && PendingOk(c, s.requests[id]))
    && (forall podKey {:trigger StatusEntryOk(s.cache, podKey)} :: PlainKey(podKey) ==> StatusEntryOk(s.cache, podKey))
    && (forall podKey {:trigger ResultEntryOk(c, s, podKey)} :: PlainKey(podKey) ==> ResultEntryOk(c, s, podKey))
  }

  /** A well-formed status parses, to one of 0, 1, 2, or is absent. */
  lemma SmallStatusReads(store: Store, podKey: string, now: nat)
    requires StatusEntryOk(store, podKey)
    ensures exists n :: 0 <= n <= 2 && StatusIs(store, podKey, now, n)
  {
    AtoiItoa(0);
    AtoiItoa(1);
    AtoiItoa(2);
    var read := StatusRead(store, podKey, now, false);
    assert read == Some(0) || read == Some(1) || read == Some(2);
    assert StatusIs(store, podKey, now, read.value);
  }

  lemma StepKeepsWorker(c: Config, s: State, r: Request, e: Event)
    requires RequestOk(r) && Step(c, s, r, e).Some?
    ensures var r' := Step(c, s, r, e).value;
            && WorkerOk(r') && r'.pod == r.pod
            && (HasOutcome(r) ==> HasOutcome(r') && r'.worker.out == r.worker.out)
  {
  }

  lemma StepKeepsControl(c: Config, s: State, r: Request, e: Event)
    requires RequestOk(r) && Step(c, s, r, e).Some?
    ensures ControlOk(Step(c, s, r, e).value)
  {
  }

  lemma StepKeepsPending(c: Config, s: State, r: Request, e: Event)
    requires ValidConfig(c) && PendingOk(c, r) && Step(c, s, r, e).Some?
    requires PlainKey(PodKey(r)) ==> StatusEntryOk(s.cache, PodKey(r))
    ensures PendingOk(c, Step(c, s, r, e).value)
  {
    if e.ReadStatus? && PlainKey(PodKey(r)) {
      SmallStatusReads(s.cache, PodKey(r), s.now);
    }
  }

  /** An event of a request writes at most the two keys of its own pod. */
  lemma CacheStepFrame(c: Config, s: State, r: Request, e: Event, key: string)
    requires key != TimeoutKey(PodKey(r)) && key != ResultKey(PodKey(r))
    ensures var store := CacheStep(c, s, r, e);
            (key in store <==> key in s.cache) && (key in store ==> store[key] == s.cache[key])
  {
  }

  lemma CacheStepStatus(c: Config, s: State, r: Request, e: Event)
    requires PlainKey(PodKey(r)) && PendingOk(c, r) && StatusEntryOk(s.cache, PodKey(r))
    ensures StatusEntryOk(CacheStep(c, s, r, e), PodKey(r))
  {
    ProviderKeysSeparate(PodKey(r), PodKey(r));
    if e.WriteStatus? && r.pc.WritingStatus? {
      assert r.pc.next == 1 || r.pc.next == 2;
    }
  }

  lemma CacheStepResult(c: Config, s: State, r: Request, r': Request, e: Event)
    requires RequestOk(r) && Step(c, s, r, e) == Some(r')
    ensures var key, store := ResultKey(PodKey(r)), CacheStep(c, s, r, e);
            || (key in store && store[key].storedAt == s.now && StoredFor(c, r', PodKey(r), store[key]))
            || ((key in store <==> key in s.cache) && (key in store ==> store[key] == s.cache[key]))
  {
    ProviderKeysSeparate(PodKey(r), PodKey(r));
  }

  lemma RequestEventKeepsKey(c: Config, s: State, id: nat, r': Request, e: Event, s': State, podKey: string)
    requires ValidConfig(c) && id in s.requests && RequestOk(s.requests[id]) && PendingOk(c, s.requests[id])
    requires Step(c, s, s.requests[id], e) == Some(r')
    requires s' == State(s.now, CacheStep(c, s, s.requests[id], e), s.requests[id := r'])
    requires PlainKey(podKey) && StatusEntryOk(s.cache, podKey) && ResultEntryOk(c, s, podKey)
    requires PlainKey(PodKey(s.requests[id])) ==> StatusEntryOk(s.cache, PodKey(s.requests[id]))
    ensures StatusEntryOk(s'.cache, podKey) && ResultEntryOk(c, s', podKey)
  {
    var r := s.requests[id];
    StepKeepsWorker(c, s, r, e);
    StepKeepsControl(c, s, r, e);
    StepKeepsPending(c, s, r, e);
    ProviderKeysSeparate(podKey, PodKey(r));
    ProviderKeysSeparate(PodKey(r), podKey);
    if podKey == PodKey(r) {
      CacheStepStatus(c, s, r, e);
      CacheStepResult(c, s, r, r', e);
    } else {
      CacheStepFrame(c, s, r, e, TimeoutKey(podKey));
      CacheStepFrame(c, s, r, e, ResultKey(podKey));
    }
    OutcomesPersist(c, s, id, r', s', podKey);
  }

  lemma RequestEventKeepsInv(c: Config, s: State, id: nat, r': Request, e: Event, s': State)
    requires Inv(c, s) && id in s.requests && Step(c, s, s.requests[id], e) == Some(r')
    requires s' == State(s.now, CacheStep(c, s, s.requests[id], e), s.requests[id := r'])
    ensures Inv(c, s')
  {
    hide Step, CacheStep, ControlOk, WorkerOk, PendingOk, StatusEntryOk, ResultEntryOk;
    StepKeepsWorker(c, s, s.requests[id], e);
    StepKeepsControl(c, s, s.requests[id], e);
    StepKeepsPending(c, s, s.requests[id], e);
    forall podKey | PlainKey(podKey) ensures StatusEntryOk(s'.cache, podKey) && ResultEntryOk(c, s', podKey) {
      RequestEventKeepsKey(c, s, id, r', e, s', podKey);
    }
  }

  /** An entry kept across a request's step still has the request that produced it. */
  lemma OutcomesPersist(c: Config, s: State, id: nat, r': Request, s': State, podKey: string)
    requires id in s.requests && s'.requests == s.requests[id := r'] && s'.now == s.now
    requires r'.pod == s.requests[id].pod
    requires HasOutcome(s.requests[id]) ==> HasOutcome(r') && r'.worker.out == s.requests[id].worker.out
    requires ResultEntryOk(c, s, podKey)
    requires var key := ResultKey(podKey);
             || (key in s'.cache && s'.cache[key].storedAt == s.now && StoredFor(c, r', podKey, s'.cache[key]))
             || ((key in s'.cache <==> key in s.cache) && (key in s'.cache ==> s'.cache[key] == s.cache[key]))
    ensures ResultEntryOk(c, s', podKey)
  {
    var key := ResultKey(podKey);
    if key in s'.cache {
      if s'.cache[key].storedAt == s.now && StoredFor(c, r', podKey, s'.cache[key]) {
        assert id in s'.requests && StoredFor(c, s'.requests[id], podKey, s'.cache[key]);
      } else {
        var owner :| owner in s.requests && StoredFor(c, s.requests[owner], podKey, s.cache[key]);
        assert owner in s'.requests && StoredFor(c, s'.requests[owner], podKey, s'.cache[key]);
      }
    }
  }

  /** Events that add requests, let time pass or remove entries, or write other keys. */
  lemma FrameKeepsInv(c: Config, s: State, s': State)
    requires Inv(c, s) && s.now <= s'.now
    requires forall id :: id in s.requests ==> id in s'.requests && s'.requests[id] == s.requests[id]
    requires forall id :: id in s'.requests && id !in s.requests ==> RequestOk(s'.requests[id]) && PendingOk(c, s'.requests[id])
    requires forall podKey, key :: PlainKey(podKey) && (key == TimeoutKey(podKey) || key == ResultKey(podKey)) && key in s'.cache
               ==> key in s.cache && s'.cache[key] == s.cache[key]
    ensures Inv(c, s')
  {
    forall podKey | PlainKey(podKey) ensures ResultEntryOk(c, s', podKey) {
      assert ResultEntryOk(c, s, podKey);
      var key := ResultKey(podKey);
      if key in s'.cache {
        var owner :| owner in s.requests && StoredFor(c, s.requests[owner], podKey, s.cache[key]);
        assert owner in s'.requests && StoredFor(c, s'.requests[owner], podKey, s'.cache[key]);
      }
    }
    forall podKey | PlainKey(podKey) ensures StatusEntryOk(s'.cache, podKey) {
      assert StatusEntryOk(s.cache, podKey);
    }
  }

  lemma ForeignSetFrame(c: Config, s: State, key: string, value: Value, ttl: nat)
    requires ForeignKey(key)
    ensures var store := Put(c.backend, s.cache, key, value, ttl, s.now);
            forall podKey, k :: PlainKey(podKey) && (k == TimeoutKey(podKey) || k == ResultKey(podKey)) && k in store
              ==> k in s.cache && store[k] == s.cache[k]
  {
    forall podKey | PlainKey(podKey) ensures key != TimeoutKey(podKey) && key != ResultKey(podKey) {
      ForeignKeysSeparate(key, podKey);
    }
  }

  lemma ApplyKeepsInv(c: Config, s: State, e: Event)
    requires Inv(c, s)
    ensures Inv(c, Apply(c, s, e))
  {
    hide Inv, Step, CacheStep;
    var s' := Apply(c, s, e);
    if e.Arrive? || e.Tick? || e.Evict? || e.ForeignSet? {
      EnvironmentKeepsInv(c, s, e);
    } else if e.id in s.requests && Step(c, s, s.requests[e.id], e).Some? {
      RequestEventKeepsInv(c, s, e.id, Step(c, s, s.requests[e.id], e).value, e, s');
    }
  }

  lemma EnvironmentKeepsInv(c: Config, s: State, e: Event)
    requires Inv(c, s) && (e.Arrive? || e.Tick? || e.Evict? || e.ForeignSet?)
    ensures Inv(c, Apply(c, s, e))
  {
    if e.ForeignSet? && ForeignKey(e.key) {
      ForeignSetFrame(c, s, e.key, e.value, e.ttl);
    }
    hide StatusEntryOk, ResultEntryOk;
    FrameKeepsInv(c, s, Apply(c, s, e));
  }

  lemma {:induction false} RunKeepsInv(c: Config, s: State, events: seq<Event>)
    requires Inv(c, s)
    ensures Inv(c, Run(c, s, events))
    decreases |events|
  {
    if events != [] {
      ApplyKeepsInv(c, s, events[0]);
      RunKeepsInv(c, Apply(c, s, events[0]), events[1..]);
    }
  }

  lemma Reachable(c: Config, events: seq<Event>)
    requires ValidConfig(c)
    ensures Inv(c, Run(c, Init, events))
  {
    RunKeepsInv(c, Init, events);
  }
}
