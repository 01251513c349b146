/** What the answer protocol has to do: results that arrive in time are answered, results and resets
    reach the cache, and a strike lasts exactly as long as it should. */
module ProtocolProgress {
  import opened GoErrors
  import opened Contracts
  import opened JsonCodec
  import opened CacheStore
  import opened Decimal
  import opened KeySpace
  import opened PodKeys
  import opened ProviderCache
  import opened Protocol
  import opened ProtocolInvariants
  import opened ProtocolSafety
  import opened ProtocolBound

  // Look-ups.

  /** A look-up whose read works and finds a result that decodes is answered at once with that list, or
      with an error of the stored cause; any other starts the worker and the race. */
  lemma LookUpMeans(c: Config, s: State, id: nat, faulty: bool)
    requires id in s.requests && s.requests[id].pc == LookingUp
    ensures var r, s' := s.requests[id], Apply(c, s, LookUp(id, faulty));
            var found := Read(s.cache, ResultKey(PodKey(r)), s.now);
      && s' == s.(requests := s.requests[id := s'.requests[id]])
      && (if !faulty && found.Some? && found.value.Doc? && UnmarshalScanResults(found.value.tree).Some?
          then
            && s'.requests[id].pc.Done? && s'.requests[id].worker == r.worker
            && match UnmarshalScanResults(found.value.tree).value
               case StoredList(list) => s'.requests[id].pc.answer == CachedList(list)
               case StoredError(e) => s'.requests[id].pc.answer.CachedError? && Cause(s'.requests[id].pc.answer.err) == Cause(e)
          else s'.requests[id] == r.(pc := Racing, worker := Computing))
  {
  }

  // Results in time.

  /** While a request is still racing, its worker's results are what it answers: the list as it is, and
      then the timeout record is to be reset, or an error of the same cause. */
  lemma ResultInTimeIsAnswered(c: Config, s: State, id: nat)
    requires id in s.requests && RequestOk(s.requests[id]) && s.requests[id].pc == Racing && s.requests[id].worker.Sent?
    ensures var r, s' := s.requests[id], Apply(c, s, Receive(id));
      && s'.now == s.now && s'.cache == s.cache && s'.requests - {id} == s.requests - {id}
      && id in s'.requests && s'.requests[id].pc.Done?
      && match r.worker.out
         case Scanned(list) =>
           && s'.requests[id].pc.answer == FreshList(list)
           && s'.requests[id].resetting == ResetReading && s'.requests[id].chan.closed
         case Failed(e) =>
           && s'.requests[id].pc.answer.FreshError? && Cause(s'.requests[id].pc.answer.err) == Cause(e)
           && s'.requests[id].resetting == ResetIdle
  {
  }

  predicate TimedOut(r: Request) {
    InTimeoutHandler(r) || (r.pc.Done? && (r.pc.answer.Blocked? || r.pc.answer.TimeoutError?))
  }

  /** A request comes into the timeout handler by its own timer only, while it is racing, and then for
      good. */
  lemma TimeoutsAreTimers(c: Config, s: State, e: Event, id: nat)
    requires id in s.requests
    ensures var s' := Apply(c, s, e);
      && id in s'.requests
      && (TimedOut(s'.requests[id]) <==> TimedOut(s.requests[id]) || (e == TimerFires(id) && s.requests[id].pc == Racing))
  {
  }

  lemma ArrivalsAreFresh(c: Config, s: State, e: Event, id: nat)
    requires id !in s.requests
    ensures var s' := Apply(c, s, e);
      && (id in s'.requests <==> e.Arrive? && e.id == id)
      && (id in s'.requests ==> s'.requests[id] == Request(e.pod, LookingUp, NotStarted, Channel([], false), StoreIdle, ResetIdle))
  {
  }

  /** Over whole runs: a request whose timer does not fire is never answered with a timeout, neither
      with the placeholders nor with the error. */
  lemma {:induction false} NoTimerNoTimeout(c: Config, s: State, events: seq<Event>, id: nat)
    requires id in s.requests ==> !TimedOut(s.requests[id])
    requires TimerFires(id) !in events
    ensures var s' := Run(c, s, events);
            id in s'.requests ==> !TimedOut(s'.requests[id])
    decreases |events|
  {
    if events != [] {
      if id in s.requests {
        TimeoutsAreTimers(c, s, events[0], id);
      } else {
        ArrivalsAreFresh(c, s, events[0], id);
      }
      NoTimerNoTimeout(c, Apply(c, s, events[0]), events[1..], id);
    }
  }

  /** And results that arrive after the timer are too late: the request stays timed out. */
  lemma {:induction false} TooLate(c: Config, s: State, events: seq<Event>, id: nat)
    requires id in s.requests && TimedOut(s.requests[id])
    ensures var s' := Run(c, s, events); id in s'.requests && TimedOut(s'.requests[id])
    decreases |events|
  {
    if events != [] {
      TimeoutsAreTimers(c, s, events[0], id);
      TooLate(c, Apply(c, s, events[0]), events[1..], id);
    }
  }

  /** From any state: a new request for any pod, whose result is not in the cache and whose worker is
      done before the timer, is answered what its worker found. */
  lemma InTimeRun(c: Config, s: State, id: nat, pod: PodSpec, out: Outcome, faulty: bool)
    requires Inv(c, s) && id !in s.requests && WorkerOutcome(pod, out)
    requires ResultRead(s.cache, Key(pod), s.now, faulty).None?
    ensures var s' := Run(c, s, [Arrive(id, pod), LookUp(id, faulty), Finish(id, out), Send(id), Receive(id)]);
      && s'.cache == s.cache && id in s'.requests && s'.requests[id].pc.Done?
      && s'.requests[id].storing == StorePending(out, c.attempts)
      && match out
         case Scanned(list) => s'.requests[id].pc.answer == FreshList(list) && s'.requests[id].resetting == ResetReading
         case Failed(e) => s'.requests[id].pc.answer.FreshError? && Cause(s'.requests[id].pc.answer.err) == Cause(e)
  {
    hide Run, RequestOk, Inv, PodKey, Apply, WorkerOutcome;
    var racing := Request(pod, Racing, Computing, Channel([], false), StoreIdle, ResetIdle);
    var sent := racing.(worker := Sent(out), storing := StorePending(out, c.attempts), chan := Channel([out], false));
    var s2 := Apply(c, Apply(c, s, Arrive(id, pod)), LookUp(id, faulty));
    MissRaces(c, s, id, pod, faulty);
    var s4 := Apply(c, Apply(c, s2, Finish(id, out)), Send(id));
    FinishSends(c, s2, id, racing, out);
    SentIsOk(sent, pod, out);
    ResultInTimeIsAnswered(c, s4, id);
    InTimeEvents(c, s, id, pod, out, faulty);
    ReceiveKeepsStoring(c, s4, id);
  }

  lemma MissRaces(c: Config, s: State, id: nat, pod: PodSpec, faulty: bool)
    requires id !in s.requests && ResultRead(s.cache, Key(pod), s.now, faulty).None?
    ensures Apply(c, Apply(c, s, Arrive(id, pod)), LookUp(id, faulty)) ==
            s.(requests := s.requests[id := Request(pod, Racing, Computing, Channel([], false), StoreIdle, ResetIdle)])
  {
    var r := Request(pod, LookingUp, NotStarted, Channel([], false), StoreIdle, ResetIdle);
    var s1 := Apply(c, s, Arrive(id, pod));
    assert s1 == s.(requests := s.requests[id := r]);
    assert PodKey(r) == Key(pod);
    LookUpMeans(c, s1, id, faulty);
    assert s.requests[id := r][id := r.(pc := Racing, worker := Computing)] == s.requests[id := r.(pc := Racing, worker := Computing)];
  }

  /** A worker that ends with an outcome has it to store, with all attempts, and sends it whether or not
      anybody still waits. */
  lemma FinishSends(c: Config, s: State, id: nat, r: Request, out: Outcome)
    requires id in s.requests && s.requests[id] == r && r.worker == Computing && WorkerOutcome(r.pod, out)
    requires r.chan == Channel([], false)
    ensures Apply(c, Apply(c, s, Finish(id, out)), Send(id)) ==
            s.(requests := s.requests[id := r.(worker := Sent(out), storing := StorePending(out, c.attempts),
                                               chan := Channel([out], false))])
  {
    hide WorkerOutcome;
    var r1 := r.(worker := Sending(out), storing := StorePending(out, c.attempts));
    var s1 := Apply(c, s, Finish(id, out));
    assert s1 == s.(requests := s.requests[id := r1]);
    var r2 := r1.(worker := Sent(out), chan := Channel([out], false));
    assert [] + [out] == [out];
    assert SendStep(r1) == Some(r2);
    assert s.requests[id := r1][id := r2] == s.requests[id := r2];
    hide FinishStep;
    assert Apply(c, s1, Send(id)) == s.(requests := s.requests[id := r2]);
  }

  lemma SentIsOk(r: Request, pod: PodSpec, out: Outcome)
    requires r.pod == pod && WorkerOutcome(pod, out) && r.pc == Racing && r.worker == Sent(out)
    requires r.chan == Channel([out], false) && r.storing.StorePending? && r.storing.out == out && r.resetting == ResetIdle
    ensures RequestOk(r)
  {
    hide WorkerOutcome;
  }

  lemma ReceiveKeepsStoring(c: Config, s: State, id: nat)
    requires id in s.requests
    ensures id in Apply(c, s, Receive(id)).requests && Apply(c, s, Receive(id)).requests[id].storing == s.requests[id].storing
  {
  }

  lemma InTimeEvents(c: Config, s: State, id: nat, pod: PodSpec, out: Outcome, faulty: bool)
    ensures Run(c, s, [Arrive(id, pod), LookUp(id, faulty), Finish(id, out), Send(id), Receive(id)]) ==
            Apply(c, Apply(c, Apply(c, Apply(c, Apply(c, s, Arrive(id, pod)), LookUp(id, faulty)), Finish(id, out)), Send(id)),
                  Receive(id))
  {
    hide Apply;
    RunOn(c, s, Arrive(id, pod), [LookUp(id, faulty), Finish(id, out), Send(id), Receive(id)]);
    var s1 := Apply(c, s, Arrive(id, pod));
    RunOn(c, s1, LookUp(id, faulty), [Finish(id, out), Send(id), Receive(id)]);
    var s2 := Apply(c, s1, LookUp(id, faulty));
    RunOn(c, s2, Finish(id, out), [Send(id), Receive(id)]);
    var s3 := Apply(c, s2, Finish(id, out));
    RunOn(c, s3, Send(id), [Receive(id)]);
    RunOn(c, Apply(c, s3, Send(id)), Receive(id), []);
  }

  lemma RunOn(c: Config, s: State, e: Event, events: seq<Event>)
    ensures Run(c, s, [e] + events) == Run(c, Apply(c, s, e), events)
    ensures events == [] ==> Run(c, s, [e]) == Apply(c, s, e)
  {
    hide Apply;
    assert ([e] + events)[1..] == events;
    assert [e] + [] == [e];
  }

  // Resets.

  /** After fresh results a reset whose read works goes on to write, with all attempts, exactly when there
      is a strike on record. */
  lemma ResetReadMeans(c: Config, s: State, id: nat, faulty: bool)
    requires Inv(c, s) && id in s.requests && s.requests[id].resetting == ResetReading && PlainKey(PodKey(s.requests[id]))
    ensures var s' := Apply(c, s, ResetRead(id, faulty));
      && s'.cache == s.cache && s'.now == s.now
      && s' == s.(requests := s.requests[id := s.requests[id].(resetting :=
             if !faulty && Strikes(s, PodKey(s.requests[id])) > 0 then ResetWriting(c.attempts) else ResetDone)])
  {
    var podKey := PodKey(s.requests[id]);
    assert StatusEntryOk(s.cache, podKey);
    SmallStatusReads(s.cache, podKey, s.now);
  }

  /** Every attempt of that write that is not lost leaves no strike; after it the reset is over, or it is
      tried again as a status is. */
  lemma ResetAttemptMeans(c: Config, s: State, id: nat, w: WriteOutcome)
    requires Inv(c, s) && id in s.requests && s.requests[id].resetting.ResetWriting? && PlainKey(PodKey(s.requests[id]))
    ensures var r, s' := s.requests[id], Apply(c, s, ResetStore(id, w));
            var left := r.resetting.left;
      && s'.requests == s.requests[id := r.(resetting := if w != Applied && left > 1 then ResetWriting(left - 1) else ResetDone)]
      && (if w == Lost then s'.cache == s.cache else Strikes(s', PodKey(r)) == 0)
  {
    if w != Lost {
      ResetReadsAsZero(c, s.cache, PodKey(s.requests[id]), s.now, s.now, w);
    }
  }

  lemma ResettingStays(c: Config, s: State, e: Event, id: nat)
    requires id in s.requests && RequestOk(s.requests[id]) && s.requests[id].resetting != ResetIdle
    requires (e.ResetRead? || e.ResetStore?) ==> e.id != id
    ensures var s' := Apply(c, s, e);
      id in s'.requests && s'.requests[id].resetting == s.requests[id].resetting && s'.requests[id].pod == s.requests[id].pod
  {
  }

  /** The attempt `e` of a reset of `id` is lost. */
  predicate LosesReset(s: State, e: Event, id: nat) {
    e == ResetStore(id, Lost) && id in s.requests && s.requests[id].resetting.ResetWriting?
  }

  function LostResets(states: seq<State>, events: seq<Event>, id: nat, m: nat, n: nat): nat
    requires m <= n <= |events| <= |states|
  {
    if m == n then 0 else LostResets(states, events, id, m, n - 1) + if LosesReset(states[n - 1], events[n - 1], id) then 1 else 0
  }

  ghost predicate Cleared(states: seq<State>, podKey: string, i: nat, n: nat)
    requires n < |states|
  {
    exists j {:trigger Strikes(states[j], podKey)} :: i <= j <= n && Strikes(states[j], podKey) == 0
  }

  /** How far a reset is after `lost` lost attempts. */
  predicate ResetAt(c: Config, s: State, id: nat, podKey: string, lost: nat) {
    && id in s.requests && PodKey(s.requests[id]) == podKey
    && match s.requests[id].resetting
       case ResetWriting(left) => left > 0 && left + lost == c.attempts
       case ResetDone => lost == c.attempts
       case _ => false
  }

  lemma ResetMoves(c: Config, s: State, e: Event, s': State, id: nat, podKey: string, lost: nat)
    requires Inv(c, s) && PlainKey(podKey) && s' == Apply(c, s, e) && ResetAt(c, s, id, podKey, lost)
    ensures Strikes(s', podKey) == 0 || ResetAt(c, s', id, podKey, lost + if LosesReset(s, e, id) then 1 else 0)
  {
    var r := s.requests[id];
    assert RequestOk(r);
    if e.ResetStore? && e.id == id && r.resetting.ResetWriting? {
      ResetAttemptMeans(c, s, id, e.w);
      hide Strikes, PodKey;
    } else if (e.ResetRead? || e.ResetStore?) && e.id == id {
      assert s' == s;
    } else {
      ResettingStays(c, s, e, id);
      hide Strikes;
    }
  }

  lemma {:induction false} ResetProgress(c: Config, states: seq<State>, events: seq<Event>, podKey: string, id: nat,
      i: nat, n: nat)
    requires IsTrace(c, states, events) && Inv(c, states[0]) && PlainKey(podKey) && i < n <= |events|
    requires id in states[i].requests && PodKey(states[i].requests[id]) == podKey
    requires states[i].requests[id].resetting == ResetReading && events[i] == ResetRead(id, false)
    ensures Cleared(states, podKey, i, n) || ResetAt(c, states[n], id, podKey, LostResets(states, events, id, i + 1, n))
    decreases n
  {
    hide Apply, Strikes, ResetAt, Inv, PodKey;
    assert states[n] == Apply(c, states[n - 1], events[n - 1]);
    TraceKeepsInv(c, states, events, n - 1);
    if n == i + 1 {
      if Strikes(states[i], podKey) != 0 {
        ResetStarts(c, states[i], states[n], id, podKey);
      }
    } else {
      ResetProgress(c, states, events, podKey, id, i, n - 1);
      if !Cleared(states, podKey, i, n - 1) {
        var lost := LostResets(states, events, id, i + 1, n - 1);
        ResetMoves(c, states[n - 1], events[n - 1], states[n], id, podKey, lost);
      }
    }
  }

  lemma ResetStarts(c: Config, s: State, s': State, id: nat, podKey: string)
    requires Inv(c, s) && id in s.requests && PodKey(s.requests[id]) == podKey && PlainKey(podKey)
    requires s.requests[id].resetting == ResetReading && s' == Apply(c, s, ResetRead(id, false)) && Strikes(s, podKey) != 0
    ensures ResetAt(c, s', id, podKey, 0)
  {
    assert StatusEntryOk(s.cache, podKey);
    StrikesRange(s, podKey);
    ResetReadMeans(c, s, id, false);
    hide Strikes;
  }

  /** Over whole runs: once the read of a reset has worked, the record is without a strike at some time
      from that read until the reset is over, unless every attempt of its write was lost. */
  lemma ResetHappens(c: Config, states: seq<State>, events: seq<Event>, podKey: string, id: nat, i: nat, n: nat)
    requires IsTrace(c, states, events) && Inv(c, states[0]) && PlainKey(podKey) && i < n <= |events|
    requires id in states[i].requests && PodKey(states[i].requests[id]) == podKey
    requires states[i].requests[id].resetting == ResetReading && events[i] == ResetRead(id, false)
    requires id in states[n].requests && states[n].requests[id].resetting == ResetDone
    ensures Cleared(states, podKey, i, n) || LostResets(states, events, id, i + 1, n) == c.attempts
  {
    ResetProgress(c, states, events, podKey, id, i, n);
    hide Cleared, LostResets, PodKey;
  }

  // Stores.

  /** An attempt to store that is not lost leaves the outcome for look-ups to find; after it the store is
      over, or it is tried again as a status is. */
  lemma StoreAttemptMeans(c: Config, s: State, id: nat, w: WriteOutcome)
    requires Inv(c, s) && id in s.requests && s.requests[id].storing.StorePending? && PlainKey(PodKey(s.requests[id]))
    ensures var r, s' := s.requests[id], Apply(c, s, StoreResult(id, w));
            var left := r.storing.left;
      && s'.requests == s.requests[id := r.(storing :=
             if w != Applied && left > 1 then StorePending(r.storing.out, left - 1) else StoreDone)]
      && (if w == Lost then s'.cache == s.cache else Found(s', PodKey(r), r.storing.out))
  {
    hide Apply, WorkerOk, ControlOk, PodKey, Inv, Found;
    StoreAttemptMoves(c, s, id, w);
    if w != Lost {
      StoredIsFound(c, s, id, w);
    }
  }

  lemma StoreAttemptMoves(c: Config, s: State, id: nat, w: WriteOutcome)
    requires id in s.requests && s.requests[id].storing.StorePending?
    ensures var r, s' := s.requests[id], Apply(c, s, StoreResult(id, w));
            var left := r.storing.left;
      && s'.requests == s.requests[id := r.(storing :=
             if w != Applied && left > 1 then StorePending(r.storing.out, left - 1) else StoreDone)]
      && (w == Lost ==> s'.cache == s.cache)
  {
    hide PodKey, MarshalScanResults;
  }

  lemma StoredIsFound(c: Config, s: State, id: nat, w: WriteOutcome)
    requires Inv(c, s) && id in s.requests && s.requests[id].storing.StorePending? && PlainKey(PodKey(s.requests[id]))
    requires w != Lost
    ensures Found(Apply(c, s, StoreResult(id, w)), PodKey(s.requests[id]), s.requests[id].storing.out)
  {
    assert RequestOk(s.requests[id]);
    StoreThenHit(c, s, id, w, []);
    hide CacheStep, ResultRead, AnswerOfStored, CachedAnswer, PodKey, ControlOk, Inv;
    assert Run(c, Apply(c, s, StoreResult(id, w)), []) == Apply(c, s, StoreResult(id, w));
    ExpiryAfterNow(c, s.now);
  }

  /** A look-up would be served this outcome. */
  predicate Found(s: State, podKey: string, out: Outcome) {
    var hit := ResultRead(s.cache, podKey, s.now, false);
    hit.Some? && CachedAnswer(hit.value) == AnswerOfStored(out)
  }

  ghost predicate EverFound(states: seq<State>, podKey: string, out: Outcome, i: nat, n: nat)
    requires n < |states|
  {
    exists j {:trigger Found(states[j], podKey, out)} :: i <= j <= n && Found(states[j], podKey, out)
  }

  predicate LosesStore(s: State, e: Event, id: nat) {
    e == StoreResult(id, Lost) && id in s.requests && s.requests[id].storing.StorePending?
  }

  function LostStores(states: seq<State>, events: seq<Event>, id: nat, m: nat, n: nat): nat
    requires m <= n <= |events| <= |states|
  {
    if m == n then 0 else LostStores(states, events, id, m, n - 1) + if LosesStore(states[n - 1], events[n - 1], id) then 1 else 0
  }

  predicate StoreAt(c: Config, s: State, id: nat, podKey: string, out: Outcome, lost: nat) {
    && id in s.requests && PodKey(s.requests[id]) == podKey
    && match s.requests[id].storing
       case StorePending(o, left) => o == out && left > 0 && left + lost == c.attempts
       case StoreDone => lost == c.attempts
       case StoreIdle => false
  }

  lemma StoringStays(c: Config, s: State, e: Event, id: nat)
    requires id in s.requests && RequestOk(s.requests[id]) && s.requests[id].storing != StoreIdle
    requires e.StoreResult? ==> e.id != id
    ensures var s' := Apply(c, s, e);
      id in s'.requests && s'.requests[id].storing == s.requests[id].storing && s'.requests[id].pod == s.requests[id].pod
  {
  }

  lemma StoreMoves(c: Config, s: State, e: Event, s': State, id: nat, podKey: string, out: Outcome, lost: nat)
    requires Inv(c, s) && PlainKey(podKey) && s' == Apply(c, s, e) && StoreAt(c, s, id, podKey, out, lost)
    ensures Found(s', podKey, out) || StoreAt(c, s', id, podKey, out, lost + if LosesStore(s, e, id) then 1 else 0)
  {
    var r := s.requests[id];
    assert RequestOk(r);
    hide Found, PodKey;
    if e.StoreResult? && e.id == id {
      if r.storing.StorePending? {
        StoreAttemptMeans(c, s, id, e.w);
        SamePod(r, s'.requests[id]);
      } else {
        assert s' == s;
      }
    } else {
      StoringStays(c, s, e, id);
      SamePod(r, s'.requests[id]);
    }
  }

  lemma SamePod(r: Request, r': Request)
    requires r'.pod == r.pod
    ensures PodKey(r') == PodKey(r)
  {
  }

  lemma {:induction false} StoreProgress(c: Config, states: seq<State>, events: seq<Event>, podKey: string, id: nat,
      out: Outcome, i: nat, n: nat)
    requires IsTrace(c, states, events) && Inv(c, states[0]) && PlainKey(podKey) && i <= n <= |events|
    requires StoreAt(c, states[i], id, podKey, out, 0)
    ensures EverFound(states, podKey, out, i, n) || StoreAt(c, states[n], id, podKey, out, LostStores(states, events, id, i, n))
    decreases n
  {
    hide Apply, Found, StoreAt, Inv;
    if n > i {
      assert states[n] == Apply(c, states[n - 1], events[n - 1]);
      TraceKeepsInv(c, states, events, n - 1);
      StoreProgress(c, states, events, podKey, id, out, i, n - 1);
      if !EverFound(states, podKey, out, i, n - 1) {
        StoreMoves(c, states[n - 1], events[n - 1], states[n], id, podKey, out, LostStores(states, events, id, i, n - 1));
      }
    }
  }

  lemma StoreStarts(c: Config, s: State, s': State, id: nat, podKey: string, out: Outcome)
    requires Inv(c, s) && id in s.requests && PodKey(s.requests[id]) == podKey
    requires s.requests[id].worker == Computing && WorkerOutcome(s.requests[id].pod, out) && s' == Apply(c, s, Finish(id, out))
    ensures StoreAt(c, s', id, podKey, out, 0)
  {
    SamePod(s.requests[id], s'.requests[id]);
    hide PodKey, WorkerOutcome;
  }

  /** Over whole runs: once a worker has ended, whether or not its request is still waiting, its outcome is
      found in the cache at some time until its store is over, unless every attempt of it was lost. */
  lemma StoreHappens(c: Config, states: seq<State>, events: seq<Event>, podKey: string, id: nat, out: Outcome,
      i: nat, n: nat)
    requires IsTrace(c, states, events) && Inv(c, states[0]) && PlainKey(podKey) && i < n <= |events|
    requires id in states[i].requests && PodKey(states[i].requests[id]) == podKey
    requires states[i].requests[id].worker == Computing && WorkerOutcome(states[i].requests[id].pod, out)
    requires events[i] == Finish(id, out) && id in states[n].requests && states[n].requests[id].storing == StoreDone
    ensures EverFound(states, podKey, out, i + 1, n) || LostStores(states, events, id, i + 1, n) == c.attempts
  {
    hide Apply, Found, PodKey, WorkerOutcome, EverFound, StoreAt, Inv, LostStores, PlainKey;
    StoreStartsAt(c, states, events, podKey, id, out, i);
    StoreProgress(c, states, events, podKey, id, out, i + 1, n);
    if !EverFound(states, podKey, out, i + 1, n) {
      DoneAfterLosses(c, states[n], id, podKey, out, LostStores(states, events, id, i + 1, n));
    }
  }

  lemma StoreStartsAt(c: Config, states: seq<State>, events: seq<Event>, podKey: string, id: nat, out: Outcome, i: nat)
    requires IsTrace(c, states, events) && Inv(c, states[0]) && i < |events| && events[i] == Finish(id, out)
    requires id in states[i].requests && PodKey(states[i].requests[id]) == podKey
    requires states[i].requests[id].worker == Computing && WorkerOutcome(states[i].requests[id].pod, out)
    ensures StoreAt(c, states[i + 1], id, podKey, out, 0)
  {
    hide Apply, PodKey, WorkerOutcome, StoreAt, Inv;
    assert states[i + 1] == Apply(c, states[i], events[i]);
    TraceKeepsInv(c, states, events, i);
    StoreStarts(c, states[i], states[i + 1], id, podKey, out);
  }

  lemma DoneAfterLosses(c: Config, s: State, id: nat, podKey: string, out: Outcome, lost: nat)
    requires StoreAt(c, s, id, podKey, out, lost) && id in s.requests && s.requests[id].storing == StoreDone
    ensures lost == c.attempts
  {
    hide PodKey;
  }

  // Strikes.

  /** A status that is stored is on record, over every further run that neither overwrites nor evicts it,
      exactly until its time-to-live has passed, and then there is none. */
  lemma StrikesUntilExpiry(c: Config, s: State, id: nat, w: WriteOutcome, events: seq<Event>)
    requires Inv(c, s) && id in s.requests && s.requests[id].pc.WritingStatus? && w != Lost
    requires PlainKey(PodKey(s.requests[id]))
    requires Untouched(c, Apply(c, s, WriteStatus(id, w)), events, TimeoutKey(PodKey(s.requests[id])))
    ensures var r, s' := s.requests[id], Run(c, Apply(c, s, WriteStatus(id, w)), events);
      Strikes(s', PodKey(r)) == if s'.now < ExpiryAt(c.backend, s.now, c.statusTtl).value then r.pc.next else NO_TIMEOUT
  {
    var r := s.requests[id];
    var podKey, key, s1 := PodKey(r), TimeoutKey(PodKey(r)), Apply(c, s, WriteStatus(id, w));
    assert PendingOk(c, r);
    assert s1.now == s.now && s1.cache == StatusWrite(c, s.cache, podKey, r.pc.next, s.now, w);
    ExpiryAfterNow(c, s.now);
    UntouchedRun(c, s1, events, podKey, key);
    AtoiItoa(r.pc.next);
    hide Run, Apply, Untouched, PodKey, Inv, Itoa, Atoi;
  }

  /** In particular waiting for the whole time-to-live clears the record. */
  lemma WaitingClears(c: Config, s: State, id: nat, w: WriteOutcome)
    requires Inv(c, s) && id in s.requests && s.requests[id].pc.WritingStatus? && w != Lost
    requires PlainKey(PodKey(s.requests[id]))
    ensures var s1 := Apply(c, s, WriteStatus(id, w));
            Clears(s1, Apply(c, s1, Tick(c.statusTtl)), PodKey(s.requests[id]))
  {
    var s1, tick := Apply(c, s, WriteStatus(id, w)), Tick(c.statusTtl);
    assert PendingOk(c, s.requests[id]);
    ExpiryAfterNow(c, s.now);
    StrikesUntilExpiry(c, s, id, w, []);
    assert Untouched(c, s1, [tick], TimeoutKey(PodKey(s.requests[id]))) by {
      assert [tick][1..] == [];
    }
    StrikesUntilExpiry(c, s, id, w, [tick]);
    assert Run(c, s1, []) == s1;
    RunOn(c, s1, tick, []);
    assert s1.now == s.now && Apply(c, s1, tick).now == s.now + c.statusTtl;
    hide Run, Strikes, PodKey, Inv, Untouched;
  }

  /** What other users of the cache write is read back by them, until it expires, and nothing else
      changes. */
  lemma ForeignWriteIsRead(c: Config, s: State, key: string, value: Value, ttl: nat, later: nat)
    requires ForeignKey(key) && s.now <= later
    ensures var s' := Apply(c, s, ForeignSet(key, value, ttl));
      && s' == s.(cache := s'.cache) && s'.cache - {key} == s.cache - {key}
      && Read(s'.cache, key, later) ==
           if ExpiryAt(c.backend, s.now, ttl).None? || later < ExpiryAt(c.backend, s.now, ttl).value then Some(value) else None
  {
    var s' := Apply(c, s, ForeignSet(key, value, ttl));
    assert s'.cache - {key} == s.cache - {key};
  }
}
