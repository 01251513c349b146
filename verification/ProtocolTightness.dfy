/** The bound on timeout blocks is exact: for every limit on overlapping handlers and every number of
    write attempts some run reaches it. */
module ProtocolTightness {
  import opened BlockBudget
  import opened Contracts
  import opened KeySpace
  import opened PodKeys
  import opened ProviderCache
  import opened Protocol
  import opened ProtocolInvariants
  import opened ProtocolBound
  import opened ProtocolPaths

  /** The handlers are exactly the writers of 1, whose attempts left are `ones`, and `twos` writers
      of 2. */
  predicate Split(handlers: set<nat>, ones: map<nat, nat>, writers2: set<nat>, twos: nat) {
    handlers == ones.Keys + writers2 && ones.Keys !! writers2 && |writers2| == twos
  }

  lemma SplitSize(handlers: set<nat>, ones: map<nat, nat>, writers2: set<nat>, twos: nat)
    requires Split(handlers, ones, writers2, twos)
    ensures |handlers| == |ones| + twos
  {
    assert |handlers| == |ones.Keys| + |writers2| && |ones.Keys| == |ones|;
  }

  lemma AddOne(writers: set<nat>, id: nat)
    requires id !in writers
    ensures |writers + {id}| == |writers| + 1
  {
  }

  lemma SplitAdds(handlers: set<nat>, ones: map<nat, nat>, writers2: set<nat>, twos: nat, id: nat, left: nat)
    requires Split(handlers, ones, writers2, twos) && id !in handlers
    ensures Split(handlers + {id}, ones[id := left], writers2, twos)
    ensures Split(handlers + {id}, ones, writers2 + {id}, twos + 1)
  {
    AddOne(writers2, id);
    assert ones[id := left].Keys == ones.Keys + {id};
    assert handlers + {id} == (ones.Keys + {id}) + writers2 == ones.Keys + (writers2 + {id});
    assert (ones.Keys + {id}) !! writers2 && ones.Keys !! (writers2 + {id});
  }

  lemma SplitRemovesOne(handlers: set<nat>, ones: map<nat, nat>, writers2: set<nat>, twos: nat, id: nat)
    requires Split(handlers, ones, writers2, twos) && id in ones
    ensures Split(handlers - {id}, ones - {id}, writers2, twos)
  {
    assert (ones - {id}).Keys == ones.Keys - {id};
    assert handlers - {id} == (ones.Keys - {id}) + writers2 && (ones.Keys - {id}) !! writers2;
  }

  lemma SplitRemovesTwo(handlers: set<nat>, ones: map<nat, nat>, writers2: set<nat>, twos: nat, id: nat)
    requires Split(handlers, ones, writers2, twos) && id in writers2
    ensures twos > 0 && Split(handlers - {id}, ones, writers2 - {id}, twos - 1)
  {
    AddOne(writers2 - {id}, id);
    assert (writers2 - {id}) + {id} == writers2;
    assert handlers - {id} == ones.Keys + (writers2 - {id}) && ones.Keys !! (writers2 - {id});
  }

  lemma SplitUpdates(handlers: set<nat>, ones: map<nat, nat>, writers2: set<nat>, twos: nat, id: nat, left: nat)
    requires Split(handlers, ones, writers2, twos) && id in ones
    ensures Split(handlers, ones[id := left], writers2, twos)
  {
    assert ones[id := left].Keys == ones.Keys;
  }

  predicate Counts(s: State, podKey: string, ones: map<nat, nat>, twos: nat) {
    Ones(s, podKey) == ones && Split(Handlers(s, podKey), ones, Twos(s, podKey), twos)
  }

  /** `strikes` on record, no result stored for the key, and ids from `unused` on not taken. */
  predicate Settled(s: State, podKey: string, strikes: nat, unused: nat) {
    && StatusIs(s.cache, podKey, s.now, strikes)
    && ResultKey(podKey) !in s.cache
    && (forall id :: id in s.requests ==> id < unused)
  }

  predicate Calm(s: State, podKey: string, strikes: nat, ones: map<nat, nat>, twos: nat, unused: nat) {
    && Settled(s, podKey, strikes, unused) && Counts(s, podKey, ones, twos)
    && forall id :: id in ones ==> id < unused
  }

  lemma CalmHandlers(s: State, podKey: string, strikes: nat, ones: map<nat, nat>, twos: nat, unused: nat)
    requires Calm(s, podKey, strikes, ones, twos, unused)
    ensures |Handlers(s, podKey)| == |ones| + twos
  {
    SplitSize(Handlers(s, podKey), ones, Twos(s, podKey), twos);
  }

  function With(s: State, id: nat, r: Request): State {
    s.(requests := s.requests[id := r])
  }

  function Waiting(pod: PodSpec, pc: Pc, worker: Worker): Request {
    Request(pod, pc, worker, Channel([], false), StoreIdle, ResetIdle)
  }

  lemma HandlersWith(s: State, id: nat, r: Request, podKey: string)
    requires id !in s.requests && PodKey(r) == podKey
    ensures Handlers(With(s, id, r), podKey) == if InTimeoutHandler(r) then Handlers(s, podKey) + {id} else Handlers(s, podKey)
    ensures Strikes(With(s, id, r), podKey) == Strikes(s, podKey)
  {
    hide Key;
  }

  lemma WritersWith(s: State, id: nat, r: Request, podKey: string)
    requires id !in s.requests && PodKey(r) == podKey && r.pc.WritingStatus?
    ensures Ones(With(s, id, r), podKey) == if r.pc.next == 1 then Ones(s, podKey)[id := r.pc.left] else Ones(s, podKey)
    ensures Twos(With(s, id, r), podKey) == if r.pc.next == 2 then Twos(s, podKey) + {id} else Twos(s, podKey)
  {
    hide Key;
  }

  lemma EnterSteps(c: Config, s: State, pod: PodSpec, strikes: nat, unused: nat)
    requires unused !in s.requests && strikes < 2
    requires ResultKey(Key(pod)) !in s.cache && StatusIs(s.cache, Key(pod), s.now, strikes)
    ensures var r0, r1, r2, r3 := Waiting(pod, LookingUp, NotStarted), Waiting(pod, Racing, Computing),
                                  Waiting(pod, ReadingStatus, Computing), Waiting(pod, WritingStatus(strikes + 1, c.attempts), Computing);
            && Apply(c, s, Arrive(unused, pod)) == With(s, unused, r0)
            && Apply(c, With(s, unused, r0), LookUp(unused, false)) == With(s, unused, r1)
            && Apply(c, With(s, unused, r1), TimerFires(unused)) == With(s, unused, r2)
            && Apply(c, With(s, unused, r2), ReadStatus(unused, false)) == With(s, unused, r3)
  {
    hide Key, StatusRead, ResultKey;
  }

  /** A step of a request that is not writing the status. */
  lemma LeadsWith(c: Config, s: State, id: nat, before: Request, e: Event, after: Request, podKey: string, k: nat)
    requires id !in s.requests && PodKey(before) == podKey && PodKey(after) == podKey
    requires Apply(c, With(s, id, before), e) == With(s, id, after) && !e.WriteStatus? && |Handlers(s, podKey)| < k
    ensures Leads(c, With(s, id, before), With(s, id, after), podKey, k, 0)
  {
    HandlersWith(s, id, before, podKey);
    HandlersWith(s, id, after, podKey);
    LeadsInOne(c, With(s, id, before), e, With(s, id, after), podKey, k);
  }

  lemma ArriveLeads(c: Config, s: State, id: nat, pod: PodSpec, k: nat)
    requires id !in s.requests && |Handlers(s, Key(pod))| < k
    ensures Leads(c, s, With(s, id, Waiting(pod, LookingUp, NotStarted)), Key(pod), k, 0)
  {
    HandlersWith(s, id, Waiting(pod, LookingUp, NotStarted), Key(pod));
    LeadsInOne(c, s, Arrive(id, pod), With(s, id, Waiting(pod, LookingUp, NotStarted)), Key(pod), k);
  }

  lemma SettledWith(s: State, id: nat, r: Request, podKey: string, strikes: nat)
    requires Settled(s, podKey, strikes, id)
    ensures Settled(With(s, id, r), podKey, strikes, id + 1)
  {
  }

  lemma CountsWith(s: State, id: nat, r: Request, podKey: string, ones: map<nat, nat>, twos: nat)
    requires id !in s.requests && PodKey(r) == podKey && Counts(s, podKey, ones, twos)
    requires r.pc.WritingStatus? && 1 <= r.pc.next <= 2
    ensures Counts(With(s, id, r), podKey, if r.pc.next == 1 then ones[id := r.pc.left] else ones,
                   if r.pc.next == 2 then twos + 1 else twos)
  {
    HandlersWith(s, id, r, podKey);
    WritersWith(s, id, r, podKey);
    hide Key, Split;
    assert id !in Handlers(s, podKey);
    SplitAdds(Handlers(s, podKey), ones, Twos(s, podKey), twos, id, r.pc.left);
  }

  lemma EnterLeads(c: Config, s: State, pod: PodSpec, k: nat, strikes: nat, unused: nat)
    requires unused !in s.requests && strikes < 2 && |Handlers(s, Key(pod))| < k
    requires ResultKey(Key(pod)) !in s.cache && StatusIs(s.cache, Key(pod), s.now, strikes)
    ensures Leads(c, s, With(s, unused, Waiting(pod, WritingStatus(strikes + 1, c.attempts), Computing)), Key(pod), k, 0)
  {
    var podKey := Key(pod);
    var r0, r1, r2, r3 := Waiting(pod, LookingUp, NotStarted), Waiting(pod, Racing, Computing),
                          Waiting(pod, ReadingStatus, Computing), Waiting(pod, WritingStatus(strikes + 1, c.attempts), Computing);
    EnterSteps(c, s, pod, strikes, unused);
    ArriveLeads(c, s, unused, pod, k);
    LeadsWith(c, s, unused, r0, LookUp(unused, false), r1, podKey, k);
    LeadsWith(c, s, unused, r1, TimerFires(unused), r2, podKey, k);
    LeadsWith(c, s, unused, r2, ReadStatus(unused, false), r3, podKey, k);
    var s0, s1, s2, s3 := With(s, unused, r0), With(s, unused, r1), With(s, unused, r2), With(s, unused, r3);
    LeadsOn(c, s, s0, s1, podKey, k, 0, 0);
    LeadsOn(c, s, s1, s2, podKey, k, 0, 0);
    LeadsOn(c, s, s2, s3, podKey, k, 0, 0);
  }

  /** A new request arrives, misses the cache, times out and reads the status. */
  lemma Enter(c: Config, s: State, pod: PodSpec, k: nat, strikes: nat, ones: map<nat, nat>, twos: nat, unused: nat)
    returns (s': State)
    requires Calm(s, Key(pod), strikes, ones, twos, unused) && strikes < 2 && |ones| + twos < k
    ensures Leads(c, s, s', Key(pod), k, 0)
    ensures Calm(s', Key(pod), strikes, if strikes == 0 then ones[unused := c.attempts] else ones,
                 if strikes == 1 then twos + 1 else twos, unused + 1)
  {
    CalmHandlers(s, Key(pod), strikes, ones, twos, unused);
    var r := Waiting(pod, WritingStatus(strikes + 1, c.attempts), Computing);
    s' := With(s, unused, r);
    CountsWith(s, unused, r, Key(pod), ones, twos);
    SettledWith(s, unused, r, Key(pod), strikes);
    EnterLeads(c, s, pod, k, strikes, unused);
    hide Counts, Settled, Leads, With;
  }

  // A write attempt.

  lemma HandlersUpdate(s: State, s': State, id: nat, r': Request, podKey: string)
    requires id in s.requests && s'.requests == s.requests[id := r'] && r'.pod == s.requests[id].pod
    requires PodKey(r') == podKey && InTimeoutHandler(s.requests[id])
    ensures Handlers(s', podKey) == if InTimeoutHandler(r') then Handlers(s, podKey) else Handlers(s, podKey) - {id}
  {
    hide Key;
  }

  function Written(c: Config, s: State, podKey: string, id: nat, w: WriteOutcome): State
    requires id in s.requests && s.requests[id].pc.WritingStatus?
  {
    State(s.now, StatusWrite(c, s.cache, podKey, s.requests[id].pc.next, s.now, w),
          s.requests[id := WriteStatusStep(s.requests[id], w).value])
  }

  /** A request for the key about to write `next`, with `left` attempts left. */
  predicate Writing(s: State, podKey: string, id: nat, next: nat, left: nat) {
    id in s.requests && PodKey(s.requests[id]) == podKey && s.requests[id].pc == WritingStatus(next, left)
  }

  lemma WrittenStatus(c: Config, s: State, podKey: string, id: nat, next: nat, left: nat, w: WriteOutcome)
    requires ValidConfig(c) && 1 <= next <= 2 && Writing(s, podKey, id, next, left) && w != Lost
    ensures var s' := Written(c, s, podKey, id, w);
      StatusIs(s'.cache, podKey, s'.now, next) && Strikes(s', podKey) == next
  {
    ExpiryAfterNow(c, s.now);
    WrittenStatusIsRead(c, s.cache, podKey, next, s.now, s.now, w);
  }

  lemma WrittenSets(c: Config, s: State, podKey: string, id: nat, next: nat, left: nat, w: WriteOutcome)
    requires 1 <= next <= 2 && Writing(s, podKey, id, next, left)
    ensures var s', stays := Written(c, s, podKey, id, w), TriesAgain(left, w);
      && Handlers(s', podKey) == (if stays then Handlers(s, podKey) else Handlers(s, podKey) - {id})
      && Ones(s', podKey) == (if next != 1 then Ones(s, podKey)
                              else if stays then Ones(s, podKey)[id := left - 1] else Ones(s, podKey) - {id})
      && Twos(s', podKey) == (if next != 2 || stays then Twos(s, podKey) else Twos(s, podKey) - {id})
    ensures next == 1 ==> id in Ones(s, podKey) && Ones(s, podKey)[id] == left
    ensures next == 2 ==> id in Twos(s, podKey)
  {
    var s' := Written(c, s, podKey, id, w);
    WritersUpdate(s, s', id, s'.requests[id], podKey);
    HandlersUpdate(s, s', id, s'.requests[id], podKey);
    WritingOne(s, podKey, id);
    hide Key, Ones, Twos, Handlers;
  }

  lemma WrittenLeads(c: Config, s: State, podKey: string, k: nat, id: nat, next: nat, left: nat, w: WriteOutcome)
    requires ValidConfig(c) && 1 <= next <= 2 && Writing(s, podKey, id, next, left) && w != Lost
    requires |Handlers(s, podKey)| <= k
    ensures Leads(c, s, Written(c, s, podKey, id, w), podKey, k, if w == Applied then 1 else 0)
  {
    WrittenIsApply(c, s, podKey, id, next, left, w);
    hide Apply, Strikes, Ones, Twos, Handlers, Leads, Written, Writing, StatusIs, Blocks;
    var s' := Written(c, s, podKey, id, w);
    WrittenStatus(c, s, podKey, id, next, left, w);
    WrittenSets(c, s, podKey, id, next, left, w);
    SmallerStill(Handlers(s, podKey), id);
    LeadsInOne(c, s, WriteStatus(id, w), s', podKey, k);
  }

  lemma WrittenIsApply(c: Config, s: State, podKey: string, id: nat, next: nat, left: nat, w: WriteOutcome)
    requires Writing(s, podKey, id, next, left)
    ensures Written(c, s, podKey, id, w) == Apply(c, s, WriteStatus(id, w))
    ensures Blocks(s, WriteStatus(id, w), podKey) <==> w == Applied
  {
  }

  lemma SmallerStill(ids: set<nat>, id: nat)
    ensures |ids - {id}| <= |ids|
  {
    SubsetSize(ids - {id}, ids);
  }

  lemma WrittenSettled(c: Config, s: State, podKey: string, strikes: nat, unused: nat, id: nat, next: nat,
      left: nat, w: WriteOutcome)
    requires ValidConfig(c) && Settled(s, podKey, strikes, unused) && w != Lost
    requires 1 <= next <= 2 && Writing(s, podKey, id, next, left)
    ensures Settled(Written(c, s, podKey, id, w), podKey, next, unused)
  {
    WrittenStatus(c, s, podKey, id, next, left, w);
    ProviderKeysSeparate(podKey, podKey);
    hide StatusIs, Key;
  }

  lemma OneIsWriting(s: State, podKey: string, id: nat)
    requires id in Ones(s, podKey)
    ensures Writing(s, podKey, id, 1, Ones(s, podKey)[id])
  {
  }

  lemma SomeTwo(handlers: set<nat>, ones: map<nat, nat>, writers2: set<nat>, twos: nat) returns (id: nat)
    requires Split(handlers, ones, writers2, twos) && twos > 0
    ensures id in writers2
  {
    id :| id in writers2;
  }

  lemma TwoIsWriting(s: State, podKey: string, id: nat)
    requires id in Twos(s, podKey)
    ensures id in s.requests && s.requests[id].pc.WritingStatus?
    ensures Writing(s, podKey, id, 2, s.requests[id].pc.left)
  {
  }

  /** A request about to write 1 writes it and blocks, or, when it has attempts to spare, stores it
      without an acknowledgement and stays. */
  lemma WriteOne(c: Config, s: State, podKey: string, k: nat, strikes: nat, ones: map<nat, nat>,
      unused: nat, id: nat, w: WriteOutcome)
    returns (s': State)
    requires ValidConfig(c) && Calm(s, podKey, strikes, ones, 0, unused) && |ones| <= k && id in ones
    requires w == Applied || (w == Unacknowledged && ones[id] > 1)
    ensures Leads(c, s, s', podKey, k, if w == Applied then 1 else 0)
    ensures Calm(s', podKey, 1, if w == Applied then ones - {id} else ones[id := ones[id] - 1], 0, unused)
  {
    hide Ones, Twos, Handlers, Written, Writing, Leads, Split, Settled;
    var left := ones[id];
    CalmHandlers(s, podKey, strikes, ones, 0, unused);
    OneIsWriting(s, podKey, id);
    s' := Written(c, s, podKey, id, w);
    WrittenLeads(c, s, podKey, k, id, 1, left, w);
    WrittenSettled(c, s, podKey, strikes, unused, id, 1, left, w);
    WrittenSets(c, s, podKey, id, 1, left, w);
    if w == Applied {
      SplitRemovesOne(Handlers(s, podKey), ones, Twos(s, podKey), 0, id);
    } else {
      SplitUpdates(Handlers(s, podKey), ones, Twos(s, podKey), 0, id, left - 1);
    }
  }

  /** A request about to write 2 writes it and blocks. */
  lemma WriteTwo(c: Config, s: State, podKey: string, k: nat, strikes: nat, ones: map<nat, nat>, twos: nat, unused: nat)
    returns (s': State)
    requires ValidConfig(c) && Calm(s, podKey, strikes, ones, twos, unused) && |ones| + twos <= k && twos > 0
    ensures Leads(c, s, s', podKey, k, 1)
    ensures Calm(s', podKey, 2, ones, twos - 1, unused)
  {
    hide Ones, Twos, Handlers, Written, Writing, Leads, Split, Settled;
    CalmHandlers(s, podKey, strikes, ones, twos, unused);
    var id := SomeTwo(Handlers(s, podKey), ones, Twos(s, podKey), twos);
    TwoIsWriting(s, podKey, id);
    var left := s.requests[id].pc.left;
    s' := Written(c, s, podKey, id, Applied);
    WrittenLeads(c, s, podKey, k, id, 2, left, Applied);
    WrittenSettled(c, s, podKey, strikes, unused, id, 2, left, Applied);
    WrittenSets(c, s, podKey, id, 2, left, Applied);
    SplitRemovesTwo(Handlers(s, podKey), ones, Twos(s, podKey), twos, id);
  }

  // Rounds of them.

  /** With one strike on record, `room` new requests read it and block. */
  lemma {:induction false} FillAsTwos(c: Config, s: State, pod: PodSpec, k: nat, ones: map<nat, nat>, twos: nat,
      unused: nat, room: nat)
    returns (s': State, unused': nat)
    requires Calm(s, Key(pod), 1, ones, twos, unused) && |ones| + twos + room <= k
    ensures Leads(c, s, s', Key(pod), k, 0)
    ensures Calm(s', Key(pod), 1, ones, twos + room, unused')
    decreases room
  {
    hide Calm, Leads, Key;
    if room == 0 {
      s', unused' := s, unused;
      CalmHandlers(s, Key(pod), 1, ones, twos, unused);
      LeadsNowhere(c, s, Key(pod), k);
    } else {
      var mid := Enter(c, s, pod, k, 1, ones, twos, unused);
      s', unused' := FillAsTwos(c, mid, pod, k, ones, twos + 1, unused + 1, room - 1);
      LeadsOn(c, s, mid, s', Key(pod), k, 0, 0);
    }
  }

  lemma {:induction false} DrainTwos(c: Config, s: State, podKey: string, k: nat, strikes: nat, ones: map<nat, nat>,
      twos: nat, unused: nat)
    returns (s': State, strikes': nat)
    requires ValidConfig(c) && Calm(s, podKey, strikes, ones, twos, unused) && |ones| + twos <= k
    ensures Leads(c, s, s', podKey, k, twos)
    ensures Calm(s', podKey, strikes', ones, 0, unused) && strikes' == if twos == 0 then strikes else 2
    decreases twos
  {
    hide Calm, Leads;
    if twos == 0 {
      s', strikes' := s, strikes;
      CalmHandlers(s, podKey, strikes, ones, twos, unused);
      LeadsNowhere(c, s, podKey, k);
    } else {
      var mid := WriteTwo(c, s, podKey, k, strikes, ones, twos, unused);
      s', strikes' := DrainTwos(c, mid, podKey, k, 2, ones, twos - 1, unused);
      LeadsOn(c, s, mid, s', podKey, k, 1, twos - 1);
    }
  }

  /** One write of 1 pushes the counter back and lets in as many new readers as there is room for; all
      of them block. */
  lemma Round(c: Config, s: State, pod: PodSpec, k: nat, strikes: nat, ones: map<nat, nat>,
      unused: nat, id: nat, w: WriteOutcome)
    returns (s': State, strikes': nat, unused': nat)
    requires ValidConfig(c) && Calm(s, Key(pod), strikes, ones, 0, unused) && |ones| <= k && id in ones
    requires w == Applied || (w == Unacknowledged && ones[id] > 1)
    ensures strikes' > 0 && Leads(c, s, s', Key(pod), k, if w == Applied then k - |ones| + 2 else k - |ones|)
    ensures Calm(s', Key(pod), strikes', if w == Applied then ones - {id} else ones[id := ones[id] - 1], 0, unused')
  {
    hide Calm, Leads, Key;
    var podKey, ones' := Key(pod), if w == Applied then ones - {id} else ones[id := ones[id] - 1];
    WithoutSize(ones, id);
    if w != Applied {
      SameKeysSameSize(ones', ones);
    }
    var room, first := k - |ones'|, if w == Applied then 1 else 0;
    var s1 := WriteOne(c, s, podKey, k, strikes, ones, unused, id, w);
    var s2;
    s2, unused' := FillAsTwos(c, s1, pod, k, ones', 0, unused, room);
    s', strikes' := DrainTwos(c, s2, podKey, k, 1, ones', room, unused');
    LeadsOn(c, s, s1, s2, podKey, k, first, 0);
    LeadsOn(c, s, s2, s', podKey, k, first, room);
  }

  lemma SameKeysSameSize(m: map<nat, nat>, n: map<nat, nat>)
    requires m.Keys == n.Keys
    ensures |m| == |n|
  {
    assert |m| == |m.Keys| && |n| == |n.Keys|;
  }

  /** One request spends all its attempts: a round for each, the last of them acknowledged. */
  lemma {:induction false} Epoch(c: Config, s: State, pod: PodSpec, k: nat, strikes: nat, ones: map<nat, nat>,
      unused: nat, id: nat)
    returns (s': State, strikes': nat, unused': nat)
    requires ValidConfig(c) && Calm(s, Key(pod), strikes, ones, 0, unused) && |ones| <= k && id in ones && ones[id] >= 1
    ensures strikes' > 0 && Leads(c, s, s', Key(pod), k, EpochBlocks(k, ones[id] - 1, |ones|))
    ensures Calm(s', Key(pod), strikes', ones - {id}, 0, unused')
    decreases ones[id]
  {
    hide Calm, Leads, Key;
    if ones[id] == 1 {
      s', strikes', unused' := Round(c, s, pod, k, strikes, ones, unused, id, Applied);
    } else {
      var ones' := ones[id := ones[id] - 1];
      SameKeysSameSize(ones', ones);
      assert ones' - {id} == ones - {id};
      var mid, strikes1, unused1 := Round(c, s, pod, k, strikes, ones, unused, id, Unacknowledged);
      s', strikes', unused' := Epoch(c, mid, pod, k, strikes1, ones', unused1, id);
      EpochOneMore(k, ones[id] - 1, |ones|);
      LeadsOn(c, s, mid, s', Key(pod), k, k - |ones|, EpochBlocks(k, ones[id] - 2, |ones|));
    }
  }

  predicate AllFull(ones: map<nat, nat>, attempts: nat) {
    forall id :: id in ones ==> ones[id] == attempts
  }

  lemma {:induction false} Epochs(c: Config, s: State, pod: PodSpec, k: nat, strikes: nat, ones: map<nat, nat>, unused: nat)
    returns (s': State, strikes': nat, unused': nat)
    requires ValidConfig(c) && Calm(s, Key(pod), strikes, ones, 0, unused) && |ones| <= k && AllFull(ones, c.attempts)
    ensures Leads(c, s, s', Key(pod), k, Epochal(k, c.attempts - 1, |ones|))
    ensures Calm(s', Key(pod), strikes', map[], 0, unused') && (if |ones| == 0 then strikes' == strikes else strikes' > 0)
    decreases |ones|
  {
    hide Calm, Leads, Key;
    if |ones| == 0 {
      s', strikes', unused' := s, strikes, unused;
      assert ones == map[];
      CalmHandlers(s, Key(pod), strikes, ones, 0, unused);
      LeadsNowhere(c, s, Key(pod), k);
    } else {
      var id :| id in ones;
      WithoutSize(ones, id);
      var mid, strikes1, unused1 := Epoch(c, s, pod, k, strikes, ones, unused, id);
      s', strikes', unused' := Epochs(c, mid, pod, k, strikes1, ones - {id}, unused1);
      LeadsOn(c, s, mid, s', Key(pod), k, EpochBlocks(k, c.attempts - 1, |ones|), Epochal(k, c.attempts - 1, |ones| - 1));
    }
  }

  lemma CalmIsFresh(s: State, podKey: string, ones: map<nat, nat>, unused: nat)
    requires Calm(s, podKey, 0, ones, 0, unused)
    ensures unused !in ones
  {
  }

  /** With no strike on record, `room` new requests read that and are about to write 1. */
  lemma {:induction false} FillAsOnes(c: Config, s: State, pod: PodSpec, k: nat, ones: map<nat, nat>, unused: nat, room: nat)
    returns (s': State, ones': map<nat, nat>, unused': nat)
    requires Calm(s, Key(pod), 0, ones, 0, unused) && |ones| + room <= k && AllFull(ones, c.attempts)
    ensures Leads(c, s, s', Key(pod), k, 0)
    ensures Calm(s', Key(pod), 0, ones', 0, unused') && |ones'| == |ones| + room && AllFull(ones', c.attempts)
    decreases room
  {
    hide Calm, Leads, Key;
    if room == 0 {
      s', ones', unused' := s, ones, unused;
      CalmHandlers(s, Key(pod), 0, ones, 0, unused);
      LeadsNowhere(c, s, Key(pod), k);
    } else {
      CalmIsFresh(s, Key(pod), ones, unused);
      var more := ones[unused := c.attempts];
      WithoutSize(more, unused);
      assert more - {unused} == ones;
      var mid := Enter(c, s, pod, k, 0, ones, 0, unused);
      s', ones', unused' := FillAsOnes(c, mid, pod, k, more, unused + 1, room - 1);
      LeadsOn(c, s, mid, s', Key(pod), k, 0, 0);
    }
  }

  /** One stretch without a clearing that blocks as often as the bound allows. */
  lemma Stretch(c: Config, s: State, pod: PodSpec, k: nat, unused: nat)
    returns (s': State, strikes': nat, unused': nat)
    requires ValidConfig(c) && Calm(s, Key(pod), 0, map[], 0, unused)
    ensures BlockLimit(k, c.attempts, 0) >= 0 && Leads(c, s, s', Key(pod), k, BlockLimit(k, c.attempts, 0))
    ensures Calm(s', Key(pod), strikes', map[], 0, unused') && (k > 0 ==> strikes' > 0)
  {
    hide Calm, Leads, Key;
    var full, ones, unused1 := FillAsOnes(c, s, pod, k, map[], unused, k);
    s', strikes', unused' := Epochs(c, full, pod, k, 0, ones, unused1);
    LeadsOn(c, s, full, s', Key(pod), k, 0, Epochal(k, c.attempts - 1, k));
    EpochalIsLimit(k, c.attempts);
  }

  /** The record of a quiet pod is evicted. */
  lemma Forget(c: Config, s: State, podKey: string, k: nat, strikes: nat, unused: nat) returns (s': State)
    requires Calm(s, podKey, strikes, map[], 0, unused) && strikes > 0
    ensures LeadsOver(c, s, s', podKey, k, 0, 1) && Calm(s', podKey, 0, map[], 0, unused)
  {
    CalmHandlers(s, podKey, strikes, map[], 0, unused);
    var e := Evict(TimeoutKey(podKey));
    s' := Apply(c, s, e);
    assert s'.requests == s.requests && s'.now == s.now;
    assert Handlers(s', podKey) == Handlers(s, podKey) && Twos(s', podKey) == Twos(s, podKey);
    LeadsOverInOne(c, s, e, s', podKey, k);
  }

  lemma OneMoreClearing(k: nat, attempts: nat, clears: nat)
    requires clears > 0
    ensures BlockLimit(k, attempts, clears - 1) + BlockLimit(k, attempts, 0) == BlockLimit(k, attempts, clears)
  {
  }

  /** Stretch after stretch, with an eviction between any two. */
  lemma {:induction false} Stretches(c: Config, pod: PodSpec, k: nat, clears: nat)
    returns (s': State, strikes': nat, unused': nat)
    requires ValidConfig(c) && (k > 0 || clears == 0)
    ensures BlockLimit(k, c.attempts, clears) >= 0
    ensures LeadsOver(c, Init, s', Key(pod), k, BlockLimit(k, c.attempts, clears), clears)
    ensures Calm(s', Key(pod), strikes', map[], 0, unused') && (k > 0 ==> strikes' > 0)
    decreases clears
  {
    hide Calm, LeadsOver, Key, BlockLimit;
    if clears == 0 {
      InitIsCalm(Key(pod));
      s', strikes', unused' := Stretch(c, Init, pod, k, 0);
    } else {
      var before, strikes, unused := Stretches(c, pod, k, clears - 1);
      var mid := Forget(c, before, Key(pod), k, strikes, unused);
      s', strikes', unused' := Stretch(c, mid, pod, k, unused);
      var first, second := BlockLimit(k, c.attempts, clears - 1), BlockLimit(k, c.attempts, 0);
      LeadsOverOn(c, Init, before, mid, Key(pod), k, first, clears - 1, 0, 1);
      LeadsOverOn(c, Init, mid, s', Key(pod), k, first, clears, second, 0);
      OneMoreClearing(k, c.attempts, clears);
    }
  }

  /** A run from the start with at most `k` requests in the handler at once and the given number of
      clearings that blocks as often as the bound allows. */
  ghost predicate Attains(c: Config, states: seq<State>, events: seq<Event>, podKey: string, k: nat, clears: nat) {
    && IsTrace(c, states, events) && states[0] == Init && AtMost(states, podKey, k)
    && CountTrue(ClearMarks(states, podKey)) == clears
    && CountTrue(BlockMarks(states, events, podKey)) == BlockLimit(k, c.attempts, clears)
  }

  /** For every pod, every `k`, every number of attempts and every number of clearings there is such a
      run (with no handler ever, nothing is on record to clear): between two clearings two overlapping
      requests can be blocked five times instead of two, and six times with a second attempt. */
  lemma BoundIsReached(c: Config, pod: PodSpec, k: nat, clears: nat)
    requires ValidConfig(c) && (k > 0 || clears == 0)
    ensures exists states, events :: Attains(c, states, events, Key(pod), k, clears)
  {
    var end, strikes, unused := Stretches(c, pod, k, clears);
    RunOf(c, end, Key(pod), k, clears);
  }

  lemma InitIsCalm(podKey: string)
    ensures Calm(Init, podKey, 0, map[], 0, 0)
  {
    assert Handlers(Init, podKey) == {} && Twos(Init, podKey) == {};
  }

  lemma RunOf(c: Config, end: State, podKey: string, k: nat, clears: nat)
    requires var limit := BlockLimit(k, c.attempts, clears);
             limit >= 0 && LeadsOver(c, Init, end, podKey, k, limit, clears)
    ensures exists states, events :: Attains(c, states, events, podKey, k, clears)
  {
    hide BlockLimit;
    var states, events :| IsTrace(c, states, events)
                          && Fits(states, events, podKey, k, BlockLimit(k, c.attempts, clears), clears)
                          && states[0] == Init && states[|events|] == end;
    assert Attains(c, states, events, podKey, k, clears);
  }
}
