/** How often a timeout blocks a pod. The strike counter is read and then written without a lock, and a
    write that is not acknowledged is tried again although it may have been stored, so overlapping
    requests can push the counter back; this bounds the damage over every interleaving. */
module ProtocolBound {
  import opened GoErrors
  import opened Contracts
  import opened BlockBudget
  import opened KeySpace
  import opened PodKeys
  import opened ProviderCache
  import opened Protocol
  import opened ProtocolInvariants

  /** Requests for a key inside the timeout handler, and those about to write a given count. */
  function Handlers(s: State, podKey: string): set<nat> {
    set id | id in s.requests && PodKey(s.requests[id]) == podKey && InTimeoutHandler(s.requests[id])
  }

  /** Requests about to write 1, with the attempts they have left, and requests about to write 2. */
  function Ones(s: State, podKey: string): map<nat, nat> {
    map id | id in s.requests && PodKey(s.requests[id]) == podKey && IsWriting(s.requests[id], 1) :: s.requests[id].pc.left
  }

  function Twos(s: State, podKey: string): set<nat> {
    set id | id in s.requests && PodKey(s.requests[id]) == podKey && IsWriting(s.requests[id], 2)
  }

  predicate IsWriting(r: Request, next: int) {
    r.pc.WritingStatus? && r.pc.next == next
  }

  /** The strikes on record for a key, as a reader would see them. */
  function Strikes(s: State, podKey: string): int {
    var read := StatusRead(s.cache, podKey, s.now, false);
    if read.None? then 0 else read.value
  }

  /** Whether an event answers a request for the key with the "unscanned, timeout" placeholders. */
  predicate Blocks(s: State, e: Event, podKey: string) {
    && e.WriteStatus? && e.w == Applied && e.id in s.requests
    && PodKey(s.requests[e.id]) == podKey && s.requests[e.id].pc.WritingStatus?
  }

  /** A run with its states: each event leads from one state to the next. */
  ghost predicate IsTrace(c: Config, states: seq<State>, events: seq<Event>) {
    && |states| == |events| + 1
    && forall i {:trigger Apply(c, states[i], events[i])} :: 0 <= i < |events| ==> states[i + 1] == Apply(c, states[i], events[i])
  }

  /** Which events answer a request for the key with the placeholders. */
  function BlockMarks(states: seq<State>, events: seq<Event>, podKey: string): seq<bool>
    requires |events| <= |states|
  {
    seq(|events|, i requires 0 <= i < |events| => Blocks(states[i], events[i], podKey))
  }

  /** Whether a step wipes the record: a reset, an expiry or an eviction. */
  predicate Clears(s: State, s': State, podKey: string) {
    Strikes(s, podKey) > 0 && Strikes(s', podKey) == 0
  }

  function ClearMarks(states: seq<State>, podKey: string): seq<bool>
    requires |states| > 0
  {
    seq(|states| - 1, i requires 0 <= i < |states| - 1 => Clears(states[i], states[i + 1], podKey))
  }

  function CountTrue(marks: seq<bool>): nat {
    if marks == [] then 0 else (if marks[0] then 1 else 0) + CountTrue(marks[1..])
  }

  /** At no time during the run are more than `k` requests for the key inside the handler. */
  ghost predicate AtMost(states: seq<State>, podKey: string, k: nat) {
    forall i {:trigger Handlers(states[i], podKey)} :: 0 <= i < |states| ==> |Handlers(states[i], podKey)| <= k
  }

  lemma WritersAreHandlers(s: State, podKey: string, k: nat)
    requires |Handlers(s, podKey)| <= k
    ensures |Ones(s, podKey)| + |Twos(s, podKey)| <= k
  {
    var ones, twos, all := Ones(s, podKey).Keys, Twos(s, podKey), Handlers(s, podKey);
    assert ones !! twos;
    assert |ones + twos| == |ones| + |twos| && |ones| == |Ones(s, podKey)|;
    SubsetSize(ones + twos, all);
  }

  lemma {:induction false} SubsetSize(a: set<nat>, b: set<nat>)
    requires a <= b
    ensures |a| <= |b|
  {
    if x :| x in a {
      SubsetSize(a - {x}, b - {x});
    }
  }

  /** Handlers within the limit, and attempts within theirs. */
  predicate Within(c: Config, s: State, podKey: string, k: nat) {
    |Handlers(s, podKey)| <= k && c.attempts >= 1 && LeftsOk(Ones(s, podKey), c.attempts)
  }

  lemma InvWithin(c: Config, s: State, podKey: string, k: nat)
    requires Inv(c, s) && |Handlers(s, podKey)| <= k
    ensures Within(c, s, podKey, k)
  {
    forall id | id in Ones(s, podKey) ensures 1 <= Ones(s, podKey)[id] <= c.attempts {
      assert PendingOk(c, s.requests[id]);
    }
  }

  lemma WithinPossible(c: Config, s: State, podKey: string, k: nat)
    requires Within(c, s, podKey, k)
    ensures c.attempts >= 1 && LeftsOk(Ones(s, podKey), c.attempts) && Spare(Ones(s, podKey)) >= 0
    ensures Possible(k, c.attempts - 1, |Ones(s, podKey)|, Spare(Ones(s, podKey)), |Twos(s, podKey)|)
  {
    WritersAreHandlers(s, podKey, k);
    SpareRange(Ones(s, podKey), c.attempts);
  }

  ghost function StatePotential(c: Config, s: State, podKey: string, k: nat): int
    requires Within(c, s, podKey, k)
  {
    WithinPossible(c, s, podKey, k);
    Potential(k, c.attempts - 1, Strikes(s, podKey), |Ones(s, podKey)|, Spare(Ones(s, podKey)), |Twos(s, podKey)|)
  }

  // How an event moves the strikes and the writers of a key.

  /** Writers unchanged, strikes unchanged or wiped. */
  predicate Quiet(s: State, s': State, podKey: string) {
    && Ones(s', podKey) == Ones(s, podKey)
    && Twos(s', podKey) == Twos(s, podKey)
    && (Strikes(s', podKey) == Strikes(s, podKey) || Strikes(s', podKey) == 0)
  }

  lemma StrikesRange(s: State, podKey: string)
    requires StatusEntryOk(s.cache, podKey)
    ensures 0 <= Strikes(s, podKey) <= 2 && StatusIs(s.cache, podKey, s.now, Strikes(s, podKey))
  {
  }

  /** Strikes depend only on the entry under the key's own timeout key; losing it or letting time
      pass can only wipe them. */
  lemma StrikesFrame(s: State, s': State, podKey: string)
    requires s.now <= s'.now
    requires var key := TimeoutKey(podKey); key in s'.cache ==> key in s.cache && s'.cache[key] == s.cache[key]
    ensures Strikes(s', podKey) == Strikes(s, podKey) || Strikes(s', podKey) == 0
    ensures s.now == s'.now && (TimeoutKey(podKey) in s.cache ==> TimeoutKey(podKey) in s'.cache)
            ==> Strikes(s', podKey) == Strikes(s, podKey)
  {
  }

  lemma WritersFrame(s: State, s': State, podKey: string)
    requires forall id :: id in s.requests ==> id in s'.requests && s'.requests[id] == s.requests[id]
    requires forall id :: id in s'.requests && id !in s.requests ==> !s'.requests[id].pc.WritingStatus?
    ensures Ones(s', podKey) == Ones(s, podKey) && Twos(s', podKey) == Twos(s, podKey)
  {
  }

  lemma OnesUpdate(s: State, s': State, id: nat, r': Request, podKey: string)
    requires id in s.requests && s'.requests == s.requests[id := r'] && r'.pod == s.requests[id].pod
    ensures Ones(s', podKey) == if PodKey(r') == podKey && IsWriting(r', 1)
                                then Ones(s, podKey)[id := r'.pc.left] else Ones(s, podKey) - {id}
  {
    hide Key;
  }

  lemma TwosUpdate(s: State, s': State, id: nat, r': Request, podKey: string)
    requires id in s.requests && s'.requests == s.requests[id := r'] && r'.pod == s.requests[id].pod
    ensures Twos(s', podKey) == if PodKey(r') == podKey && IsWriting(r', 2)
                                then Twos(s, podKey) + {id} else Twos(s, podKey) - {id}
  {
    hide Key;
  }

  lemma WritersUpdate(s: State, s': State, id: nat, r': Request, podKey: string)
    requires id in s.requests && s'.requests == s.requests[id := r'] && r'.pod == s.requests[id].pod
    ensures Ones(s', podKey) == if PodKey(r') == podKey && IsWriting(r', 1)
                                then Ones(s, podKey)[id := r'.pc.left] else Ones(s, podKey) - {id}
    ensures Twos(s', podKey) == if PodKey(r') == podKey && IsWriting(r', 2)
                                then Twos(s, podKey) + {id} else Twos(s, podKey) - {id}
  {
    OnesUpdate(s, s', id, r', podKey);
    TwosUpdate(s, s', id, r', podKey);
    hide Ones, Twos;
  }

  /** A step that changes no writer of the key leaves them as they are. */
  lemma WritersSame(s: State, s': State, id: nat, r': Request, podKey: string)
    requires id in s.requests && s'.requests == s.requests[id := r'] && r'.pod == s.requests[id].pod
    requires PodKey(r') != podKey || r'.pc == s.requests[id].pc
             || (!r'.pc.WritingStatus? && !s.requests[id].pc.WritingStatus?)
    ensures Ones(s', podKey) == Ones(s, podKey) && Twos(s', podKey) == Twos(s, podKey)
  {
    hide Key;
  }

  lemma OtherEventIsQuiet(c: Config, s: State, e: Event, podKey: string)
    requires PlainKey(podKey) && (e.Arrive? || e.Tick? || e.Evict? || e.ForeignSet?)
    ensures Quiet(s, Apply(c, s, e), podKey)
  {
    var s' := Apply(c, s, e);
    WritersFrame(s, s', podKey);
    if e.ForeignSet? && ForeignKey(e.key) {
      ForeignKeysSeparate(e.key, podKey);
    }
    StrikesFrame(s, s', podKey);
  }

  lemma CacheStepStrikes(c: Config, s: State, r: Request, e: Event, s': State, podKey: string)
    requires s'.now == s.now && s'.cache == CacheStep(c, s, r, e)
    requires PodKey(r) != podKey || !e.WriteStatus?
    ensures Strikes(s', podKey) == Strikes(s, podKey) || Strikes(s', podKey) == 0
  {
    ProviderKeysSeparate(podKey, PodKey(r));
    ProviderKeysSeparate(PodKey(r), podKey);
    if PodKey(r) != podKey {
      CacheStepFrame(c, s, r, e, TimeoutKey(podKey));
      StrikesFrame(s, s', podKey);
    } else if e.ResetStore? && e.w != Lost && r.resetting.ResetWriting? {
      ResetReadsAsZero(c, s.cache, podKey, s.now, s.now, e.w);
    } else {
      StrikesFrame(s, s', podKey);
    }
  }

  /** Every step of a request other than reading or writing the status of this key. */
  lemma RequestEventIsQuiet(c: Config, s: State, id: nat, r': Request, e: Event, s': State, podKey: string)
    requires id in s.requests && Step(c, s, s.requests[id], e) == Some(r')
    requires s' == State(s.now, CacheStep(c, s, s.requests[id], e), s.requests[id := r'])
    requires PodKey(s.requests[id]) != podKey || (!e.ReadStatus? && !e.WriteStatus?)
    ensures Quiet(s, s', podKey)
  {
    var r := s.requests[id];
    StepKeepsPod(c, s, r, e);
    CacheStepStrikes(c, s, r, e, s', podKey);
    hide Step, CacheStep, Strikes, PodKey;
    WritersSame(s, s', id, r', podKey);
  }

  lemma StepKeepsPod(c: Config, s: State, r: Request, e: Event)
    requires Step(c, s, r, e).Some?
    ensures Step(c, s, r, e).value.pod == r.pod
    ensures !e.ReadStatus? && !e.WriteStatus? ==>
      var r' := Step(c, s, r, e).value;
      r.pc == r'.pc || (!r.pc.WritingStatus? && !r'.pc.WritingStatus?)
  {
  }

  /** A reader joins the writers of one more than the strikes it saw, with all attempts, or leaves the
      handler. */
  predicate ReaderMoved(c: Config, s: State, s': State, podKey: string, id: nat, joined: bool) {
    var strikes := Strikes(s, podKey);
    && Strikes(s', podKey) == strikes && (joined ==> strikes < 2)
    && Ones(s', podKey) == (if joined && strikes == 0 then Ones(s, podKey)[id := c.attempts] else Ones(s, podKey))
    && Twos(s', podKey) == Twos(s, podKey) + (if joined && strikes == 1 then {id} else {})
  }

  lemma ReadMoves(c: Config, s: State, id: nat, r': Request, e: Event, s': State, podKey: string)
    requires id in s.requests && e.ReadStatus? && Step(c, s, s.requests[id], e) == Some(r')
    requires s' == State(s.now, s.cache, s.requests[id := r'])
    requires PodKey(s.requests[id]) == podKey && StatusEntryOk(s.cache, podKey)
    ensures ReaderMoved(c, s, s', podKey, id, r'.pc.WritingStatus?)
  {
    StrikesRange(s, podKey);
    WritersUpdate(s, s', id, r', podKey);
    StrikesFrame(s, s', podKey);
    ReadAnswers(c, s, s.requests[id], e);
    NotYetWriting(s, podKey, id);
    hide Step, Strikes, StatusIs, PodKey;
  }

  lemma ReadAnswers(c: Config, s: State, r: Request, e: Event)
    requires e.ReadStatus? && Step(c, s, r, e).Some? && StatusEntryOk(s.cache, PodKey(r))
    ensures var strikes, r' := Strikes(s, PodKey(r)), Step(c, s, r, e).value;
      && r.pc == ReadingStatus && r'.pod == r.pod
      && r'.pc == (if e.faulty || strikes == 2 then Done(TimeoutError) else WritingStatus(strikes + 1, c.attempts))
  {
    StrikesRange(s, PodKey(r));
  }

  lemma NotYetWriting(s: State, podKey: string, id: nat)
    requires id in s.requests && s.requests[id].pc == ReadingStatus
    ensures id !in Ones(s, podKey) && id !in Twos(s, podKey)
  {
    assert Ones(s, podKey) - {id} == Ones(s, podKey);
  }

  /** A write attempt: unless it is lost it sets the strikes to the count written, and the writer
      leaves or has an attempt less. */
  predicate WriterMoved(s: State, s': State, podKey: string, id: nat, next: int, left: nat, lost: bool, stays: bool) {
    && Strikes(s', podKey) == (if lost then Strikes(s, podKey) else next)
    && (stays ==> left > 1)
    && var ones, twos, ones', twos' := Ones(s, podKey), Twos(s, podKey), Ones(s', podKey), Twos(s', podKey);
       || (next == 1 && id in ones && ones[id] == left && twos' == twos
           && ones' == if stays then ones[id := left - 1] else ones - {id})
       || (next == 2 && id in twos && ones' == ones && twos' == if stays then twos else twos - {id})
  }

  lemma WriteMoves(c: Config, s: State, id: nat, r': Request, e: Event, s': State, podKey: string)
    requires ValidConfig(c) && id in s.requests && e.WriteStatus? && Step(c, s, s.requests[id], e) == Some(r')
    requires s' == State(s.now, CacheStep(c, s, s.requests[id], e), s.requests[id := r'])
    requires PodKey(s.requests[id]) == podKey && PlainKey(podKey) && PendingOk(c, s.requests[id])
    ensures var pc := s.requests[id].pc;
      WriterMoved(s, s', podKey, id, pc.next, pc.left, e.w == Lost, TriesAgain(pc.left, e.w))
  {
    var pc := s.requests[id].pc;
    WriteAnswers(c, s, s.requests[id], e);
    WritersUpdate(s, s', id, r', podKey);
    WriteStrikes(c, s, pc.next, e.w, s', podKey);
    WritingOne(s, podKey, id);
    hide Strikes, Ones, Twos, Step, Key;
  }

  lemma WriteAnswers(c: Config, s: State, r: Request, e: Event)
    requires e.WriteStatus? && Step(c, s, r, e).Some?
    ensures var r' := Step(c, s, r, e).value;
      && r.pc.WritingStatus? && r'.pod == r.pod
      && r'.pc == if TriesAgain(r.pc.left, e.w) then WritingStatus(r.pc.next, r.pc.left - 1)
                  else Done(if e.w == Applied then Blocked(TimeoutList(r.pod)) else TimeoutError)
  {
  }

  lemma WritingOne(s: State, podKey: string, id: nat)
    requires id in s.requests && PodKey(s.requests[id]) == podKey && s.requests[id].pc.WritingStatus?
    ensures var pc, ones, twos := s.requests[id].pc, Ones(s, podKey), Twos(s, podKey);
      && (pc.next == 1 ==> id in ones && ones[id] == pc.left)
      && (pc.next == 2 ==> id in twos)
      && (pc.next != 1 ==> ones - {id} == ones)
      && (pc.next != 2 ==> twos - {id} == twos)
  {
    hide Key;
  }

  lemma WriteStrikes(c: Config, s: State, next: int, w: WriteOutcome, s': State, podKey: string)
    requires ValidConfig(c) && 0 <= next <= 2 && s'.now == s.now
    requires s'.cache == StatusWrite(c, s.cache, podKey, next, s.now, w)
    ensures Strikes(s', podKey) == if w == Lost then Strikes(s, podKey) else next
  {
  }

  // Every move pays for the block it causes.

  ghost predicate Pays(c: Config, s: State, s': State, podKey: string, k: nat, cost: nat)
    requires Within(c, s, podKey, k) && Within(c, s', podKey, k)
  {
    cost + StatePotential(c, s', podKey, k) <= StatePotential(c, s, podKey, k)
  }

  lemma QuietPays(c: Config, s: State, s': State, podKey: string, k: nat)
    requires Quiet(s, s', podKey) && Within(c, s, podKey, k) && Within(c, s', podKey, k)
    ensures Strikes(s, podKey) == Strikes(s', podKey) ==> Pays(c, s, s', podKey, k, 0)
  {
  }

  lemma ReadPays(c: Config, s: State, s': State, podKey: string, k: nat, id: nat, joined: bool)
    requires ReaderMoved(c, s, s', podKey, id, joined) && 0 <= Strikes(s, podKey) <= 2
    requires Within(c, s, podKey, k) && Within(c, s', podKey, k)
    ensures Pays(c, s, s', podKey, k, 0)
  {
    hide Strikes, Ones, Twos, Handlers;
  }

  lemma StatePotentialIs(c: Config, s: State, podKey: string, k: nat, strikes: int, ones: map<nat, nat>, twos: nat)
    requires Within(c, s, podKey, k) && Strikes(s, podKey) == strikes && Ones(s, podKey) == ones && |Twos(s, podKey)| == twos
    ensures c.attempts >= 1 && Spare(ones) >= 0 && |ones| + twos <= k && LeftsOk(ones, c.attempts)
    ensures Possible(k, c.attempts - 1, |ones|, Spare(ones), twos)
    ensures StatePotential(c, s, podKey, k) == Potential(k, c.attempts - 1, strikes, |ones|, Spare(ones), twos)
  {
    WithinPossible(c, s, podKey, k);
  }

  lemma TwoMoved(s: State, s': State, podKey: string, id: nat, left: nat, lost: bool, stays: bool)
    requires WriterMoved(s, s', podKey, id, 2, left, lost, stays)
    ensures |Twos(s, podKey)| > 0 && Ones(s', podKey) == Ones(s, podKey)
    ensures |Twos(s', podKey)| == if stays then |Twos(s, podKey)| else |Twos(s, podKey)| - 1
    ensures Strikes(s', podKey) == if lost then Strikes(s, podKey) else 2
  {
    hide Strikes, Ones, Twos;
  }

  lemma OneMovedBy(s: State, s': State, podKey: string, id: nat, left: nat, lost: bool, stays: bool)
    requires WriterMoved(s, s', podKey, id, 1, left, lost, stays)
    ensures id in Ones(s, podKey) && (stays ==> Ones(s, podKey)[id] > 1)
    ensures Ones(s', podKey) == OneMoved(Ones(s, podKey), id, stays) && Twos(s', podKey) == Twos(s, podKey)
    ensures Strikes(s', podKey) == if lost then Strikes(s, podKey) else 1
  {
    hide Strikes, Ones, Twos;
  }

  lemma TwoWriterPays(c: Config, s: State, s': State, podKey: string, k: nat, id: nat, left: nat, lost: bool, stays: bool)
    requires WriterMoved(s, s', podKey, id, 2, left, lost, stays) && 0 <= Strikes(s, podKey) <= 2
    requires Within(c, s, podKey, k) && Within(c, s', podKey, k)
    ensures Pays(c, s, s', podKey, k, if lost || stays then 0 else 1)
  {
    hide WriterMoved, Within, Strikes, Ones, Twos, Handlers, StatePotential, Potential, Spare;
    var strikes, ones, twos := Strikes(s, podKey), Ones(s, podKey), |Twos(s, podKey)|;
    TwoMoved(s, s', podKey, id, left, lost, stays);
    StatePotentialIs(c, s, podKey, k, strikes, ones, twos);
    StatePotentialIs(c, s', podKey, k, if lost then strikes else 2, ones, if stays then twos else twos - 1);
    if stays {
      TwoStays(k, c.attempts - 1, strikes, |ones|, Spare(ones), twos, lost);
    } else {
      TwoLeaves(k, c.attempts - 1, strikes, |ones|, Spare(ones), twos, lost);
    }
  }

  lemma OneWriterPays(c: Config, s: State, s': State, podKey: string, k: nat, id: nat, left: nat, lost: bool, stays: bool)
    requires WriterMoved(s, s', podKey, id, 1, left, lost, stays) && 0 <= Strikes(s, podKey) <= 2
    requires Within(c, s, podKey, k) && Within(c, s', podKey, k)
    ensures Pays(c, s, s', podKey, k, if lost || stays then 0 else 1)
  {
    hide WriterMoved, Within, Strikes, Ones, Twos, Handlers, StatePotential, Potential, Spare;
    var strikes, ones, twos := Strikes(s, podKey), Ones(s, podKey), |Twos(s, podKey)|;
    OneMovedBy(s, s', podKey, id, left, lost, stays);
    StatePotentialIs(c, s, podKey, k, strikes, ones, twos);
    StatePotentialIs(c, s', podKey, k, if lost then strikes else 1, OneMoved(ones, id, stays), twos);
    OneMoves(k, c.attempts, strikes, ones, twos, id, lost, stays);
  }

  /** One event spends at least as much potential as the blocks it causes, unless it clears the
      record, in which case it causes none. */
  lemma PotentialPays(c: Config, s: State, e: Event, s': State, podKey: string, k: nat)
    requires Inv(c, s) && PlainKey(podKey) && s' == Apply(c, s, e)
    requires Within(c, s, podKey, k) && Within(c, s', podKey, k)
    ensures if Clears(s, s', podKey) then !Blocks(s, e, podKey)
            else Pays(c, s, s', podKey, k, if Blocks(s, e, podKey) then 1 else 0)
  {
    assert StatusEntryOk(s.cache, podKey);
    StrikesRange(s, podKey);
    if e.Arrive? || e.Tick? || e.Evict? || e.ForeignSet? {
      OtherEventIsQuiet(c, s, e, podKey);
      QuietPays(c, s, s', podKey, k);
    } else if e.id in s.requests && Step(c, s, s.requests[e.id], e).Some? {
      var r, r' := s.requests[e.id], Step(c, s, s.requests[e.id], e).value;
      if PodKey(r) == podKey && e.ReadStatus? {
        ReadMoves(c, s, e.id, r', e, s', podKey);
        ReadPays(c, s, s', podKey, k, e.id, r'.pc.WritingStatus?);
      } else if PodKey(r) == podKey && e.WriteStatus? {
        WritePays(c, s, e, s', podKey, k);
      } else {
        RequestEventIsQuiet(c, s, e.id, r', e, s', podKey);
        QuietPays(c, s, s', podKey, k);
      }
    }
  }

  lemma WritePays(c: Config, s: State, e: Event, s': State, podKey: string, k: nat)
    requires Inv(c, s) && PlainKey(podKey) && s' == Apply(c, s, e)
    requires Within(c, s, podKey, k) && Within(c, s', podKey, k)
    requires e.WriteStatus? && e.id in s.requests && PodKey(s.requests[e.id]) == podKey
    requires Step(c, s, s.requests[e.id], e).Some? && 0 <= Strikes(s, podKey) <= 2
    ensures !Clears(s, s', podKey) && Pays(c, s, s', podKey, k, if Blocks(s, e, podKey) then 1 else 0)
  {
    var r := s.requests[e.id];
    assert PendingOk(c, r);
    WriteMoves(c, s, e.id, Step(c, s, r, e).value, e, s', podKey);
    var lost, stays := e.w == Lost, TriesAgain(r.pc.left, e.w);
    if r.pc.next == 1 {
      OneWriterPays(c, s, s', podKey, k, e.id, r.pc.left, lost, stays);
    } else {
      TwoWriterPays(c, s, s', podKey, k, e.id, r.pc.left, lost, stays);
    }
  }

  lemma StatePotentialRange(c: Config, s: State, podKey: string, k: nat)
    requires Within(c, s, podKey, k)
    ensures 0 <= StatePotential(c, s, podKey, k) <= Full(k, c.attempts - 1)
  {
    WithinPossible(c, s, podKey, k);
    PotentialRange(k, c.attempts - 1, Strikes(s, podKey), |Ones(s, podKey)|, Spare(Ones(s, podKey)), |Twos(s, podKey)|);
  }

  lemma {:induction false} TraceKeepsInv(c: Config, states: seq<State>, events: seq<Event>, i: nat)
    requires IsTrace(c, states, events) && Inv(c, states[0]) && i < |states|
    ensures Inv(c, states[i])
  {
    if i > 0 {
      TraceKeepsInv(c, states, events, i - 1);
      ApplyKeepsInv(c, states[i - 1], events[i - 1]);
    }
  }

  /** A run that starts from a reachable-like state, with a limit on overlapping handlers. */
  ghost predicate Limited(c: Config, states: seq<State>, events: seq<Event>, podKey: string, k: nat) {
    IsTrace(c, states, events) && Inv(c, states[0]) && PlainKey(podKey) && AtMost(states, podKey, k)
  }

  lemma StateWithin(c: Config, states: seq<State>, events: seq<Event>, podKey: string, k: nat, i: nat)
    requires Limited(c, states, events, podKey, k) && i < |states|
    ensures Inv(c, states[i]) && Within(c, states[i], podKey, k)
  {
    TraceKeepsInv(c, states, events, i);
    assert |Handlers(states[i], podKey)| <= k;
    InvWithin(c, states[i], podKey, k);
  }

  ghost function PotentialAt(c: Config, states: seq<State>, events: seq<Event>, podKey: string, k: nat, i: nat): (p: nat)
    requires Limited(c, states, events, podKey, k) && i < |states|
    ensures p <= Full(k, c.attempts - 1)
  {
    StateWithin(c, states, events, podKey, k, i);
    StatePotentialRange(c, states[i], podKey, k);
    StatePotential(c, states[i], podKey, k)
  }

  predicate MarkPaid(block: bool, clear: bool, before: nat, after: nat) {
    if clear then !block else (if block then 1 else 0) + after <= before
  }

  lemma MarksAt(states: seq<State>, events: seq<Event>, podKey: string, i: nat)
    requires |states| == |events| + 1 && i < |events|
    ensures BlockMarks(states, events, podKey)[i] == Blocks(states[i], events[i], podKey)
    ensures ClearMarks(states, podKey)[i] == Clears(states[i], states[i + 1], podKey)
  {
  }

  lemma StepIsPaidFor(c: Config, states: seq<State>, events: seq<Event>, podKey: string, k: nat, i: nat)
    requires Limited(c, states, events, podKey, k) && i < |events|
    ensures MarkPaid(Blocks(states[i], events[i], podKey), Clears(states[i], states[i + 1], podKey),
                     PotentialAt(c, states, events, podKey, k, i), PotentialAt(c, states, events, podKey, k, i + 1))
  {
    StateWithin(c, states, events, podKey, k, i);
    StateWithin(c, states, events, podKey, k, i + 1);
    assert states[i + 1] == Apply(c, states[i], events[i]);
    hide StatePotential, Handlers, Ones, Strikes, Apply, Inv, IsTrace;
    PotentialPays(c, states[i], events[i], states[i + 1], podKey, k);
  }

  lemma FullIsNat(c: Config, states: seq<State>, events: seq<Event>, podKey: string, k: nat)
    requires Limited(c, states, events, podKey, k)
    ensures c.attempts >= 1 && Full(k, c.attempts - 1) >= 0 && |states| == |events| + 1
  {
    StateWithin(c, states, events, podKey, k, 0);
    StatePotentialRange(c, states[0], podKey, k);
  }

  lemma MarkIsPaidFor(c: Config, states: seq<State>, events: seq<Event>, podKey: string, k: nat, i: nat)
    requires Limited(c, states, events, podKey, k) && i < |events|
    ensures MarkPaid(BlockMarks(states, events, podKey)[i], ClearMarks(states, podKey)[i],
                     PotentialAt(c, states, events, podKey, k, i), PotentialAt(c, states, events, podKey, k, i + 1))
  {
    MarksAt(states, events, podKey, i);
    StepIsPaidFor(c, states, events, podKey, k, i);
    hide BlockMarks, ClearMarks, PotentialAt, Inv, Apply;
  }

  /** The account of a run: its first `n` events cause no more blocks than they spend, and every
      clearing pays in the full amount again. */
  lemma {:induction false} PaidUpTo(c: Config, states: seq<State>, events: seq<Event>, podKey: string, k: nat, n: nat)
    requires Limited(c, states, events, podKey, k) && n <= |events|
    ensures c.attempts >= 1 && |states| == |events| + 1
    ensures |BlockMarks(states, events, podKey)| == |ClearMarks(states, podKey)| == |events|
    ensures Paid(CountTrue(BlockMarks(states, events, podKey)[..n]), CountTrue(ClearMarks(states, podKey)[..n]),
                 PotentialAt(c, states, events, podKey, k, n), Full(k, c.attempts - 1))
    decreases n
  {
    hide BlockMarks, ClearMarks, PotentialAt, Limited, Full, Paid, MarkPaid;
    FullIsNat(c, states, events, podKey, k);
    MarkCounts(states, events, podKey);
    var blocks, clears, full := BlockMarks(states, events, podKey), ClearMarks(states, podKey), Full(k, c.attempts - 1);
    if n == 0 {
      assert blocks[..0] == [] && clears[..0] == [];
      NothingPaid(PotentialAt(c, states, events, podKey, k, 0), full);
    } else {
      PaidUpTo(c, states, events, podKey, k, n - 1);
      MarkIsPaidFor(c, states, events, podKey, k, n - 1);
      CountTrueLast(blocks, n);
      CountTrueLast(clears, n);
      OneMorePaid(blocks[n - 1], clears[n - 1], CountTrue(blocks[..n - 1]), CountTrue(clears[..n - 1]),
                  PotentialAt(c, states, events, podKey, k, n - 1), PotentialAt(c, states, events, podKey, k, n), full);
    }
  }

  predicate Paid(blocks: nat, clears: nat, potential: nat, full: int) {
    blocks + potential <= (1 + clears) * full
  }

  lemma NothingPaid(potential: nat, full: nat)
    requires potential <= full
    ensures Paid(0, 0, potential, full)
  {
  }

  lemma OneMorePaid(block: bool, clear: bool, blocks: nat, clears: nat, before: nat, after: nat, full: nat)
    requires MarkPaid(block, clear, before, after) && after <= full
    requires Paid(blocks, clears, before, full)
    ensures Paid(blocks + if block then 1 else 0, clears + if clear then 1 else 0, after, full)
  {
    assert (1 + clears + 1) * full == (1 + clears) * full + full;
  }

  lemma MarkCounts(states: seq<State>, events: seq<Event>, podKey: string)
    requires |states| == |events| + 1
    ensures |BlockMarks(states, events, podKey)| == |ClearMarks(states, podKey)| == |events|
  {
  }

  lemma {:induction false} CountTrueAppend(a: seq<bool>, b: seq<bool>)
    ensures CountTrue(a + b) == CountTrue(a) + CountTrue(b)
  {
    if a == [] {
      assert a + b == b;
    } else {
      assert (a + b)[1..] == a[1..] + b;
      CountTrueAppend(a[1..], b);
    }
  }

  lemma CountTrueLast(marks: seq<bool>, n: nat)
    requires 0 < n <= |marks|
    ensures CountTrue(marks[..n]) == CountTrue(marks[..n - 1]) + if marks[n - 1] then 1 else 0
  {
    CountTrueAppend(marks[..n - 1], [marks[n - 1]]);
    assert marks[..n] == marks[..n - 1] + [marks[n - 1]];
    assert [marks[n - 1]][1..] == [];
  }

  /** The main bound. In every run in which at most `k` requests for a pod key are inside the timeout
      handler at once, the "unscanned, timeout" answers number at most k(k+3)/2, and k(k-1)/2 more for
      every attempt of a write beyond the first, for the start and again for each time the record is
      cleared by a reset, an expiry or an eviction. For k = 1, handlers that never overlap, that is the
      documented two, however often writes are tried. */
  lemma TimeoutBlocksBounded(c: Config, states: seq<State>, events: seq<Event>, podKey: string, k: nat)
    requires Limited(c, states, events, podKey, k)
    ensures CountTrue(BlockMarks(states, events, podKey)) <= BlockLimit(k, c.attempts, CountTrue(ClearMarks(states, podKey)))
  {
    hide BlockMarks, ClearMarks, PotentialAt, Limited, Full, BlockLimit;
    PaidUpTo(c, states, events, podKey, k, |events|);
    var blocks, clears := BlockMarks(states, events, podKey), ClearMarks(states, podKey);
    assert blocks[..|events|] == blocks && clears[..|events|] == clears;
    FullPerClearing(k, c.attempts, CountTrue(clears));
  }
}
