/** The documented scenarios, inside the step system: handlers of one key that do not overlap count
    timeouts one, two, and then answer an error, until a reset, an expiry or an eviction clears the
    record; then they count again. */
module ProtocolScenario {
  import opened GoErrors
  import opened Contracts
  import opened KeySpace
  import opened PodKeys
  import opened ProviderCache
  import opened Protocol
  import opened ProtocolInvariants
  import opened ProtocolBound
  import opened ProtocolPaths
  import opened ProtocolTightness

  /** A request about to write a count read one less; that, or after an attempt that was stored and not
      acknowledged the count itself, is on record. */
  predicate InOrder(s: State, podKey: string) {
    && (Ones(s, podKey) != map[] ==> 0 <= Strikes(s, podKey) <= 1)
    && (Twos(s, podKey) != {} ==> 1 <= Strikes(s, podKey) <= 2)
  }

  /** What is left of it when the record may be cleared at any time. */
  predicate OnesInOrder(s: State, podKey: string) {
    Ones(s, podKey) != map[] ==> 0 <= Strikes(s, podKey) <= 1
  }

  predicate Reads(s: State, e: Event, podKey: string) {
    e.ReadStatus? && e.id in s.requests && PodKey(s.requests[e.id]) == podKey && s.requests[e.id].pc == ReadingStatus
  }

  predicate Writes(s: State, e: Event, podKey: string) {
    e.WriteStatus? && e.id in s.requests && PodKey(s.requests[e.id]) == podKey && s.requests[e.id].pc.WritingStatus?
  }

  /** A timeout that reads the strikes goes on to write one more exactly when the read does not fail and
      fewer than two are on record. */
  predicate ReadRow(c: Config, s: State, e: Event, s': State, podKey: string) {
    Reads(s, e, podKey) ==>
      && e.id in s'.requests
      && s'.requests[e.id].pc == (if e.faulty || Strikes(s, podKey) == 2 then Done(TimeoutError)
                                  else WritingStatus(Strikes(s, podKey) + 1, c.attempts))
  }

  /** A write attempt blocks exactly when it is acknowledged; otherwise it is tried again while attempts
      are left, and answers an error after the last. */
  predicate WriteRow(s: State, e: Event, s': State, podKey: string) {
    Writes(s, e, podKey) ==>
      var r := s.requests[e.id];
      && e.id in s'.requests
      && s'.requests[e.id].pc == if TriesAgain(r.pc.left, e.w) then WritingStatus(r.pc.next, r.pc.left - 1)
                                 else Done(if e.w == Applied then Blocked(TimeoutList(r.pod)) else TimeoutError)
  }

  /** The strikes move only by an attempt that stores its count, from one less; a block leaves them at
      the count written, at most two. */
  predicate StrikeRow(s: State, e: Event, s': State, podKey: string) {
    && (Strikes(s', podKey) != Strikes(s, podKey) ==>
          Writes(s, e, podKey) && e.w != Lost && Strikes(s', podKey) == Strikes(s, podKey) + 1)
    && (Blocks(s, e, podKey) ==> Strikes(s', podKey) == s.requests[e.id].pc.next <= 2)
  }

  predicate Row(c: Config, s: State, e: Event, s': State, podKey: string) {
    ReadRow(c, s, e, s', podKey) && WriteRow(s, e, s', podKey) && StrikeRow(s, e, s', podKey)
  }

  /** A second strike is written while none is on record: the record was cleared between the read of
      the first strike and this write. */
  predicate WritesMidway(s: State, e: Event, podKey: string) {
    Writes(s, e, podKey) && e.w != Lost && s.requests[e.id].pc.next == 2 && Strikes(s, podKey) == 0
  }

  lemma AnswerRows(c: Config, s: State, e: Event, s': State, podKey: string)
    requires StatusEntryOk(s.cache, podKey) && s' == Apply(c, s, e)
    ensures ReadRow(c, s, e, s', podKey) && WriteRow(s, e, s', podKey)
  {
    if Reads(s, e, podKey) {
      ReadAnswers(c, s, s.requests[e.id], e);
    } else if Writes(s, e, podKey) {
      WriteAnswers(c, s, s.requests[e.id], e);
    }
    hide Strikes, StatusIs, StatusEntryOk, PodKey;
  }

  lemma AloneInHandler(handlers: set<nat>, id: nat)
    requires |handlers| <= 1 && id in handlers
    ensures handlers == {id}
  {
    var others := handlers - {id};
    assert |handlers| == |others| + 1;
  }

  /** A writer of 2 is the only one, and a writer of 1 too. */
  lemma OnlyWriter(s: State, podKey: string)
    requires |Handlers(s, podKey)| <= 1
    ensures Ones(s, podKey) == map[] || Twos(s, podKey) == {}
    ensures forall id :: id in Ones(s, podKey) ==> Ones(s, podKey) - {id} == map[]
    ensures forall id :: id in Twos(s, podKey) ==> Twos(s, podKey) - {id} == {}
  {
    if id :| id in Handlers(s, podKey) {
      AloneInHandler(Handlers(s, podKey), id);
      assert Ones(s, podKey).Keys <= {id} && Twos(s, podKey) <= {id};
      assert id in Ones(s, podKey) ==> id !in Twos(s, podKey);
    } else {
      assert Ones(s, podKey).Keys == {} && Twos(s, podKey) == {};
    }
  }

  /** One event, whatever the strikes: it clears the record, or it follows the table, or it writes the
      second strike over a cleared record. */
  lemma StepInScenario(c: Config, s: State, e: Event, s': State, podKey: string)
    requires Inv(c, s) && PlainKey(podKey) && s' == Apply(c, s, e)
    requires OnesInOrder(s, podKey) && |Handlers(s, podKey)| <= 1
    ensures OnesInOrder(s', podKey)
    ensures InOrder(s, podKey) && (Clears(s, s', podKey) ==> Twos(s, podKey) == {}) ==> InOrder(s', podKey)
    ensures Clears(s, s', podKey) ==> !Blocks(s, e, podKey)
    ensures !Clears(s, s', podKey) ==> (StrikeRow(s, e, s', podKey) <==> !WritesMidway(s, e, podKey))
    ensures WritesMidway(s, e, podKey) ==> Strikes(s', podKey) == 2
  {
    assert StatusEntryOk(s.cache, podKey);
    StrikesRange(s, podKey);
    hide StatusIs;
    if e.Arrive? || e.Tick? || e.Evict? || e.ForeignSet? {
      OtherEventIsQuiet(c, s, e, podKey);
      QuietInScenario(s, e, s', podKey);
    } else if e.id !in s.requests || Step(c, s, s.requests[e.id], e).None? {
      DisabledInScenario(c, s, e, podKey);
    } else {
      hide CacheStep, Strikes, Handlers, InOrder, OnesInOrder, StrikeRow, WritesMidway, Clears, Quiet;
      var r, r' := s.requests[e.id], Step(c, s, s.requests[e.id], e).value;
      if PodKey(r) == podKey && e.ReadStatus? {
        ReadMoves(c, s, e.id, r', e, s', podKey);
        ReadInScenario(c, s, e, s', podKey, e.id, r'.pc.WritingStatus?);
      } else if PodKey(r) == podKey && e.WriteStatus? {
        assert PendingOk(c, r);
        WriteMoves(c, s, e.id, r', e, s', podKey);
        WriteInScenario(s, e, s', podKey, r.pc.left, e.w == Lost, TriesAgain(r.pc.left, e.w));
      } else {
        RequestEventIsQuiet(c, s, e.id, r', e, s', podKey);
        QuietInScenario(s, e, s', podKey);
      }
    }
  }

  lemma DisabledInScenario(c: Config, s: State, e: Event, podKey: string)
    requires !e.Arrive? && !e.Tick? && !e.Evict? && !e.ForeignSet?
    requires e.id !in s.requests || Step(c, s, s.requests[e.id], e).None?
    ensures Apply(c, s, e) == s && !Writes(s, e, podKey) && !Clears(s, s, podKey) && StrikeRow(s, e, s, podKey)
  {
    hide Strikes, PodKey;
  }

  lemma QuietInScenario(s: State, e: Event, s': State, podKey: string)
    requires Quiet(s, s', podKey) && 0 <= Strikes(s, podKey) <= 2 && !Writes(s, e, podKey)
    requires OnesInOrder(s, podKey)
    ensures OnesInOrder(s', podKey) && !Blocks(s, e, podKey)
    ensures InOrder(s, podKey) && (Clears(s, s', podKey) ==> Twos(s, podKey) == {}) ==> InOrder(s', podKey)
    ensures !Clears(s, s', podKey) ==> StrikeRow(s, e, s', podKey)
  {
    hide Strikes, Ones, Twos, Key;
  }

  lemma ReadInScenario(c: Config, s: State, e: Event, s': State, podKey: string, id: nat, joined: bool)
    requires ReaderMoved(c, s, s', podKey, id, joined) && 0 <= Strikes(s, podKey) <= 2 && e.ReadStatus?
    requires OnesInOrder(s, podKey)
    ensures OnesInOrder(s', podKey) && StrikeRow(s, e, s', podKey) && !Clears(s, s', podKey)
    ensures InOrder(s, podKey) ==> InOrder(s', podKey)
  {
    hide Strikes, Ones, Twos, Key;
  }

  lemma WriteInScenario(s: State, e: Event, s': State, podKey: string, left: nat, lost: bool, stays: bool)
    requires Writes(s, e, podKey) && lost == (e.w == Lost) && 0 <= Strikes(s, podKey) <= 2
    requires WriterMoved(s, s', podKey, e.id, s.requests[e.id].pc.next, left, lost, stays)
    requires OnesInOrder(s, podKey) && |Handlers(s, podKey)| <= 1
    ensures OnesInOrder(s', podKey) && !Clears(s, s', podKey)
    ensures InOrder(s, podKey) ==> InOrder(s', podKey)
    ensures StrikeRow(s, e, s', podKey) <==> !WritesMidway(s, e, podKey)
    ensures WritesMidway(s, e, podKey) ==> Strikes(s', podKey) == 2
  {
    OnlyWriter(s, podKey);
    hide Strikes, Ones, Twos, Handlers, Key;
  }

  lemma {:induction false} TraceInScenario(c: Config, states: seq<State>, events: seq<Event>, podKey: string, i: nat)
    requires Limited(c, states, events, podKey, 1) && OnesInOrder(states[0], podKey) && i < |states|
    ensures Inv(c, states[i]) && OnesInOrder(states[i], podKey) && |Handlers(states[i], podKey)| <= 1
  {
    hide Apply, OnesInOrder, InOrder, Clears, Handlers, Inv, StrikeRow, WritesMidway;
    assert |Handlers(states[i], podKey)| <= 1;
    TraceKeepsInv(c, states, events, i);
    if i > 0 {
      TraceInScenario(c, states, events, podKey, i - 1);
      assert states[i] == Apply(c, states[i - 1], events[i - 1]);
      StepInScenario(c, states[i - 1], events[i - 1], states[i], podKey);
    }
  }

  /** The record is cleared only while no request is about to write the second strike. */
  ghost predicate ClearedInTime(states: seq<State>, podKey: string) {
    forall j {:trigger Twos(states[j], podKey)} ::
      0 <= j < |states| - 1 && Clears(states[j], states[j + 1], podKey) ==> Twos(states[j], podKey) == {}
  }

  lemma {:induction false} TraceInOrder(c: Config, states: seq<State>, events: seq<Event>, podKey: string, i: nat)
    requires Limited(c, states, events, podKey, 1) && |states| == |events| + 1 && InOrder(states[0], podKey)
    requires ClearedInTime(states, podKey) && i < |states|
    ensures InOrder(states[i], podKey)
  {
    hide Apply, OnesInOrder, InOrder, Clears, Handlers, Inv, StrikeRow, WritesMidway, ClearedInTime, Limited, Blocks;
    if i > 0 {
      OnesAreInOrder(states[0], podKey);
      TraceInOrder(c, states, events, podKey, i - 1);
      TraceInScenario(c, states, events, podKey, i - 1);
      StepOf(c, states, events, podKey, i - 1);
      StepInScenario(c, states[i - 1], events[i - 1], states[i], podKey);
    }
  }

  lemma StepOf(c: Config, states: seq<State>, events: seq<Event>, podKey: string, j: nat)
    requires Limited(c, states, events, podKey, 1) && ClearedInTime(states, podKey) && j < |events|
    ensures PlainKey(podKey) && states[j + 1] == Apply(c, states[j], events[j])
    ensures Clears(states[j], states[j + 1], podKey) ==> Twos(states[j], podKey) == {}
  {
    hide Apply, Clears, Twos;
  }

  lemma OnesAreInOrder(s: State, podKey: string)
    requires InOrder(s, podKey)
    ensures OnesInOrder(s, podKey)
  {
  }

  /** The scenario table over whole runs, from any state in order, through any number of resets, expiries
      and evictions. While the handlers of a key never overlap and its record is not cleared between
      the read of a strike and the write of the second, every event either clears the record, and
      blocks nothing, or follows the table: block, block, then errors until the next clearing. */
  lemma NonOverlappingScenario(c: Config, states: seq<State>, events: seq<Event>, podKey: string, i: nat)
    requires Limited(c, states, events, podKey, 1) && InOrder(states[0], podKey) && i < |events|
    requires ClearedInTime(states, podKey)
    ensures var s, e, s' := states[i], events[i], states[i + 1];
            if Clears(s, s', podKey) then Strikes(s', podKey) == 0 && !Blocks(s, e, podKey) else Row(c, s, e, s', podKey)
  {
    OnesAreInOrder(states[0], podKey);
    TraceInScenario(c, states, events, podKey, i);
    TraceInOrder(c, states, events, podKey, i);
    assert states[i + 1] == Apply(c, states[i], events[i]);
    StepInScenario(c, states[i], events[i], states[i + 1], podKey);
    assert StatusEntryOk(states[i].cache, podKey);
    AnswerRows(c, states[i], events[i], states[i + 1], podKey);
    InOrderIsNotMidway(c, states[i], events[i], podKey);
  }

  lemma InOrderIsNotMidway(c: Config, s: State, e: Event, podKey: string)
    requires InOrder(s, podKey)
    ensures !WritesMidway(s, e, podKey)
  {
    if WritesMidway(s, e, podKey) {
      WritingOne(s, podKey, e.id);
    }
  }

  /** Without any condition on clearings, an event that does not clear the record leaves the table
      exactly when it writes the second strike while none is on record, and then it takes the record
      from none to two. */
  lemma LeavesTheTableIff(c: Config, states: seq<State>, events: seq<Event>, podKey: string, i: nat)
    requires Limited(c, states, events, podKey, 1) && OnesInOrder(states[0], podKey) && i < |events|
    ensures var s, e, s' := states[i], events[i], states[i + 1];
      && (Clears(s, s', podKey) ==> Strikes(s', podKey) == 0 && !Blocks(s, e, podKey))
      && (!Clears(s, s', podKey) ==> (Row(c, s, e, s', podKey) <==> !WritesMidway(s, e, podKey)))
      && (WritesMidway(s, e, podKey) ==> Strikes(s, podKey) == 0 && Strikes(s', podKey) == 2)
  {
    TraceInScenario(c, states, events, podKey, i);
    assert states[i + 1] == Apply(c, states[i], events[i]);
    StepInScenario(c, states[i], events[i], states[i + 1], podKey);
    assert StatusEntryOk(states[i].cache, podKey);
    AnswerRows(c, states[i], events[i], states[i + 1], podKey);
  }

  /** `s` has a request about to write the second strike; its record goes, and the request writes. */
  predicate ClearedMidway(c: Config, s: State, id: nat, podKey: string) {
    var e := WriteStatus(id, Applied);
    var s1 := Apply(c, s, Evict(TimeoutKey(podKey)));
    var s2 := Apply(c, s1, e);
    && Clears(s, s1, podKey) && WritesMidway(s1, e, podKey) && Blocks(s1, e, podKey)
    && Strikes(s1, podKey) == 0 && Strikes(s2, podKey) == 2
    && |Handlers(s, podKey)| <= 1 && |Handlers(s1, podKey)| <= 1 && |Handlers(s2, podKey)| <= 1
  }

  /** That does happen: for every pod there is a run from the start without overlapping handlers whose
      record is cleared midway; the next block is then the second on record although it is the first
      since the clearing. */
  lemma MidwayHappens(c: Config, pod: PodSpec)
    requires ValidConfig(c)
    ensures exists s, id :: Leads(c, Init, s, Key(pod), 1, 1) && ClearedMidway(c, s, id, Key(pod))
  {
    var podKey := Key(pod);
    InitIsCalm(podKey);
    hide Calm, Leads, Key, ClearedMidway;
    var s1 := Enter(c, Init, pod, 1, 0, map[], 0, 0);
    var ones := map[0 := c.attempts];
    assert map[][0 := c.attempts] == ones && ones - {0} == map[];
    var s2 := WriteOne(c, s1, podKey, 1, 0, ones, 1, 0, Applied);
    var s3 := Enter(c, s2, pod, 1, 1, map[], 0, 1);
    LeadsOn(c, Init, s1, s2, podKey, 1, 0, 1);
    LeadsOn(c, Init, s2, s3, podKey, 1, 1, 0);
    var id := EvictedMidway(c, s3, podKey, 2);
  }

  lemma EvictedMidway(c: Config, s: State, podKey: string, unused: nat) returns (id: nat)
    requires ValidConfig(c) && Calm(s, podKey, 1, map[], 1, unused)
    ensures ClearedMidway(c, s, id, podKey)
  {
    CalmHandlers(s, podKey, 1, map[], 1, unused);
    id := SomeTwo(Handlers(s, podKey), map[], Twos(s, podKey), 1);
    TwoIsWriting(s, podKey, id);
    var s1 := Apply(c, s, Evict(TimeoutKey(podKey)));
    var left := s1.requests[id].pc.left;
    assert s1.requests == s.requests;
    assert Handlers(s1, podKey) == Handlers(s, podKey);
    WrittenIsApply(c, s1, podKey, id, 2, left, Applied);
    WrittenStatus(c, s1, podKey, id, 2, left, Applied);
    WrittenSets(c, s1, podKey, id, 2, left, Applied);
    SmallerStill(Handlers(s1, podKey), id);
  }
}
