/** Runs as paths between states: how many blocks and clearings one state can lead to another with,
    within a limit on overlapping handlers. */
module ProtocolPaths {
  import opened ProviderCache
  import opened Protocol
  import opened ProtocolBound

  /** A trace with at most `k` handlers for the key at any time, `blocks` blocks and `clears` clearings. */
  ghost predicate Fits(states: seq<State>, events: seq<Event>, podKey: string, k: nat, blocks: nat, clears: nat) {
    && 0 < |states| == |events| + 1
    && AtMost(states, podKey, k)
    && CountTrue(BlockMarks(states, events, podKey)) == blocks
    && CountTrue(ClearMarks(states, podKey)) == clears
  }

  ghost predicate LeadsOver(c: Config, s: State, s': State, podKey: string, k: nat, blocks: nat, clears: nat) {
    exists states, events ::
      && IsTrace(c, states, events) && Fits(states, events, podKey, k, blocks, clears)
      && states[0] == s && states[|events|] == s'
  }

  /** Without a clearing. */
  ghost predicate Leads(c: Config, s: State, s': State, podKey: string, k: nat, blocks: nat) {
    LeadsOver(c, s, s', podKey, k, blocks, 0)
  }

  lemma TracesJoin(c: Config, states1: seq<State>, events1: seq<Event>, states2: seq<State>, events2: seq<Event>)
    requires IsTrace(c, states1, events1) && IsTrace(c, states2, events2) && states1[|events1|] == states2[0]
    ensures var states, events := states1 + states2[1..], events1 + events2;
            IsTrace(c, states, events) && states[0] == states1[0] && states[|events|] == states2[|events2|]
  {
    hide Apply;
    var states, events, n := states1 + states2[1..], events1 + events2, |events1|;
    forall i | 0 <= i < |events| ensures states[i + 1] == Apply(c, states[i], events[i]) {
      if i < n {
        assert states1[i + 1] == Apply(c, states1[i], events1[i]);
      } else {
        assert states[i] == states2[i - n] && events[i] == events2[i - n];
        assert states2[i - n + 1] == Apply(c, states2[i - n], events2[i - n]);
      }
    }
  }

  lemma FitsJoin(states1: seq<State>, events1: seq<Event>, states2: seq<State>, events2: seq<Event>,
      podKey: string, k: nat, first: nat, clears: nat, second: nat, clears': nat)
    requires Fits(states1, events1, podKey, k, first, clears) && Fits(states2, events2, podKey, k, second, clears')
    requires states1[|events1|] == states2[0]
    ensures Fits(states1 + states2[1..], events1 + events2, podKey, k, first + second, clears + clears')
  {
    Joined(states1, events1, states2, events2, podKey, k);
    CountTrueAppend(BlockMarks(states1, events1, podKey), BlockMarks(states2, events2, podKey));
    CountTrueAppend(ClearMarks(states1, podKey), ClearMarks(states2, podKey));
  }

  lemma LeadsOverOn(c: Config, s: State, mid: State, s': State, podKey: string, k: nat, first: nat, clears: nat,
      second: nat, clears': nat)
    requires LeadsOver(c, s, mid, podKey, k, first, clears) && LeadsOver(c, mid, s', podKey, k, second, clears')
    ensures LeadsOver(c, s, s', podKey, k, first + second, clears + clears')
  {
    var states1, events1 :| IsTrace(c, states1, events1) && Fits(states1, events1, podKey, k, first, clears)
                            && states1[0] == s && states1[|events1|] == mid;
    var states2, events2 :| IsTrace(c, states2, events2) && Fits(states2, events2, podKey, k, second, clears')
                            && states2[0] == mid && states2[|events2|] == s';
    TracesJoin(c, states1, events1, states2, events2);
    FitsJoin(states1, events1, states2, events2, podKey, k, first, clears, second, clears');
    hide IsTrace, Fits;
  }

  lemma LeadsOn(c: Config, s: State, mid: State, s': State, podKey: string, k: nat, first: nat, second: nat)
    requires Leads(c, s, mid, podKey, k, first) && Leads(c, mid, s', podKey, k, second)
    ensures Leads(c, s, s', podKey, k, first + second)
  {
    hide LeadsOver;
    LeadsOverOn(c, s, mid, s', podKey, k, first, 0, second, 0);
  }

  lemma Joined(states1: seq<State>, events1: seq<Event>, states2: seq<State>, events2: seq<Event>,
      podKey: string, k: nat)
    requires |states1| == |events1| + 1 && |states2| == |events2| + 1 && states1[|events1|] == states2[0]
    requires AtMost(states1, podKey, k) && AtMost(states2, podKey, k)
    ensures var states, events := states1 + states2[1..], events1 + events2;
            && AtMost(states, podKey, k)
            && BlockMarks(states, events, podKey) == BlockMarks(states1, events1, podKey) + BlockMarks(states2, events2, podKey)
            && ClearMarks(states, podKey) == ClearMarks(states1, podKey) + ClearMarks(states2, podKey)
  {
    hide Handlers, Blocks, Clears;
    var states, n := states1 + states2[1..], |events1|;
    forall i | 0 <= i < |states| ensures |Handlers(states[i], podKey)| <= k {
      if i <= n {
        assert states[i] == states1[i] && |Handlers(states1[i], podKey)| <= k;
      } else {
        assert states[i] == states2[i - n] && |Handlers(states2[i - n], podKey)| <= k;
      }
    }
  }

  lemma OneMark(s: State, e: Event, s': State, podKey: string)
    ensures CountTrue(BlockMarks([s, s'], [e], podKey)) == if Blocks(s, e, podKey) then 1 else 0
    ensures CountTrue(ClearMarks([s, s'], podKey)) == if Clears(s, s', podKey) then 1 else 0
  {
  }

  lemma LeadsOverInOne(c: Config, s: State, e: Event, s': State, podKey: string, k: nat)
    requires s' == Apply(c, s, e) && |Handlers(s, podKey)| <= k && |Handlers(s', podKey)| <= k
    ensures LeadsOver(c, s, s', podKey, k, if Blocks(s, e, podKey) then 1 else 0, if Clears(s, s', podKey) then 1 else 0)
  {
    var states, events := [s, s'], [e];
    OneMark(s, e, s', podKey);
    hide Apply, BlockMarks, ClearMarks, Handlers, Blocks, Clears;
    var blocks, clears := if Blocks(s, e, podKey) then 1 else 0, if Clears(s, s', podKey) then 1 else 0;
    assert IsTrace(c, states, events) && Fits(states, events, podKey, k, blocks, clears);
  }

  lemma LeadsInOne(c: Config, s: State, e: Event, s': State, podKey: string, k: nat)
    requires s' == Apply(c, s, e) && !Clears(s, s', podKey)
    requires |Handlers(s, podKey)| <= k && |Handlers(s', podKey)| <= k
    ensures Leads(c, s, s', podKey, k, if Blocks(s, e, podKey) then 1 else 0)
  {
    LeadsOverInOne(c, s, e, s', podKey, k);
  }

  lemma LeadsNowhere(c: Config, s: State, podKey: string, k: nat)
    requires |Handlers(s, podKey)| <= k
    ensures Leads(c, s, s, podKey, k, 0)
  {
    assert IsTrace(c, [s], []) && Fits([s], [], podKey, k, 0, 0);
  }
}
