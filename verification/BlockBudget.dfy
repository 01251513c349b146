/** How many blocks overlapping handlers of one pod key can still cause, as a number: with at most `k`
    handlers at once, `ones` of them about to write 1, `spare` attempts that those have beyond one
    each, and `twos` about to write 2. `extra` is how many spare attempts one write can have. */
module BlockBudget {
  /** What `a` handlers about to write 1 can still cause with one attempt each: each of them blocks and
      lets in as many readers of 1 as there is room for, all of which block. */
  function Reserve(k: nat, a: nat): int {
    if a == 0 then 0 else Reserve(k, a - 1) + k - a + 2
  }

  /** What the `e`-th spare attempt is worth. An attempt that stores 1 and is not acknowledged lets in
      readers of 1 without leaving the handler; the fewer handlers about to write 1 remain, the more
      room there is, so spare attempts are best kept for the last of them. */
  function Gain(k: nat, extra: nat, e: nat, level: nat): nat
    decreases k - level
  {
    if level >= k || extra == 0 then 0
    else if e <= extra then k - level
    else Gain(k, extra, e - extra, level + 1)
  }

  function Gains(k: nat, extra: nat, e: nat, level: nat): nat
    decreases e
  {
    if e == 0 then 0 else Gains(k, extra, e - 1, level) + Gain(k, extra, e, level)
  }

  function Base(k: nat, extra: nat, ones: nat, spare: nat): int {
    Reserve(k, ones) + Gains(k, extra, spare, 1)
  }

  function Full(k: nat, extra: nat): int {
    Base(k, extra, k, k * extra)
  }

  /** The blocks still possible without another clearing, by the strikes on record. */
  function Potential(k: nat, extra: nat, strikes: int, ones: nat, spare: nat, twos: nat): int {
    if strikes == 0 then Full(k, extra)
    else if strikes == 1 then k - ones + Base(k, extra, ones, spare)
    else twos + Base(k, extra, ones, spare)
  }

  predicate Possible(k: nat, extra: nat, ones: nat, spare: nat, twos: nat) {
    ones + twos <= k && spare <= ones * extra
  }

  lemma {:induction false} ReserveGrows(k: nat, a: nat)
    requires a <= k
    ensures 0 <= Reserve(k, a) <= Reserve(k, a) + (k - a) <= Reserve(k, k)
    decreases k - a
  {
    ReserveNat(k, a);
    if a < k {
      ReserveGrows(k, a + 1);
    }
  }

  lemma {:induction false} ReserveNat(k: nat, a: nat)
    requires a <= k
    ensures Reserve(k, a) >= 0
  {
    if a > 0 {
      ReserveNat(k, a - 1);
    }
  }

  lemma {:induction false} GainsGrow(k: nat, extra: nat, e: nat, f: nat)
    requires e <= f
    ensures Gains(k, extra, e, 1) <= Gains(k, extra, f, 1)
    decreases f
  {
    if e < f {
      GainsGrow(k, extra, e, f - 1);
    }
  }

  /** While `a` handlers about to write 1 share the spare attempts, the next one is worth at least the
      room that they leave. */
  lemma {:induction false} GainAtLeast(k: nat, extra: nat, e: nat, level: nat, a: nat)
    requires 1 <= e <= a * extra
    ensures Gain(k, extra, e, level) >= k - (level + a - 1)
    decreases a
  {
    assert a >= 1 && extra >= 1;
    if level < k && e > extra {
      assert a * extra == (a - 1) * extra + extra;
      GainAtLeast(k, extra, e - extra, level + 1, a - 1);
    }
  }

  lemma BaseAtMost(k: nat, extra: nat, ones: nat, spare: nat)
    requires ones <= k && spare <= ones * extra
    ensures 0 <= Base(k, extra, ones, spare) <= Base(k, extra, ones, spare) + (k - ones) <= Full(k, extra)
  {
    ReserveGrows(k, ones);
    assert ones * extra <= k * extra;
    GainsGrow(k, extra, spare, k * extra);
  }

  lemma PotentialRange(k: nat, extra: nat, strikes: int, ones: nat, spare: nat, twos: nat)
    requires Possible(k, extra, ones, spare, twos)
    ensures 0 <= Potential(k, extra, strikes, ones, spare, twos) <= Full(k, extra)
  {
    BaseAtMost(k, extra, ones, spare);
  }

  // The moves of a writer. A write that is not lost sets the strikes.

  /** A handler about to write 1 leaves, its unused spare attempts with it. */
  lemma OneLeaves(k: nat, extra: nat, strikes: int, ones: nat, spare: nat, twos: nat, spare': nat, lost: bool)
    requires Possible(k, extra, ones, spare, twos) && ones > 0 && spare' <= spare && spare' <= (ones - 1) * extra
    ensures Potential(k, extra, if lost then strikes else 1, ones - 1, spare', twos) + (if lost then 0 else 1)
            <= Potential(k, extra, strikes, ones, spare, twos)
  {
    BaseAtMost(k, extra, ones, spare);
    GainsGrow(k, extra, spare', spare);
  }

  /** A handler about to write 1 uses a spare attempt and stays. */
  lemma OneStays(k: nat, extra: nat, strikes: int, ones: nat, spare: nat, twos: nat, lost: bool)
    requires Possible(k, extra, ones, spare, twos) && ones > 0 && spare > 0
    ensures Potential(k, extra, if lost then strikes else 1, ones, spare - 1, twos)
            <= Potential(k, extra, strikes, ones, spare, twos)
  {
    BaseAtMost(k, extra, ones, spare);
    GainAtLeast(k, extra, spare, 1, ones);
  }

  lemma TwoLeaves(k: nat, extra: nat, strikes: int, ones: nat, spare: nat, twos: nat, lost: bool)
    requires Possible(k, extra, ones, spare, twos) && twos > 0
    ensures Potential(k, extra, if lost then strikes else 2, ones, spare, twos - 1) + (if lost then 0 else 1)
            <= Potential(k, extra, strikes, ones, spare, twos)
  {
    BaseAtMost(k, extra, ones, spare);
  }

  lemma TwoStays(k: nat, extra: nat, strikes: int, ones: nat, spare: nat, twos: nat, lost: bool)
    requires Possible(k, extra, ones, spare, twos)
    ensures Potential(k, extra, if lost then strikes else 2, ones, spare, twos)
            <= Potential(k, extra, strikes, ones, spare, twos)
  {
    BaseAtMost(k, extra, ones, spare);
  }

  // Attempts left, added up over the writers of 1.

  ghost function Total(m: map<nat, nat>): nat {
    if m == map[] then 0 else var id :| id in m; m[id] + Total(m - {id})
  }

  lemma {:induction false} TotalWithout(m: map<nat, nat>, id: nat)
    requires id in m
    ensures Total(m) == m[id] + Total(m - {id})
    decreases |m|
  {
    var x :| x in m && Total(m) == m[x] + Total(m - {x});
    if x != id {
      TotalWithout(m - {x}, id);
      TotalWithout(m - {id}, x);
      assert m - {x} - {id} == m - {id} - {x};
    }
  }

  lemma TotalWith(m: map<nat, nat>, id: nat, v: nat)
    ensures Total(m[id := v]) == v + Total(m - {id})
  {
    TotalWithout(m[id := v], id);
    assert m[id := v] - {id} == m - {id};
  }

  predicate LeftsOk(m: map<nat, nat>, attempts: nat) {
    forall id :: id in m ==> 1 <= m[id] <= attempts
  }

  lemma {:induction false} TotalRange(m: map<nat, nat>, attempts: nat)
    requires LeftsOk(m, attempts)
    ensures |m| <= Total(m) <= |m| * attempts
    decreases |m|
  {
    if m != map[] {
      var id :| id in m;
      var rest := m - {id};
      TotalWithout(m, id);
      WithoutSize(m, id);
      TotalRange(rest, attempts);
      OneMore(|rest|, attempts);
    }
  }

  lemma OneMore(n: nat, attempts: nat)
    ensures (n + 1) * attempts == n * attempts + attempts
  {
  }

  lemma WithoutSize(m: map<nat, nat>, id: nat)
    requires id in m
    ensures |m - {id}| == |m| - 1
  {
    assert (m - {id}).Keys == m.Keys - {id};
    assert |m.Keys| == |m| && |(m - {id}).Keys| == |m - {id}|;
  }

  /** The attempts beyond one each. */
  ghost function Spare(m: map<nat, nat>): int {
    Total(m) - |m|
  }

  lemma SpareRange(m: map<nat, nat>, attempts: nat)
    requires LeftsOk(m, attempts) && attempts >= 1
    ensures 0 <= Spare(m) <= |m| * (attempts - 1)
  {
    TotalRange(m, attempts);
    assert |m| * attempts == |m| * (attempts - 1) + |m|;
  }

  lemma SpareWithout(m: map<nat, nat>, id: nat)
    requires id in m
    ensures Spare(m - {id}) == Spare(m) + 1 - m[id] && |m - {id}| == |m| - 1
  {
    TotalWithout(m, id);
    WithoutSize(m, id);
  }

  lemma SpareOneLess(m: map<nat, nat>, id: nat)
    requires id in m && m[id] > 1
    ensures Spare(m[id := m[id] - 1]) == Spare(m) - 1 && |m[id := m[id] - 1]| == |m|
  {
    TotalWith(m, id, m[id] - 1);
    TotalWithout(m, id);
    assert m[id := m[id] - 1].Keys == m.Keys;
    assert |m.Keys| == |m| && |m[id := m[id] - 1].Keys| == |m[id := m[id] - 1]|;
  }

  /** The move of a handler about to write 1, on the attempts of all of them. */
  lemma OneMoves(k: nat, attempts: nat, strikes: int, m: map<nat, nat>, twos: nat, id: nat, lost: bool, stays: bool)
    requires attempts >= 1 && LeftsOk(m, attempts) && id in m && |m| + twos <= k && (stays ==> m[id] > 1)
    ensures Spare(m) >= 0 && Spare(OneMoved(m, id, stays)) >= 0
    ensures var m' := OneMoved(m, id, stays);
      Potential(k, attempts - 1, if lost then strikes else 1, |m'|, Spare(m'), twos) + (if lost || stays then 0 else 1)
      <= Potential(k, attempts - 1, strikes, |m|, Spare(m), twos)
  {
    var m' := OneMoved(m, id, stays);
    assert |m| > 0 by { WithoutSize(m, id); }
    SpareRange(m, attempts);
    SpareRange(m', attempts);
    if stays {
      SpareOneLess(m, id);
      hide Potential, Spare, LeftsOk;
      OneStays(k, attempts - 1, strikes, |m|, Spare(m), twos, lost);
    } else {
      SpareWithout(m, id);
      hide Potential, Spare, LeftsOk;
      OneLeaves(k, attempts - 1, strikes, |m|, Spare(m), twos, Spare(m'), lost);
    }
  }

  function OneMoved(m: map<nat, nat>, id: nat, stays: bool): map<nat, nat>
    requires id in m && (stays ==> m[id] > 1)
  {
    if stays then m[id := m[id] - 1] else m - {id}
  }

  // The closed form.

  lemma {:induction false} ReserveClosedForm(k: nat, a: nat)
    ensures 2 * Reserve(k, a) == a * (2 * k + 3 - a)
  {
    if a > 0 {
      ReserveClosedForm(k, a - 1);
      assert (a - 1) * (2 * k + 4 - a) + 2 * (k - a + 2) == a * (2 * k + 3 - a);
    }
  }

  lemma {:induction false} FirstLevel(k: nat, extra: nat, e: nat, level: nat)
    requires e <= extra && level <= k
    ensures Gains(k, extra, e, level) == e * (k - level)
  {
    if e > 0 {
      FirstLevel(k, extra, e - 1, level);
      assert (e - 1) * (k - level) + (k - level) == e * (k - level);
    }
  }

  lemma {:induction false} NextLevel(k: nat, extra: nat, e: nat, level: nat)
    requires level < k
    ensures Gains(k, extra, e + extra, level) == extra * (k - level) + Gains(k, extra, e, level + 1)
  {
    if e == 0 {
      FirstLevel(k, extra, extra, level);
    } else {
      NextLevel(k, extra, e - 1, level);
      assert Gain(k, extra, e + extra, level) == Gain(k, extra, e, level + 1);
    }
  }

  lemma {:induction false} GainsClosedForm(k: nat, extra: nat, level: nat, m: nat)
    requires level + m == k + 1
    ensures 2 * Gains(k, extra, m * extra, level) == extra * (m * (m - 1))
    decreases m
  {
    if m == 1 {
      FirstLevel(k, extra, extra, level);
    } else if m > 1 {
      var e := (m - 1) * extra;
      assert m * extra == e + extra;
      NextLevel(k, extra, e, level);
      GainsClosedForm(k, extra, level + 1, m - 1);
      LevelSum(extra, m, Gains(k, extra, e, level + 1));
    }
  }

  lemma LevelSum(extra: nat, m: nat, rest: nat)
    requires m > 1 && 2 * rest == extra * ((m - 1) * (m - 2))
    ensures 2 * (extra * (m - 1) + rest) == extra * (m * (m - 1))
  {
    assert 2 * (m - 1) + (m - 1) * (m - 2) == m * (m - 1);
    assert extra * (2 * (m - 1)) + extra * ((m - 1) * (m - 2)) == extra * (2 * (m - 1) + (m - 1) * (m - 2));
  }

  /** k(k+3)/2, and k(k-1)/2 more for every further attempt of a write; once for the start and once
      for each clearing. */
  function BlockLimit(k: nat, attempts: nat, clears: nat): int {
    (1 + clears) * (k * (k + 3) / 2 + (attempts - 1) * (k * (k - 1) / 2))
  }

  lemma FullClosedForm(k: nat, extra: nat)
    ensures Full(k, extra) == k * (k + 3) / 2 + extra * (k * (k - 1) / 2)
  {
    ReserveClosedForm(k, k);
    GainsClosedForm(k, extra, 1, k);
    Halves(k, extra);
  }

  lemma Halves(k: nat, extra: nat)
    ensures extra * (k * (k - 1)) / 2 == extra * (k * (k - 1) / 2)
  {
    EvenProduct(k);
    var half := k * (k - 1) / 2;
    assert extra * (2 * half) == 2 * (extra * half);
  }

  lemma {:induction false} EvenProduct(k: nat)
    ensures k * (k - 1) == 2 * (k * (k - 1) / 2)
  {
    if k > 0 {
      EvenProduct(k - 1);
      assert k * (k - 1) == (k - 1) * (k - 2) + 2 * (k - 1);
    }
  }

  lemma FullPerClearing(k: nat, attempts: nat, clears: nat)
    requires attempts >= 1
    ensures (1 + clears) * Full(k, attempts - 1) == BlockLimit(k, attempts, clears)
  {
    FullClosedForm(k, attempts - 1);
  }

  // The blocks of the run that reaches the bound.

  /** One of `a` handlers about to write 1 spends `spare` attempts that store 1 unacknowledged, each of
      which lets in `k - a` readers, and then leaves, letting in one more. */
  function EpochBlocks(k: nat, spare: nat, a: nat): nat
    requires a <= k
  {
    spare * (k - a) + k - a + 2
  }

  lemma EpochOneMore(k: nat, spare: nat, a: nat)
    requires a <= k && spare > 0
    ensures EpochBlocks(k, spare, a) == (k - a) + EpochBlocks(k, spare - 1, a)
  {
  }

  function Epochal(k: nat, spare: nat, a: nat): nat
    requires a <= k
  {
    if a == 0 then 0 else EpochBlocks(k, spare, a) + Epochal(k, spare, a - 1)
  }

  lemma {:induction false} EpochalClosedForm(k: nat, spare: nat, a: nat)
    requires a <= k
    ensures 2 * Epochal(k, spare, a) == a * (2 * k + 3 - a) + spare * (a * (2 * k - 1 - a))
  {
    if a > 0 {
      EpochalClosedForm(k, spare, a - 1);
      assert (a - 1) * (2 * k + 4 - a) + 2 * (k - a + 2) == a * (2 * k + 3 - a);
      assert (a - 1) * (2 * k - a) + 2 * (k - a) == a * (2 * k - 1 - a);
      SpareSum(spare, (a - 1) * (2 * k - a), k - a, a * (2 * k - 1 - a));
    }
  }

  lemma SpareSum(spare: nat, x: int, y: int, z: int)
    requires x + 2 * y == z
    ensures spare * x + 2 * (spare * y) == spare * z
  {
    assert spare * (x + 2 * y) == spare * x + spare * (2 * y);
  }

  lemma EpochalIsLimit(k: nat, attempts: nat)
    requires attempts >= 1
    ensures Epochal(k, attempts - 1, k) == BlockLimit(k, attempts, 0)
  {
    var spare, half := attempts - 1, k * (k - 1) / 2;
    EpochalClosedForm(k, spare, k);
    EvenProduct(k);
    SpareSum(spare, 0, half, k * (k - 1));
    HalfOf(Epochal(k, spare, k), k * (k + 3), spare * half);
  }

  lemma HalfOf(total: int, a: int, b: int)
    requires 2 * total == a + 2 * b
    ensures total == a / 2 + b
  {
  }
}
