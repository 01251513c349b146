/** Facts about sequences that several modules use. */
module Seqs {
  function Map<A, B>(f: A -> B, xs: seq<A>): (ys: seq<B>)
    ensures |ys| == |xs|
    ensures forall i :: 0 <= i < |xs| ==> ys[i] == f(xs[i])
  {
    seq(|xs|, i requires 0 <= i < |xs| => f(xs[i]))
  }

  function Without<A>(xs: seq<A>, i: nat): seq<A>
    requires i < |xs|
  {
    xs[..i] + xs[i + 1..]
  }

  lemma WithoutMultiset<A>(xs: seq<A>, i: nat)
    requires i < |xs|
    ensures multiset(Without(xs, i)) == multiset(xs) - multiset{xs[i]}
    ensures multiset(xs) == multiset{xs[i]} + multiset(Without(xs, i))
  {
    assert xs == xs[..i] + [xs[i]] + xs[i + 1..];
  }

  lemma MapWithout<A, B>(f: A -> B, xs: seq<A>, i: nat)
    requires i < |xs|
    ensures multiset(Map(f, xs)) == multiset{f(xs[i])} + multiset(Map(f, Without(xs, i)))
  {
    assert Map(f, Without(xs, i)) == Without(Map(f, xs), i);
    WithoutMultiset(Map(f, xs), i);
  }

  /** Mapping a function over rearranged sequences gives rearranged results. */
  lemma {:induction false} MapMultiset<A, B>(f: A -> B, xs: seq<A>, ys: seq<A>)
    requires multiset(xs) == multiset(ys)
    ensures multiset(Map(f, xs)) == multiset(Map(f, ys))
    decreases |xs|
  {
    if xs == [] {
      assert |multiset(ys)| == 0;
    } else {
      assert xs[0] in multiset(ys);
      var i :| 0 <= i < |ys| && ys[i] == xs[0];
      WithoutMultiset(xs, 0);
      WithoutMultiset(ys, i);
      MapWithout(f, xs, 0);
      MapWithout(f, ys, i);
      MapMultiset(f, Without(xs, 0), Without(ys, i));
    }
  }

  function Filter<A(!new)>(p: A -> bool, xs: seq<A>): (ys: seq<A>)
    ensures forall y :: y in ys <==> y in xs && p(y)
    ensures |ys| <= |xs|
  {
    if xs == [] then []
    else if p(xs[0]) then [xs[0]] + Filter(p, xs[1..])
    else Filter(p, xs[1..])
  }
}
