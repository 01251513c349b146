/** The cache key of a pod: its "name:image" strings, sorted and joined by commas. */
module PodKeys {
  import opened GoErrors
  import opened Contracts
  import opened KeySpace
  import opened Seqs

  function Entry(c: Container): string {
    c.name + ":" + c.image
  }

  function Entries(cs: seq<Container>): seq<string> {
    Map(Entry, cs)
  }

  /** `ExtractContainersFromPodSpecAsString`. */
  method ExtractContainersFromPodSpecAsString(pod: PodSpec) returns (containers: seq<string>)
    ensures containers == Entries(AllContainers(pod))
    ensures |containers| == |pod.initContainers| + |pod.containers|
    ensures forall i :: 0 <= i < |containers| ==>
      var c := if i < |pod.initContainers| then pod.initContainers[i] else pod.containers[i - |pod.initContainers|];
      containers[i] == c.name + ":" + c.image
  {
    containers := [];
    for i := 0 to |pod.initContainers|
      invariant containers == Entries(AllContainers(pod)[..i])
    {
      containers := containers + [Entry(pod.initContainers[i])];
    }
    for i := 0 to |pod.containers|
      invariant containers == Entries(AllContainers(pod)[..|pod.initContainers| + i])
    {
      containers := containers + [Entry(pod.containers[i])];
    }
    assert AllContainers(pod)[..|AllContainers(pod)|] == AllContainers(pod);
  }

  // sort.Strings: lexicographic order on strings.

  predicate Leq(a: string, b: string) {
    a == [] || (b != [] && (a[0] < b[0] || (a[0] == b[0] && Leq(a[1..], b[1..]))))
  }

  predicate Sorted(ss: seq<string>) {
    forall i, j :: 0 <= i < j < |ss| ==> Leq(ss[i], ss[j])
  }

  function Insert(s: string, ss: seq<string>): seq<string> {
    if ss == [] || Leq(s, ss[0]) then [s] + ss else [ss[0]] + Insert(s, ss[1..])
  }

  /** `sort.Strings` as a value; `SortIsTheSort` shows that any correct sort gives this one. */
  function Sort(ss: seq<string>): seq<string> {
    if ss == [] then [] else Insert(ss[0], Sort(ss[1..]))
  }

  function Join(ss: seq<string>): string {
    if ss == [] then "" else if |ss| == 1 then ss[0] else ss[0] + "," + Join(ss[1..])
  }

  /** `GetPodSpecCacheKey`. */
  function Key(pod: PodSpec): string {
    Join(Sort(Entries(AllContainers(pod))))
  }

  method GetPodSpecCacheKey(pod: PodSpec) returns (podSpecCacheKey: string)
    ensures podSpecCacheKey == Key(pod)
  {
    var containers := ExtractContainersFromPodSpecAsString(pod);
    containers := Sort(containers);
    podSpecCacheKey := Join(containers);
  }

  /** The first difference decides, by the smaller character; without one the shorter string is first. */
  lemma {:induction false} LeqIff(a: string, b: string)
    ensures Leq(a, b) <==> a <= b || exists i :: 0 <= i < |a| && i < |b| && a[..i] == b[..i] && a[i] < b[i]
  {
    if a != [] && b != [] {
      if a[0] == b[0] {
        LeqIff(a[1..], b[1..]);
        assert a == [a[0]] + a[1..] && b == [b[0]] + b[1..];
        if i :| 0 <= i < |a| - 1 && i < |b| - 1 && a[1..][..i] == b[1..][..i] && a[1..][i] < b[1..][i] {
          assert a[..i + 1] == [a[0]] + a[1..][..i] && b[..i + 1] == [b[0]] + b[1..][..i];
        }
        if i :| 0 <= i < |a| && i < |b| && a[..i] == b[..i] && a[i] < b[i] {
          assert a[1..][..i - 1] == a[..i][1..] && b[1..][..i - 1] == b[..i][1..];
        }
      } else {
        assert a[..0] == b[..0];
        forall i | 0 < i < |a| && i < |b| ensures a[..i] != b[..i] {
          assert a[..i][0] == a[0] && b[..i][0] == b[0];
        }
      }
    }
  }

  // The order is total.

  lemma {:induction false} LeqTotal(a: string, b: string)
    ensures Leq(a, b) || Leq(b, a)
  {
    if a != [] && b != [] && a[0] == b[0] { LeqTotal(a[1..], b[1..]); }
  }

  lemma {:induction false} LeqTransitive(a: string, b: string, c: string)
    requires Leq(a, b) && Leq(b, c)
    ensures Leq(a, c)
  {
    if a != [] && a[0] == b[0] && b[0] == c[0] { LeqTransitive(a[1..], b[1..], c[1..]); }
  }

  lemma {:induction false} LeqAntisymmetric(a: string, b: string)
    requires Leq(a, b) && Leq(b, a)
    ensures a == b
  {
    if a != [] && b != [] {
      LeqAntisymmetric(a[1..], b[1..]);
      assert a == [a[0]] + a[1..] && b == [b[0]] + b[1..];
    }
  }

  lemma {:induction false} InsertSorts(s: string, ss: seq<string>)
    requires Sorted(ss)
    ensures Sorted(Insert(s, ss))
    ensures multiset(Insert(s, ss)) == multiset{s} + multiset(ss)
  {
    if ss == [] {
    } else if Leq(s, ss[0]) {
      forall j | 0 <= j < |ss| ensures Leq(s, ss[j]) {
        if j > 0 { LeqTransitive(s, ss[0], ss[j]); }
      }
    } else {
      LeqTotal(s, ss[0]);
      InsertSorts(s, ss[1..]);
      var rest := Insert(s, ss[1..]);
      assert ss == [ss[0]] + ss[1..];
      forall j | 0 <= j < |rest| ensures Leq(ss[0], rest[j]) {
        assert rest[j] in multiset(rest);
        assert rest[j] == s || rest[j] in ss[1..];
      }
    }
  }

  lemma {:induction false} SortSorts(ss: seq<string>)
    ensures Sorted(Sort(ss)) && multiset(Sort(ss)) == multiset(ss)
  {
    if ss != [] {
      SortSorts(ss[1..]);
      InsertSorts(ss[0], Sort(ss[1..]));
      assert ss == [ss[0]] + ss[1..];
    }
  }

  lemma TailMultiset(ss: seq<string>)
    requires ss != []
    ensures multiset(ss[1..]) == multiset(ss) - multiset{ss[0]}
  {
    assert ss == [ss[0]] + ss[1..];
  }

  lemma SameHead(a: seq<string>, b: seq<string>)
    requires Sorted(a) && Sorted(b) && multiset(a) == multiset(b) && a != []
    ensures b != [] && a[0] == b[0]
  {
    hide Leq;
    assert |multiset(a)| == |multiset(b)|;
    assert a[0] in multiset(b) && b[0] in multiset(a);
    FirstIsLeast(a, b[0]);
    FirstIsLeast(b, a[0]);
    LeqAntisymmetric(a[0], b[0]);
  }

  lemma SortedTail(ss: seq<string>)
    requires Sorted(ss) && ss != []
    ensures Sorted(ss[1..])
  {
    hide Leq;
  }

  lemma {:induction false} SortedUnique(a: seq<string>, b: seq<string>)
    requires Sorted(a) && Sorted(b) && multiset(a) == multiset(b)
    ensures a == b
  {
    hide Sorted;
    if a == [] {
      assert |multiset(b)| == 0;
    } else {
      SameHead(a, b);
      TailMultiset(a);
      TailMultiset(b);
      SortedTail(a);
      SortedTail(b);
      SortedUnique(a[1..], b[1..]);
      assert a == [a[0]] + a[1..] && b == [b[0]] + b[1..];
    }
  }

  lemma FirstIsLeast(ss: seq<string>, s: string)
    requires Sorted(ss) && s in ss
    ensures Leq(ss[0], s)
  {
    LeqTotal(s, s);
  }

  /** Whatever algorithm `sort.Strings` uses: a sorted rearrangement is `Sort`. */
  lemma SortIsTheSort(ss: seq<string>, sorted: seq<string>)
    ensures Sorted(sorted) && multiset(sorted) == multiset(ss) <==> sorted == Sort(ss)
  {
    SortSorts(ss);
    if Sorted(sorted) && multiset(sorted) == multiset(ss) {
      SortedUnique(sorted, Sort(ss));
    }
  }

  // Reading a key back.

  /** Position of the first `c` in `s`, or |s|. */
  function IndexOf(s: string, c: char): (i: nat)
    ensures i <= |s|
    ensures i < |s| ==> s[i] == c
    ensures c !in s[..i]
  {
    if s == [] then 0
    else if s[0] == c then 0
    else
      var i := IndexOf(s[1..], c);
      assert s[..i + 1] == [s[0]] + s[1..][..i];
      i + 1
  }

  lemma {:induction false} IndexOfAfter(plain: string, c: char, rest: string)
    requires c !in plain
    ensures IndexOf(plain + [c] + rest, c) == |plain|
  {
    var s := plain + [c] + rest;
    if plain != [] {
      assert s[1..] == plain[1..] + [c] + rest;
      IndexOfAfter(plain[1..], c, rest);
    }
  }

  lemma FirstIndex(s: string, c: char, k: nat)
    requires k < |s| && s[k] == c
    ensures IndexOf(s, c) <= k
  {
  }

  /** One entry: the name up to the first ':', the image after it. */
  function ParseEntry(s: string): Container {
    var i := IndexOf(s, ':');
    if i == |s| then Container(s, "") else Container(s[..i], s[i + 1..])
  }

  /** A whole key: an entry runs to the first ',' after its first ':'. */
  function ParseKey(key: string): seq<Container>
    decreases |key|
  {
    if key == "" then []
    else
      var i := IndexOf(key, ':');
      if i == |key| then [Container(key, "")]
      else
        var rest := key[i + 1..];
        var j := IndexOf(rest, ',');
        [Container(key[..i], rest[..j])] + if j == |rest| then [] else ParseKey(rest[j + 1..])
  }

  /** The names and images whose keys can be told apart. Kubernetes names are DNS labels and image
      references have no comma, so valid pods meet this. */
  predicate Plain(c: Container) {
    ':' !in c.name && ',' !in c.image
  }

  predicate PlainPod(pod: PodSpec) {
    forall c | c in AllContainers(pod) :: Plain(c)
  }

  lemma EntryParses(c: Container)
    requires ':' !in c.name
    ensures ParseEntry(Entry(c)) == c
  {
    assert Entry(c) == c.name + [':'] + c.image;
    IndexOfAfter(c.name, ':', c.image);
    assert Entry(c)[..|c.name|] == c.name && Entry(c)[|c.name| + 1..] == c.image;
  }

  /** An entry at the head of a key is read off up to the comma after it. */
  lemma HeadParses(c: Container, more: string, last: bool)
    requires Plain(c)
    ensures ParseKey(Entry(c) + if last then "" else "," + more) == [c] + if last then [] else ParseKey(more)
  {
    var after := if last then "" else "," + more;
    var key := Entry(c) + after;
    assert key == c.name + [':'] + (c.image + after);
    IndexOfAfter(c.name, ':', c.image + after);
    var rest := key[|c.name| + 1..];
    assert rest == c.image + after && key[..|c.name|] == c.name;
    if last {
      assert rest == c.image && IndexOf(rest, ',') == |rest|;
    } else {
      assert rest == c.image + [','] + more;
      IndexOfAfter(c.image, ',', more);
      assert rest[..|c.image|] == c.image && rest[|c.image| + 1..] == more;
    }
  }

  lemma {:induction false} JoinParses(cs: seq<Container>)
    requires forall c | c in cs :: Plain(c)
    ensures ParseKey(Join(Entries(cs))) == cs
  {
    hide ParseKey, Entry, Plain;
    if cs == [] {
      EmptyKeyParses();
    } else {
      var more := Join(Entries(cs[1..]));
      assert cs[0] in cs && cs == [cs[0]] + cs[1..];
      assert Entries(cs)[1..] == Entries(cs[1..]) && Entries(cs)[0] == Entry(cs[0]);
      HeadParses(cs[0], more, |cs| == 1);
      if |cs| == 1 {
        assert Join(Entries(cs)) == Entry(cs[0]) + "";
      } else {
        assert Join(Entries(cs)) == Entry(cs[0]) + ("," + more);
        JoinParses(cs[1..]);
      }
    }
  }

  lemma EmptyKeyParses()
    ensures ParseKey("") == []
  {
  }

  lemma SortedEntriesParse(cs: seq<Container>, sorted: seq<string>, listed: seq<Container>)
    requires forall c | c in cs :: Plain(c)
    requires multiset(sorted) == multiset(Entries(cs)) && listed == Map(ParseEntry, sorted)
    ensures Entries(listed) == sorted && forall c | c in listed :: Plain(c)
  {
    forall i | 0 <= i < |sorted| ensures Entry(listed[i]) == sorted[i] && Plain(listed[i]) {
      assert sorted[i] in multiset(Entries(cs));
      var k :| 0 <= k < |cs| && sorted[i] == Entries(cs)[k];
      assert cs[k] in cs;
      EntryParses(cs[k]);
    }
  }

  lemma ParseEntriesBack(cs: seq<Container>)
    requires forall c | c in cs :: Plain(c)
    ensures Map(ParseEntry, Entries(cs)) == cs
  {
    forall i | 0 <= i < |cs| ensures ParseEntry(Entry(cs[i])) == cs[i] {
      assert cs[i] in cs;
      EntryParses(cs[i]);
    }
  }

  /** The key of a plain pod reads back as the pod's containers, in some order. */
  lemma KeyReadsBack(pod: PodSpec)
    requires PlainPod(pod)
    ensures multiset(ParseKey(Key(pod))) == multiset(pod.initContainers) + multiset(pod.containers)
  {
    var all := AllContainers(pod);
    var sorted := Sort(Entries(all));
    SortSorts(Entries(all));
    var listed := Map(ParseEntry, sorted);
    SortedEntriesParse(all, sorted, listed);
    JoinParses(listed);
    MapMultiset(ParseEntry, sorted, Entries(all));
    ParseEntriesBack(all);
  }

  /** Two plain pods have equal keys exactly when they run the same images under the same container
      names, counted with multiplicity, init and regular containers together. */
  lemma KeyIsCanonical(p: PodSpec, q: PodSpec)
    requires PlainPod(p) && PlainPod(q)
    ensures Key(p) == Key(q) <==>
            multiset(p.initContainers) + multiset(p.containers) == multiset(q.initContainers) + multiset(q.containers)
  {
    KeyReadsBack(p);
    KeyReadsBack(q);
    if multiset(AllContainers(p)) == multiset(AllContainers(q)) {
      MapMultiset(Entry, AllContainers(p), AllContainers(q));
      SortSorts(Entries(AllContainers(p)));
      SortSorts(Entries(AllContainers(q)));
      SortedUnique(Sort(Entries(AllContainers(p))), Sort(Entries(AllContainers(q))));
    }
  }

  function PodOf(cs: seq<Container>): PodSpec {
    PodSpec(cs, [], [], "")
  }

  lemma PodOfContainers(cs: seq<Container>)
    ensures AllContainers(PodOf(cs)) == cs
  {
  }

  lemma SingletonKey(c: Container)
    ensures Key(PodOf([c])) == Entry(c)
  {
    PodOfContainers([c]);
    assert Entries([c]) == [Entry(c)];
    SingletonSorts(Entry(c));
    hide Entry, Leq, Sort;
    assert Join([Entry(c)]) == Entry(c);
  }

  lemma SingletonSorts(a: string)
    ensures Sort([a]) == [a]
  {
    hide Leq;
    assert [a][1..] == [];
  }

  /** The restriction on images is needed, for any two containers whose entries are in order: one
      container whose image goes on with a comma and the second entry shares its key with the pod of
      the two. */
  lemma CommaInImageCollides(c: Container, d: Container)
    requires Leq(Entry(c), Entry(d))
    ensures var p, q := PodOf([Container(c.name, c.image + "," + Entry(d))]), PodOf([c, d]);
            Key(p) == Key(q) && multiset(AllContainers(p)) != multiset(AllContainers(q))
  {
    var joined := Container(c.name, c.image + "," + Entry(d));
    PodOfContainers([joined]);
    PodOfContainers([c, d]);
    SingletonKey(joined);
    PairKey(c, d);
    assert Entry(joined) == Entry(c) + "," + Entry(d);
    assert |multiset([joined])| == 1 && |multiset([c, d])| == 2;
  }

  lemma PairKey(c: Container, d: Container)
    requires Leq(Entry(c), Entry(d))
    ensures Key(PodOf([c, d])) == Entry(c) + "," + Entry(d)
  {
    PodOfContainers([c, d]);
    var entries := [Entry(c), Entry(d)];
    assert Entries([c, d]) == entries;
    assert entries[1..] == [Entry(d)] && [Entry(d)][1..] == [];
    PairSorts(Entry(c), Entry(d));
    hide Entry, Leq, Sort;
    assert Join(entries) == Entry(c) + "," + Join([Entry(d)]);
  }

  lemma PairSorts(a: string, b: string)
    requires Leq(a, b)
    ensures Sort([a, b]) == [a, b]
  {
    hide Leq;
    assert [a, b][1..] == [b];
    SingletonSorts(b);
  }

  /** The restriction on names is needed, for every pod with such a name: reading that container's
      entry at its first colon instead gives a different pod with the same key. */
  lemma ColonInNameCollides(pod: PodSpec, k: nat)
    requires k < |AllContainers(pod)| && ':' in AllContainers(pod)[k].name
    ensures var all := AllContainers(pod);
            var other := all[k := ParseEntry(Entry(all[k]))];
            && ':' !in other[k].name
            && Key(PodOf(other)) == Key(pod) && multiset(other) != multiset(all)
  {
    hide Sort, Join;
    var all := AllContainers(pod);
    var other := all[k := ParseEntry(Entry(all[k]))];
    ParsedAtFirstColon(all[k]);
    PodOfContainers(other);
    assert Entries(other) == Entries(all);
    assert multiset(other)[other[k]] == multiset(all)[other[k]] + 1;
  }

  lemma ParsedAtFirstColon(c: Container)
    requires ':' in c.name
    ensures var d := ParseEntry(Entry(c)); d != c && ':' !in d.name && Entry(d) == Entry(c)
  {
    assert Entry(c)[|c.name|] == ':';
    var k :| 0 <= k < |c.name| && c.name[k] == ':';
    FirstIndex(Entry(c), ':', k);
    EntryOfParsed(Entry(c));
    assert |ParseEntry(Entry(c)).name| < |c.name|;
  }

  // Which keys are shared.

  /** Container names as Kubernetes admits them hold no colon; the images may be any text. */
  predicate ColonFreeNames(pod: PodSpec) {
    forall c | c in AllContainers(pod) :: ':' !in c.name
  }

  predicate SharesKey(pod: PodSpec, other: PodSpec) {
    ColonFreeNames(other) && Key(other) == Key(pod) && multiset(AllContainers(other)) != multiset(AllContainers(pod))
  }

  /** Cutting the container's entry at this comma of its image leaves two entries in order. */
  predicate CutsAt(c: Container, i: nat) {
    && i < |c.image| && c.image[i] == ',' && ':' in c.image[i + 1..]
    && Leq(c.name + ":" + c.image[..i], c.image[i + 1..])
  }

  lemma {:induction false} LeqPrefix(a: string, b: string, more: string)
    requires Leq(a, b)
    ensures Leq(a, b + more)
  {
    if a != [] && a[0] == b[0] {
      LeqPrefix(a[1..], b[1..], more);
      assert (b + more)[1..] == b[1..] + more;
    }
  }

  lemma EntryOfParsed(s: string)
    requires ':' in s
    ensures Entry(ParseEntry(s)) == s && ':' !in ParseEntry(s).name
  {
    var k :| 0 <= k < |s| && s[k] == ':';
    FirstIndex(s, ':', k);
    var i := IndexOf(s, ':');
    assert s == s[..i] + ":" + s[i + 1..];
  }

  /** The sorted entries of a pod whose names hold no colon are again entries of such containers. */
  lemma SortedEntryIsAnEntry(pod: PodSpec, i: nat)
    requires ColonFreeNames(pod) && i < |Sort(Entries(AllContainers(pod)))|
    ensures ':' in Sort(Entries(AllContainers(pod)))[i]
  {
    var all := AllContainers(pod);
    var sorted := Sort(Entries(all));
    SortSorts(Entries(all));
    assert sorted[i] in multiset(sorted);
    var k :| 0 <= k < |all| && sorted[i] == Entry(all[k]);
    assert Entry(all[k])[|all[k].name|] == ':';
  }

  lemma SortLength(ss: seq<string>)
    ensures |Sort(ss)| == |ss|
  {
    SortSorts(ss);
    assert |multiset(Sort(ss))| == |multiset(ss)|;
  }

  /** An image that goes on with a comma puts that text after a comma at the end of the entry. */
  lemma EntryGoesOn(first: Container, tail: string)
    ensures Entry(Container(first.name, first.image + "," + tail)) == Entry(first) + "," + tail
  {
  }

  /** Two or more containers: one container whose image swallows all entries after the first. */
  lemma SeveralShare(pod: PodSpec)
    requires ColonFreeNames(pod) && |AllContainers(pod)| >= 2
    ensures exists other :: SharesKey(pod, other)
  {
    var all := AllContainers(pod);
    var sorted := Sort(Entries(all));
    SortLength(Entries(all));
    SortedEntryIsAnEntry(pod, 0);
    hide Entries, Entry, ParseEntry, Sort, Leq, Sorted;
    var first := ParseEntry(sorted[0]);
    EntryOfParsed(sorted[0]);
    var joined := Container(first.name, first.image + "," + Join(sorted[1..]));
    EntryGoesOn(first, Join(sorted[1..]));
    PodOfContainers([joined]);
    SingletonKey(joined);
    assert |multiset([joined])| == 1 && |multiset(all)| >= 2;
    assert SharesKey(pod, PodOf([joined]));
  }

  lemma CutShares(c: Container, i: nat)
    requires ':' !in c.name && CutsAt(c, i)
    ensures Key(PodOf([Container(c.name, c.image[..i]), ParseEntry(c.image[i + 1..])])) == Entry(c)
    ensures ':' !in ParseEntry(c.image[i + 1..]).name
  {
    hide Key, Entry, ParseEntry;
    var a, tail := Container(c.name, c.image[..i]), c.image[i + 1..];
    EntryOfParsed(tail);
    EntryGoesOn(a, tail);
    assert c.image == a.image + "," + tail;
    LeqOfCut(c, i);
    PairKey(a, ParseEntry(tail));
  }

  lemma LeqOfCut(c: Container, i: nat)
    requires CutsAt(c, i)
    ensures Leq(Entry(Container(c.name, c.image[..i])), c.image[i + 1..])
  {
  }

  lemma KeyOfSingle(pod: PodSpec)
    requires |AllContainers(pod)| == 1
    ensures Key(pod) == Entry(AllContainers(pod)[0])
  {
    var c := AllContainers(pod)[0];
    assert AllContainers(pod) == [c];
    PodOfContainers([c]);
    SingletonKey(c);
  }

  /** Entries with the same text and colon-free names are of one container. */
  lemma EntryIsInjective(c: Container, d: Container)
    requires ':' !in c.name && ':' !in d.name && Entry(c) == Entry(d)
    ensures c == d
  {
    EntryParses(c);
    EntryParses(d);
  }

  /** What a key starts with, read as one container's entry, fixes the first name and a cut. */
  lemma FirstOfSeveral(c: Container, first: Container, second: string, rest: string)
    requires ':' !in c.name && ':' !in first.name && ':' in second
    requires Leq(Entry(first), second)
    requires Entry(c) == Entry(first) + "," + (second + rest)
    ensures CutsAt(c, |first.image|)
  {
    var tail := first.image + "," + (second + rest);
    assert Entry(c) == Entry(Container(first.name, tail));
    EntryIsInjective(c, Container(first.name, tail));
    assert c.image[..|first.image|] == first.image;
    assert c.image[|first.image| + 1..] == second + rest;
    LeqPrefix(Entry(first), second, rest);
    var k :| 0 <= k < |second| && second[k] == ':';
    assert (second + rest)[k] == ':';
  }

  lemma JoinHead(ss: seq<string>)
    requires ss != []
    ensures exists rest :: Join(ss) == ss[0] + rest
  {
    if |ss| == 1 { assert Join(ss) == ss[0] + ""; } else { assert Join(ss) == ss[0] + ("," + Join(ss[1..])); }
  }

  lemma SharedSingleIsCut(pod: PodSpec, c: Container, other: PodSpec)
    requires AllContainers(pod) == [c] && ':' !in c.name && SharesKey(pod, other)
    ensures exists i: nat :: CutsAt(c, i)
  {
    var all := AllContainers(other);
    var sorted := Sort(Entries(all));
    SortLength(Entries(all));
    SortSorts(Entries(all));
    KeyOfSingle(pod);
    if |all| == 1 {
      KeyOfSingle(other);
      assert all[0] in all && all == [all[0]];
      EntryIsInjective(c, all[0]);
      assert false;
    } else if |all| == 0 {
      assert false;
    } else {
      SortedEntryIsAnEntry(other, 0);
      SortedEntryIsAnEntry(other, 1);
      EntryOfParsed(sorted[0]);
      JoinHead(sorted[1..]);
      var rest :| Join(sorted[1..]) == sorted[1] + rest;
      FirstOfSeveral(c, ParseEntry(sorted[0]), sorted[1], rest);
    }
  }

  /** The exact class of pods whose key does not tell their containers, among pods with colon-free
      names and any images: every pod of two containers or more, and a single container exactly when
      a comma of its image cuts its entry into two entries in order. */
  lemma KeyIsSharedIff(pod: PodSpec)
    requires ColonFreeNames(pod)
    ensures (exists other :: SharesKey(pod, other)) <==>
            var all := AllContainers(pod);
            |all| >= 2 || (|all| == 1 && exists i: nat :: CutsAt(all[0], i))
  {
    hide Key, Leq, ParseEntry;
    var all := AllContainers(pod);
    if |all| >= 2 {
      SeveralShare(pod);
    } else if |all| == 1 {
      var c := all[0];
      assert c in all && all == [c];
      if i: nat :| CutsAt(c, i) {
        CutShares(c, i);
        KeyOfSingle(pod);
        var two := [Container(c.name, c.image[..i]), ParseEntry(c.image[i + 1..])];
        PodOfContainers(two);
        assert |multiset(two)| == 2 && |multiset(all)| == 1;
        assert SharesKey(pod, PodOf(two));
      }
      if other :| SharesKey(pod, other) {
        SharedSingleIsCut(pod, c, other);
      }
    } else {
      forall other ensures !SharesKey(pod, other) {
        EmptyKeyIsUnique(pod, other);
      }
    }
  }

  lemma EmptyKeyIsUnique(pod: PodSpec, other: PodSpec)
    requires AllContainers(pod) == []
    ensures !SharesKey(pod, other)
  {
    assert Key(pod) == "";
    if SharesKey(pod, other) && AllContainers(other) != [] {
      SortLength(Entries(AllContainers(other)));
      SortedEntryIsAnEntry(other, 0);
      JoinHead(Sort(Entries(AllContainers(other))));
    }
  }

  /** A pod whose names hold no '.', '/' or ':' has a plain key, apart from every foreign key. */
  lemma PlainNamesPlainKey(pod: PodSpec)
    requires forall c | c in AllContainers(pod) :: forall ch | ch in c.name :: !IsMark(ch)
    ensures PlainKey(Key(pod))
  {
    var all := AllContainers(pod);
    var entries := Entries(all);
    var sorted := Sort(entries);
    SortSorts(entries);
    if all == [] {
      assert sorted == [];
    } else {
      assert |multiset(sorted)| == |multiset(entries)|;
      assert sorted[0] in multiset(entries);
      var i :| 0 <= i < |all| && sorted[0] == Entry(all[i]);
      assert all[i] in all;
      StartsWithName(all[i], sorted);
    }
  }

  lemma StartsWithName(c: Container, sorted: seq<string>)
    requires sorted != [] && sorted[0] == Entry(c) && forall ch | ch in c.name :: !IsMark(ch)
    ensures PlainKey(Join(sorted))
  {
    var rest := ":" + c.image + if |sorted| == 1 then "" else "," + Join(sorted[1..]);
    assert Join(sorted) == c.name + rest;
    FirstMarkAppend(c.name, rest);
  }
}
