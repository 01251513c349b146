/** All users of the one persistent cache together: the timeout status and the results of pods, digests,
    scan results and, in local development, tokens. Whatever one of them writes, the entries of every
    other stay as that user left them. */
module SharedCacheUsers {
  import opened GoErrors
  import opened Contracts
  import opened JsonCodec
  import opened CacheStore
  import opened KeySpace
  import opened ProviderCache
  import opened CacheClients
  import opened ProtocolInvariants
  import opened DigestResolution
  import opened ArgDataProvider

  /** The provider's entries under plain pod keys: a status is 0, 1 or 2, and a result decodes. */
  ghost predicate PodEntriesOk(store: Store) {
    forall podKey {:trigger PlainKey(podKey)} :: PlainKey(podKey) ==> StatusEntryOk(store, podKey) && ResultDecodes(store, podKey)
  }

  predicate ResultDecodes(store: Store, podKey: string) {
    var key := ResultKey(podKey);
    key in store ==> store[key].value.Doc? && UnmarshalScanResults(store[key].value.tree).Some?
  }

  /** Nothing but one key has changed. */
  predicate OnlyChanges(before: Store, after: Store, key: string) {
    before - {key} == after - {key}
  }

  /** Every read of the status of a pod key gives the same before and after. */
  ghost predicate StatusAlike(before: Store, after: Store, podKey: string) {
    forall now: nat, faulty: bool :: StatusRead(before, podKey, now, faulty) == StatusRead(after, podKey, now, faulty)
  }

  ghost predicate ResultAlike(before: Store, after: Store, podKey: string) {
    forall now: nat, faulty: bool :: ResultRead(before, podKey, now, faulty) == ResultRead(after, podKey, now, faulty)
  }

  lemma ReadsElsewhere(before: Store, after: Store, key: string, podKey: string)
    requires OnlyChanges(before, after, key)
    ensures key != TimeoutKey(podKey) ==> StatusAlike(before, after, podKey)
    ensures key != ResultKey(podKey) ==> ResultAlike(before, after, podKey)
  {
    if key != TimeoutKey(podKey) {
      SameElsewhere(before, after, key, TimeoutKey(podKey));
    }
    if key != ResultKey(podKey) {
      SameElsewhere(before, after, key, ResultKey(podKey));
    }
  }

  /** A change under another user's key changes no read of any plain pod's status or result. */
  lemma ForeignKeepsPodEntries(before: Store, after: Store, key: string)
    requires PodEntriesOk(before) && OnlyChanges(before, after, key) && ForeignKey(key)
    ensures PodEntriesOk(after)
    ensures forall podKey :: PlainKey(podKey) ==> StatusAlike(before, after, podKey) && ResultAlike(before, after, podKey)
  {
    forall podKey | PlainKey(podKey) ensures StatusAlike(before, after, podKey) && ResultAlike(before, after, podKey) {
      UsersSeparate(key, podKey);
      ReadsElsewhere(before, after, key, podKey);
    }
    forall podKey | PlainKey(podKey) ensures StatusEntryOk(after, podKey) && ResultDecodes(after, podKey) {
      UsersSeparate(key, podKey);
      assert key != TimeoutKey(podKey) && key != ResultKey(podKey);
      SameElsewhere(before, after, key, TimeoutKey(podKey));
      SameElsewhere(before, after, key, ResultKey(podKey));
    }
  }

  lemma SameElsewhere(before: Store, after: Store, key: string, other: string)
    requires OnlyChanges(before, after, key) && other != key
    ensures other in before <==> other in after
    ensures other in before ==> before[other] == after[other]
  {
    assert other in before - {key} <==> other in before;
    assert other in after - {key} <==> other in after;
    if other in before {
      assert (before - {key})[other] == before[other] && (after - {key})[other] == after[other];
    }
  }

  /** A change of a key of another shape, or the loss of an entry. */
  predicate ForeignTo(before: Store, after: Store, key: string, mine: bool) {
    OnlyChanges(before, after, key) && (mine ==> key !in after)
  }

  lemma KeepsDigests(before: Store, after: Store, key: string, produced: set<(string, string)>)
    requires DigestsOk(before, produced) && ForeignTo(before, after, key, ImageKey(key))
    ensures DigestsOk(after, produced)
  {
    forall other | other in after && ImageKey(other)
      ensures after[other].value.Text? && (other, after[other].value.text) in produced
    {
      SameElsewhere(before, after, key, other);
    }
  }

  lemma KeepsScans(before: Store, after: Store, key: string, c: ScanConfig, query: Query, asked: set<Asked>)
    requires ScansOk(c, query, asked, before) && ForeignTo(before, after, key, ScanKey(key))
    ensures ScansOk(c, query, asked, after)
  {
    forall other | other in after && ScanKey(other) ensures EntryOk(c, query, asked, other, after[other]) {
      SameElsewhere(before, after, key, other);
    }
  }

  /** A status or a result written for one pod changes no read of another's, nor of the other of the two. */
  lemma KeepsPodEntries(before: Store, after: Store, key: string, podKey: string)
    requires PodEntriesOk(before) && OnlyChanges(before, after, key)
    requires PlainKey(podKey) && (key == TimeoutKey(podKey) || key == ResultKey(podKey))
    requires StatusEntryOk(after, podKey) && ResultDecodes(after, podKey)
    ensures PodEntriesOk(after)
    ensures forall other :: PlainKey(other) && other != podKey ==>
              StatusAlike(before, after, other) && ResultAlike(before, after, other)
    ensures if key == TimeoutKey(podKey) then ResultAlike(before, after, podKey) else StatusAlike(before, after, podKey)
  {
    ProviderKeysSeparate(podKey, podKey);
    ReadsElsewhere(before, after, key, podKey);
    forall other | other != podKey ensures StatusAlike(before, after, other) && ResultAlike(before, after, other) {
      ProviderKeysSeparate(podKey, other);
      ProviderKeysSeparate(other, podKey);
      ReadsElsewhere(before, after, key, other);
    }
    forall other | PlainKey(other) ensures StatusEntryOk(after, other) && ResultDecodes(after, other) {
      if other != podKey {
        ProviderKeysSeparate(podKey, other);
        ProviderKeysSeparate(other, podKey);
        SameElsewhere(before, after, key, TimeoutKey(other));
        SameElsewhere(before, after, key, ResultKey(other));
      }
    }
  }

  class Deployment {
    const shared: SharedCache
    const pods: AzdSecInfoProviderCacheClient
    const resolver: Tag2DigestResolver
    const scans: ARGDataProvider

    constructor (shared: SharedCache, pods: AzdSecInfoProviderCacheClient, resolver: Tag2DigestResolver, scans: ARGDataProvider)
      requires shared.store == map[] && pods.shared == shared && resolver.shared == shared && scans.shared == shared
      requires resolver.storing == [] && resolver.produced == {} && scans.storing == []
      ensures Valid() && this.shared == shared
    {
      this.shared, this.pods, this.resolver, this.scans := shared, pods, resolver, scans;
    }

    ghost predicate Valid()
      reads this, shared, resolver, resolver.shared, scans, scans.shared
    {
      && pods.shared == shared && resolver.shared == shared && scans.shared == shared
      && PodEntriesOk(shared.store) && resolver.Valid() && scans.Valid()
    }

    method StoreDigest(i: nat, now: nat, w: WriteOutcome) returns (err: Err)
      requires Valid() && i < |resolver.storing|
      modifies resolver, shared
      ensures Valid() && OnlyChanges(old(shared.store), shared.store, old(resolver.storing)[i].0)
      ensures resolver.produced == old(resolver.produced)
    {
      ghost var before, key := shared.store, resolver.storing[i].0;
      err := resolver.StoreDigest(i, now, w);
      assert OnlyChanges(before, shared.store, key);
      UsersSeparate(key, "");
      ForeignKeepsPodEntries(before, shared.store, key);
      KeepsScans(before, shared.store, key, scans.config, scans.query, scans.asked);
    }

    method StoreScan(i: nat, now: nat, w: WriteOutcome) returns (err: Err)
      requires Valid() && i < |scans.storing|
      modifies scans, shared
      ensures Valid() && OnlyChanges(old(shared.store), shared.store, old(scans.storing)[i].digest)
      ensures scans.asked == old(scans.asked)
    {
      ghost var before, key := shared.store, scans.storing[i].digest;
      err := scans.SetScanFindingsInCache(i, now, w);
      assert OnlyChanges(before, shared.store, key);
      UsersSeparate(key, "");
      ForeignKeepsPodEntries(before, shared.store, key);
      KeepsDigests(before, shared.store, key, resolver.produced);
    }

    /** A write of the provider under a timeout or result key keeps the entries of the others. */
    lemma PodWriteKeepsOthers(before: Store, key: string, podKey: string)
      requires PlainKey(podKey) && (key == TimeoutKey(podKey) || key == ResultKey(podKey))
      requires OnlyChanges(before, shared.store, key)
      requires DigestsOk(before, resolver.produced) && ScansOk(scans.config, scans.query, scans.asked, before)
      ensures DigestsOk(shared.store, resolver.produced) && ScansOk(scans.config, scans.query, scans.asked, shared.store)
    {
      UsersSeparate(key, podKey);
      KeepsDigests(before, shared.store, key, resolver.produced);
      KeepsScans(before, shared.store, key, scans.config, scans.query, scans.asked);
    }

    method SetTimeOutStatus(podKey: string, status: int, now: nat, w: WriteOutcome) returns (err: Err)
      requires Valid() && PlainKey(podKey) && 0 <= status <= 2
      modifies shared
      ensures Valid() && OnlyChanges(old(shared.store), shared.store, TimeoutKey(podKey))
    {
      ghost var before, key := shared.store, TimeoutKey(podKey);
      err := pods.SetTimeOutStatusAfterEncounteredTimeout(podKey, status, now, w);
      assert OnlyChanges(before, shared.store, key);
      PodWriteKeepsOthers(before, key, podKey);
      ProviderKeysSeparate(podKey, podKey);
      KeepsPodEntries(before, shared.store, key, podKey);
    }

    method ResetTimeOut(podKey: string, now: nat, faulty: bool, w: WriteOutcome) returns (err: Err)
      requires Valid() && PlainKey(podKey)
      modifies shared
      ensures Valid() && OnlyChanges(old(shared.store), shared.store, TimeoutKey(podKey))
    {
      ghost var before, key := shared.store, TimeoutKey(podKey);
      err := pods.ResetTimeOutInCacheAfterGettingScanResults(podKey, now, faulty, w);
      assert OnlyChanges(before, shared.store, key);
      PodWriteKeepsOthers(before, key, podKey);
      ProviderKeysSeparate(podKey, podKey);
      KeepsPodEntries(before, shared.store, key, podKey);
    }

    method StoreResult(podKey: string, list: Slice<ScanInfo>, result: Err, now: nat, w: WriteOutcome) returns (err: Err)
      requires Valid() && PlainKey(podKey)
      modifies shared
      ensures Valid() && OnlyChanges(old(shared.store), shared.store, ResultKey(podKey))
    {
      ghost var before, key := shared.store, ResultKey(podKey);
      err := pods.SetContainerVulnerabilityScanInfoInCache(podKey, list, result, now, w);
      assert OnlyChanges(before, shared.store, key);
      PodWriteKeepsOthers(before, key, podKey);
      ProviderKeysSeparate(podKey, podKey);
      StoreThenLoad(list, result);
      KeepsPodEntries(before, shared.store, key, podKey);
    }

    /** The token provider, which shares the cache in local development only. */
    method StoreToken(registry: string, token: string, ttl: nat, now: nat, w: WriteOutcome) returns (err: Err)
      requires Valid() && TokenKey(registry)
      modifies shared
      ensures Valid() && OnlyChanges(old(shared.store), shared.store, registry)
    {
      ghost var before := shared.store;
      err := pods.Set(registry, Text(token), ttl, now, w);
      assert OnlyChanges(before, shared.store, registry);
      UsersSeparate(registry, "");
      ForeignKeepsPodEntries(before, shared.store, registry);
      KeepsDigests(before, shared.store, registry, resolver.produced);
      KeepsScans(before, shared.store, registry, scans.config, scans.query, scans.asked);
    }

    /** An entry expires from memory or is evicted. */
    method Evict(key: string)
      requires Valid()
      modifies shared
      ensures Valid() && shared.store == old(shared.store) - {key}
    {
      ghost var before := shared.store;
      shared.store := shared.store - {key};
      assert OnlyChanges(before, shared.store, key);
      KeepsDigests(before, shared.store, key, resolver.produced);
      KeepsScans(before, shared.store, key, scans.config, scans.query, scans.asked);
      forall podKey | PlainKey(podKey) ensures StatusEntryOk(shared.store, podKey) && ResultDecodes(shared.store, podKey) {
        assert StatusEntryOk(before, podKey) && ResultDecodes(before, podKey);
      }
    }

    // Look-ups.

    method Resolve(reference: ImageReference, env: Env, now: nat, faults: nat -> Err)
      returns (digest: string, err: Err, trace: seq<Auth>)
      requires Valid() && Lookable(reference) && RealFaults(faults)
      modifies resolver
      ensures Valid() && resolver.produced >= old(resolver.produced)
      ensures err.None? && !resolver.client.NeverAsks() ==> (reference.original, digest) in resolver.produced
      ensures err.None? && resolver.config.retryAttempts >= 1 ==> (digest == "" <==> resolver.client.NeverAsks())
    {
      digest, err, trace := resolver.Resolve(Some(reference), true, env, now, faults);
    }

    method GetScanResults(registry: string, repository: string, digest: string, now: nat, faulty: bool)
      returns (data: ScanData, err: Err)
      requires Valid() && ScanKey(digest)
      modifies scans
      ensures Valid() && scans.asked >= old(scans.asked)
      ensures err.None? ==> exists q :: q in scans.asked && q.2 == digest && Gave(scans.query, q, data)
    {
      data, err := scans.GetImageVulnerabilityScanResults(registry, repository, digest, now, faulty);
      if err.None? {
        assert (registry, repository, digest).2 == digest;
      }
    }

    method GetTimeOutStatus(podKey: string, now: nat, faulty: bool) returns (status: int, err: Err)
      requires Valid() && PlainKey(podKey)
      ensures Valid() && (err.None? <==> !faulty) && (err.None? ==> 0 <= status <= 2)
    {
      assert StatusEntryOk(shared.store, podKey);
      SmallStatusReads(shared.store, podKey, now);
      status, err := pods.GetTimeOutStatus(podKey, now, faulty);
    }

    method GetResult(podKey: string, now: nat, faulty: bool) returns (list: Slice<ScanInfo>, stored: Err, err: Err)
      requires Valid() && PlainKey(podKey)
      ensures Valid() && (err.None? <==> !faulty && Read(shared.store, ResultKey(podKey), now).Some?)
    {
      assert ResultDecodes(shared.store, podKey);
      list, stored, err := pods.GetContainerVulnerabilityScanInfoFromCache(podKey, now, faulty);
    }

    // Runs: any sequence of all users' operations.

    method Perform(op: Operation)
      requires Valid() && Allowed(op)
      modifies resolver, scans, shared
      ensures Valid() && resolver.produced >= old(resolver.produced) && scans.asked >= old(scans.asked)
    {
      match op
      case Resolving(reference, env, now, faults) => var digest, err, trace := Resolve(reference, env, now, faults);
      case Scanning(registry, repository, digest, now, faulty) =>
        var data, err := GetScanResults(registry, repository, digest, now, faulty);
      case StoringDigest(i, now, w) =>
        if i < |resolver.storing| {
          var err := StoreDigest(i, now, w);
        }
      case StoringScan(i, now, w) =>
        if i < |scans.storing| {
          var err := StoreScan(i, now, w);
        }
      case WritingStatusOf(podKey, status, now, w) => var err := SetTimeOutStatus(podKey, status, now, w);
      case Resetting(podKey, now, faulty, w) => var err := ResetTimeOut(podKey, now, faulty, w);
      case StoringResult(podKey, list, result, now, w) => var err := StoreResult(podKey, list, result, now, w);
      case StoringToken(registry, token, ttl, now, w) => var err := StoreToken(registry, token, ttl, now, w);
      case Evicting(key) => Evict(key);
    }

    /** After any sequence of operations of all users, in any order, each finds what it relies on. */
    method PerformAll(ops: seq<Operation>)
      requires Valid() && forall op :: op in ops ==> Allowed(op)
      modifies resolver, scans, shared
      ensures Valid() && resolver.produced >= old(resolver.produced) && scans.asked >= old(scans.asked)
    {
      for i := 0 to |ops|
        invariant Valid() && resolver.produced >= old(resolver.produced) && scans.asked >= old(scans.asked)
      {
        Perform(ops[i]);
      }
    }
  }

  datatype Operation =
    | Resolving(reference: ImageReference, env: Env, now: nat, faults: nat -> Err)
    | Scanning(registry: string, repository: string, digest: string, now: nat, faulty: bool)
    | StoringDigest(i: nat, now: nat, w: WriteOutcome)
    | StoringScan(i: nat, now: nat, w: WriteOutcome)
    | WritingStatusOf(podKey: string, status: int, now: nat, w: WriteOutcome)
    | Resetting(podKey: string, now: nat, faulty: bool, w: WriteOutcome)
    | StoringResult(podKey: string, list: Slice<ScanInfo>, result: Err, now: nat, w: WriteOutcome)
    | StoringToken(registry: string, token: string, ttl: nat, now: nat, w: WriteOutcome)
    | Evicting(key: string)

  predicate Lookable(ref: ImageReference) {
    ImageKey(ref.original) && (ref.Digest? ==> ref.digest != "")
  }

  /** What the program does: it resolves references to ACR images, looks up digests, serves plain pods,
      writes statuses up to two, and keeps tokens by registry. */
  ghost predicate Allowed(op: Operation) {
    match op
    case Resolving(reference, _, _, faults) => Lookable(reference) && RealFaults(faults)
    case Scanning(_, _, digest, _, _) => ScanKey(digest)
    case WritingStatusOf(podKey, status, _, _) => PlainKey(podKey) && 0 <= status <= 2
    case Resetting(podKey, _, _, _) => PlainKey(podKey)
    case StoringResult(podKey, _, _, _, _) => PlainKey(podKey)
    case StoringToken(registry, _, _, _, _) => TokenKey(registry)
    case _ => true
  }
}
