/** The cache client of the scan-info provider: the two-strike timeout status and the stored
    results of a pod, both in the shared expiring cache. What a cache access does is an input:
    a read may fail, and a write may be applied, be lost, or be applied without the caller
    learning of it. */
module ProviderCache {
  import opened GoErrors
  import opened Contracts
  import opened JsonCodec
  import opened CacheStore
  import opened Decimal
  import opened KeySpace

  const NO_TIMEOUT := 0
  const THRESHOLD := 3
  const RESET_TTL := 1

  /** `attempts` is how often a write may be sent: for Redis the attempts of the retry policy times the
      sends of the library in each, for freecache one. */
  datatype Config = Config(backend: Backend, statusTtl: nat, resultTtl: nat, attempts: nat)

  /** Validated and non-overflowing times-to-live are at least a second. A client without any attempt
      is one whose reads all fail and whose writes are all lost. */
  predicate ValidConfig(c: Config) {
    SECOND <= c.statusTtl && SECOND <= c.resultTtl && c.attempts >= 1
  }

  datatype WriteOutcome = Applied | Lost | Unacknowledged

  function Write(c: Config, store: Store, key: string, value: Value, ttl: nat, now: nat, w: WriteOutcome): Store {
    if w == Lost then store else Put(c.backend, store, key, value, ttl, now)
  }

  function ParseStatus(v: Value): Option<int> {
    match v
    case Text(text) => Atoi(text)
    case Doc(_) => None
  }

  /** What `GetTimeOutStatus` returns; `None` is an error. */
  function StatusRead(store: Store, podKey: string, now: nat, faulty: bool): Option<int> {
    if faulty then None
    else
      var v := Read(store, TimeoutKey(podKey), now);
      if v.None? then Some(NO_TIMEOUT) else ParseStatus(v.value)
  }

  /** After a timeout: the status to write before blocking, or `None` to answer an error. */
  function NextStatus(read: Option<int>): Option<int> {
    if read.None? || read.value + 1 == THRESHOLD then None else Some(read.value + 1)
  }

  function StatusWrite(c: Config, store: Store, podKey: string, status: int, now: nat, w: WriteOutcome): Store {
    Write(c, store, TimeoutKey(podKey), Text(Itoa(status)), c.statusTtl, now, w)
  }

  /** Whether `ResetTimeOutInCacheAfterGettingScanResults` goes on to write. */
  predicate ResetNeeded(store: Store, podKey: string, now: nat, faulty: bool) {
    && !faulty
    && var v := Read(store, TimeoutKey(podKey), now);
       v.Some? && ParseStatus(v.value).Some? && ParseStatus(v.value).value != NO_TIMEOUT
  }

  function ResetWrite(c: Config, store: Store, podKey: string, now: nat, w: WriteOutcome): Store {
    Write(c, store, TimeoutKey(podKey), Text(Itoa(NO_TIMEOUT)), RESET_TTL, now, w)
  }

  /** What `GetContainerVulnerabilityScanInfofromCache` finds; `None` covers a missing key, a failed
      read and a value that does not parse, after each of which the caller goes to the worker. */
  function ResultRead(store: Store, podKey: string, now: nat, faulty: bool): Option<Stored> {
    if faulty then None
    else
      var v := Read(store, ResultKey(podKey), now);
      if v.Some? && v.value.Doc? then UnmarshalScanResults(v.value.tree) else None
  }

  function ResultWrite(c: Config, store: Store, podKey: string, list: Slice<ScanInfo>, err: Err, now: nat,
      w: WriteOutcome): Store {
    Write(c, store, ResultKey(podKey), Doc(MarshalScanResults(list, err)), c.resultTtl, now, w)
  }

  /** The client: a configuration and the shared cache it writes. */
  class AzdSecInfoProviderCacheClient {
    const config: Config
    const shared: SharedCache

    constructor (config: Config, shared: SharedCache)
      ensures this.config == config && this.shared == shared
    {
      this.config := config;
      this.shared := shared;
    }

    method Set(key: string, value: Value, ttl: nat, now: nat, w: WriteOutcome) returns (err: Err)
      modifies shared
      ensures shared.store == Write(config, old(shared.store), key, value, ttl, now, w)
      ensures err.None? <==> w == Applied
      ensures err.Some? ==> Cause(err.value) == Plain("cache failure")
    {
      if w != Lost {
        shared.store := shared.store[key := Entry(value, now, ExpiryAt(config.backend, now, ttl))];
      }
      err := if w == Applied then None else Some(Plain("cache failure"));
    }

    method GetTimeOutStatus(podKey: string, now: nat, faulty: bool) returns (status: int, err: Err)
      ensures err.Some? <==> StatusRead(shared.store, podKey, now, faulty).None?
      ensures err.Some? ==> Cause(err.value).Plain?
      ensures err.None? ==> StatusRead(shared.store, podKey, now, faulty) == Some(status)
      ensures var found := Read(shared.store, TimeoutKey(podKey), now);
        && (err.None? <==> !faulty && (found.None? || (found.value.Text? && Atoi(found.value.text).Some?)))
        && (err.None? ==> status == if found.None? then 0 else Atoi(found.value.text).value)
    {
      if faulty {
        return -1, Some(Wrapped("get timeout status", Plain("cache failure")));
      }
      var text := Read(shared.store, TimeoutKey(podKey), now);
      if text.None? {
        return NO_TIMEOUT, None;
      }
      var parsed := ParseStatus(text.value);
      if parsed.None? {
        return -1, Some(Wrapped("invalid timeout status", Plain("invalid syntax")));
      }
      return parsed.value, None;
    }

    method SetTimeOutStatusAfterEncounteredTimeout(podKey: string, status: int, now: nat,
        w: WriteOutcome) returns (err: Err)
      modifies shared
      ensures shared.store == StatusWrite(config, old(shared.store), podKey, status, now, w)
      ensures err.None? <==> w == Applied
      ensures err.Some? ==> Cause(err.value) == Plain("cache failure")
    {
      err := Set(TimeoutKey(podKey), Text(Itoa(status)), config.statusTtl, now, w);
    }

    method ResetTimeOutInCacheAfterGettingScanResults(podKey: string, now: nat, faulty: bool,
        w: WriteOutcome) returns (err: Err)
      modifies shared
      ensures shared.store == if ResetNeeded(old(shared.store), podKey, now, faulty)
                       then ResetWrite(config, old(shared.store), podKey, now, w) else old(shared.store)
      ensures err.None? <==> StatusRead(old(shared.store), podKey, now, faulty).Some?
                             && (ResetNeeded(old(shared.store), podKey, now, faulty) ==> w == Applied)
    {
      if faulty {
        return Some(Wrapped("get timeout status", Plain("cache failure")));
      }
      var text := Read(shared.store, TimeoutKey(podKey), now);
      if text.None? {
        return None;
      }
      var parsed := ParseStatus(text.value);
      if parsed.None? {
        return Some(Wrapped("invalid timeout status", Plain("invalid syntax")));
      }
      if parsed.value == NO_TIMEOUT {
        return None;
      }
      err := Set(TimeoutKey(podKey), Text(Itoa(NO_TIMEOUT)), RESET_TTL, now, w);
    }

    method GetContainerVulnerabilityScanInfoFromCache(podKey: string, now: nat, faulty: bool)
      returns (list: Slice<ScanInfo>, stored: Err, err: Err)
      ensures err.Some? <==> ResultRead(shared.store, podKey, now, faulty).None?
      ensures err.None? ==> ResultRead(shared.store, podKey, now, faulty) ==
                            Some(if stored.Some? then StoredError(stored.value) else StoredList(list))
    {
      if faulty {
        return NilSlice, None, Some(Wrapped("get results", Plain("cache failure")));
      }
      var text := Read(shared.store, ResultKey(podKey), now);
      if text.None? {
        return NilSlice, None, Some(MissingKey(ResultKey(podKey)));
      }
      var parsed := if text.value.Doc? then UnmarshalScanResults(text.value.tree) else None;
      match parsed
      case None => return NilSlice, None, Some(Wrapped("unmarshal results", Plain("invalid json")));
      case Some(StoredError(e)) => return NilSlice, Some(e), None;
      case Some(StoredList(found)) => return found, None, None;
    }

    method SetContainerVulnerabilityScanInfoInCache(podKey: string, list: Slice<ScanInfo>, result: Err,
        now: nat, w: WriteOutcome)
      returns (err: Err)
      modifies shared
      ensures shared.store == ResultWrite(config, old(shared.store), podKey, list, result, now, w)
      ensures err.None? <==> w == Applied
    {
      err := Set(ResultKey(podKey), Doc(MarshalScanResults(list, result)), config.resultTtl, now, w);
    }
  }

  /** `timeoutEncounteredGetContainersVulnerabilityScanInfo`, when nothing else runs meanwhile. */
  method TimeoutEncountered(client: AzdSecInfoProviderCacheClient, pod: PodSpec, podKey: string, now: nat,
      faulty: bool, w: WriteOutcome)
    returns (list: seq<ScanInfo>, err: Err)
    modifies client.shared
    ensures (err.None?, client.shared.store) == TimeoutHandled(client.config, old(client.shared.store), podKey, now, faulty, w)
    ensures err.None? ==> list == TimeoutList(pod)
    ensures err.Some? && Cause(err.value) == TimeOutReached <==> StatusRead(old(client.shared.store), podKey, now, faulty) == Some(2)
  {
    var status;
    status, err := client.GetTimeOutStatus(podKey, now, faulty);
    if err.Some? {
      return [], Wrap(err, "previous timeout status");
    }
    status := status + 1;
    if status == THRESHOLD {
      return [], Some(Wrapped("third timeout", TimeOutReached));
    }
    err := client.SetTimeOutStatusAfterEncounteredTimeout(podKey, status, now, w);
    if err.Some? {
      return [], Wrap(err, "set new timeout");
    }
    list := BuildListOfContainerVulnerabilityScanInfoWhenTimeout(pod);
  }

  method BuildListOfContainerVulnerabilityScanInfoWhenTimeout(pod: PodSpec) returns (list: seq<ScanInfo>)
    ensures list == TimeoutList(pod)
    ensures |list| == |pod.initContainers| + |pod.containers|
    ensures forall i :: 0 <= i < |list| ==>
      var c := if i < |pod.initContainers| then pod.initContainers[i] else pod.containers[i - |pod.initContainers|];
      list[i] == ScanInfo(c.name, Image(c.image, ""), UNSCANNED, NilSlice, Some(map[UNSCANNED_REASON_KEY := TIMEOUT_REASON]))
  {
    list := [];
    var containers := pod.initContainers + pod.containers;
    for i := 0 to |containers|
      invariant list == TimeoutList(pod)[..i]
    {
      list := list + [UnscannedInfo(containers[i], TIMEOUT_REASON)];
    }
  }

  // One timeout handled without interference, and runs of them.

  /** Whether the answer blocks, and the cache afterwards. */
  function TimeoutHandled(c: Config, store: Store, podKey: string, now: nat, faulty: bool,
      w: WriteOutcome): (bool, Store) {
    var next := NextStatus(StatusRead(store, podKey, now, faulty));
    if next.None? then (false, store)
    else (w == Applied, StatusWrite(c, store, podKey, next.value, now, w))
  }

  /** The status a reader sees, when the stored one is well formed. */
  predicate StatusIs(store: Store, podKey: string, now: nat, status: int) {
    StatusRead(store, podKey, now, false) == Some(status)
  }

  /** A written status is seen exactly until its time-to-live has passed, and then there is none. */
  lemma WrittenStatusIsRead(c: Config, store: Store, podKey: string, status: int, now: nat, later: nat, w: WriteOutcome)
    requires ValidConfig(c) && w != Lost && 0 <= status <= 2 && now <= later
    ensures ExpiryAt(c.backend, now, c.statusTtl).Some?
    ensures StatusIs(StatusWrite(c, store, podKey, status, now, w), podKey, later,
                     if later < ExpiryAt(c.backend, now, c.statusTtl).value then status else NO_TIMEOUT)
  {
    AtoiItoa(status);
    ExpiryAfterNow(c, now);
  }

  /** A reset reads back as "no timeout" at every later time, whether the one-nanosecond entry has
      expired (Redis) or never will (freecache). */
  lemma ResetReadsAsZero(c: Config, store: Store, podKey: string, now: nat, later: nat, w: WriteOutcome)
    requires w != Lost && now <= later
    ensures StatusIs(ResetWrite(c, store, podKey, now, w), podKey, later, NO_TIMEOUT)
  {
  }

  /** Whatever the count was, after a reset that runs and is not lost every later read gives 0. A reset
      that writes leaves nothing in Redis after a nanosecond, and a zero for ever in freecache. */
  lemma ResetLeavesZero(c: Config, store: Store, podKey: string, now: nat, later: nat, w: WriteOutcome, status: int)
    requires w != Lost && now <= later && StatusIs(store, podKey, now, status)
    ensures var after := if ResetNeeded(store, podKey, now, false) then ResetWrite(c, store, podKey, now, w) else store;
      && StatusIs(after, podKey, later, NO_TIMEOUT)
      && (status != NO_TIMEOUT ==> (Read(after, TimeoutKey(podKey), later).Some? <==> c.backend == FreeCache || later == now))
  {
    ResetReadsAsZero(c, store, podKey, now, later, w);
  }

  /** The scenario table, one cell at a time: a timeout blocks exactly when the cache answers, fewer
      than two timeouts are on record and the new count is stored; otherwise it answers an error. */
  lemma TimeoutScenario(c: Config, store: Store, podKey: string, now: nat, faulty: bool, w: WriteOutcome, status: int)
    requires ValidConfig(c) && 0 <= status <= 2 && StatusIs(store, podKey, now, status)
    ensures var (blocked, store') := TimeoutHandled(c, store, podKey, now, faulty, w);
            && (blocked <==> !faulty && status < 2 && w == Applied)
            && (blocked ==> StatusIs(store', podKey, now, status + 1))
            && (!blocked && w != Unacknowledged ==> store' == store)
            && (forall key :: key != TimeoutKey(podKey) ==> (key in store' <==> key in store))
            && (forall key :: key != TimeoutKey(podKey) && key in store ==> store'[key] == store[key])
  {
  }

  /** A stored result is read back as its JSON decodes, exactly until its time-to-live has passed. */
  lemma WrittenResultIsRead(c: Config, store: Store, podKey: string, list: Slice<ScanInfo>, err: Err, now: nat,
      later: nat, w: WriteOutcome)
    requires ValidConfig(c) && w != Lost && now <= later
    ensures ResultRead(ResultWrite(c, store, podKey, list, err, now, w), podKey, later, false) ==
            if later < ExpiryAt(c.backend, now, c.resultTtl).value then UnmarshalScanResults(MarshalScanResults(list, err)) else None
  {
  }

  lemma ExpiryAfterNow(c: Config, now: nat)
    requires ValidConfig(c)
    ensures ExpiryAt(c.backend, now, c.statusTtl).Some? && now < ExpiryAt(c.backend, now, c.statusTtl).value
    ensures ExpiryAt(c.backend, now, c.resultTtl).Some? && now < ExpiryAt(c.backend, now, c.resultTtl).value <= now + c.resultTtl
  {
  }

  /** The answers to timeouts at the given times, one after the other, with a working cache. */
  function Answers(c: Config, store: Store, podKey: string, times: seq<nat>): seq<bool>
    decreases |times|
  {
    if times == [] then []
    else
      var (blocked, store') := TimeoutHandled(c, store, podKey, times[0], false, Applied);
      [blocked] + Answers(c, store', podKey, times[1..])
  }

  /** From `status` on record, and while the entry written last is alive, consecutive timeouts
      answer block until two are on record and error ever after: block, block, error, error, ...
      from a clean slate. */
  lemma {:induction false} ConsecutiveTimeouts(c: Config, store: Store, podKey: string, times: seq<nat>, status: nat)
    requires ValidConfig(c) && status <= 2
    requires forall i :: 0 <= i < |times| ==> (i == 0 || status == 2) ==> StatusIs(store, podKey, times[i], status)
    requires forall i, j :: 0 <= i < j < |times| && i < 2 - status ==> times[i] <= times[j] < ExpiryAt(c.backend, times[i], c.statusTtl).value
    ensures |Answers(c, store, podKey, times)| == |times|
    ensures forall i :: 0 <= i < |times| ==> (Answers(c, store, podKey, times)[i] <==> status + i < 2)
    decreases |times|
  {
    if times != [] {
      TimeoutScenario(c, store, podKey, times[0], false, Applied, status);
      var store' := TimeoutHandled(c, store, podKey, times[0], false, Applied).1;
      var rest, status' := times[1..], if status < 2 then status + 1 else 2;
      if status < 2 {
        forall i | 0 <= i < |rest| ensures StatusIs(store', podKey, rest[i], status') {
          WrittenStatusIsRead(c, store, podKey, status', times[0], times[i + 1], Applied);
        }
      }
      forall i, j | 0 <= i < j < |rest| && i < 2 - status'
        ensures rest[i] <= rest[j] < ExpiryAt(c.backend, rest[i], c.statusTtl).value
      {
        assert rest[i] == times[i + 1] && rest[j] == times[j + 1];
      }
      ConsecutiveTimeouts(c, store', podKey, rest, status');
    }
  }
}
