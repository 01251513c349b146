/** The two cache clients behind the shared store: in-memory freecache, and Redis under the retry
    policy. What the backend answers to each attempt is an input. */
module CacheClients {
  import opened GoErrors
  import opened JsonCodec
  import opened CacheStore
  import opened KeySpace
  import opened ProviderCache
  import opened Protocol
  import opened RetryPolicy

  const NO_VALUE := Text("")

  predicate IsMissingKeyCacheError(e: Error) {
    e.MissingKey?
  }

  class FreeCacheInMemCacheClient {
    var store: Store

    constructor ()
      ensures store == map[]
    {
      store := map[];
    }

    method Get(key: string, now: nat, fault: Err) returns (value: Value, err: Err)
      ensures fault.None? ==> (err.None? <==> Read(store, key, now).Some?)
      ensures fault.None? && err.None? ==> Some(value) == Read(store, key, now)
      ensures fault.None? && err.Some? ==> IsMissingKeyCacheError(err.value)
      ensures fault.Some? ==> err == fault
      ensures err.Some? ==> value == NO_VALUE
    {
      if fault.Some? {
        return NO_VALUE, fault;
      }
      var entry := Read(store, key, now);
      if entry.None? {
        return NO_VALUE, Some(MissingKey(key));
      }
      return entry.value, None;
    }

    method Set(key: string, value: Value, expiration: int, now: nat, fault: Err) returns (err: Err)
      modifies this
      ensures expiration < 0 ==> err == Some(NegativeExpiration) && store == old(store)
      ensures expiration >= 0 ==>
        && err == fault
        && store == if fault.None? then Put(FreeCache, old(store), key, value, expiration, now) else old(store)
    {
      if expiration < 0 {
        return Some(NegativeExpiration);
      }
      var seconds := expiration / SECOND;
      if fault.Some? {
        return fault;
      }
      store := store[key := Entry(value, now, if seconds == 0 then None else Some(now + seconds * SECOND))];
      err := None;
    }
  }

  // Redis. The library below the client may send a command several times before it answers.

  /** What the server does with one SET it is sent: whether it stores the value, and what the library
      sees. */
  datatype SetReply = SetReply(stored: bool, err: Err)

  /** The library sends a command again, at most `maxResends` times, after an error that it takes to be
      passing. */
  datatype Library = Library(maxResends: nat, resends: ShouldRetry)

  const GET_RETRIES: ShouldRetry := e => !Is(e, RedisNil)
  const SET_RETRIES: ShouldRetry := e => e != RedisNil

  // GET.

  function GetReply(store: Store, key: string, now: nat, fault: Err): Attempt<Value> {
    var found := Read(store, key, now);
    if fault.Some? then Attempt(NO_VALUE, fault)
    else if found.None? then Attempt(NO_VALUE, Some(RedisNil))
    else Attempt(found.value, None)
  }

  /** The successive answers to a GET at one instant: a fault, or what the server holds. */
  function GetAction(store: Store, key: string, now: nat, faults: nat -> Err): Action<Value> {
    (k: nat) => GetReply(store, key, now, faults(k))
  }

  function GetAnswer(key: string, r: Attempt<Value>): Attempt<Value> {
    if r.err.None? then r
    else if !Is(r.err.value, RedisNil) then Attempt(NO_VALUE, Wrap(r.err, "unexpected cache error"))
    else Attempt(NO_VALUE, Some(MissingKey(key)))
  }

  function RedisGet(config: RetryPolicyConfiguration, store: Store, key: string, now: nat,
      faults: nat -> Err): Attempt<Value> {
    GetAnswer(key, Retried(GetAction(store, key, now, faults), GET_RETRIES, config.retryAttempts, NO_VALUE))
  }

  /** The attempts of one GET: attempt `k` is answered at `at(k)`, with the fault `faults(k)` if there is
      one, and after it, while the client sleeps, other writers change the store by `others(k, _)`. What
      the library sends before the reply it returns leaves nothing behind. */
  datatype GetRun = GetRun(key: string, at: nat -> nat, faults: nat -> Err, others: (nat, Store) -> Store)

  function Waited(run: GetRun, store: Store, m: nat): Store {
    if m == 0 then store else run.others(m - 1, Waited(run, store, m - 1))
  }

  function GetRunAction(run: GetRun, store: Store): Action<Value> {
    (k: nat) => GetReply(Waited(run, store, k), run.key, run.at(k), run.faults(k))
  }

  function RedisGetOver(config: RetryPolicyConfiguration, run: GetRun, store: Store): Attempt<Value> {
    GetAnswer(run.key, Retried(GetRunAction(run, store), GET_RETRIES, config.retryAttempts, NO_VALUE))
  }

  function GetPauses(config: RetryPolicyConfiguration, run: GetRun, store: Store): nat {
    Failures(GetRunAction(run, store), GET_RETRIES, Tries(config.retryAttempts))
  }

  /** The last attempt that a GET makes, when it makes one. */
  function LastGet(config: RetryPolicyConfiguration, run: GetRun, store: Store): nat {
    var calls := Calls(GetRunAction(run, store), GET_RETRIES, config.retryAttempts);
    if calls == 0 then 0 else calls - 1
  }

  // SET.

  type SetReplies = (nat, nat) -> SetReply

  function SendAction(replies: SetReplies, k: nat): Action<()> {
    (i: nat) => Attempt((), replies(k, i).err)
  }

  /** How often the library sends the SET of attempt `k`. */
  function Sends(library: Library, replies: SetReplies, k: nat): (n: nat)
    ensures 1 <= n <= 1 + library.maxResends
  {
    Calls(SendAction(replies, k), library.resends, 1 + library.maxResends)
  }

  /** The library answers what its last send was answered. */
  function AttemptErr(library: Library, replies: SetReplies, k: nat): Err {
    replies(k, Sends(library, replies, k) - 1).err
  }

  function SetAction(library: Library, replies: SetReplies): Action<()> {
    (k: nat) => Attempt((), AttemptErr(library, replies, k))
  }

  function RedisSetErr(config: RetryPolicyConfiguration, library: Library, expiration: int, replies: SetReplies): Err {
    var r := Retried(SetAction(library, replies), SET_RETRIES, config.retryAttempts, ());
    if expiration < 0 then Some(NegativeExpiration)
    else if r.err.Some? && !Is(r.err.value, RedisNil) then r.err else None
  }

  /** The sends of one SET: send `i` of attempt `k` reaches the server at `at(k, i)`, is answered
      `replies(k, i)`, and after it, while library or client sleep before the next, other writers change
      the store by `others(k, i, _)`. */
  datatype SetRun = SetRun(key: string, value: Value, expiration: nat, at: (nat, nat) -> nat, replies: SetReplies,
                           others: (nat, nat, Store) -> Store)

  function Sent(run: SetRun, store: Store, k: nat, i: nat): Store {
    if run.replies(k, i).stored then Put(Redis, store, run.key, run.value, run.expiration, run.at(k, i)) else store
  }

  /** The store after `i` sends of attempt `k`, each followed by a pause. */
  function AfterSends(run: SetRun, store: Store, k: nat, i: nat): Store {
    if i == 0 then store else run.others(k, i - 1, Sent(run, AfterSends(run, store, k, i - 1), k, i - 1))
  }

  function Attempted(library: Library, run: SetRun, store: Store, k: nat): Store {
    var last := Sends(library, run.replies, k) - 1;
    Sent(run, AfterSends(run, store, k, last), k, last)
  }

  function Paused(library: Library, run: SetRun, store: Store, k: nat): Store {
    run.others(k, Sends(library, run.replies, k) - 1, store)
  }

  /** The store after `m` attempts, each followed by a pause. */
  function AfterFailures(library: Library, run: SetRun, store: Store, m: nat): Store {
    if m == 0 then store
    else Paused(library, run, Attempted(library, run, AfterFailures(library, run, store, m - 1), m - 1), m - 1)
  }

  lemma NoFailures(library: Library, run: SetRun, store: Store)
    ensures AfterFailures(library, run, store, 0) == store
  {
  }

  lemma OneMoreFailure(library: Library, run: SetRun, store: Store, m: nat)
    ensures AfterFailures(library, run, store, m + 1) ==
            Paused(library, run, Attempted(library, run, AfterFailures(library, run, store, m), m), m)
  {
  }

  function SetFailures(config: RetryPolicyConfiguration, library: Library, replies: SetReplies): nat {
    Failures(SetAction(library, replies), SET_RETRIES, Tries(config.retryAttempts))
  }

  /** The store after the whole SET: an attempt that ends the retrying has no pause after it. */
  function AfterSet(config: RetryPolicyConfiguration, library: Library, run: SetRun, store: Store): Store {
    var m := SetFailures(config, library, run.replies);
    var store' := AfterFailures(library, run, store, m);
    if m < Tries(config.retryAttempts) then Attempted(library, run, store', m) else store'
  }

  class RedisCacheClient {
    const config: RetryPolicyConfiguration
    const library: Library
    var store: Store

    constructor (config: RetryPolicyConfiguration, library: Library, store: Store)
      ensures this.config == config && this.library == library && this.store == store
    {
      this.config, this.library := config, library;
      this.store := store;
    }

    method Get(run: GetRun) returns (value: Value, err: Err)
      modifies this
      ensures Attempt(value, err) == RedisGetOver(config, run, old(store))
      ensures store == Waited(run, old(store), GetPauses(config, run, old(store)))
    {
      var action := GetRunAction(run, store);
      var calls, slept;
      value, err, calls, slept := RetryActionString(config, Some(action), Some(GET_RETRIES), NO_VALUE);
      store := Waited(run, store, GetPauses(config, run, store));
      if err.Some? {
        if !Is(err.value, RedisNil) {
          return NO_VALUE, Wrap(err, "unexpected cache error");
        }
        return NO_VALUE, Some(MissingKey(run.key));
      }
    }

    /** The library's SET, with its resends. */
    method SendSet(run: SetRun, k: nat) returns (err: Err)
      modifies this
      ensures store == Attempted(library, run, old(store), k) && err == AttemptErr(library, run.replies, k)
    {
      store := Attempted(library, run, store, k);
      err := AttemptErr(library, run.replies, k);
    }

    /** `RetryAction` around the SET. The action changes the server each time it is called, so the loop
        of the retry policy stands here with the action in its body. */
    method RetrySet(run: SetRun) returns (err: Err)
      modifies this
      ensures err == Retried(SetAction(library, run.replies), SET_RETRIES, config.retryAttempts, ()).err
      ensures store == AfterSet(config, library, run, old(store))
    {
      hide AfterFailures, Attempted, AttemptErr, Paused, Failures, AfterTries, Put;
      ghost var action, n, before := SetAction(library, run.replies), Tries(config.retryAttempts), store;
      var calls, retryCount := 0, 1;
      err := None;
      NoFailures(library, run, before);
      while retryCount <= config.retryAttempts
        invariant calls == retryCount - 1 && calls <= n
        invariant forall k :: 0 <= k < calls ==> Retryable(action(k), SET_RETRIES)
        invariant err == if calls == 0 then None else action(calls - 1).err
        invariant store == AfterFailures(library, run, before, calls)
      {
        OneMoreFailure(library, run, before, calls);
        err := SendSet(run, calls);
        calls := calls + 1;
        if err.None? || !SET_RETRIES(err.value) {
          FailuresUnique(action, SET_RETRIES, n, calls - 1);
          return;
        }
        retryCount := retryCount + 1;
        store := Paused(library, run, store, calls - 1);
      }
      FailuresUnique(action, SET_RETRIES, n, calls);
      err := Wrap(err, AfterTries(retryCount));
    }

    method Set(key: string, value: Value, expiration: int, at: (nat, nat) -> nat, replies: SetReplies,
        others: (nat, nat, Store) -> Store)
      returns (err: Err)
      modifies this
      ensures err == RedisSetErr(config, library, expiration, replies)
      ensures store == if expiration < 0 then old(store)
                       else AfterSet(config, library, SetRun(key, value, expiration, at, replies, others), old(store))
      ensures expiration >= 0 && err.None? && config.retryAttempts >= 1 && ServerReplies(replies)
              && LeavesAlone(SetRun(key, value, expiration, at, replies, others), key) ==>
              key in store && store[key].value == value
    {
      if expiration >= 0 && config.retryAttempts >= 1 && ServerReplies(replies)
         && LeavesAlone(SetRun(key, value, expiration, at, replies, others), key) {
        SetStores(config, library, SetRun(key, value, expiration, at, replies, others), store);
      }
      if expiration < 0 {
        return Some(NegativeExpiration);
      }
      err := RetrySet(SetRun(key, value, expiration, at, replies, others));
      if err.Some? && Is(err.value, RedisNil) {
        err := None;
      }
    }
  }

  // What the clients guarantee the code above them.

  predicate IsFault(faults: nat -> Err, k: nat) {
    faults(k).Some?
  }

  /** A fault is neither of the two errors that mean a missing key. */
  ghost predicate RealFaults(faults: nat -> Err) {
    forall k: nat :: faults(k).Some? ==> Cause(faults(k).value) != RedisNil && !Cause(faults(k).value).MissingKey?
  }

  /** Redis, with at least one attempt: a GET is a read of the store that is faulty exactly when every
      attempt met a fault. A missing key is reported as such only when the server said so. */
  lemma RedisGetReads(config: RetryPolicyConfiguration, store: Store, key: string, now: nat, faults: nat -> Err)
    requires config.retryAttempts >= 1
    requires RealFaults(faults)
    ensures var r := RedisGet(config, store, key, now, faults);
            var faulty := forall k: nat :: k < config.retryAttempts ==> IsFault(faults, k);
      && (r.err.None? <==> !faulty && Read(store, key, now).Some?)
      && (r.err.None? ==> Some(r.value) == Read(store, key, now))
      && (r.err.Some? ==> (IsMissingKeyCacheError(r.err.value) <==> !faulty))
  {
    var action := GetAction(store, key, now, faults);
    RetriedMeans(action, GET_RETRIES, config.retryAttempts, NO_VALUE);
    var last := Calls(action, GET_RETRIES, config.retryAttempts) - 1;
    var r := Retried(action, GET_RETRIES, config.retryAttempts, NO_VALUE);
    forall k: nat | faults(k).Some? ensures Retryable(action(k), GET_RETRIES) {
      IsMeansCause(faults(k).value, RedisNil);
    }
    forall k: nat | k < last ensures IsFault(faults, k) {
      assert Retryable(action(k), GET_RETRIES);
    }
    if r.err.Some? {
      IsMeansCause(r.err.value, RedisNil);
    }
    if IsFault(faults, last) {
      assert Retryable(action(last), GET_RETRIES) && last == config.retryAttempts - 1;
    }
  }

  /** A reply after which the client tries again does not depend on the store. */
  lemma FaultIsTheSame(store: Store, store': Store, key: string, now: nat, now': nat, fault: Err)
    requires Retryable(GetReply(store, key, now, fault), GET_RETRIES)
    ensures GetReply(store', key, now', fault) == GetReply(store, key, now, fault)
  {
  }

  /** A GET is one read: whatever others write during its pauses, it answers as if all its attempts had
      met the store of the last one. */
  lemma GetIsOneRead(config: RetryPolicyConfiguration, run: GetRun, store: Store)
    ensures var last := LastGet(config, run, store);
      RedisGetOver(config, run, store) == RedisGet(config, Waited(run, store, last), run.key, run.at(last), run.faults)
  {
    var over, last := GetRunAction(run, store), LastGet(config, run, store);
    var at := GetAction(Waited(run, store, last), run.key, run.at(last), run.faults);
    hide Waited, GetReply;
    forall k: nat | k < Calls(over, GET_RETRIES, config.retryAttempts) ensures over(k) == at(k) {
      if k < last {
        assert Retryable(over(k), GET_RETRIES);
        FaultIsTheSame(Waited(run, store, k), Waited(run, store, last), run.key, run.at(k), run.at(last), run.faults(k));
      }
    }
    RetriedOnItsCalls(over, at, GET_RETRIES, config.retryAttempts, NO_VALUE);
  }

  /** A value that another writer puts under the key while the client waits for its second attempt is what
      that attempt reads. */
  lemma ReadsWhatWasWritten(config: RetryPolicyConfiguration, run: GetRun, store: Store, other: Entry)
    requires config.retryAttempts == 2 && RealFaults(run.faults) && run.faults(0).Some? && run.faults(1).None?
    requires forall s: Store :: run.others(0, s) == s[run.key := other]
    requires Live(other, run.at(1))
    ensures RedisGetOver(config, run, store) == Attempt(other.value, None)
  {
    var action := GetRunAction(run, store);
    IsMeansCause(run.faults(0).value, RedisNil);
    assert Waited(run, store, 1) == run.others(0, Waited(run, store, 0));
    assert Retryable(action(0), GET_RETRIES) && !Retryable(action(1), GET_RETRIES);
    FailuresUnique(action, GET_RETRIES, 2, 1);
  }

  /** Replies a server can give: it acknowledges only what it stored, and never answers nil. */
  ghost predicate ServerReplies(replies: SetReplies) {
    forall k: nat, i: nat :: (replies(k, i).err.None? ==> replies(k, i).stored)
                             && (replies(k, i).err.Some? ==> Cause(replies(k, i).err.value) != RedisNil)
  }

  function OutcomeOf(reply: SetReply): WriteOutcome {
    if reply.err.None? then Applied else if reply.stored then Unacknowledged else Lost
  }

  /** The most SETs one write sends: the attempts of the policy times the sends of the library. */
  function MaxSends(config: RetryPolicyConfiguration, library: Library): nat {
    Tries(config.retryAttempts) * (1 + library.maxResends)
  }

  /** What is left of them at send `i` of attempt `k`. */
  function SendsLeft(config: RetryPolicyConfiguration, library: Library, k: nat, i: nat): int {
    MaxSends(config, library) - k * (1 + library.maxResends) - i
  }

  lemma SendsLeftPositive(config: RetryPolicyConfiguration, library: Library, k: nat, i: nat)
    requires k < config.retryAttempts && i <= library.maxResends
    ensures SendsLeft(config, library, k, i) >= 1
    ensures SendsLeft(config, library, k, i) > 1 <==> k + 1 < config.retryAttempts || i < library.maxResends
  {
    var sends, rest := 1 + library.maxResends, config.retryAttempts - k - 1;
    assert config.retryAttempts * sends == k * sends + sends + rest * sends;
    assert rest > 0 ==> rest * sends >= sends;
  }

  /** A send as a write step of the answer protocol; one that the library leaves out is a lost one. */
  function SendStep(library: Library, replies: SetReplies, k: nat, i: nat): WriteOutcome {
    if i < Sends(library, replies, k) then OutcomeOf(replies(k, i)) else Lost
  }

  lemma SendIsAWrite(c: Config, library: Library, run: SetRun, store: Store, k: nat, i: nat)
    requires ServerReplies(run.replies) && c.backend == Redis && i < Sends(library, run.replies, k)
    ensures Sent(run, store, k, i) ==
            Write(c, store, run.key, run.value, run.expiration, run.at(k, i), SendStep(library, run.replies, k, i))
  {
    hide Sends;
    assert run.replies(k, i).err.None? ==> run.replies(k, i).stored;
  }

  /** The library sends again only after an error. */
  lemma SendsAfterErrors(library: Library, replies: SetReplies, k: nat, i: nat)
    requires i + 1 < Sends(library, replies, k)
    ensures replies(k, i).err.Some?
  {
    assert Retryable(SendAction(replies, k)(i), library.resends);
  }

  /** An attempt that fails is followed by another as long as there is one; one that succeeds is the
      last, and the SET's success is that of its last attempt. */
  lemma AttemptsGoOn(config: RetryPolicyConfiguration, library: Library, expiration: nat, replies: SetReplies, k: nat)
    requires ServerReplies(replies) && config.retryAttempts >= 1
    requires k < Calls(SetAction(library, replies), SET_RETRIES, config.retryAttempts)
    ensures var calls := Calls(SetAction(library, replies), SET_RETRIES, config.retryAttempts);
      && 1 <= calls <= config.retryAttempts
      && (k + 1 < calls <==> AttemptErr(library, replies, k).Some? && k + 1 < config.retryAttempts)
      && (RedisSetErr(config, library, expiration, replies).None? <==> AttemptErr(library, replies, calls - 1).None?)
  {
    var action := SetAction(library, replies);
    RetriedMeans(action, SET_RETRIES, config.retryAttempts, ());
    var calls, r := Calls(action, SET_RETRIES, config.retryAttempts), Retried(action, SET_RETRIES, config.retryAttempts, ());
    forall j: nat ensures Retryable(action(j), SET_RETRIES) <==> AttemptErr(library, replies, j).Some? {
      var reply := replies(j, Sends(library, replies, j) - 1);
      assert reply.err.Some? ==> Cause(reply.err.value) != RedisNil;
    }
    if r.err.Some? {
      IsMeansCause(r.err.value, RedisNil);
    }
  }

  /** Every send of a SET is one write step of the answer protocol, whose attempts count all sends that
      policy and library allow: after it the protocol tries again exactly when the library sends again,
      or its attempt has failed and there is a send or an attempt to come. The SET succeeds exactly when
      its last attempt does, which is when that attempt's last send is acknowledged. */
  lemma SendsAreProtocolSteps(c: Config, config: RetryPolicyConfiguration, library: Library, run: SetRun, store: Store,
      k: nat, i: nat)
    requires ServerReplies(run.replies) && c.backend == Redis && config.retryAttempts >= 1
    requires c.attempts == MaxSends(config, library)
    requires k < Calls(SetAction(library, run.replies), SET_RETRIES, config.retryAttempts) && i <= library.maxResends
    ensures var calls := Calls(SetAction(library, run.replies), SET_RETRIES, config.retryAttempts);
            var n, w := Sends(library, run.replies, k), SendStep(library, run.replies, k, i);
            var failed := AttemptErr(library, run.replies, k).Some?;
      && 1 <= calls <= config.retryAttempts && SendsLeft(config, library, 0, 0) == c.attempts
      && (i < n ==> Sent(run, store, k, i) == Write(c, store, run.key, run.value, run.expiration, run.at(k, i), w))
      && SendsLeft(config, library, k, i) >= 1
      && (i < n || failed ==>
            (TriesAgain(SendsLeft(config, library, k, i), w) <==>
             i + 1 < n || (failed && (i < library.maxResends || k + 1 < calls))))
      && (failed <==> SendStep(library, run.replies, k, n - 1) != Applied)
      && (RedisSetErr(config, library, run.expiration, run.replies).None? <==>
            AttemptErr(library, run.replies, calls - 1).None?)
  {
    hide RedisSetErr, Write, Sent, ServerReplies, SetAction, TriesAgain;
    var replies, n := run.replies, Sends(library, run.replies, k);
    AttemptsGoOn(config, library, run.expiration, replies, k);
    SendsLeftPositive(config, library, k, i);
    if i < n {
      SendIsAWrite(c, library, run, store, k, i);
    }
    if i + 1 < n {
      SendsAfterErrors(library, replies, k, i);
    }
    hide Calls, AttemptErr;
    GoesOn(SendsLeft(config, library, k, i), SendStep(library, replies, k, i));
    assert SendsLeft(config, library, 0, 0) == c.attempts;
    assert AttemptErr(library, replies, k).Some? <==> SendStep(library, replies, k, n - 1) != Applied by {
      OutcomeOfLast(library, replies, k);
    }
    hide Sends, SendsLeft, MaxSends;
  }

  lemma GoesOn(left: nat, w: WriteOutcome)
    ensures TriesAgain(left, w) <==> left > 1 && w != Applied
  {
  }

  lemma OutcomeOfLast(library: Library, replies: SetReplies, k: nat)
    ensures AttemptErr(library, replies, k).Some? <==> SendStep(library, replies, k, Sends(library, replies, k) - 1) != Applied
  {
  }

  /** With no attempt configured a SET stores nothing and is reported as done, which no single write
      outcome is; this is so exactly when no attempt is configured. */
  lemma SetWithoutAttempts(config: RetryPolicyConfiguration, library: Library, run: SetRun, store: Store)
    requires ServerReplies(run.replies)
    ensures var calls := Calls(SetAction(library, run.replies), SET_RETRIES, config.retryAttempts);
      && (RedisSetErr(config, library, run.expiration, run.replies).None? && (forall k: nat :: k < calls ==> !StoresIn(library, run, k))
          <==> config.retryAttempts <= 0)
      && (config.retryAttempts <= 0 ==> AfterSet(config, library, run, store) == store)
  {
    var action := SetAction(library, run.replies);
    NoCallIff(action, SET_RETRIES, config.retryAttempts, ());
    if config.retryAttempts >= 1 {
      var last := Calls(action, SET_RETRIES, config.retryAttempts) - 1;
      RetriedMeans(action, SET_RETRIES, config.retryAttempts, ());
      AttemptsGoOn(config, library, run.expiration, run.replies, last);
      var i := Sends(library, run.replies, last) - 1;
      assert run.replies(last, i).err.None? ==> run.replies(last, i).stored;
      assert run.replies(last, i).stored ==> StoresIn(library, run, last);
    }
  }

  /** Some send of attempt `k` is stored. */
  predicate StoresIn(library: Library, run: SetRun, k: nat) {
    exists i: nat :: i < Sends(library, run.replies, k) && run.replies(k, i).stored
  }

  // What a SET leaves behind.

  predicate SameKey(a: Store, b: Store, key: string) {
    (key in a <==> key in b) && (key in a ==> a[key] == b[key])
  }

  /** The other writers leave a key alone. */
  ghost predicate LeavesAlone(run: SetRun, key: string) {
    forall k: nat, i: nat, s: Store :: SameKey(s, run.others(k, i, s), key)
  }

  /** Send `i` of attempt `k` is one of the sends of the first `m` attempts and is stored. */
  predicate StoredSend(library: Library, run: SetRun, m: nat, k: nat, i: nat) {
    k < m && i < Sends(library, run.replies, k) && run.replies(k, i).stored
  }

  /** The last stored send of the first `n` of attempt `k`, or an earlier one. */
  function LastOf(run: SetRun, k: nat, n: nat, earlier: Option<(nat, nat)>): Option<(nat, nat)> {
    if n == 0 then earlier else if run.replies(k, n - 1).stored then Some((k, n - 1)) else LastOf(run, k, n - 1, earlier)
  }

  function LastStored(library: Library, run: SetRun, m: nat): Option<(nat, nat)> {
    if m == 0 then None else LastOf(run, m - 1, Sends(library, run.replies, m - 1), LastStored(library, run, m - 1))
  }

  predicate IsBefore(k: nat, i: nat, k': nat, i': nat) {
    k < k' || (k == k' && i < i')
  }

  predicate LastOfIs(run: SetRun, k: nat, n: nat, earlier: Option<(nat, nat)>, last: Option<(nat, nat)>) {
    || (last == earlier && forall i: nat :: i < n ==> !run.replies(k, i).stored)
    || (last.Some? && last.value.0 == k && last.value.1 < n && run.replies(k, last.value.1).stored
        && forall i: nat :: last.value.1 < i < n ==> !run.replies(k, i).stored)
  }

  lemma {:induction false} LastOfMeans(run: SetRun, k: nat, n: nat, earlier: Option<(nat, nat)>)
    ensures LastOfIs(run, k, n, earlier, LastOf(run, k, n, earlier))
  {
    if n > 0 && !run.replies(k, n - 1).stored {
      LastOfMeans(run, k, n - 1, earlier);
    }
  }

  ghost predicate LastStoredIs(library: Library, run: SetRun, m: nat, last: Option<(nat, nat)>) {
    match last
    case None => forall k: nat, i: nat :: !StoredSend(library, run, m, k, i)
    case Some((k, i)) =>
      && StoredSend(library, run, m, k, i)
      && forall k': nat, i': nat :: StoredSend(library, run, m, k', i') ==> (k', i') == (k, i) || IsBefore(k', i', k, i)
  }

  /** The last of the sends of the first `m` attempts that are stored. */
  ghost predicate IsLastStored(library: Library, run: SetRun, m: nat, k: nat, i: nat) {
    && StoredSend(library, run, m, k, i)
    && forall k': nat, i': nat :: StoredSend(library, run, m, k', i') ==> (k', i') == (k, i) || IsBefore(k', i', k, i)
  }

  lemma {:induction false} LastStoredMeans(library: Library, run: SetRun, m: nat)
    ensures LastStoredIs(library, run, m, LastStored(library, run, m))
  {
    hide Sends, LastOf, LastOfIs, LastStoredIs;
    if m == 0 {
      NoneStored(library, run);
    } else {
      var n, earlier := Sends(library, run.replies, m - 1), LastStored(library, run, m - 1);
      LastStoredMeans(library, run, m - 1);
      LastOfMeans(run, m - 1, n, earlier);
      OneMoreAttempt(library, run, m - 1, earlier, LastOf(run, m - 1, n, earlier));
    }
  }

  lemma NoneStored(library: Library, run: SetRun)
    ensures LastStoredIs(library, run, 0, None)
  {
    hide Sends;
  }

  lemma OneMoreAttempt(library: Library, run: SetRun, m: nat, earlier: Option<(nat, nat)>, last: Option<(nat, nat)>)
    requires LastStoredIs(library, run, m, earlier)
    requires LastOfIs(run, m, Sends(library, run.replies, m), earlier, last)
    ensures LastStoredIs(library, run, m + 1, last)
  {
    hide Sends, LastStoredIs;
    var n := Sends(library, run.replies, m);
    forall k: nat, i: nat ensures StoredSend(library, run, m + 1, k, i) <==>
      StoredSend(library, run, m, k, i) || (k == m && i < n && run.replies(k, i).stored) {
    }
    if last == earlier && forall i: nat :: i < n ==> !run.replies(m, i).stored {
      assert forall k: nat, i: nat :: StoredSend(library, run, m + 1, k, i) <==> StoredSend(library, run, m, k, i);
      SameStored(library, run, m, m + 1, last);
    } else {
      var i := last.value.1;
      assert StoredSend(library, run, m + 1, m, i);
      forall k': nat, i': nat | StoredSend(library, run, m + 1, k', i') ensures (k', i') == (m, i) || IsBefore(k', i', m, i) {
        assert k' < m || (k' == m && i' < n && run.replies(m, i').stored);
      }
      LastIs(library, run, m + 1, m, i);
    }
  }

  lemma SameStored(library: Library, run: SetRun, m: nat, m': nat, last: Option<(nat, nat)>)
    requires LastStoredIs(library, run, m, last)
    requires forall k: nat, i: nat :: StoredSend(library, run, m', k, i) <==> StoredSend(library, run, m, k, i)
    ensures LastStoredIs(library, run, m', last)
  {
    hide StoredSend;
  }

  lemma LastIs(library: Library, run: SetRun, m: nat, k: nat, i: nat)
    requires IsLastStored(library, run, m, k, i)
    ensures LastStoredIs(library, run, m, Some((k, i)))
  {
    hide StoredSend;
  }

  /** The key as the last stored send, or before any the beginning, left it. */
  predicate Holds(run: SetRun, before: Store, store: Store, last: Option<(nat, nat)>) {
    match last
    case None => SameKey(before, store, run.key)
    case Some((k, i)) =>
      run.key in store
      && store[run.key] == Entry(run.value, run.at(k, i), ExpiryAt(Redis, run.at(k, i), run.expiration))
  }

  lemma SentHolds(run: SetRun, before: Store, store: Store, k: nat, i: nat, last: Option<(nat, nat)>)
    requires Holds(run, before, store, last)
    ensures Holds(run, before, Sent(run, store, k, i), if run.replies(k, i).stored then Some((k, i)) else last)
  {
  }

  lemma PauseHolds(run: SetRun, before: Store, store: Store, k: nat, i: nat, last: Option<(nat, nat)>)
    requires Holds(run, before, store, last) && LeavesAlone(run, run.key)
    ensures Holds(run, before, run.others(k, i, store), last)
  {
    assert SameKey(store, run.others(k, i, store), run.key);
  }

  lemma {:induction false} SendsHold(run: SetRun, before: Store, store: Store, k: nat, n: nat, earlier: Option<(nat, nat)>)
    requires Holds(run, before, store, earlier) && LeavesAlone(run, run.key)
    ensures Holds(run, before, AfterSends(run, store, k, n), LastOf(run, k, n, earlier))
  {
    hide Holds, LeavesAlone, Sent;
    if n > 0 {
      SendsHold(run, before, store, k, n - 1, earlier);
      var last, store' := LastOf(run, k, n - 1, earlier), AfterSends(run, store, k, n - 1);
      SentHolds(run, before, store', k, n - 1, last);
      PauseHolds(run, before, Sent(run, store', k, n - 1), k, n - 1, LastOf(run, k, n, earlier));
    }
  }

  lemma AttemptHolds(library: Library, run: SetRun, before: Store, store: Store, k: nat, earlier: Option<(nat, nat)>)
    requires Holds(run, before, store, earlier) && LeavesAlone(run, run.key)
    ensures Holds(run, before, Attempted(library, run, store, k), LastOf(run, k, Sends(library, run.replies, k), earlier))
  {
    hide Holds, LeavesAlone, Sent, AfterSends;
    var n := Sends(library, run.replies, k) - 1;
    SendsHold(run, before, store, k, n, earlier);
    SentHolds(run, before, AfterSends(run, store, k, n), k, n, LastOf(run, k, n, earlier));
  }

  lemma NothingHolds(run: SetRun, store: Store)
    ensures Holds(run, store, store, None)
  {
  }

  lemma {:induction false} FailuresHold(library: Library, run: SetRun, store: Store, m: nat)
    requires LeavesAlone(run, run.key)
    ensures Holds(run, store, AfterFailures(library, run, store, m), LastStored(library, run, m))
  {
    hide Holds, LeavesAlone, Attempted, Sends, LastOf;
    if m == 0 {
      NoFailures(library, run, store);
      NothingHolds(run, store);
    } else {
      FailuresHold(library, run, store, m - 1);
      var store' := AfterFailures(library, run, store, m - 1);
      AttemptHolds(library, run, store, store', m - 1, LastStored(library, run, m - 1));
      PauseHolds(run, store, Attempted(library, run, store', m - 1), m - 1, Sends(library, run.replies, m - 1) - 1,
                 LastStored(library, run, m));
    }
  }

  lemma SetHolds(config: RetryPolicyConfiguration, library: Library, run: SetRun, store: Store)
    requires LeavesAlone(run, run.key)
    ensures var calls := Calls(SetAction(library, run.replies), SET_RETRIES, config.retryAttempts);
            Holds(run, store, AfterSet(config, library, run, store), LastStored(library, run, calls))
  {
    hide Holds, LeavesAlone, Attempted, AfterFailures;
    var m := SetFailures(config, library, run.replies);
    FailuresHold(library, run, store, m);
    if m < Tries(config.retryAttempts) {
      AttemptHolds(library, run, store, AfterFailures(library, run, store, m), m, LastStored(library, run, m));
    }
  }

  /** What a SET leaves under its key when no other writer touches that. It is as it was exactly as long as
      no send made was stored; otherwise it is the value, expiring as asked from the instant of the last
      stored send. A success with an attempt is of the second kind: its very last send was stored. */
  lemma SetStores(config: RetryPolicyConfiguration, library: Library, run: SetRun, store: Store)
    requires ServerReplies(run.replies) && LeavesAlone(run, run.key)
    ensures var after := AfterSet(config, library, run, store);
            var calls := Calls(SetAction(library, run.replies), SET_RETRIES, config.retryAttempts);
      && ((forall k: nat, i: nat :: !StoredSend(library, run, calls, k, i)) ==> SameKey(store, after, run.key))
      && (forall k: nat, i: nat :: StoredSend(library, run, calls, k, i) ==>
            run.key in after && after[run.key].value == run.value)
      && (forall k: nat, i: nat :: IsLastStored(library, run, calls, k, i) ==>
            run.key in after
            && after[run.key] == Entry(run.value, run.at(k, i), ExpiryAt(Redis, run.at(k, i), run.expiration)))
      && (config.retryAttempts >= 1 && RedisSetErr(config, library, run.expiration, run.replies).None? ==>
            && calls >= 1
            && IsLastStored(library, run, calls, calls - 1, Sends(library, run.replies, calls - 1) - 1))
  {
    var calls := Calls(SetAction(library, run.replies), SET_RETRIES, config.retryAttempts);
    hide AfterSet, Calls, LastStored, LastStoredIs, Sends, RedisSetErr, SetAction;
    hide StoredSend, IsLastStored, Holds, SameKey, ServerReplies, LeavesAlone;
    SetHolds(config, library, run, store);
    LastStoredMeans(library, run, calls);
    HoldsMeans(library, run, store, AfterSet(config, library, run, store), calls, LastStored(library, run, calls));
    if config.retryAttempts >= 1 && RedisSetErr(config, library, run.expiration, run.replies).None? {
      SuccessIsStored(config, library, run, calls);
    }
  }

  lemma HoldsMeans(library: Library, run: SetRun, before: Store, after: Store, m: nat, last: Option<(nat, nat)>)
    requires Holds(run, before, after, last) && LastStoredIs(library, run, m, last)
    ensures (forall k: nat, i: nat :: !StoredSend(library, run, m, k, i)) ==> SameKey(before, after, run.key)
    ensures forall k: nat, i: nat :: StoredSend(library, run, m, k, i) ==>
              run.key in after && after[run.key].value == run.value
    ensures forall k: nat, i: nat :: IsLastStored(library, run, m, k, i) ==>
              run.key in after
              && after[run.key] == Entry(run.value, run.at(k, i), ExpiryAt(Redis, run.at(k, i), run.expiration))
  {
    hide StoredSend, Sends;
  }

  lemma SuccessIsStored(config: RetryPolicyConfiguration, library: Library, run: SetRun, calls: nat)
    requires ServerReplies(run.replies) && config.retryAttempts >= 1
    requires calls == Calls(SetAction(library, run.replies), SET_RETRIES, config.retryAttempts)
    requires RedisSetErr(config, library, run.expiration, run.replies).None?
    ensures calls >= 1 && IsLastStored(library, run, calls, calls - 1, Sends(library, run.replies, calls - 1) - 1)
  {
    RetriedMeans(SetAction(library, run.replies), SET_RETRIES, config.retryAttempts, ());
    AttemptsGoOn(config, library, run.expiration, run.replies, calls - 1);
    var i := Sends(library, run.replies, calls - 1) - 1;
    assert run.replies(calls - 1, i).err.None? ==> run.replies(calls - 1, i).stored;
    hide Sends, RedisSetErr, Calls, SetAction;
  }

  /** Every other key is changed by others only. */
  lemma SetLeavesOthers(config: RetryPolicyConfiguration, library: Library, run: SetRun, store: Store, key: string)
    requires key != run.key && LeavesAlone(run, key)
    ensures SameKey(store, AfterSet(config, library, run, store), key)
  {
    var m := SetFailures(config, library, run.replies);
    FailuresLeave(library, run, store, m, key);
    if m < Tries(config.retryAttempts) {
      AttemptLeaves(library, run, AfterFailures(library, run, store, m), m, key);
    }
    hide SetFailures, Attempted, AfterFailures, LeavesAlone;
  }

  lemma {:induction false} SendsLeave(run: SetRun, store: Store, k: nat, n: nat, key: string)
    requires key != run.key && LeavesAlone(run, key)
    ensures SameKey(store, AfterSends(run, store, k, n), key)
  {
    if n > 0 {
      SendsLeave(run, store, k, n - 1, key);
      var sent := Sent(run, AfterSends(run, store, k, n - 1), k, n - 1);
      assert SameKey(sent, run.others(k, n - 1, sent), key);
    }
  }

  lemma AttemptLeaves(library: Library, run: SetRun, store: Store, k: nat, key: string)
    requires key != run.key && LeavesAlone(run, key)
    ensures SameKey(store, Attempted(library, run, store, k), key)
  {
    SendsLeave(run, store, k, Sends(library, run.replies, k) - 1, key);
    hide Sends, AfterSends, LeavesAlone;
  }

  lemma {:induction false} FailuresLeave(library: Library, run: SetRun, store: Store, m: nat, key: string)
    requires key != run.key && LeavesAlone(run, key)
    ensures SameKey(store, AfterFailures(library, run, store, m), key)
  {
    hide Sends, Attempted, Holds;
    if m > 0 {
      FailuresLeave(library, run, store, m - 1, key);
      var store' := AfterFailures(library, run, store, m - 1);
      AttemptLeaves(library, run, store', m - 1, key);
      var attempted := Attempted(library, run, store', m - 1);
      assert SameKey(attempted, run.others(m - 1, Sends(library, run.replies, m - 1) - 1, attempted), key);
      hide LeavesAlone;
    }
  }

  /** What another writer puts under the key between two attempts stays, unless the second is stored. */
  lemma WrittenInBetween(config: RetryPolicyConfiguration, library: Library, run: SetRun, store: Store, other: Entry)
    requires ServerReplies(run.replies) && config.retryAttempts == 2 && library.maxResends == 0
    requires run.replies(0, 0).err.Some?
    requires forall s: Store :: run.others(0, 0, s) == s[run.key := other] && run.others(1, 0, s) == s
    ensures var after := AfterSet(config, library, run, store);
      run.key in after && after[run.key] == if run.replies(1, 0).stored
                                            then Entry(run.value, run.at(1, 0), ExpiryAt(Redis, run.at(1, 0), run.expiration))
                                            else other
  {
    var action := SetAction(library, run.replies);
    assert Sends(library, run.replies, 0) == 1 && Sends(library, run.replies, 1) == 1;
    assert Retryable(action(0), SET_RETRIES);
    NoFailures(library, run, store);
    OneMoreFailure(library, run, store, 0);
    OneMoreFailure(library, run, store, 1);
    FailuresUnique(action, SET_RETRIES, 2, if action(1).err.Some? then 2 else 1);
  }

  /** Nor is it different between two sends of one attempt. */
  lemma WrittenBetweenSends(config: RetryPolicyConfiguration, library: Library, run: SetRun, store: Store, other: Entry)
    requires config.retryAttempts == 1 && library.maxResends == 1
    requires run.replies(0, 0).err.Some? && library.resends(run.replies(0, 0).err.value)
    requires forall s: Store :: run.others(0, 0, s) == s[run.key := other] && run.others(0, 1, s) == s
    ensures var after := AfterSet(config, library, run, store);
      run.key in after && after[run.key] == if run.replies(0, 1).stored
                                            then Entry(run.value, run.at(0, 1), ExpiryAt(Redis, run.at(0, 1), run.expiration))
                                            else other
  {
    var send, action := SendAction(run.replies, 0), SetAction(library, run.replies);
    assert Retryable(send(0), library.resends);
    FailuresUnique(send, library.resends, 2, if Retryable(send(1), library.resends) then 2 else 1);
    assert Sends(library, run.replies, 0) == 2;
    NoFailures(library, run, store);
    OneMoreFailure(library, run, store, 0);
    FailuresUnique(action, SET_RETRIES, 1, if Retryable(action(0), SET_RETRIES) then 1 else 0);
    assert AfterSends(run, store, 0, 1) == run.others(0, 0, Sent(run, AfterSends(run, store, 0, 0), 0, 0));
  }

  // What the provider's cache client reads through Redis.

  /** `GetTimeOutStatus` on the answer of a GET; `None` is an error. */
  function StatusThroughRedis(config: RetryPolicyConfiguration, store: Store, podKey: string, now: nat,
      faults: nat -> Err): Option<int> {
    var r := RedisGet(config, store, TimeoutKey(podKey), now, faults);
    if r.err.None? then ParseStatus(r.value)
    else if IsMissingKeyCacheError(r.err.value) then Some(NO_TIMEOUT)
    else None
  }

  function ResultThroughRedis(config: RetryPolicyConfiguration, store: Store, podKey: string, now: nat,
      faults: nat -> Err): Option<Stored> {
    var r := RedisGet(config, store, ResultKey(podKey), now, faults);
    if r.err.None? && r.value.Doc? then UnmarshalScanResults(r.value.tree) else None
  }

  /** Every read of the answer protocol is such a read, faulty exactly when every attempt meets a fault.
      A client without any attempt is one whose reads are all faulty: its status never parses, so every
      timeout answers an error, and its results are never found. */
  lemma ReadsAreProtocolReads(config: RetryPolicyConfiguration, store: Store, podKey: string, now: nat, faults: nat -> Err)
    requires RealFaults(faults)
    ensures var faulty := forall k: nat :: k < Tries(config.retryAttempts) ==> IsFault(faults, k);
      && (config.retryAttempts <= 0 ==> faulty)
      && StatusThroughRedis(config, store, podKey, now, faults) == StatusRead(store, podKey, now, faulty)
      && ResultThroughRedis(config, store, podKey, now, faults) == ResultRead(store, podKey, now, faulty)
    ensures config.retryAttempts <= 0 ==> NextStatus(StatusThroughRedis(config, store, podKey, now, faults)).None?
  {
    if config.retryAttempts <= 0 {
      RedisGetWithoutAttempts(config, store, TimeoutKey(podKey), now, faults);
      RedisGetWithoutAttempts(config, store, ResultKey(podKey), now, faults);
    } else {
      RedisGetReads(config, store, TimeoutKey(podKey), now, faults);
      RedisGetReads(config, store, ResultKey(podKey), now, faults);
    }
    hide RedisGet, UnmarshalScanResults, TimeoutKey, ResultKey;
  }

  /** With no attempt configured every GET is a hit of the empty string, whatever is stored. */
  lemma RedisGetWithoutAttempts(config: RetryPolicyConfiguration, store: Store, key: string, now: nat, faults: nat -> Err)
    requires config.retryAttempts <= 0
    ensures RedisGet(config, store, key, now, faults) == Attempt(NO_VALUE, None)
  {
  }

  // The cache client as the resolver of digests sees it.

  datatype CacheClient = InMemory | OverRedis(policy: RetryPolicyConfiguration) {
    function Behind(): Backend {
      if InMemory? then FreeCache else Redis
    }

    /** No call ever reaches the server. */
    predicate NeverAsks() {
      OverRedis? && policy.retryAttempts <= 0
    }

    /** A GET that is a read at one instant. */
    function Get(store: Store, key: string, now: nat, faults: nat -> Err): Attempt<Value> {
      match this
      case InMemory =>
        if faults(0).Some? then Attempt(NO_VALUE, faults(0))
        else
          var found := Read(store, key, now);
          if found.None? then Attempt(NO_VALUE, Some(MissingKey(key))) else Attempt(found.value, None)
      case OverRedis(policy) => RedisGet(policy, store, key, now, faults)
    }

    predicate Faulty(faults: nat -> Err) {
      if InMemory? then faults(0).Some? else forall k: nat :: k < Tries(policy.retryAttempts) ==> IsFault(faults, k)
    }
  }

  /** A GET hits exactly when a client that never asks says so, or the read is not faulty and finds the
      key; what it then returns is nothing, or the value found. */
  lemma HitsIff(client: CacheClient, store: Store, key: string, now: nat, faults: nat -> Err)
    requires RealFaults(faults)
    ensures var r, found := client.Get(store, key, now, faults), Read(store, key, now);
      && (r.err.None? <==> client.NeverAsks() || (!client.Faulty(faults) && found.Some?))
      && (r.err.None? ==> r.value == if client.NeverAsks() then NO_VALUE else found.value)
  {
    if client.NeverAsks() {
      RedisGetWithoutAttempts(client.policy, store, key, now, faults);
    } else if client.OverRedis? {
      RedisGetReads(client.policy, store, key, now, faults);
    }
  }
}
