/** The answer protocol as a step system: admission requests, the worker each cache miss starts, the
    goroutines that store results and reset the timeout status, and the shared expiring cache.
    A run is any sequence of events; an event that is not enabled changes nothing, so every
    statement about all event sequences is a statement about all interleavings. */
module Protocol {
  import opened GoErrors
  import opened Contracts
  import opened JsonCodec
  import opened CacheStore
  import opened KeySpace
  import opened PodKeys
  import opened ProviderCache
  import opened Seqs

  /** What a worker ends with. */
  datatype Outcome = Scanned(list: seq<ScanInfo>) | Failed(err: Error)

  datatype Answer =
    | CachedList(list: Slice<ScanInfo>)
    | CachedError(err: Error)
    | FreshList(scanned: seq<ScanInfo>)
    | FreshError(err: Error)
    | Blocked(placeholders: seq<ScanInfo>)
    | TimeoutError

  /** Where the goroutine that serves a request stands; `left` counts the attempts left of a write. */
  datatype Pc = LookingUp | Racing | ReadingStatus | WritingStatus(next: int, left: nat) | Done(answer: Answer)

  datatype Worker = NotStarted | Computing | Sending(out: Outcome) | Sent(out: Outcome)

  datatype Channel = Channel(buffer: seq<Outcome>, closed: bool)

  const CHANNEL_CAPACITY := 1

  datatype Storing = StoreIdle | StorePending(out: Outcome, left: nat) | StoreDone

  datatype Resetting = ResetIdle | ResetReading | ResetWriting(left: nat) | ResetDone

  datatype Request = Request(pod: PodSpec, pc: Pc, worker: Worker, chan: Channel, storing: Storing, resetting: Resetting)

  datatype State = State(now: nat, cache: Store, requests: map<nat, Request>)

  datatype Event =
    | Arrive(id: nat, pod: PodSpec)
    | LookUp(id: nat, faulty: bool)
    | Finish(id: nat, out: Outcome)
    | Send(id: nat)
    | StoreResult(id: nat, w: WriteOutcome)
    | Receive(id: nat)
    | TimerFires(id: nat)
    | ReadStatus(id: nat, faulty: bool)
    | WriteStatus(id: nat, w: WriteOutcome)
    | ResetRead(id: nat, faulty: bool)
    | ResetStore(id: nat, w: WriteOutcome)
    | Tick(elapsed: nat)
    | Evict(key: string)
    | ForeignSet(key: string, value: Value, ttl: nat)

  const Init := State(0, map[], map[])

  function NameAndImage(info: ScanInfo): Container {
    Container(info.name, info.image.name)
  }

  /** What a worker for `pod` can end with: one entry per container, none of them a timeout
      placeholder or with an empty data map, or a wrapped error. */
  predicate WorkerOutcome(pod: PodSpec, out: Outcome) {
    match out
    case Scanned(list) =>
      && multiset(Map(NameAndImage, list)) == multiset(AllContainers(pod))
      && forall info | info in list :: !IsTimeoutPlaceholder(info) && info.additionalData != Some(map[])
    case Failed(err) => err.Wrapped?
  }

  function OutcomeList(out: Outcome): Slice<ScanInfo> {
    if out.Scanned? then Slice(out.list) else NilSlice
  }

  function OutcomeErr(out: Outcome): Err {
    if out.Failed? then Some(out.err) else None
  }

  function CachedAnswer(stored: Stored): Answer {
    match stored
    case StoredError(e) => CachedError(Wrapped("stored in cache", e))
    case StoredList(list) => CachedList(list)
  }

  function FreshAnswer(out: Outcome): Answer {
    match out
    case Scanned(list) => FreshList(list)
    case Failed(err) => FreshError(Wrapped("failed to extract", Wrapped("returned error from channel", err)))
  }

  function PodKey(r: Request): string {
    Key(r.pod)
  }

  /** A write attempt that was not acknowledged is followed by another while attempts are left; it may
      have stored the value all the same. */
  predicate TriesAgain(left: nat, w: WriteOutcome) {
    w != Applied && left > 1
  }

  // One step of one request's goroutines. `None` means the step is not enabled.

  function LookUpStep(s: State, r: Request, faulty: bool): Option<Request> {
    if r.pc != LookingUp then None
    else
      var found := ResultRead(s.cache, PodKey(r), s.now, faulty);
      Some(if found.Some? then r.(pc := Done(CachedAnswer(found.value)))
           else r.(pc := Racing, worker := Computing))
  }

  function FinishStep(c: Config, r: Request, out: Outcome): Option<Request> {
    if r.worker != Computing || !WorkerOutcome(r.pod, out) then None
    else Some(r.(worker := Sending(out), storing := StorePending(out, c.attempts)))
  }

  /** A send blocks while the buffer is full; sending on a closed channel would panic, so it is not
      a step either. */
  function SendStep(r: Request): Option<Request> {
    if !r.worker.Sending? || |r.chan.buffer| >= CHANNEL_CAPACITY || r.chan.closed then None
    else Some(r.(worker := Sent(r.worker.out), chan := r.chan.(buffer := r.chan.buffer + [r.worker.out])))
  }

  function ReceiveStep(r: Request): Option<Request> {
    if r.pc != Racing || r.chan.buffer == [] then None
    else
      var out := r.chan.buffer[0];
      var taken := r.chan.(buffer := r.chan.buffer[1..]);
      Some(if out.Scanned? then r.(pc := Done(FreshAnswer(out)), chan := taken.(closed := true), resetting := ResetReading)
           else r.(pc := Done(FreshAnswer(out)), chan := taken))
  }

  function ReadStatusStep(c: Config, s: State, r: Request, faulty: bool): Option<Request> {
    if r.pc != ReadingStatus then None
    else
      var next := NextStatus(StatusRead(s.cache, PodKey(r), s.now, faulty));
      Some(r.(pc := if next.None? then Done(TimeoutError) else WritingStatus(next.value, c.attempts)))
  }

  function WriteStatusStep(r: Request, w: WriteOutcome): Option<Request> {
    if !r.pc.WritingStatus? then None
    else if TriesAgain(r.pc.left, w) then Some(r.(pc := WritingStatus(r.pc.next, r.pc.left - 1)))
    else Some(r.(pc := Done(if w == Applied then Blocked(TimeoutList(r.pod)) else TimeoutError)))
  }

  function StoreResultStep(r: Request, w: WriteOutcome): Option<Request> {
    if !r.storing.StorePending? then None
    else Some(r.(storing := if TriesAgain(r.storing.left, w) then StorePending(r.storing.out, r.storing.left - 1) else StoreDone))
  }

  function ResetReadStep(c: Config, s: State, r: Request, faulty: bool): Option<Request> {
    if r.resetting != ResetReading then None
    else Some(r.(resetting := if ResetNeeded(s.cache, PodKey(r), s.now, faulty) then ResetWriting(c.attempts) else ResetDone))
  }

  function ResetStoreStep(r: Request, w: WriteOutcome): Option<Request> {
    if !r.resetting.ResetWriting? then None
    else Some(r.(resetting := if TriesAgain(r.resetting.left, w) then ResetWriting(r.resetting.left - 1) else ResetDone))
  }

  /** The request an event belongs to, after the event. */
  function Step(c: Config, s: State, r: Request, e: Event): Option<Request> {
    match e
    case LookUp(_, faulty) => LookUpStep(s, r, faulty)
    case Finish(_, out) => FinishStep(c, r, out)
    case Send(_) => SendStep(r)
    case StoreResult(_, w) => StoreResultStep(r, w)
    case Receive(_) => ReceiveStep(r)
    case TimerFires(_) => if r.pc == Racing then Some(r.(pc := ReadingStatus)) else None
    case ReadStatus(_, faulty) => ReadStatusStep(c, s, r, faulty)
    case WriteStatus(_, w) => WriteStatusStep(r, w)
    case ResetRead(_, faulty) => ResetReadStep(c, s, r, faulty)
    case ResetStore(_, w) => ResetStoreStep(r, w)
    case _ => None
  }

  /** The cache after an enabled event of request `r`. */
  function CacheStep(c: Config, s: State, r: Request, e: Event): Store {
    match e
    case StoreResult(_, w) =>
      if r.storing.StorePending?
      then ResultWrite(c, s.cache, PodKey(r), OutcomeList(r.storing.out), OutcomeErr(r.storing.out), s.now, w)
      else s.cache
    case WriteStatus(_, w) =>
      if r.pc.WritingStatus? then StatusWrite(c, s.cache, PodKey(r), r.pc.next, s.now, w) else s.cache
    case ResetStore(_, w) =>
      if r.resetting.ResetWriting? then ProviderCache.ResetWrite(c, s.cache, PodKey(r), s.now, w) else s.cache
    case _ => s.cache
  }

  function Apply(c: Config, s: State, e: Event): State {
    match e
    case Arrive(id, pod) =>
      if id in s.requests then s
      else s.(requests := s.requests[id := Request(pod, LookingUp, NotStarted, Channel([], false), StoreIdle, ResetIdle)])
    case Tick(elapsed) => s.(now := s.now + elapsed)
    case Evict(key) => s.(cache := s.cache - {key})
    case ForeignSet(key, value, ttl) =>
      if ForeignKey(key) then s.(cache := Put(c.backend, s.cache, key, value, ttl, s.now)) else s
    case _ =>
      if e.id !in s.requests then s
      else
        var r := s.requests[e.id];
        var r' := Step(c, s, r, e);
        if r'.None? then s
        else s.(requests := s.requests[e.id := r'.value], cache := CacheStep(c, s, r, e))
  }

  function Run(c: Config, s: State, events: seq<Event>): State
    decreases |events|
  {
    if events == [] then s else Run(c, Apply(c, s, events[0]), events[1..])
  }
}
