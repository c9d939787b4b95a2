/**
 The Runtime event loop as a state machine (pkg/coordinator/runtime.go).

 One event takes one state to the next. Where the source walks a Go map, in an order it does not
 fix, the step below is a map or set comprehension, so it has no order to depend on; the methods of
 module RuntimeLoop walk in an arbitrary order and are proved to arrive at the state given here.
 */
module RuntimeSpec {
  import opened Wrappers
  import opened Messages
  import opened Aggregator

  // ----- state

  datatype WorkerKey = WorkerKey(scannerId: string, version: string)

  datatype WorkerState = Starting | Healthy | Active | Draining | Retired | Failed

  /** The identity of one reply channel. */
  type Chan = nat

  /** What is sent on a reply channel. */
  datatype Reply =
    | Ok
    | Err(reason: string)
    | ScanReply(id: nat, verdict: Result<Overall>, results: map<WorkerKey, Message>)
    | ReloadReply(key: WorkerKey, count: int, err: Option<string>)
    | WorkerReply(key: WorkerKey, path: string)

  datatype Send = Send(to: Chan, reply: Reply)

  /**
   `queue` is the outbound channel, `written` what the writer goroutine has taken from it; together
   they are the log of everything ever queued. `terminated` says that the child's Terminate was
   called or scheduled.
   */
  datatype Worker = Worker(
    state: WorkerState,
    signaturePath: string,
    failureReason: string,
    exitCode: int,
    exitError: string,
    inFlight: nat,
    helloReply: Option<Chan>,
    healthReply: Option<Chan>,
    reloadReply: Option<Chan>,
    reloadTimer: bool,
    pendingSignaturePath: string,
    shutdownSent: bool,
    shutdownAck: bool,
    exited: bool,
    queue: seq<Message>,
    written: seq<Message>,
    terminated: bool)
  {
    predicate Terminal() { state == Failed || state == Retired }
    predicate Candidate() { state == Starting || state == Healthy }
    function Log(): seq<Message> { written + queue }
  }

  /** An entry of `results` is pending while its message still has no type. */
  datatype Request = Request(path: string, results: map<WorkerKey, Message>, reply: Chan, timer: bool)

  datatype Phase = Running | ShutDown | Cancelled

  /** `completed` is history: the requests already answered, as they were when answered. */
  datatype State = State(
    capacity: nat,
    workers: map<WorkerKey, Worker>,
    active: map<string, WorkerKey>,
    requests: map<nat, Request>,
    nextRequestID: nat,
    stopReply: Option<Chan>,
    sends: set<Send>,
    completed: map<nat, Request>,
    phase: Phase)

  datatype Event =
    | Register(key: WorkerKey, path: string, reply: Chan)
    | BeginHello(key: WorkerKey, reply: Chan)
    | BeginHealth(key: WorkerKey, reply: Chan)
    | Activate(key: WorkerKey, reply: Chan)
    | FailCommand(key: WorkerKey, reason: string, reply: Chan)
    | WorkerMessage(key: WorkerKey, message: Message)
    | WorkerFailure(key: WorkerKey, reason: string)
    | WorkerExit(key: WorkerKey, code: int, err: Option<string>)
    | ScanRequest(path: string, reply: Chan)
    | ScanTimeout(id: nat)
    | ReloadRequest(scannerId: string, path: string, reply: Chan)
    | ReloadTimeout(key: WorkerKey)
    | QueryActive(scannerId: string, reply: Chan)
    | Shutdown(reply: Chan)
    | Dequeue(key: WorkerKey)
    | Cancel

  const ALREADY_REGISTERED := "worker is already registered"
  const HAS_CANDIDATE := "scanner already has a candidate"
  const NOT_STARTING := "worker is not starting"
  const ALREADY_PENDING := "check is already pending"
  const QUEUE_FULL := "outbound queue is full"
  const NOT_HEALTHY := "worker is not healthy"
  const NOT_REGISTERED := "worker is not registered"
  const CANNOT_FAIL := "worker cannot fail from its state"
  const UNEXPECTED_MESSAGE := "unexpected worker message"
  const IDENTITY_MISMATCH := "identity mismatch"
  const UNHEALTHY := "worker reported unhealthy"
  const SHUTTING_DOWN := "core is shutting down"
  const NO_ACTIVE := "no active workers"
  const SCAN_TIMED_OUT := "scan timed out"
  const NO_ACTIVE_WORKER := "scanner has no active worker"
  const RELOAD_IN_PROGRESS := "scanner already has a reload in progress"
  const RELOAD_TIMED_OUT := "signature reload timed out"
  const EXITED := "worker exited unexpectedly"
  const STOP_IN_PROGRESS := "shutdown is already in progress"

  function Init(capacity: nat): State {
    State(capacity, map[], map[], map[], 0, None, {}, map[], Running)
  }

  // ----- one worker

  function NewWorker(path: string): Worker {
    Worker(Starting, path, "", 0, "", 0, None, None, None, false, "", false, false, false, [], [], false)
  }

  predicate HasRoom(w: Worker, capacity: nat) { |w.queue| < capacity }

  function Push(w: Worker, m: Message): Worker { w.(queue := w.queue + [m]) }

  function RequestShutdown(w: Worker, capacity: nat): Worker {
    if w.shutdownSent then w
    else if HasRoom(w, capacity) then Push(w.(shutdownSent := true), Command(TypeShutdown))
    else w.(shutdownSent := true, terminated := true)
  }

  /** `n` requests that counted this worker are completed. */
  function Release(w: Worker, n: nat, capacity: nat): Worker {
    if n == 0 || w.inFlight == 0 then w
    else
      var left := if w.inFlight > n then w.inFlight - n else 0;
      var w' := w.(inFlight := left);
      if w'.state == Draining && left == 0 then RequestShutdown(w', capacity) else w'
  }

  function Held(c: Option<Chan>): set<Chan> { if c.Some? then {c.value} else {} }

  /** The reply channels a worker record holds. */
  function HeldBy(w: Worker): set<Chan> { Held(w.helloReply) + Held(w.healthReply) + Held(w.reloadReply) }

  function MarkFailed(w: Worker, reason: string): Worker {
    w.(state := Failed, failureReason := reason, terminated := true,
       helloReply := None, healthReply := None, reloadReply := None)
  }

  // ----- request results

  predicate Pending(m: Message) { m.kind == NoType }

  /** Why an entry gets its final message. */
  datatype Cause = Answer(message: Message) | Timeout | Unavailable(reason: string)

  function Entry(cause: Cause, id: nat): Message {
    match cause
    case Answer(m) => m
    case Timeout => Substitute(id, VerdictTimeout, SCAN_TIMED_OUT)
    case Unavailable(reason) => Substitute(id, VerdictUnavailable, reason)
  }

  function FillResults(results: map<WorkerKey, Message>, keys: set<WorkerKey>, m: Message): map<WorkerKey, Message> {
    map k | k in results :: if k in keys && Pending(results[k]) then m else results[k]
  }

  predicate AllAnswered(results: map<WorkerKey, Message>) {
    forall k | k in results :: !Pending(results[k])
  }

  predicate Touches(results: map<WorkerKey, Message>, keys: set<WorkerKey>) {
    exists k :: k in results && k in keys && Pending(results[k])
  }

  function Verdicts(results: map<WorkerKey, Message>): set<Verdict> {
    set k | k in results :: results[k].verdict
  }

  function Answered(id: nat, r: Request): Reply {
    ScanReply(id, Policy(Verdicts(r.results)), r.results)
  }

  // ----- whole-state primitives

  function SetWorker(s: State, k: WorkerKey, w: Worker): State { s.(workers := s.workers[k := w]) }

  function Tell(s: State, c: Chan, r: Reply): State { s.(sends := s.sends + {Send(c, r)}) }

  /** The requests of `ids` in whose results worker `k` has an entry. */
  function Using(requests: map<nat, Request>, ids: set<nat>, k: WorkerKey): set<nat> {
    set id | id in ids && id in requests && k in requests[id].results
  }

  /** In each request of `ids`, the pending entries of `keys` get their final message. */
  function Fill(s: State, ids: set<nat>, keys: set<WorkerKey>, cause: Cause): State {
    s.(requests := map id | id in s.requests ::
         if id in ids then s.requests[id].(results := FillResults(s.requests[id].results, keys, Entry(cause, id)))
         else s.requests[id])
  }

  /** Requests of `ids` that lose their last pending entry when those of `keys` are filled. */
  function Ready(requests: map<nat, Request>, ids: set<nat>, keys: set<WorkerKey>): set<nat> {
    set id | id in ids && id in requests && Touches(requests[id].results, keys) &&
      AllAnswered(FillResults(requests[id].results, keys, Command(TypeScanResult)))
  }

  function RepliesTo(requests: map<nat, Request>, ids: set<nat>): set<Send> {
    set id | id in ids && id in requests :: Send(requests[id].reply, Answered(id, requests[id]))
  }

  function Closed(requests: map<nat, Request>, ids: set<nat>): map<nat, Request> {
    map id | id in ids && id in requests :: requests[id].(timer := false)
  }

  function Without(requests: map<nat, Request>, ids: set<nat>): map<nat, Request> {
    map id | id in requests && id !in ids :: requests[id]
  }

  /** Every request of `done` is answered and forgotten, and its workers are released. */
  function Finish(s: State, done: set<nat>): State {
    s.(workers := map k | k in s.workers :: Release(s.workers[k], |Using(s.requests, done, k)|, s.capacity),
       requests := Without(s.requests, done),
       sends := s.sends + RepliesTo(s.requests, done),
       completed := s.completed + Closed(s.requests, done))
  }

  /** Fill the entries, then complete what became ready. */
  function Settle(s: State, ids: set<nat>, keys: set<WorkerKey>, cause: Cause): State {
    Finish(Fill(s, ids, keys, cause), Ready(s.requests, ids, keys))
  }

  function Unroute(active: map<string, WorkerKey>, keys: set<WorkerKey>): map<string, WorkerKey> {
    map id | id in active && !(active[id] in keys && active[id].scannerId == id) :: active[id]
  }

  function FailureSends(workers: map<WorkerKey, Worker>, keys: set<WorkerKey>, reason: string): set<Send> {
    set k, c | k in keys && k in workers && c in HeldBy(workers[k]) :: Send(c, Err(reason))
  }

  /** The workers of `keys` become FAILED, lose their routes and have their reply slots answered. */
  function Mark(s: State, keys: set<WorkerKey>, reason: string): State {
    s.(workers := map k | k in s.workers :: if k in keys then MarkFailed(s.workers[k], reason) else s.workers[k],
       active := Unroute(s.active, keys),
       sends := s.sends + FailureSends(s.workers, keys, reason))
  }

  function FailAll(s: State, keys: set<WorkerKey>, reason: string): State {
    var marked := Mark(s, keys, reason);
    Settle(marked, marked.requests.Keys, keys, Unavailable(reason))
  }

  /** handleWorkerFailure */
  function FailWorker(s: State, k: WorkerKey, reason: string): State {
    if k !in s.workers || s.workers[k].Terminal() then s else FailAll(s, {k}, reason)
  }

  // ----- event handlers

  predicate HasCandidate(s: State, scannerId: string) {
    exists k :: k in s.workers && k.scannerId == scannerId && s.workers[k].Candidate()
  }

  function HandleRegister(s: State, k: WorkerKey, path: string, c: Chan): State {
    if k in s.workers then Tell(s, c, Err(ALREADY_REGISTERED))
    else if HasCandidate(s, k.scannerId) then Tell(s, c, Err(HAS_CANDIDATE))
    else Tell(SetWorker(s, k, NewWorker(path)), c, Ok)
  }

  function HandleHello(s: State, k: WorkerKey, c: Chan): State {
    if k !in s.workers || s.workers[k].state != Starting then Tell(s, c, Err(NOT_STARTING))
    else
      var w := s.workers[k];
      if w.helloReply.Some? then Tell(s, c, Err(ALREADY_PENDING))
      else if HasRoom(w, s.capacity) then SetWorker(s, k, Push(w.(helloReply := Some(c)), Command(TypeHello)))
      else FailWorker(Tell(s, c, Err(QUEUE_FULL)), k, QUEUE_FULL)
  }

  function HandleHealth(s: State, k: WorkerKey, c: Chan): State {
    if k !in s.workers || s.workers[k].state != Starting then Tell(s, c, Err(NOT_STARTING))
    else
      var w := s.workers[k];
      if w.healthReply.Some? then Tell(s, c, Err(ALREADY_PENDING))
      else if HasRoom(w, s.capacity) then SetWorker(s, k, Push(w.(healthReply := Some(c)), Command(TypeHealthCheck)))
      else FailWorker(Tell(s, c, Err(QUEUE_FULL)), k, QUEUE_FULL)
  }

  /** What activation does to the worker it replaces. */
  function Retreat(w: Worker, capacity: nat): Worker {
    var w' := w.(state := Draining);
    if w'.inFlight == 0 then RequestShutdown(w', capacity) else w'
  }

  function Displace(s: State, scannerId: string): State {
    if scannerId in s.active && s.active[scannerId] in s.workers then
      var p := s.active[scannerId];
      SetWorker(s, p, Retreat(s.workers[p], s.capacity))
    else s
  }

  function Promote(s: State, k: WorkerKey): State
    requires k in s.workers
  {
    SetWorker(s, k, s.workers[k].(state := Active)).(active := s.active[k.scannerId := k])
  }

  function HandleActivate(s: State, k: WorkerKey, c: Chan): State {
    if k !in s.workers || s.workers[k].state != Healthy then Tell(s, c, Err(NOT_HEALTHY))
    else Tell(Promote(Displace(s, k.scannerId), k), c, Ok)
  }

  function HandleFail(s: State, k: WorkerKey, reason: string, c: Chan): State {
    if k !in s.workers then Tell(s, c, Err(NOT_REGISTERED))
    else if !s.workers[k].Candidate() then Tell(s, c, Err(CANNOT_FAIL))
    else Tell(FailWorker(s, k, reason), c, Ok)
  }

  function HelloOutcome(k: WorkerKey, m: Message): Reply {
    if m.scannerId != k.scannerId || m.workerVersion != k.version then Err(IDENTITY_MISMATCH) else Ok
  }

  function HandleHelloAck(s: State, k: WorkerKey, m: Message): State
    requires k in s.workers
  {
    var w := s.workers[k];
    if w.helloReply.None? then FailWorker(s, k, UNEXPECTED_MESSAGE)
    else Tell(SetWorker(s, k, w.(helloReply := None)), w.helloReply.value, HelloOutcome(k, m))
  }

  function HandleHealthResult(s: State, k: WorkerKey, m: Message): State
    requires k in s.workers
  {
    var w := s.workers[k];
    if w.healthReply.None? then FailWorker(s, k, UNEXPECTED_MESSAGE)
    else if m.status != "ok" then Tell(SetWorker(s, k, w.(healthReply := None)), w.healthReply.value, Err(UNHEALTHY))
    else Tell(SetWorker(s, k, w.(state := Healthy, healthReply := None)), w.healthReply.value, Ok)
  }

  /** Does `m` fill a pending entry of worker `k`? */
  predicate Accepts(s: State, k: WorkerKey, m: Message) {
    m.requestId in s.requests && k in s.requests[m.requestId].results && Pending(s.requests[m.requestId].results[k])
  }

  function HandleScanResult(s: State, k: WorkerKey, m: Message): State {
    if Accepts(s, k, m) then Settle(s, {m.requestId}, {k}, Answer(m)) else s
  }

  function HandleReloadResult(s: State, k: WorkerKey, m: Message): State
    requires k in s.workers
  {
    var w := s.workers[k];
    if w.reloadReply.None? then s
    else
      var w' := w.(reloadReply := None, reloadTimer := false, pendingSignaturePath := "",
                   signaturePath := if m.success then w.pendingSignaturePath else w.signaturePath);
      Tell(SetWorker(s, k, w'), w.reloadReply.value,
           ReloadReply(k, m.signatureCount, if m.success then None else Some(m.error)))
  }

  function HandleAck(s: State, k: WorkerKey): State
    requires k in s.workers
  {
    if s.workers[k].state != Draining then FailWorker(s, k, UNEXPECTED_MESSAGE)
    else SetWorker(s, k, s.workers[k].(shutdownAck := true, terminated := true))
  }

  function HandleMessage(s: State, k: WorkerKey, m: Message): State {
    if k !in s.workers || s.workers[k].Terminal() then s
    else
      match m.kind
      case TypeHelloAck => HandleHelloAck(s, k, m)
      case TypeHealthResult => HandleHealthResult(s, k, m)
      case TypeScanResult => HandleScanResult(s, k, m)
      case TypeReloadResult => HandleReloadResult(s, k, m)
      case TypeShutdownAck => HandleAck(s, k)
      case _ => FailWorker(s, k, UNEXPECTED_MESSAGE)
  }

  function Exited(w: Worker, code: int, err: Option<string>): Worker {
    w.(exitCode := code, exited := true, exitError := if err.Some? then err.value else w.exitError)
  }

  function HandleExit(s: State, k: WorkerKey, code: int, err: Option<string>): State {
    if k !in s.workers then s
    else
      var w := Exited(s.workers[k], code, err);
      if w.state == Draining && w.shutdownAck then SetWorker(s, k, w.(state := Retired))
      else FailWorker(SetWorker(s, k, w), k, EXITED)
  }

  /** A new request with one pending entry for every routed worker. */
  function Admit(s: State, path: string, c: Chan): State {
    var id := s.nextRequestID + 1;
    var routed := s.active.Values;
    s.(nextRequestID := id,
       requests := s.requests[id := Request(path, map k | k in routed :: BLANK, c, true)],
       workers := map k | k in s.workers ::
         if k in routed then s.workers[k].(inFlight := s.workers[k].inFlight + 1) else s.workers[k])
  }

  function Full(s: State, keys: set<WorkerKey>): set<WorkerKey> {
    set k | k in keys && k in s.workers && !HasRoom(s.workers[k], s.capacity)
  }

  function PushAll(s: State, keys: set<WorkerKey>, m: Message): State {
    s.(workers := map k | k in s.workers :: if k in keys then Push(s.workers[k], m) else s.workers[k])
  }

  /** SCAN goes to every worker of `keys` that has room; the others fail. */
  function Dispatch(s: State, keys: set<WorkerKey>, m: Message): State {
    FailAll(PushAll(s, keys - Full(s, keys), m), Full(s, keys), QUEUE_FULL)
  }

  function HandleScan(s: State, path: string, c: Chan): State {
    if s.stopReply.Some? then Tell(s, c, Err(SHUTTING_DOWN))
    else if s.active == map[] then Tell(s, c, Err(NO_ACTIVE))
    else Dispatch(Admit(s, path, c), s.active.Values, ScanCommand(s.nextRequestID + 1, path))
  }

  function HandleScanTimeout(s: State, id: nat): State {
    if id !in s.requests then s
    else Finish(Fill(s, {id}, s.requests[id].results.Keys, Timeout), {id})
  }

  function HandleReload(s: State, scannerId: string, path: string, c: Chan): State {
    if scannerId !in s.active || s.active[scannerId] !in s.workers then Tell(s, c, Err(NO_ACTIVE_WORKER))
    else
      var k := s.active[scannerId];
      var w := s.workers[k];
      if w.reloadReply.Some? then Tell(s, c, Err(RELOAD_IN_PROGRESS))
      else if HasRoom(w, s.capacity) then
        SetWorker(s, k, Push(w.(reloadReply := Some(c), pendingSignaturePath := path, reloadTimer := true),
                             ReloadCommand(path)))
      else FailWorker(Tell(SetWorker(s, k, w.(pendingSignaturePath := "")), c, Err(QUEUE_FULL)), k, QUEUE_FULL)
  }

  function HandleReloadTimeout(s: State, k: WorkerKey): State {
    if k !in s.workers || s.workers[k].reloadReply.None? then s
    else
      var w := s.workers[k];
      Tell(SetWorker(s, k, w.(reloadReply := None, pendingSignaturePath := "")), w.reloadReply.value,
           Err(RELOAD_TIMED_OUT))
  }

  function HandleQuery(s: State, scannerId: string, c: Chan): State {
    if scannerId !in s.active || s.active[scannerId] !in s.workers then Tell(s, c, Err(NO_ACTIVE_WORKER))
    else Tell(s, c, WorkerReply(s.active[scannerId], s.workers[s.active[scannerId]].signaturePath))
  }

  /** Everything pending becomes UNAVAILABLE and every request is answered. */
  function AbandonAll(s: State): State {
    Finish(Fill(s, s.requests.Keys, s.workers.Keys, Unavailable(SHUTTING_DOWN)), s.requests.Keys)
  }

  function DrainAll(s: State): State {
    s.(active := map[],
       workers := map k | k in s.workers ::
         if s.workers[k].Terminal() then s.workers[k]
         else RequestShutdown(s.workers[k].(state := Draining), s.capacity))
  }

  function HandleShutdown(s: State, c: Chan): State {
    DrainAll(AbandonAll(s.(stopReply := Some(c))))
  }

  function HandleDequeue(s: State, k: WorkerKey): State {
    if k !in s.workers || s.workers[k].queue == [] then s
    else
      var w := s.workers[k];
      SetWorker(s, k, w.(queue := w.queue[1..], written := w.written + [w.queue[0]]))
  }

  function Handle(s: State, e: Event): State {
    match e
    case Register(k, path, c) => HandleRegister(s, k, path, c)
    case BeginHello(k, c) => HandleHello(s, k, c)
    case BeginHealth(k, c) => HandleHealth(s, k, c)
    case Activate(k, c) => HandleActivate(s, k, c)
    case FailCommand(k, reason, c) => HandleFail(s, k, reason, c)
    case WorkerMessage(k, m) => HandleMessage(s, k, m)
    case WorkerFailure(k, reason) => FailWorker(s, k, reason)
    case WorkerExit(k, code, err) => HandleExit(s, k, code, err)
    case ScanRequest(path, c) => HandleScan(s, path, c)
    case ScanTimeout(id) => HandleScanTimeout(s, id)
    case ReloadRequest(scannerId, path, c) => HandleReload(s, scannerId, path, c)
    case ReloadTimeout(k) => HandleReloadTimeout(s, k)
    case QueryActive(scannerId, c) => HandleQuery(s, scannerId, c)
    case Shutdown(c) => if s.stopReply.Some? then Tell(s, c, Err(STOP_IN_PROGRESS)) else HandleShutdown(s, c)
    case Dequeue(k) => HandleDequeue(s, k)
    case Cancel => Close(s, Cancelled)
  }

  // ----- leaving the loop

  predicate AllExited(s: State) { forall k | k in s.workers :: s.workers[k].exited }

  /** The deferred clean-up of run. */
  function Close(s: State, phase: Phase): State {
    s.(phase := phase,
       workers := map k | k in s.workers ::
         if s.workers[k].state == Retired then s.workers[k] else s.workers[k].(terminated := true))
  }

  /** Does this event return to the select without the stop check at the end of the loop body? */
  predicate SkipsStopCheck(s: State, e: Event) {
    e.Dequeue? || e.Cancel? || (e.Shutdown? && s.stopReply.Some?)
  }

  function Step(s: State, e: Event): State {
    if s.phase != Running then s
    else
      var s' := Handle(s, e);
      if !SkipsStopCheck(s, e) && s'.stopReply.Some? && AllExited(s') then
        Close(Tell(s', s'.stopReply.value, Ok), ShutDown)
      else s'
  }

  function Run(capacity: nat, events: seq<Event>): State {
    if events == [] then Init(capacity)
    else Step(Run(capacity, events[..|events| - 1]), events[|events| - 1])
  }
}
