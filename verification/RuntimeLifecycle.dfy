/** Lifecycle, drain, ordering and shutdown guarantees of the Runtime loop over whole runs. */
module RuntimeLifecycle {
  import opened Wrappers
  import opened Messages
  import opened RuntimeSpec
  import opened RuntimeInvariants
  import opened RuntimeSafety
  import opened RuntimeMoves

  /** A route and an ACTIVE worker are the same thing, in every reachable state. */
  lemma Routing(capacity: nat, events: seq<Event>)
    requires EventsOk(events)
    ensures var s := Run(capacity, events);
            forall id, k :: (id in s.active && s.active[id] == k) <==>
                            (k in s.workers && k.scannerId == id && s.workers[k].state == Active)
  {
    RunKeeps(capacity, events);
    hide CountsOk, RequestsOk, CandidatesOk, HistoryOk, WorkersOk, QueuesOk, Run;
  }

  lemma MovesAt(s: State, t: State, k: WorkerKey, loose: bool)
    requires Moves(s, t, loose) && k in s.workers
    ensures k in t.workers && Evolves(s.workers[k], t.workers[k], loose)
  {
    hide BooksMove, Evolves;
  }

  /** The tracked requests that wait for, or already heard from, worker k. */
  function Assigned(s: State, k: WorkerKey): set<nat> {
    set id | id in s.requests && k in s.requests[id].results
  }

  /** `inFlight` is exact; a DRAINING worker was asked to stop iff nothing is in flight; and after that nothing ever is. */
  lemma DrainGate(capacity: nat, past: seq<Event>, future: seq<Event>, k: WorkerKey)
    requires EventsOk(past + future) && k in Run(capacity, past).workers
    ensures var s := Run(capacity, past); var t := Run(capacity, past + future);
            && s.workers[k].inFlight == |Assigned(s, k)|
            && (s.workers[k].state == Draining ==> (s.workers[k].shutdownSent <==> s.workers[k].inFlight == 0))
            && (s.workers[k].shutdownSent ==>
                  k in t.workers && t.workers[k].shutdownSent && t.workers[k].inFlight == 0 && Assigned(t, k) == {})
  {
    var s := Run(capacity, past);
    var t := Run(capacity, past + future);
    EventsOkPrefix(past, future);
    RunKeeps(capacity, past);
    RunKeeps(capacity, past + future);
    RunMoves(capacity, past, future);
    hide RoutesOk, CountsOk, RequestsOk, CandidatesOk, HistoryOk, WorkersOk, QueuesOk, Moves, Run, Assigned;
    MovesAt(s, t, k, t.stopReply.Some?);
    GateOf(s, k);
    GateOf(t, k);
  }

  lemma GateOf(s: State, k: WorkerKey)
    requires CountsOk(s) && WorkersOk(s) && k in s.workers
    ensures var w := s.workers[k];
            w.inFlight == |Assigned(s, k)|
            && (w.state == Draining ==> (w.shutdownSent <==> w.inFlight == 0))
            && (w.shutdownSent ==> w.inFlight == 0 && Assigned(s, k) == {})
  {
    assert Assigned(s, k) == Load(s, k);
    assert WorkerOk(s.workers[k], s.stopReply.Some?);
  }

  /** In everything ever queued to one worker SHUTDOWN occurs at most once, no SCAN follows it, SCAN IDs increase; and it only grows. */
  lemma OutboundOrder(capacity: nat, past: seq<Event>, future: seq<Event>, k: WorkerKey)
    requires EventsOk(past + future) && k in Run(capacity, past).workers
    ensures k in Run(capacity, past + future).workers
    ensures var log := Run(capacity, past + future).workers[k].Log();
            && Run(capacity, past).workers[k].Log() <= log
            && (forall i, j | 0 <= i < j < |log| && log[i].kind == TypeShutdown ::
                  log[j].kind != TypeScan && log[j].kind != TypeShutdown)
            && (forall i, j | 0 <= i < j < |log| && log[i].kind == TypeScan && log[j].kind == TypeScan ::
                  log[i].requestId < log[j].requestId)
  {
    var s := Run(capacity, past);
    var t := Run(capacity, past + future);
    RunKeeps(capacity, past + future);
    RunMoves(capacity, past, future);
    hide RoutesOk, CountsOk, RequestsOk, CandidatesOk, HistoryOk, WorkersOk, Moves, Run;
    MovesAt(s, t, k, t.stopReply.Some?);
    assert QueueOk(t.workers[k], t.capacity, t.nextRequestID);
  }

  /** FAILED and RETIRED are final; until shutdown begins states only move forward, with one candidate per scanner. */
  lemma Lifecycle(capacity: nat, past: seq<Event>, future: seq<Event>, k: WorkerKey)
    requires EventsOk(past + future) && k in Run(capacity, past).workers
    ensures var s := Run(capacity, past); var t := Run(capacity, past + future);
            && k in t.workers
            && (s.workers[k].Terminal() ==> t.workers[k].state == s.workers[k].state)
            && (t.stopReply.None? ==> Forward(s.workers[k].state, t.workers[k].state))
            && (t.stopReply.None? && t.workers[k].Candidate() ==>
                  forall j | j in t.workers && j.scannerId == k.scannerId && t.workers[j].Candidate() :: j == k)
  {
    RunKeeps(capacity, past + future);
    RunMoves(capacity, past, future);
    hide RoutesOk, CountsOk, RequestsOk, WorkersOk, QueuesOk, HistoryOk, Moves, Run;
    MovesAt(Run(capacity, past), Run(capacity, past + future), k, Run(capacity, past + future).stopReply.Some?);
  }

  // ----- the one step backwards

  /** The only step that takes a state backwards, exactly. */
  lemma RegressesExactly(s: State, e: Event, k: WorkerKey)
    requires CoreInv(s) && k in s.workers
    ensures k in Step(s, e).workers
    ensures !Forward(s.workers[k].state, Step(s, e).workers[k].state) <==> Regresses(s, e, k)
  {
    hide CoreInv, Step, Moves;
    StepMoves(s, e);
    if Slips(s, e) {
      SlipIs(s, e);
    } else {
      MovesAt(s, Step(s, e), k, false);
    }
  }

  lemma SlipHandled(s: State, e: Event)
    requires Slips(s, e)
    ensures var t := Handle(s, e);
            && t.workers.Keys == s.workers.Keys && t.workers[e.key].state == Healthy && t.stopReply == s.stopReply
            && forall j | j in s.workers && j != e.key :: t.workers[j].state == s.workers[j].state
  {
    hide FailWorker;
  }

  lemma ClosedStates(s: State)
    ensures var t := Close(s, ShutDown); t.workers.Keys == s.workers.Keys && forall k | k in s.workers :: t.workers[k].state == s.workers[k].state
  {
  }

  lemma SlipIs(s: State, e: Event)
    requires Slips(s, e)
    ensures var t := Step(s, e);
            t.workers.Keys == s.workers.Keys && t.workers[e.key].state == Healthy
            && forall j | j in s.workers && j != e.key :: t.workers[j].state == s.workers[j].state
  {
    hide Handle, AllExited;
    SlipHandled(s, e);
    ClosedStates(Tell(Handle(s, e), if s.stopReply.Some? then s.stopReply.value else 0, Ok));
    hide Close;
  }

  // ----- acknowledgements and stranded entries

  predicate IsAck(e: Event, k: WorkerKey) { e.WorkerMessage? && e.key == k && e.message.kind == TypeShutdownAck }

  ghost predicate AcksKept(s: State, t: State) {
    forall k | k in t.workers && t.workers[k].shutdownAck :: k in s.workers && s.workers[k].shutdownAck
  }

  lemma FillFinishAcks(s: State, ids: set<nat>, keys: set<WorkerKey>, cause: Cause, done: set<nat>)
    requires done <= s.requests.Keys
    ensures AcksKept(s, FillFinish(s, ids, keys, cause, done))
  {
    hide FillResults, Answered, Using;
  }

  lemma FailWorkerAcks(s: State, k: WorkerKey, reason: string)
    ensures AcksKept(s, FailWorker(s, k, reason))
  {
    FailAllAcks(s, {k}, reason);
    hide FailAll;
  }

  lemma FailAllAcks(s: State, keys: set<WorkerKey>, reason: string)
    ensures AcksKept(s, FailAll(s, keys, reason))
  {
    var marked := Mark(s, keys, reason);
    FillFinishAcks(marked, marked.requests.Keys, keys, Unavailable(reason), Ready(marked.requests, marked.requests.Keys, keys));
    FailAllIs(s, keys, reason);
    hide FailAll, FillFinish, Unroute, FailureSends;
  }

  lemma RecordAcks(s: State, k: WorkerKey, w: Worker, c: Chan, r: Reply)
    requires k in s.workers && w.shutdownAck == s.workers[k].shutdownAck
    ensures AcksKept(s, SetWorker(s, k, w)) && AcksKept(s, Tell(SetWorker(s, k, w), c, r))
  {
  }

  lemma AcksTrans(s: State, t: State, u: State)
    requires AcksKept(s, t) && AcksKept(t, u)
    ensures AcksKept(s, u)
  {
  }

  lemma TellAcks(s: State, t: State, c: Chan, r: Reply)
    requires AcksKept(s, t)
    ensures AcksKept(s, Tell(t, c, r))
  {
  }

  lemma RecordFailAcks(s: State, k: WorkerKey, w: Worker, c: Chan, r: Reply, reason: string)
    requires k in s.workers && w.shutdownAck == s.workers[k].shutdownAck
    ensures AcksKept(s, FailWorker(SetWorker(s, k, w), k, reason))
    ensures AcksKept(s, FailWorker(Tell(SetWorker(s, k, w), c, r), k, reason))
  {
    hide AcksKept, FailWorker, SetWorker, Tell;
    RecordAcks(s, k, w, c, r);
    FailWorkerAcks(SetWorker(s, k, w), k, reason);
    AcksTrans(s, SetWorker(s, k, w), FailWorker(SetWorker(s, k, w), k, reason));
    FailWorkerAcks(Tell(SetWorker(s, k, w), c, r), k, reason);
    AcksTrans(s, Tell(SetWorker(s, k, w), c, r), FailWorker(Tell(SetWorker(s, k, w), c, r), k, reason));
  }

  lemma NoAcks(s: State, c: Chan, r: Reply)
    ensures AcksKept(s, s) && AcksKept(s, Tell(s, c, r))
  {
  }

  lemma AskAcks(s: State, k: WorkerKey, w: Worker, m: Message, c: Chan)
    requires k in s.workers && w.shutdownAck == s.workers[k].shutdownAck
    ensures AcksKept(s, SetWorker(s, k, Push(w, m)))
    ensures AcksKept(s, FailWorker(Tell(s, c, Err(QUEUE_FULL)), k, QUEUE_FULL))
    ensures AcksKept(s, FailWorker(Tell(SetWorker(s, k, w), c, Err(QUEUE_FULL)), k, QUEUE_FULL))
  {
    hide AcksKept, FailWorker, SetWorker, Tell;
    RecordAcks(s, k, Push(w, m), c, Ok);
    RecordFailAcks(s, k, w, c, Err(QUEUE_FULL), QUEUE_FULL);
    NoAcks(s, c, Err(QUEUE_FULL));
    FailWorkerAcks(Tell(s, c, Err(QUEUE_FULL)), k, QUEUE_FULL);
    AcksTrans(s, Tell(s, c, Err(QUEUE_FULL)), FailWorker(Tell(s, c, Err(QUEUE_FULL)), k, QUEUE_FULL));
  }

  lemma HelloAcks(s: State, k: WorkerKey, c: Chan)
    ensures AcksKept(s, HandleHello(s, k, c)) && AcksKept(s, HandleHealth(s, k, c))
  {
    hide AcksKept, FailWorker, SetWorker, Tell;
    NoAcks(s, c, Err(NOT_STARTING));
    NoAcks(s, c, Err(ALREADY_PENDING));
    if k in s.workers {
      AskAcks(s, k, s.workers[k].(helloReply := Some(c)), Command(TypeHello), c);
      AskAcks(s, k, s.workers[k].(healthReply := Some(c)), Command(TypeHealthCheck), c);
    }
  }

  lemma ReloadAcks(s: State, scannerId: string, path: string, c: Chan)
    ensures AcksKept(s, HandleReload(s, scannerId, path, c))
  {
    hide AcksKept, FailWorker, SetWorker, Tell;
    NoAcks(s, c, Err(NO_ACTIVE_WORKER));
    NoAcks(s, c, Err(RELOAD_IN_PROGRESS));
    if scannerId in s.active && s.active[scannerId] in s.workers {
      var k := s.active[scannerId];
      var w := s.workers[k];
      AskAcks(s, k, w.(reloadReply := Some(c), pendingSignaturePath := path, reloadTimer := true), ReloadCommand(path), c);
      AskAcks(s, k, w.(pendingSignaturePath := ""), ReloadCommand(path), c);
    }
  }

  lemma MessageAcks(s: State, k: WorkerKey, m: Message)
    requires m.kind != TypeShutdownAck
    ensures AcksKept(s, HandleMessage(s, k, m))
  {
    hide AcksKept, FailWorker, SetWorker, Tell, Finish, Fill, Ready, FillFinish;
    NoAcks(s, 0, Ok);
    FailWorkerAcks(s, k, UNEXPECTED_MESSAGE);
    if k in s.workers && !s.workers[k].Terminal() {
      var w := s.workers[k];
      match m.kind
      case TypeHelloAck =>
        if w.helloReply.Some? { RecordAcks(s, k, w.(helloReply := None), w.helloReply.value, HelloOutcome(k, m)); }
      case TypeHealthResult =>
        if w.healthReply.Some? {
          RecordAcks(s, k, w.(healthReply := None), w.healthReply.value, Err(UNHEALTHY));
          RecordAcks(s, k, w.(state := Healthy, healthReply := None), w.healthReply.value, Ok);
        }
      case TypeScanResult =>
        if Accepts(s, k, m) { SettleAcks(s, {m.requestId}, {k}, Answer(m)); }
      case TypeReloadResult =>
        if w.reloadReply.Some? {
          var w' := w.(reloadReply := None, reloadTimer := false, pendingSignaturePath := "",
                       signaturePath := if m.success then w.pendingSignaturePath else w.signaturePath);
          RecordAcks(s, k, w', w.reloadReply.value,
                     ReloadReply(k, m.signatureCount, if m.success then None else Some(m.error)));
        }
      case _ =>
    }
  }

  lemma SettleAcks(s: State, ids: set<nat>, keys: set<WorkerKey>, cause: Cause)
    ensures AcksKept(s, Settle(s, ids, keys, cause))
  {
    hide AcksKept;
    FillFinishAcks(s, ids, keys, cause, Ready(s.requests, ids, keys));
  }

  lemma ExitAcks(s: State, k: WorkerKey, code: int, err: Option<string>)
    ensures AcksKept(s, HandleExit(s, k, code, err))
  {
    hide AcksKept, FailWorker, SetWorker, Tell;
    NoAcks(s, 0, Ok);
    if k in s.workers {
      var x := Exited(s.workers[k], code, err);
      RecordAcks(s, k, x.(state := Retired), 0, Ok);
      RecordFailAcks(s, k, x, 0, Ok, EXITED);
    }
  }

  lemma ScanAcks(s: State, path: string, c: Chan)
    ensures AcksKept(s, HandleScan(s, path, c))
  {
    FailAllAcks(Dispatched(s, path, c, s.active.Values), Full(Admit(s, path, c), s.active.Values), QUEUE_FULL);
    hide FailAll, Full;
  }

  lemma ShutdownAcks(s: State, c: Chan)
    ensures AcksKept(s, HandleShutdown(s, c))
  {
    var h := s.(stopReply := Some(c));
    FillFinishAcks(h, h.requests.Keys, h.workers.Keys, Unavailable(SHUTTING_DOWN), h.requests.Keys);
    hide Finish, Fill;
  }

  lemma HandleAcks(s: State, e: Event)
    requires forall k :: !IsAck(e, k)
    ensures AcksKept(s, Handle(s, e))
  {
    hide AcksKept, FailWorker, Tell, HandleMessage, HandleExit, HandleScan, HandleShutdown, HandleReload, HandleHello, HandleHealth,
         HandleActivate, HandleRegister, HandleReloadTimeout, HandleDequeue, Close;
    match e
    case Register(k, path, c) => RegisterAcks(s, k, path, c);
    case BeginHello(k, c) => HelloAcks(s, k, c);
    case BeginHealth(k, c) => HelloAcks(s, k, c);
    case Activate(k, c) => ActivateAcks(s, k, c);
    case FailCommand(k, reason, c) =>
      FailWorkerAcks(s, k, reason);
      TellAcks(s, FailWorker(s, k, reason), c, Ok);
      NoAcks(s, c, Err(NOT_REGISTERED));
      NoAcks(s, c, Err(CANNOT_FAIL));
    case WorkerMessage(k, m) =>
      assert !IsAck(e, k);
      MessageAcks(s, k, m);
    case WorkerFailure(k, reason) => FailWorkerAcks(s, k, reason);
    case WorkerExit(k, code, err) => ExitAcks(s, k, code, err);
    case ScanRequest(path, c) => ScanAcks(s, path, c);
    case ScanTimeout(id) =>
      NoAcks(s, 0, Ok);
      if id in s.requests { FillFinishAcks(s, {id}, s.requests[id].results.Keys, Timeout, {id}); }
    case ReloadRequest(scannerId, path, c) => ReloadAcks(s, scannerId, path, c);
    case ReloadTimeout(k) => QuietAcks(s, k);
    case QueryActive(scannerId, c) =>
      NoAcks(s, c, Err(NO_ACTIVE_WORKER));
      if scannerId in s.active && s.active[scannerId] in s.workers {
        NoAcks(s, c, WorkerReply(s.active[scannerId], s.workers[s.active[scannerId]].signaturePath));
      }
    case Shutdown(c) =>
      NoAcks(s, c, Err(STOP_IN_PROGRESS));
      ShutdownAcks(s, c);
    case Dequeue(k) => QuietAcks(s, k);
    case Cancel => CloseAcks(s, Cancelled);
  }

  lemma RegisterAcks(s: State, k: WorkerKey, path: string, c: Chan)
    ensures AcksKept(s, HandleRegister(s, k, path, c))
  {
  }

  lemma QuietAcks(s: State, k: WorkerKey)
    ensures AcksKept(s, HandleReloadTimeout(s, k)) && AcksKept(s, HandleDequeue(s, k))
  {
  }

  lemma CloseAcks(s: State, phase: Phase)
    ensures AcksKept(s, Close(s, phase))
  {
  }

  lemma ActivateAcks(s: State, k: WorkerKey, c: Chan)
    ensures AcksKept(s, HandleActivate(s, k, c))
  {
    hide Retreat;
    if k.scannerId in s.active && s.active[k.scannerId] in s.workers {
      RetreatAcks(s.workers[s.active[k.scannerId]], s.capacity);
    }
  }

  lemma RetreatAcks(w: Worker, capacity: nat)
    ensures Retreat(w, capacity).shutdownAck == w.shutdownAck
  {
  }

  /** Acknowledgement comes only after the request. */
  ghost predicate AcksOk(s: State) {
    forall k | k in s.workers && s.workers[k].shutdownAck :: s.workers[k].shutdownSent
  }

  /** A SHUTDOWN_ACK arrives only from a worker to which SHUTDOWN was written. */
  ghost predicate AckFollows(s: State, e: Event) {
    e.WorkerMessage? && e.message.kind == TypeShutdownAck && e.key in s.workers ==> HasShutdown(s.workers[e.key].written)
  }

  ghost predicate AcksFollow(capacity: nat, events: seq<Event>) {
    forall i | 0 <= i < |events| :: AckFollows(Run(capacity, events[..i]), events[i])
  }

  lemma WrittenMeansSent(s: State, k: WorkerKey)
    requires QueuesOk(s) && k in s.workers && HasShutdown(s.workers[k].written)
    ensures s.workers[k].shutdownSent
  {
    var w := s.workers[k];
    assert QueueOk(w, s.capacity, s.nextRequestID);
    var i :| 0 <= i < |w.written| && w.written[i].kind == TypeShutdown;
    assert w.Log()[i].kind == TypeShutdown;
  }

  /** An acknowledgement is noted for its sender only. */
  lemma AckAcks(s: State, k: WorkerKey, m: Message)
    requires m.kind == TypeShutdownAck
    ensures forall j | j in HandleMessage(s, k, m).workers && HandleMessage(s, k, m).workers[j].shutdownAck ::
              j in s.workers && (j == k || s.workers[j].shutdownAck)
  {
    FailWorkerAcks(s, k, UNEXPECTED_MESSAGE);
    hide FailWorker;
  }

  lemma CloseAfter(s: State, e: Event)
    requires s.phase == Running
    ensures AcksKept(Handle(s, e), Step(s, e))
  {
    hide Handle, AllExited;
  }

  lemma StepAcks(s: State, e: Event)
    requires CoreInv(s) && AcksOk(s) && AckFollows(s, e)
    ensures AcksOk(Step(s, e))
  {
    StepMoves(s, e);
    var t := Step(s, e);
    if s.phase == Running {
      CloseAfter(s, e);
      hide RoutesOk, CountsOk, RequestsOk, CandidatesOk, HistoryOk, WorkersOk, QueuesOk, Moves, HasShutdown, Step, HandleMessage;
      if e.WorkerMessage? && e.message.kind == TypeShutdownAck {
        AckAcks(s, e.key, e.message);
        if e.key in s.workers { WrittenMeansSent(s, e.key); }
      } else {
        HandleAcks(s, e);
      }
      hide Handle;
      forall k | k in t.workers && t.workers[k].shutdownAck ensures t.workers[k].shutdownSent {
        MovesAt(s, t, k, Slips(s, e));
      }
    }
  }
}
