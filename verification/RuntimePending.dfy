/** Who the pending entries wait for: no request is left waiting for a worker that cannot answer. */
module RuntimePending {
  import opened Wrappers
  import opened Messages
  import opened RuntimeSpec
  import opened RuntimeInvariants
  import opened RuntimeSafety
  import opened RuntimeMoves
  import opened RuntimeLifecycle

  /** No entry of a FAILED worker is pending. */
  ghost predicate Swept(s: State) {
    forall k, id | k in s.workers && s.workers[k].state == Failed :: !Waits(s.requests, id, k)
  }

  lemma RecordSwept(s: State, k: WorkerKey, w: Worker, c: Chan, r: Reply)
    requires Swept(s) && (w.state == Failed ==> k in s.workers && s.workers[k].state == Failed)
    ensures Swept(SetWorker(s, k, w)) && Swept(Tell(SetWorker(s, k, w), c, r))
  {
    hide Waits;
  }

  lemma TellSwept(s: State, c: Chan, r: Reply)
    requires Swept(s)
    ensures Swept(Tell(s, c, r))
  {
    hide Waits;
  }

  /** After a fill an entry is pending only if it was before, outside the requests and workers filled. */
  lemma FillWaits(s: State, ids: set<nat>, keys: set<WorkerKey>, cause: Cause, done: set<nat>, id: nat, k: WorkerKey)
    requires done <= s.requests.Keys && Waits(FillFinish(s, ids, keys, cause, done).requests, id, k)
    requires forall i | i in ids && i in s.requests :: !Pending(Entry(cause, i))
    ensures Waits(s.requests, id, k) && id !in done && !(id in ids && k in keys)
  {
    hide Entry;
  }

  lemma FillSwept(s: State, ids: set<nat>, keys: set<WorkerKey>, cause: Cause, done: set<nat>)
    requires Swept(s) && done <= s.requests.Keys
    requires forall i | i in ids && i in s.requests :: !Pending(Entry(cause, i))
    ensures Swept(FillFinish(s, ids, keys, cause, done))
  {
    var t := FillFinish(s, ids, keys, cause, done);
    FillStates(s, ids, keys, cause, done);
    forall k, id | k in t.workers && t.workers[k].state == Failed ensures !Waits(t.requests, id, k) {
      hide Waits, FillFinish;
      if Waits(t.requests, id, k) {
        FillWaits(s, ids, keys, cause, done, id, k);
      }
    }
  }

  lemma FillStates(s: State, ids: set<nat>, keys: set<WorkerKey>, cause: Cause, done: set<nat>)
    requires done <= s.requests.Keys
    ensures var t := FillFinish(s, ids, keys, cause, done);
            t.workers.Keys == s.workers.Keys && forall k | k in s.workers :: t.workers[k].state == s.workers[k].state
  {
    hide Using, FillResults, Answered;
  }

  lemma FailAllSwept(s: State, keys: set<WorkerKey>, reason: string)
    requires Swept(s)
    ensures Swept(FailAll(s, keys, reason))
  {
    var marked := Mark(s, keys, reason);
    var done := Ready(marked.requests, marked.requests.Keys, keys);
    var t := FillFinish(marked, marked.requests.Keys, keys, Unavailable(reason), done);
    FailAllIs(s, keys, reason);
    FillStates(marked, marked.requests.Keys, keys, Unavailable(reason), done);
    hide FillFinish, Ready, FailAll;
    forall k, id | k in t.workers && t.workers[k].state == Failed ensures !Waits(t.requests, id, k) {
      if Waits(t.requests, id, k) {
        FillWaits(marked, marked.requests.Keys, keys, Unavailable(reason), done, id, k);
      }
    }
  }

  lemma FailWorkerSwept(s: State, k: WorkerKey, reason: string)
    requires Swept(s)
    ensures Swept(FailWorker(s, k, reason))
  {
    hide Swept, FailAll;
    FailAllSwept(s, {k}, reason);
  }

  lemma AskSwept(s: State, k: WorkerKey, w: Worker, m: Message, c: Chan)
    requires Swept(s) && k in s.workers && w.state == s.workers[k].state
    ensures Swept(SetWorker(s, k, Push(w, m)))
    ensures Swept(FailWorker(Tell(s, c, Err(QUEUE_FULL)), k, QUEUE_FULL))
    ensures Swept(FailWorker(Tell(SetWorker(s, k, w), c, Err(QUEUE_FULL)), k, QUEUE_FULL))
  {
    hide Swept, FailWorker, SetWorker, Tell;
    RecordSwept(s, k, Push(w, m), c, Ok);
    RecordSwept(s, k, w, c, Err(QUEUE_FULL));
    FailWorkerSwept(Tell(SetWorker(s, k, w), c, Err(QUEUE_FULL)), k, QUEUE_FULL);
    TellSwept(s, c, Err(QUEUE_FULL));
    FailWorkerSwept(Tell(s, c, Err(QUEUE_FULL)), k, QUEUE_FULL);
  }

  lemma CheckSwept(s: State, k: WorkerKey, c: Chan)
    requires Swept(s)
    ensures Swept(HandleHello(s, k, c)) && Swept(HandleHealth(s, k, c))
  {
    hide Swept, FailWorker, SetWorker, Tell;
    TellSwept(s, c, Err(NOT_STARTING));
    TellSwept(s, c, Err(ALREADY_PENDING));
    if k in s.workers {
      AskSwept(s, k, s.workers[k].(helloReply := Some(c)), Command(TypeHello), c);
      AskSwept(s, k, s.workers[k].(healthReply := Some(c)), Command(TypeHealthCheck), c);
    }
  }

  lemma RegisterSwept(s: State, k: WorkerKey, path: string, c: Chan)
    requires Swept(s)
    ensures Swept(HandleRegister(s, k, path, c))
  {
    hide Swept, SetWorker, Tell;
    TellSwept(s, c, Err(ALREADY_REGISTERED));
    TellSwept(s, c, Err(HAS_CANDIDATE));
    RecordSwept(s, k, NewWorker(path), c, Ok);
  }

  lemma ActivateSwept(s: State, k: WorkerKey, c: Chan)
    requires Swept(s)
    ensures Swept(HandleActivate(s, k, c))
  {
    hide Swept, Tell, Retreat;
    TellSwept(s, c, Err(NOT_HEALTHY));
    if k in s.workers && s.workers[k].state == Healthy {
      var d := Displace(s, k.scannerId);
      if k.scannerId in s.active && s.active[k.scannerId] in s.workers {
        var p := s.active[k.scannerId];
        RetreatShape(s.workers[p], s.capacity);
        RecordSwept(s, p, Retreat(s.workers[p], s.capacity), c, Ok);
      }
      RecordSwept(d, k, d.workers[k].(state := Active), c, Ok);
      TellSwept(SetWorker(d, k, d.workers[k].(state := Active)), c, Ok);
      RouteSwept(SetWorker(d, k, d.workers[k].(state := Active)), d.active[k.scannerId := k]);
      TellSwept(Promote(d, k), c, Ok);
    }
  }

  lemma RouteSwept(s: State, active: map<string, WorkerKey>)
    requires Swept(s)
    ensures Swept(s.(active := active))
  {
    hide Waits;
  }

  lemma MessageSwept(s: State, k: WorkerKey, m: Message)
    requires Swept(s)
    ensures Swept(HandleMessage(s, k, m))
  {
    hide Swept, FailWorker, SetWorker, Tell, Finish, Fill, Ready, FillFinish;
    FailWorkerSwept(s, k, UNEXPECTED_MESSAGE);
    if k in s.workers && !s.workers[k].Terminal() {
      var w := s.workers[k];
      match m.kind
      case TypeHelloAck =>
        if w.helloReply.Some? { RecordSwept(s, k, w.(helloReply := None), w.helloReply.value, HelloOutcome(k, m)); }
      case TypeHealthResult =>
        if w.healthReply.Some? {
          RecordSwept(s, k, w.(healthReply := None), w.healthReply.value, Err(UNHEALTHY));
          RecordSwept(s, k, w.(state := Healthy, healthReply := None), w.healthReply.value, Ok);
        }
      case TypeScanResult => ScanResultSwept(s, k, m);
      case TypeReloadResult =>
        if w.reloadReply.Some? {
          var w' := w.(reloadReply := None, reloadTimer := false, pendingSignaturePath := "",
                       signaturePath := if m.success then w.pendingSignaturePath else w.signaturePath);
          RecordSwept(s, k, w', w.reloadReply.value,
                      ReloadReply(k, m.signatureCount, if m.success then None else Some(m.error)));
        }
      case TypeShutdownAck => RecordSwept(s, k, w.(shutdownAck := true, terminated := true), 0, Ok);
      case _ =>
    }
  }

  lemma ScanResultSwept(s: State, k: WorkerKey, m: Message)
    requires Swept(s) && m.kind == TypeScanResult
    ensures Swept(HandleScanResult(s, k, m))
  {
    hide Swept;
    if Accepts(s, k, m) {
      FillSwept(s, {m.requestId}, {k}, Answer(m), Ready(s.requests, {m.requestId}, {k}));
    }
  }

  lemma ExitSwept(s: State, k: WorkerKey, code: int, err: Option<string>)
    requires Swept(s)
    ensures Swept(HandleExit(s, k, code, err))
  {
    hide Swept, FailWorker, SetWorker, Tell;
    if k in s.workers {
      var x := Exited(s.workers[k], code, err);
      RecordSwept(s, k, x.(state := Retired), 0, Ok);
      RecordSwept(s, k, x, 0, Ok);
      FailWorkerSwept(SetWorker(s, k, x), k, EXITED);
    }
  }

  lemma DispatchedSwept(s: State, path: string, c: Chan)
    requires Swept(s) && RoutesOk(s)
    ensures Swept(Dispatched(s, path, c, s.active.Values))
  {
    var t := Dispatched(s, path, c, s.active.Values);
    forall k, id | k in t.workers && t.workers[k].state == Failed ensures !Waits(t.requests, id, k) {
      assert s.workers[k].state == Failed;
      if id == s.nextRequestID + 1 {
        assert k !in s.active.Values;
      } else {
        assert !Waits(s.requests, id, k);
      }
    }
  }

  lemma ScanSwept(s: State, path: string, c: Chan)
    requires Swept(s) && RoutesOk(s)
    ensures Swept(HandleScan(s, path, c))
  {
    hide Swept, FailAll, Full, Admit;
    TellSwept(s, c, Err(SHUTTING_DOWN));
    TellSwept(s, c, Err(NO_ACTIVE));
    DispatchedSwept(s, path, c);
    hide RoutesOk;
    FailAllSwept(Dispatched(s, path, c, s.active.Values), Full(Admit(s, path, c), s.active.Values), QUEUE_FULL);
  }

  lemma ScanTimeoutSwept(s: State, id: nat)
    requires Swept(s)
    ensures Swept(HandleScanTimeout(s, id))
  {
    if id in s.requests {
      hide Swept;
      FillSwept(s, {id}, s.requests[id].results.Keys, Timeout, {id});
    }
  }

  lemma ReloadSwept(s: State, scannerId: string, path: string, c: Chan)
    requires Swept(s)
    ensures Swept(HandleReload(s, scannerId, path, c))
  {
    hide Swept, FailWorker, SetWorker, Tell;
    TellSwept(s, c, Err(NO_ACTIVE_WORKER));
    TellSwept(s, c, Err(RELOAD_IN_PROGRESS));
    if scannerId in s.active && s.active[scannerId] in s.workers {
      var k := s.active[scannerId];
      var w := s.workers[k];
      AskSwept(s, k, w.(reloadReply := Some(c), pendingSignaturePath := path, reloadTimer := true), ReloadCommand(path), c);
      AskSwept(s, k, w.(pendingSignaturePath := ""), ReloadCommand(path), c);
    }
  }

  lemma QuietSwept(s: State, k: WorkerKey)
    requires Swept(s)
    ensures Swept(HandleReloadTimeout(s, k)) && Swept(HandleDequeue(s, k))
  {
    hide Swept;
    if k in s.workers {
      var w := s.workers[k];
      if w.reloadReply.Some? {
        RecordSwept(s, k, w.(reloadReply := None, pendingSignaturePath := ""), w.reloadReply.value, Err(RELOAD_TIMED_OUT));
      }
      if w.queue != [] {
        RecordSwept(s, k, w.(queue := w.queue[1..], written := w.written + [w.queue[0]]), 0, Ok);
      }
    }
  }

  lemma ShutdownSwept(s: State, c: Chan)
    ensures Swept(HandleShutdown(s, c))
  {
    hide RequestShutdown, Release, Using, Answered;
    assert HandleShutdown(s, c).requests == map[];
  }

  lemma CloseSwept(s: State, phase: Phase)
    requires Swept(s)
    ensures Swept(Close(s, phase))
  {
    hide Waits;
  }

  lemma HandleSwept(s: State, e: Event)
    requires Swept(s) && RoutesOk(s)
    ensures Swept(Handle(s, e))
  {
    hide Swept, RoutesOk, FailWorker, SetWorker, Tell, HandleMessage, HandleExit, HandleScan, HandleScanTimeout, HandleShutdown,
         HandleReload, HandleReloadTimeout, HandleDequeue, HandleHello, HandleHealth, HandleActivate, HandleRegister, Close;
    match e
    case Register(k, path, c) => RegisterSwept(s, k, path, c);
    case BeginHello(k, c) => CheckSwept(s, k, c);
    case BeginHealth(k, c) => CheckSwept(s, k, c);
    case Activate(k, c) => ActivateSwept(s, k, c);
    case FailCommand(k, reason, c) =>
      FailWorkerSwept(s, k, reason);
      TellSwept(FailWorker(s, k, reason), c, Ok);
      TellSwept(s, c, Err(NOT_REGISTERED));
      TellSwept(s, c, Err(CANNOT_FAIL));
    case WorkerMessage(k, m) => MessageSwept(s, k, m);
    case WorkerFailure(k, reason) => FailWorkerSwept(s, k, reason);
    case WorkerExit(k, code, err) => ExitSwept(s, k, code, err);
    case ScanRequest(path, c) => ScanSwept(s, path, c);
    case ScanTimeout(id) => ScanTimeoutSwept(s, id);
    case ReloadRequest(scannerId, path, c) => ReloadSwept(s, scannerId, path, c);
    case ReloadTimeout(k) => QuietSwept(s, k);
    case QueryActive(scannerId, c) =>
      TellSwept(s, c, Err(NO_ACTIVE_WORKER));
      if scannerId in s.active && s.active[scannerId] in s.workers {
        TellSwept(s, c, WorkerReply(s.active[scannerId], s.workers[s.active[scannerId]].signaturePath));
      }
    case Shutdown(c) =>
      TellSwept(s, c, Err(STOP_IN_PROGRESS));
      ShutdownSwept(s, c);
    case Dequeue(k) => QuietSwept(s, k);
    case Cancel => CloseSwept(s, Cancelled);
  }

  lemma StepSwept(s: State, e: Event)
    requires Swept(s) && RoutesOk(s)
    ensures Swept(Step(s, e))
  {
    hide Swept, RoutesOk, Handle, Close, Tell;
    if s.phase == Running {
      HandleSwept(s, e);
      var t := Handle(s, e);
      if t.stopReply.Some? {
        TellSwept(t, t.stopReply.value, Ok);
        CloseSwept(Tell(t, t.stopReply.value, Ok), ShutDown);
      }
    }
  }

  /** Workers that wait are registered and were routed. */
  lemma WaitingIsRouted(s: State, id: nat, k: WorkerKey)
    requires CoreInv(s) && Swept(s) && Waits(s.requests, id, k)
    ensures k in s.workers && (s.workers[k].state == Active || s.workers[k].state == Draining || s.workers[k].state == Retired)
    ensures !s.workers[k].shutdownSent && s.requests[id].timer
  {
    hide RoutesOk, CandidatesOk, HistoryOk, QueuesOk, AnswersOk;
    assert RequestOk(s.workers.Keys, s.nextRequestID, id, s.requests[id]);
    assert id in Load(s, k);
    assert WorkerOk(s.workers[k], s.stopReply.Some?);
  }

  lemma {:induction false} RunSwept(capacity: nat, events: seq<Event>)
    requires EventsOk(events)
    ensures Swept(Run(capacity, events))
  {
    if events != [] {
      var n := |events| - 1;
      RunSwept(capacity, events[..n]);
      RunKeeps(capacity, events[..n]);
      hide Swept, Step, RoutesOk, CountsOk, RequestsOk, CandidatesOk, HistoryOk, WorkersOk, QueuesOk;
      StepSwept(Run(capacity, events[..n]), events[n]);
    }
  }

  lemma {:induction false} RunAcks(capacity: nat, events: seq<Event>)
    requires EventsOk(events) && AcksFollow(capacity, events)
    ensures AcksOk(Run(capacity, events))
  {
    if events != [] {
      var n := |events| - 1;
      var before := events[..n];
      forall i | 0 <= i < n ensures AckFollows(Run(capacity, before[..i]), before[i]) {
        assert events[..i] == before[..i];
      }
      RunAcks(capacity, before);
      RunKeeps(capacity, before);
      hide AcksOk, Step, CoreInv, AckFollows;
      assert AckFollows(Run(capacity, events[..n]), events[n]);
      StepAcks(Run(capacity, before), events[n]);
    }
  }

  /**
   In every reachable state each tracked request has its timer and an entry still pending; and if workers
   acknowledge only after SHUTDOWN, each pending entry waits for a worker that is ACTIVE or DRAINING and
   was not asked to stop.
   */
  lemma NoStranded(capacity: nat, events: seq<Event>, id: nat)
    requires EventsOk(events) && id in Run(capacity, events).requests
    ensures var s := Run(capacity, events);
            && s.requests[id].timer
            && (exists k :: Waits(s.requests, id, k))
            && (AcksFollow(capacity, events) ==>
                  forall k | Waits(s.requests, id, k) ::
                    k in s.workers && !s.workers[k].shutdownSent && (s.workers[k].state == Active || s.workers[k].state == Draining))
  {
    var s := Run(capacity, events);
    RunKeeps(capacity, events);
    RunSwept(capacity, events);
    StillPending(s, id);
    if AcksFollow(capacity, events) {
      RunAcks(capacity, events);
      hide AcksFollow, Swept, Run, CountsOk, RoutesOk, RequestsOk, CandidatesOk, HistoryOk, QueuesOk;
      forall k | Waits(s.requests, id, k)
        ensures k in s.workers && !s.workers[k].shutdownSent && (s.workers[k].state == Active || s.workers[k].state == Draining)
      {
        WaitingIsRouted(s, id, k);
        assert WorkerOk(s.workers[k], s.stopReply.Some?);
      }
    }
  }

  lemma StillPending(s: State, id: nat)
    requires RequestsOk(s) && id in s.requests
    ensures s.requests[id].timer && exists k :: Waits(s.requests, id, k)
  {
    assert RequestOk(s.workers.Keys, s.nextRequestID, id, s.requests[id]);
    var k :| k in s.requests[id].results && Pending(s.requests[id].results[k]);
    assert Waits(s.requests, id, k);
  }

  lemma FailureSweeps(s: State, k: WorkerKey, reason: string, id: nat)
    requires k in s.workers && !s.workers[k].Terminal()
    ensures !Waits(FailWorker(s, k, reason).requests, id, k)
  {
    var marked := Mark(s, {k}, reason);
    var done := Ready(marked.requests, marked.requests.Keys, {k});
    FailAllIs(s, {k}, reason);
    assert done <= marked.requests.Keys;
    hide FailAll, FillFinish, Ready;
    if Waits(FailAll(s, {k}, reason).requests, id, k) {
      FillWaits(marked, marked.requests.Keys, {k}, Unavailable(reason), done, id, k);
    }
  }

  /** An exit leaves an entry of the worker pending exactly when the worker had acknowledged early. */
  lemma TerminalStays(s: State, k: WorkerKey, reason: string)
    requires k in s.workers && s.workers[k].Terminal()
    ensures FailWorker(s, k, reason) == s
  {
  }

  lemma TerminalOwesNothing(s: State, k: WorkerKey, id: nat)
    requires CoreInv(s) && Swept(s) && k in s.workers && s.workers[k].Terminal() && !s.workers[k].exited
    ensures !Waits(s.requests, id, k)
  {
    hide RoutesOk, CountsOk, RequestsOk, CandidatesOk, HistoryOk, QueuesOk;
    assert WorkerOk(s.workers[k], s.stopReply.Some?);
  }

   lemma ExitStrands(s: State, k: WorkerKey, code: int, err: Option<string>, id: nat)
    requires CoreInv(s) && Swept(s) && k in s.workers && !s.workers[k].exited
    ensures Waits(HandleExit(s, k, code, err).requests, id, k) <==>
            Waits(s.requests, id, k) && s.workers[k].state == Draining && s.workers[k].shutdownAck
  {
    hide RoutesOk, CountsOk, RequestsOk, CandidatesOk, HistoryOk, QueuesOk, WorkersOk, FailWorker, Waits, Swept;
    var w := s.workers[k];
    var x := Exited(w, code, err);
    if !w.Terminal() {
      FailureSweeps(SetWorker(s, k, x), k, EXITED, id);
    } else {
      TerminalOwesNothing(s, k, id);
      TerminalStays(SetWorker(s, k, x), k, EXITED);
    }
  }
}
