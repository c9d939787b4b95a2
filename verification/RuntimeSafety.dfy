/** Admission, shutdown and whole runs of the Runtime loop. */
module RuntimeSafety {
  import opened Wrappers
  import opened Messages
  import opened RuntimeSpec
  import opened RuntimeInvariants

  // ----- admitting a scan

  lemma NewIdUnused(s: State)
    requires RequestsOk(s)
    ensures s.nextRequestID + 1 !in s.requests
  {
    hide AnswersOk, AllAnswered;
    forall id | id in s.requests ensures id <= s.nextRequestID {
      assert RequestOk(s.workers.Keys, s.nextRequestID, id, s.requests[id]);
    }
  }

  lemma AdmitLoad(s: State, path: string, c: Chan, k: WorkerKey)
    requires s.nextRequestID + 1 !in s.requests
    ensures |Load(Admit(s, path, c), k)| == |Load(s, k)| + if k in s.active.Values then 1 else 0
  {
    var id := s.nextRequestID + 1;
    var t := Admit(s, path, c);
    assert Load(t, k) == if k in s.active.Values then Load(s, k) + {id} else Load(s, k);
    assert id !in Load(s, k);
  }

  lemma AdmitCounts(s: State, path: string, c: Chan)
    requires CountsOk(s) && RequestsOk(s)
    ensures CountsOk(Admit(s, path, c))
  {
    var t := Admit(s, path, c);
    NewIdUnused(s);
    hide RequestsOk, Load;
    forall k | k in t.workers ensures t.workers[k].inFlight == |Load(t, k)| {
      assert s.workers[k].inFlight == |Load(s, k)|;
      AdmitLoad(s, path, c, k);
    }
  }

  lemma FreshRequestOk(s: State, path: string, c: Chan)
    requires RoutesOk(s) && s.active != map[]
    ensures var r := Admit(s, path, c).requests[s.nextRequestID + 1];
            RequestOk(s.workers.Keys, s.nextRequestID + 1, s.nextRequestID + 1, r) && r.results.Keys == s.active.Values
  {
    var r := Admit(s, path, c).requests[s.nextRequestID + 1];
    var id :| id in s.active;
    assert s.active[id] in r.results && Pending(r.results[s.active[id]]);
  }

  lemma AdmitRequests(s: State, path: string, c: Chan)
    requires RoutesOk(s) && RequestsOk(s) && s.stopReply.None? && s.active != map[]
    ensures RequestsOk(Admit(s, path, c))
  {
    var t := Admit(s, path, c);
    FreshRequestOk(s, path, c);
    hide AnswersOk, AllAnswered, RoutesOk;
    forall id | id in t.requests ensures RequestOk(t.workers.Keys, t.nextRequestID, id, t.requests[id]) {
      if id in s.requests {
        assert RequestOk(s.workers.Keys, s.nextRequestID, id, s.requests[id]);
      }
    }
  }

  lemma AdmitHistory(s: State, path: string, c: Chan)
    requires HistoryOk(s)
    ensures HistoryOk(Admit(s, path, c))
  {
    var t := Admit(s, path, c);
    hide AnswersOk, AllAnswered, Answered;
    assert t.requests.Keys == s.requests.Keys + {t.nextRequestID};
    forall id | id in t.completed ensures CompletedOk(t, id, t.completed[id]) {
      assert CompletedOk(s, id, s.completed[id]);
      assert 1 <= id <= s.nextRequestID;
    }
  }

  lemma AdmitWorkers(s: State, path: string, c: Chan)
    requires RoutesOk(s) && WorkersOk(s) && s.stopReply.None?
    ensures WorkersOk(Admit(s, path, c))
  {
    var t := Admit(s, path, c);
    forall k | k in t.workers ensures WorkerOk(t.workers[k], false) {
      assert WorkerOk(s.workers[k], false);
      if k in s.active.Values {
        assert s.workers[k].state == Active;
      }
    }
  }

  lemma ScanPush(w: Worker, m: Message, capacity: nat, last: nat)
    requires QueueOk(w, capacity, last) && HasRoom(w, capacity) && !w.shutdownSent
    requires m.kind == TypeScan && m.requestId == last + 1
    ensures QueueOk(Push(w, m), capacity, last + 1)
  {
    assert Push(w, m).Log() == w.Log() + [m];
    LogGrows(w.Log(), m, last, last + 1, w.shutdownSent, w.shutdownSent);
  }

  lemma LogLast(log: seq<Message>, last: nat, last': nat, sent: bool)
    requires LogOk(log, last, sent) && last <= last'
    ensures LogOk(log, last', sent)
  {
  }

  lemma QueueLast(w: Worker, w': Worker, capacity: nat, last: nat)
    requires QueueOk(w, capacity, last)
    requires w'.queue == w.queue && w'.written == w.written && w'.shutdownSent == w.shutdownSent && w'.terminated == w.terminated
    ensures QueueOk(w', capacity, last + 1)
  {
    assert w'.Log() == w.Log();
    LogLast(w.Log(), last, last + 1, w.shutdownSent);
    hide LogOk;
  }

  /** The state in which the new request is tracked and SCAN has gone to every worker of `keys` with room. */
  function Dispatched(s: State, path: string, c: Chan, keys: set<WorkerKey>): State {
    var a := Admit(s, path, c);
    PushAll(a, keys - Full(a, keys), ScanCommand(s.nextRequestID + 1, path))
  }

  lemma DispatchedQueue(w: Worker, m: Message, capacity: nat, last: nat, routed: bool, sent: bool)
    requires QueueOk(w, capacity, last) && m.kind == TypeScan && m.requestId == last + 1
    requires sent ==> routed && !w.shutdownSent
    ensures var a := if routed then w.(inFlight := w.inFlight + 1) else w;
            QueueOk(if sent && HasRoom(a, capacity) then Push(a, m) else a, capacity, last + 1)
  {
    hide QueueOk;
    var a := if routed then w.(inFlight := w.inFlight + 1) else w;
    SameQueue(w, a, capacity, last);
    QueueLast(a, a, capacity, last);
    if sent && HasRoom(a, capacity) {
      ScanPush(a, m, capacity, last);
    }
  }

  lemma DispatchedQueues(s: State, path: string, c: Chan, keys: set<WorkerKey>)
    requires keys <= s.active.Values
    requires RoutesOk(s) && WorkersOk(s) && QueuesOk(s) && s.stopReply.None?
    ensures QueuesOk(Dispatched(s, path, c, keys))
  {
    hide QueueOk, WorkerOk, Push, RoutesOk, WorkersOk;
    var t := Dispatched(s, path, c, keys);
    var m := ScanCommand(s.nextRequestID + 1, path);
    forall k | k in t.workers ensures QueueOk(t.workers[k], t.capacity, t.nextRequestID) {
      if k in s.active.Values {
        RoutedUnsent(s, k);
      }
      RecordOk(s, k);
      DispatchedQueue(s.workers[k], m, s.capacity, s.nextRequestID, k in s.active.Values, k in keys);
    }
  }

  lemma RoutedUnsent(s: State, k: WorkerKey)
    requires RoutesOk(s) && WorkersOk(s) && s.stopReply.None? && k in s.active.Values
    ensures k in s.workers && s.workers[k].state == Active && !s.workers[k].shutdownSent
  {
    assert k in s.workers;
    assert WorkerOk(s.workers[k], false);
  }

  lemma PushedRecords(s: State, path: string, c: Chan, keys: set<WorkerKey>)
    ensures var a := Admit(s, path, c); var t := Dispatched(s, path, c, keys);
            (WorkersOk(a) ==> WorkersOk(t)) && (CountsOk(a) ==> CountsOk(t))
  {
    var a := Admit(s, path, c);
    var t := Dispatched(s, path, c, keys);
    if WorkersOk(a) {
      forall k | k in t.workers ensures WorkerOk(t.workers[k], t.stopReply.Some?) {
        assert WorkerOk(a.workers[k], a.stopReply.Some?);
      }
    }
    if CountsOk(a) {
      forall k | k in t.workers ensures t.workers[k].inFlight == |Load(t, k)| {
        assert a.workers[k].inFlight == |Load(a, k)|;
        SameLoad(a, t, k);
      }
    }
  }

  lemma DispatchedKeeps(s: State, path: string, c: Chan, keys: set<WorkerKey>)
    requires CoreInv(s) && s.stopReply.None? && s.active != map[] && keys <= s.active.Values
    ensures CoreInv(Dispatched(s, path, c, keys))
  {
    var a := Admit(s, path, c);
    var t := Dispatched(s, path, c, keys);
    hide RoutesOk, CountsOk, RequestsOk, CandidatesOk, HistoryOk, WorkersOk, QueuesOk;
    AdmitCounts(s, path, c);
    AdmitRequests(s, path, c);
    AdmitHistory(s, path, c);
    AdmitWorkers(s, path, c);
    DispatchedQueues(s, path, c, keys);
    BooksKept(a, t);
    SameStates(s, t);
    PushedRecords(s, path, c, keys);
  }

  lemma ScanKeeps(s: State, path: string, c: Chan)
    requires CoreInv(s)
    ensures CoreInv(HandleScan(s, path, c))
  {
    if s.stopReply.Some? {
      hide CoreInv;
      TellKeeps(s, c, Err(SHUTTING_DOWN));
    } else if s.active == map[] {
      hide CoreInv;
      TellKeeps(s, c, Err(NO_ACTIVE));
    } else {
      hide CoreInv, FailAll, Admit;
      DispatchedKeeps(s, path, c, s.active.Values);
      FailAllKeeps(Dispatched(s, path, c, s.active.Values), Full(Admit(s, path, c), s.active.Values), QUEUE_FULL);
    }
  }

  // ----- shutdown

  lemma AbandonIsGood(s: State)
    requires RequestsOk(s)
    ensures GoodFill(s, s.requests.Keys, s.workers.Keys, Unavailable(SHUTTING_DOWN), s.requests.Keys)
  {
    hide AllAnswered, FillResults, AnswersOk;
    forall id | id in s.requests
      ensures AllAnswered(FillResults(s.requests[id].results, s.workers.Keys, Entry(Unavailable(SHUTTING_DOWN), id)))
    {
      assert RequestOk(s.workers.Keys, s.nextRequestID, id, s.requests[id]);
      FillPending(s.requests[id].results, s.workers.Keys, Entry(Unavailable(SHUTTING_DOWN), id));
    }
  }

  lemma AbandonKeeps(s: State)
    requires CoreInv(s)
    ensures CoreInv(AbandonAll(s)) && AbandonAll(s).requests == map[]
  {
    AbandonIsGood(s);
    hide CoreInv, GoodFill;
    FillFinishKeeps(s, s.requests.Keys, s.workers.Keys, Unavailable(SHUTTING_DOWN), s.requests.Keys);
  }

  /** Shutdown weakens what is asked of the worker records. */
  lemma StoppingKeeps(s: State, c: Chan)
    requires CoreInv(s) && s.requests == map[]
    ensures CoreInv(s.(stopReply := Some(c)))
  {
    var t := s.(stopReply := Some(c));
    assert WorkersOk(t) by { hide RoutesOk, CountsOk, RequestsOk, CandidatesOk, HistoryOk, QueuesOk; }
    assert QueuesOk(t) by { hide RoutesOk, CountsOk, RequestsOk, CandidatesOk, HistoryOk, WorkersOk, QueueOk; }
    assert HistoryOk(t) by { hide RoutesOk, CountsOk, RequestsOk, CandidatesOk, WorkersOk, QueuesOk, AnswersOk, AllAnswered; }
    assert RoutesOk(t) by { hide CountsOk, RequestsOk, CandidatesOk, WorkersOk, QueuesOk, HistoryOk; }
    hide RoutesOk, HistoryOk, WorkersOk, QueuesOk;
    forall k | k in s.workers ensures t.workers[k].inFlight == |Load(t, k)| {
      SameLoad(s, t, k);
    }
  }

  lemma DrainRecord(w: Worker, capacity: nat, last: nat)
    requires WorkerOk(w, true) && QueueOk(w, capacity, last) && w.inFlight == 0 && !w.Terminal()
    ensures var w' := RequestShutdown(w.(state := Draining), capacity);
            WorkerOk(w', true) && QueueOk(w', capacity, last) && w'.inFlight == 0 && w'.state == Draining
  {
    SameQueue(w, w.(state := Draining), capacity, last);
    RequestShutdownQueue(w.(state := Draining), capacity, last);
    hide QueueOk;
  }

  lemma DrainKeeps(s: State)
    requires CoreInv(s) && s.stopReply.Some?
    ensures CoreInv(DrainAll(s))
  {
    var t := DrainAll(s);
    hide CountsOk, RequestsOk, HistoryOk, WorkersOk, QueuesOk, WorkerOk, QueueOk, RequestShutdown, RoutesOk;
    BooksKept(s, t);
    forall k | k in t.workers
      ensures WorkerOk(t.workers[k], true) && QueueOk(t.workers[k], t.capacity, t.nextRequestID)
      ensures t.workers[k].inFlight == s.workers[k].inFlight && t.workers[k].state != Active
    {
      RecordOk(s, k);
      StoppingIsIdle(s, k);
      if s.workers[k].Terminal() {
      } else {
        DrainRecord(s.workers[k], s.capacity, s.nextRequestID);
      }
    }
    RecordsIn(t);
    CountsCopied(s, t);
    NoRoutes(t);
  }

  lemma RecordsIn(t: State)
    requires forall k | k in t.workers ::
               WorkerOk(t.workers[k], t.stopReply.Some?) && QueueOk(t.workers[k], t.capacity, t.nextRequestID)
    ensures WorkersOk(t) && QueuesOk(t)
  {
    hide WorkerOk, QueueOk;
  }

  lemma CountsCopied(s: State, t: State)
    requires CountsOk(s) && s.requests == t.requests && s.workers.Keys == t.workers.Keys
    requires forall k | k in s.workers :: t.workers[k].inFlight == s.workers[k].inFlight
    ensures CountsOk(t)
  {
    forall k | k in t.workers ensures t.workers[k].inFlight == |Load(t, k)| {
      assert s.workers[k].inFlight == |Load(s, k)|;
      SameLoad(s, t, k);
    }
  }

  lemma NoRoutes(t: State)
    requires t.active == map[] && forall k | k in t.workers :: t.workers[k].state != Active
    ensures RoutesOk(t)
  {
  }

  lemma ShutdownKeeps(s: State, c: Chan)
    requires CoreInv(s)
    ensures CoreInv(HandleShutdown(s, c))
  {
    hide CoreInv, DrainAll;
    var a := AbandonAll(s).(stopReply := Some(c));
    AbandonKeeps(s);
    assert AbandonAll(s.(stopReply := Some(c))) == a;
    StoppingKeeps(AbandonAll(s), c);
    DrainKeeps(a);
  }

  // ----- one event

  predicate EventOk(e: Event) { e.WorkerMessage? ==> ValidInbound(e.message) }

  predicate ValidInbound(m: Message) { m.kind == TypeScanResult ==> ValidVerdict(m.verdict) }

  lemma HandleKeeps(s: State, e: Event)
    requires CoreInv(s) && EventOk(e)
    ensures CoreInv(Handle(s, e))
  {
    hide CoreInv;
    match e
    case Register(k, path, c) => RegisterKeeps(s, k, path, c);
    case BeginHello(k, c) => HelloKeeps(s, k, c);
    case BeginHealth(k, c) => HealthKeeps(s, k, c);
    case Activate(k, c) => ActivateKeeps(s, k, c);
    case FailCommand(k, reason, c) => FailCommandKeeps(s, k, reason, c);
    case WorkerMessage(k, m) => MessageKeeps(s, k, m);
    case WorkerFailure(k, reason) => FailWorkerKeeps(s, k, reason);
    case WorkerExit(k, code, err) => ExitKeeps(s, k, code, err);
    case ScanRequest(path, c) => ScanKeeps(s, path, c);
    case ScanTimeout(id) => ScanTimeoutKeeps(s, id);
    case ReloadRequest(scannerId, path, c) => ReloadKeeps(s, scannerId, path, c);
    case ReloadTimeout(k) => ReloadTimeoutKeeps(s, k);
    case QueryActive(scannerId, c) => QueryKeeps(s, scannerId, c);
    case Shutdown(c) =>
      TellKeeps(s, c, Err(STOP_IN_PROGRESS));
      ShutdownKeeps(s, c);
    case Dequeue(k) => DequeueKeeps(s, k);
    case Cancel => CloseKeeps(s, Cancelled);
  }

  lemma QueryKeeps(s: State, scannerId: string, c: Chan)
    requires CoreInv(s)
    ensures CoreInv(HandleQuery(s, scannerId, c))
  {
    hide CoreInv;
    TellKeeps(s, c, Err(NO_ACTIVE_WORKER));
    if scannerId in s.active && s.active[scannerId] in s.workers {
      TellKeeps(s, c, WorkerReply(s.active[scannerId], s.workers[s.active[scannerId]].signaturePath));
    }
  }

  lemma StepKeeps(s: State, e: Event)
    requires CoreInv(s) && EventOk(e)
    ensures CoreInv(Step(s, e))
  {
    hide CoreInv, Handle;
    if s.phase == Running {
      var t := Handle(s, e);
      HandleKeeps(s, e);
      if t.stopReply.Some? {
        TellKeeps(t, t.stopReply.value, Ok);
        CloseKeeps(Tell(t, t.stopReply.value, Ok), ShutDown);
      }
    }
  }

  ghost predicate EventsOk(events: seq<Event>) { forall i | 0 <= i < |events| :: EventOk(events[i]) }

  /** The invariant holds after every run. */
  lemma {:induction false} RunKeeps(capacity: nat, events: seq<Event>)
    requires EventsOk(events)
    ensures CoreInv(Run(capacity, events))
  {
    if events != [] {
      RunKeeps(capacity, events[..|events| - 1]);
      hide CoreInv, Step;
      StepKeeps(Run(capacity, events[..|events| - 1]), events[|events| - 1]);
    }
  }
}
