/** What a worker's signature path can be: the one it was registered with, or one it was told to reload. */
module RuntimeReloads {
  import opened Wrappers
  import opened Messages
  import opened RuntimeSpec
  import opened RuntimeInvariants
  import opened RuntimeSafety
  import opened RuntimeMoves
  import RuntimeLifecycle
  import opened ReloadHistory

  predicate ReloadQueued(log: seq<Message>, path: string) { ReloadCommand(path) in log }

  /** The path is the same, nothing is asked to reload, and a reload under way goes on unless the worker fails. */
  ghost predicate PathStays(w: Worker, w': Worker) {
    && w'.signaturePath == w.signaturePath && Reloads(w'.Log()) == Reloads(w.Log())
    && (w.state == Failed ==> w'.state == Failed)
    && (if w'.reloadReply.None? then w.reloadReply.None? || w'.state == Failed
        else w'.reloadReply == w.reloadReply && w'.pendingSignaturePath == w.pendingSignaturePath)
  }

  lemma PushStays(w: Worker, m: Message)
    requires m.kind != TypeReload
    ensures Reloads(Push(w, m).Log()) == Reloads(w.Log())
  {
    PushLog(w, m);
    hide Reloads, Push;
    ReloadsMore(w.Log(), m);
  }

  lemma PushLog(w: Worker, m: Message)
    ensures Push(w, m).Log() == w.Log() + [m]
  {
  }

  lemma RequestStays(w: Worker, capacity: nat)
    ensures PathStays(w, RequestShutdown(w, capacity))
  {
    PushStays(w.(shutdownSent := true), Command(TypeShutdown));
    hide Reloads;
  }

  lemma ReleaseStays(w: Worker, n: nat, capacity: nat)
    ensures PathStays(w, Release(w, n, capacity))
  {
    hide Reloads, RequestShutdown;
    RequestStays(w.(inFlight := if w.inFlight > n then w.inFlight - n else 0), capacity);
  }

  lemma RetreatStays(w: Worker, capacity: nat)
    requires w.state != Failed
    ensures PathStays(w, Retreat(w, capacity))
  {
    hide Reloads, RequestShutdown;
    RequestStays(w.(state := Draining), capacity);
  }

  ghost predicate PathsStay(s: State, t: State) {
    forall k | k in t.workers :: if k in s.workers then PathStays(s.workers[k], t.workers[k]) else IsNew(t.workers[k])
  }

  /** Nothing was queued to the worker yet. */
  predicate IsNew(w: Worker) { w.reloadReply.None? && w.Log() == [] }

  lemma StayTrans(s: State, t: State, u: State)
    requires PathsStay(s, t) && PathsStay(t, u) && t.workers.Keys == s.workers.Keys
    ensures PathsStay(s, u)
  {
    hide Reloads;
    forall k | k in u.workers && k in s.workers ensures PathStays(s.workers[k], u.workers[k]) {
      assert PathStays(s.workers[k], t.workers[k]) && PathStays(t.workers[k], u.workers[k]);
    }
  }

  lemma RecordStays(s: State, k: WorkerKey, w: Worker, c: Chan, r: Reply)
    requires if k in s.workers then PathStays(s.workers[k], w) else IsNew(w)
    ensures PathsStay(s, SetWorker(s, k, w)) && PathsStay(s, Tell(SetWorker(s, k, w), c, r))
  {
    hide Reloads;
  }

  lemma NothingStays(s: State, c: Chan, r: Reply)
    ensures PathsStay(s, s) && PathsStay(s, Tell(s, c, r))
  {
    hide Reloads;
  }

  lemma TellStays(s: State, t: State, c: Chan, r: Reply)
    requires PathsStay(s, t)
    ensures PathsStay(s, Tell(t, c, r))
  {
    hide PathStays;
  }

  lemma FillStays(s: State, ids: set<nat>, keys: set<WorkerKey>, cause: Cause, done: set<nat>)
    requires done <= s.requests.Keys
    ensures PathsStay(s, FillFinish(s, ids, keys, cause, done))
  {
    hide FillResults, Answered, Using, PathStays, Release;
    forall k | k in s.workers ensures PathStays(s.workers[k], FillFinish(s, ids, keys, cause, done).workers[k]) {
      ReleaseStays(s.workers[k], |Using(Fill(s, ids, keys, cause).requests, done, k)|, s.capacity);
    }
  }

  lemma FailAllStays(s: State, keys: set<WorkerKey>, reason: string)
    ensures PathsStay(s, FailAll(s, keys, reason))
  {
    var m := Mark(s, keys, reason);
    var done := Ready(m.requests, m.requests.Keys, keys);
    assert PathsStay(s, m) && m.workers.Keys == s.workers.Keys && done <= m.requests.Keys by { hide Reloads, Unroute, FailureSends; }
    hide Mark, Ready, FillFinish, FailAll, PathsStay;
    FailAllIs(s, keys, reason);
    FillStays(m, m.requests.Keys, keys, Unavailable(reason), done);
    StayTrans(s, m, FailAll(s, keys, reason));
  }

  lemma FailWorkerStays(s: State, k: WorkerKey, reason: string)
    ensures PathsStay(s, FailWorker(s, k, reason))
  {
    hide FailAll, PathsStay;
    FailAllStays(s, {k}, reason);
    NothingStays(s, 0, Ok);
  }

  /** A worker fails after a change of its record that keeps its path, or after a reply. */
  lemma ChangedFailStays(s: State, h: State, k: WorkerKey, reason: string)
    requires PathsStay(s, h) && h.workers.Keys == s.workers.Keys
    ensures PathsStay(s, FailWorker(h, k, reason))
  {
    hide FailWorker, PathsStay;
    FailWorkerStays(h, k, reason);
    StayTrans(s, h, FailWorker(h, k, reason));
  }

  lemma CheckStays(s: State, k: WorkerKey, c: Chan)
    ensures PathsStay(s, HandleHello(s, k, c)) && PathsStay(s, HandleHealth(s, k, c))
  {
    hide PathsStay, FailWorker;
    NothingStays(s, c, Err(NOT_STARTING));
    NothingStays(s, c, Err(ALREADY_PENDING));
    NothingStays(s, c, Err(QUEUE_FULL));
    ChangedFailStays(s, Tell(s, c, Err(QUEUE_FULL)), k, QUEUE_FULL);
    if k in s.workers {
      PushStays(s.workers[k].(helloReply := Some(c)), Command(TypeHello));
      PushStays(s.workers[k].(healthReply := Some(c)), Command(TypeHealthCheck));
      hide Reloads;
      RecordStays(s, k, Push(s.workers[k].(helloReply := Some(c)), Command(TypeHello)), c, Ok);
      RecordStays(s, k, Push(s.workers[k].(healthReply := Some(c)), Command(TypeHealthCheck)), c, Ok);
    }
  }

  lemma MessageStays(s: State, k: WorkerKey, m: Message)
    requires m.kind != TypeReloadResult
    ensures PathsStay(s, HandleMessage(s, k, m))
  {
    hide PathsStay, FailWorker, SetWorker, Tell, Finish, Fill, Ready, FillFinish, Reloads;
    NothingStays(s, 0, Ok);
    FailWorkerStays(s, k, UNEXPECTED_MESSAGE);
    if k in s.workers && !s.workers[k].Terminal() {
      var w := s.workers[k];
      match m.kind
      case TypeHelloAck =>
        if w.helloReply.Some? { RecordStays(s, k, w.(helloReply := None), w.helloReply.value, HelloOutcome(k, m)); }
      case TypeHealthResult =>
        if w.healthReply.Some? {
          RecordStays(s, k, w.(healthReply := None), w.healthReply.value, Err(UNHEALTHY));
          RecordStays(s, k, w.(state := Healthy, healthReply := None), w.healthReply.value, Ok);
        }
      case TypeScanResult => if Accepts(s, k, m) { SettleStays(s, {m.requestId}, {k}, Answer(m)); }
      case TypeShutdownAck => RecordStays(s, k, w.(shutdownAck := true, terminated := true), 0, Ok);
      case _ =>
    }
  }

  lemma SettleStays(s: State, ids: set<nat>, keys: set<WorkerKey>, cause: Cause)
    ensures PathsStay(s, Settle(s, ids, keys, cause))
  {
    var done := Ready(s.requests, ids, keys);
    assert done <= s.requests.Keys;
    hide PathsStay, Ready;
    FillStays(s, ids, keys, cause, done);
  }

  lemma ExitStays(s: State, k: WorkerKey, code: int, err: Option<string>)
    ensures PathsStay(s, HandleExit(s, k, code, err))
  {
    hide PathsStay, FailWorker, Reloads;
    NothingStays(s, 0, Ok);
    if k in s.workers {
      var x := Exited(s.workers[k], code, err);
      if s.workers[k].state != Failed { RecordStays(s, k, x.(state := Retired), 0, Ok); }
      RecordStays(s, k, x, 0, Ok);
      ChangedFailStays(s, SetWorker(s, k, x), k, EXITED);
    }
  }

  lemma DispatchedStays(s: State, path: string, c: Chan)
    ensures var d := Dispatched(s, path, c, s.active.Values); PathsStay(s, d) && d.workers.Keys == s.workers.Keys
  {
    var d := Dispatched(s, path, c, s.active.Values);
    hide Full, Reloads;
    forall k | k in s.workers ensures PathStays(s.workers[k], d.workers[k]) {
      PushStays(Admit(s, path, c).workers[k], ScanCommand(s.nextRequestID + 1, path));
    }
  }

  lemma ScanStays(s: State, path: string, c: Chan)
    ensures PathsStay(s, HandleScan(s, path, c))
  {
    var d := Dispatched(s, path, c, s.active.Values);
    DispatchedStays(s, path, c);
    hide PathsStay, FailAll, Full, Admit;
    NothingStays(s, c, Err(SHUTTING_DOWN));
    NothingStays(s, c, Err(NO_ACTIVE));
    var full := Full(Admit(s, path, c), s.active.Values);
    FailAllStays(d, full, QUEUE_FULL);
    StayTrans(s, d, FailAll(d, full, QUEUE_FULL));
  }

  lemma ActivateStays(s: State, k: WorkerKey, c: Chan)
    requires RoutesOk(s)
    ensures PathsStay(s, HandleActivate(s, k, c))
  {
    hide PathsStay, Reloads, Retreat, Tell;
    NothingStays(s, c, Err(NOT_HEALTHY));
    if k in s.workers && s.workers[k].state == Healthy {
      var d := Displace(s, k.scannerId);
      NothingStays(s, c, Ok);
      if k.scannerId in s.active {
        var p := s.active[k.scannerId];
        RetreatStays(s.workers[p], s.capacity);
        RecordStays(s, p, Retreat(s.workers[p], s.capacity), c, Ok);
      }
      assert d.workers.Keys == s.workers.Keys && d.workers[k].state == Healthy;
      RecordStays(d, k, d.workers[k].(state := Active), c, Ok);
      hide RoutesOk, Displace;
      var u := SetWorker(d, k, d.workers[k].(state := Active));
      StayTrans(s, d, u);
      RoutesStay(s, u, u.(active := d.active[k.scannerId := k]));
      TellStays(s, Promote(d, k), c, Ok);
    }
  }

  lemma RoutesStay(s: State, t: State, u: State)
    requires PathsStay(s, t) && u.workers == t.workers
    ensures PathsStay(s, u)
  {
    hide PathStays;
  }

  lemma ShutdownStays(s: State, c: Chan)
    ensures PathsStay(s, HandleShutdown(s, c))
  {
    hide FillFinish, HandleShutdown, Reloads, PathsStay, DrainAll;
    var h := s.(stopReply := Some(c));
    var a := FillFinish(h, h.requests.Keys, h.workers.Keys, Unavailable(SHUTTING_DOWN), h.requests.Keys);
    FillStays(h, h.requests.Keys, h.workers.Keys, Unavailable(SHUTTING_DOWN), h.requests.Keys);
    assert a.workers.Keys == s.workers.Keys by { FillFinishShape(h, h.requests.Keys, h.workers.Keys, Unavailable(SHUTTING_DOWN), h.requests.Keys); }
    ShutdownIs(s, c);
    NothingStays(s, 0, Ok);
    RoutesStay(s, s, h);
    DrainStays(a);
    StayTrans(s, h, a);
    StayTrans(s, a, DrainAll(a));
  }

  lemma ShutdownIs(s: State, c: Chan)
    ensures var h := s.(stopReply := Some(c));
            HandleShutdown(s, c) == DrainAll(FillFinish(h, h.requests.Keys, h.workers.Keys, Unavailable(SHUTTING_DOWN), h.requests.Keys))
  {
    var h := s.(stopReply := Some(c));
    FillFinishShape(h, h.requests.Keys, h.workers.Keys, Unavailable(SHUTTING_DOWN), h.requests.Keys);
    hide FillFinish;
  }

  lemma DrainStays(s: State)
    ensures PathsStay(s, DrainAll(s))
  {
    hide RequestShutdown, Reloads;
    forall k | k in s.workers ensures PathStays(s.workers[k], DrainAll(s).workers[k]) {
      RequestStays(s.workers[k].(state := Draining), s.capacity);
    }
  }

  /** A reload begins: one RELOAD is queued, for the path now pending. */
  ghost predicate Begins(w: Worker, w': Worker) {
    && w.reloadReply.None? && w'.reloadReply.Some? && w'.signaturePath == w.signaturePath && w'.state == w.state
    && Reloads(w'.Log()) == Reloads(w.Log()) + [ReloadCommand(w'.pendingSignaturePath)]
  }

  /** A reload ends; on success the pending path becomes the worker's. */
  ghost predicate Ends(w: Worker, w': Worker, success: bool) {
    && w.reloadReply.Some? && w'.reloadReply.None? && w'.state == w.state && Reloads(w'.Log()) == Reloads(w.Log())
    && w'.signaturePath == if success then w.pendingSignaturePath else w.signaturePath
  }

  predicate IsResult(e: Event, k: WorkerKey) { e.WorkerMessage? && e.key == k && e.message.kind == TypeReloadResult }

  /** What one event does to the reload of one worker. */
  ghost predicate PathMoves(w: Worker, w': Worker, e: Event, k: WorkerKey) {
    if IsResult(e, k) && w.reloadReply.Some? && !w.Terminal() then Ends(w, w', e.message.success)
    else if e == ReloadTimeout(k) && w.reloadReply.Some? then Ends(w, w', false)
    else PathStays(w, w') || Begins(w, w')
  }

  ghost predicate PathsMove(s: State, t: State, e: Event) {
    forall k | k in t.workers :: if k in s.workers then PathMoves(s.workers[k], t.workers[k], e, k) else IsNew(t.workers[k])
  }

  lemma StayMoves(s: State, t: State, e: Event)
    requires PathsStay(s, t)
    requires forall k | k in s.workers && s.workers[k].reloadReply.Some? ::
               e != ReloadTimeout(k) && (IsResult(e, k) ==> s.workers[k].Terminal())
    ensures PathsMove(s, t, e)
  {
    hide PathStays;
  }

  lemma ReloadMovesPath(s: State, scannerId: string, path: string, c: Chan)
    ensures PathsMove(s, HandleReload(s, scannerId, path, c), ReloadRequest(scannerId, path, c))
  {
    var e := ReloadRequest(scannerId, path, c);
    hide PathsStay, FailWorker, Reloads;
    NothingStays(s, c, Err(NO_ACTIVE_WORKER));
    NothingStays(s, c, Err(RELOAD_IN_PROGRESS));
    if scannerId in s.active && s.active[scannerId] in s.workers && s.workers[s.active[scannerId]].reloadReply.None? {
      var k := s.active[scannerId];
      var w := s.workers[k];
      if HasRoom(w, s.capacity) {
        var w1 := w.(reloadReply := Some(c), pendingSignaturePath := path, reloadTimer := true);
        PushLog(w1, ReloadCommand(path));
        ReloadsMore(w.Log(), ReloadCommand(path));
        OneMovesPath(s, k, Push(w1, ReloadCommand(path)), e);
      } else {
        var w1 := w.(pendingSignaturePath := "");
        RecordStays(s, k, w1, c, Err(QUEUE_FULL));
        ChangedFailStays(s, Tell(SetWorker(s, k, w1), c, Err(QUEUE_FULL)), k, QUEUE_FULL);
        StayMoves(s, HandleReload(s, scannerId, path, c), e);
      }
    } else {
      StayMoves(s, HandleReload(s, scannerId, path, c), e);
    }
  }

  lemma OneMovesPath(s: State, k: WorkerKey, w: Worker, e: Event)
    requires k in s.workers && PathMoves(s.workers[k], w, e, k) && forall j | j != k :: !IsResult(e, j) && e != ReloadTimeout(j)
    ensures PathsMove(s, SetWorker(s, k, w), e)
  {
    hide Reloads;
  }

  lemma ReloadResultMovesPath(s: State, k: WorkerKey, m: Message)
    requires k in s.workers && !s.workers[k].Terminal() && m.kind == TypeReloadResult
    ensures PathsMove(s, HandleReloadResult(s, k, m), WorkerMessage(k, m))
  {
    hide Reloads;
    var e := WorkerMessage(k, m);
    var w := s.workers[k];
    if w.reloadReply.Some? {
      var w' := w.(reloadReply := None, reloadTimer := false, pendingSignaturePath := "",
                   signaturePath := if m.success then w.pendingSignaturePath else w.signaturePath);
      OneMovesPath(s, k, w', e);
      ToldMovesPath(s, SetWorker(s, k, w'), w.reloadReply.value, ReloadReply(k, m.signatureCount, if m.success then None else Some(m.error)), e);
      hide PathsMove;
    } else {
      OneMovesPath(s, k, w, e);
      assert s.workers[k := w] == s.workers;
    }
  }

  lemma ToldMovesPath(s: State, t: State, c: Chan, r: Reply, e: Event)
    requires PathsMove(s, t, e)
    ensures PathsMove(s, Tell(t, c, r), e)
  {
    hide PathMoves;
  }

  lemma ReloadTimeoutMovesPath(s: State, k: WorkerKey)
    ensures PathsMove(s, HandleReloadTimeout(s, k), ReloadTimeout(k))
  {
    hide Reloads;
    var e := ReloadTimeout(k);
    if k in s.workers && s.workers[k].reloadReply.Some? {
      var w := s.workers[k];
      var w' := w.(reloadReply := None, pendingSignaturePath := "");
      OneMovesPath(s, k, w', e);
      ToldMovesPath(s, SetWorker(s, k, w'), w.reloadReply.value, Err(RELOAD_TIMED_OUT), e);
      hide PathsMove;
    } else {
      NothingStays(s, 0, Ok);
      hide PathsStay, PathsMove;
      StayMoves(s, s, e);
    }
  }

  lemma DequeueStays(s: State, k: WorkerKey)
    ensures PathsStay(s, HandleDequeue(s, k))
  {
    hide PathsStay, SetWorker, Reloads;
    NothingStays(s, 0, Ok);
    if k in s.workers && s.workers[k].queue != [] {
      var w := s.workers[k];
      var w' := w.(queue := w.queue[1..], written := w.written + [w.queue[0]]);
      assert w'.Log() == w.Log();
      RecordStays(s, k, w', 0, Ok);
    }
  }

  lemma RegisterStays(s: State, k: WorkerKey, path: string, c: Chan)
    ensures PathsStay(s, HandleRegister(s, k, path, c))
  {
    hide PathsStay, SetWorker, Tell, HasCandidate, Reloads;
    NothingStays(s, c, Err(ALREADY_REGISTERED));
    NothingStays(s, c, Err(HAS_CANDIDATE));
    assert NewWorker(path).Log() == [];
    if k !in s.workers { RecordStays(s, k, NewWorker(path), c, Ok); }
  }

  lemma ScanTimeoutStays(s: State, id: nat)
    ensures PathsStay(s, HandleScanTimeout(s, id))
  {
    NothingStays(s, 0, Ok);
    hide PathsStay;
    if id in s.requests {
      FillStays(s, {id}, s.requests[id].results.Keys, Timeout, {id});
    }
  }

  lemma CloseStays(s: State, phase: Phase)
    ensures PathsStay(s, Close(s, phase))
  {
    hide Reloads;
  }

  lemma QueryStays(s: State, scannerId: string, c: Chan)
    ensures PathsStay(s, HandleQuery(s, scannerId, c))
  {
    hide PathsStay, Tell;
    NothingStays(s, c, Err(NO_ACTIVE_WORKER));
    if scannerId in s.active && s.active[scannerId] in s.workers {
      NothingStays(s, c, WorkerReply(s.active[scannerId], s.workers[s.active[scannerId]].signaturePath));
    }
  }

  lemma FailCommandStays(s: State, k: WorkerKey, reason: string, c: Chan)
    ensures PathsStay(s, HandleFail(s, k, reason, c))
  {
    hide PathsStay, Tell, FailWorker;
    FailWorkerStays(s, k, reason);
    TellStays(s, FailWorker(s, k, reason), c, Ok);
    NothingStays(s, c, Err(NOT_REGISTERED));
    NothingStays(s, c, Err(CANNOT_FAIL));
  }

  /** The events that leave every reload as it is, or fail its worker. */
  lemma OtherStays(s: State, e: Event)
    requires RoutesOk(s) && !e.ReloadRequest? && !e.ReloadTimeout? && !e.WorkerMessage?
    ensures PathsStay(s, Handle(s, e))
  {
    hide RoutesOk, PathsStay, FailWorker, Tell, HandleMessage, HandleExit, HandleScan, HandleShutdown, HandleReload, HandleHello, HandleFail,
         HandleHealth, HandleActivate, HandleReloadTimeout, HandleDequeue, Close, HandleRegister, HandleScanTimeout, HandleQuery;
    match e
    case Register(k, path, c) => RegisterStays(s, k, path, c);
    case BeginHello(k, c) => CheckStays(s, k, c);
    case BeginHealth(k, c) => CheckStays(s, k, c);
    case Activate(k, c) => ActivateStays(s, k, c);
    case FailCommand(k, reason, c) => FailCommandStays(s, k, reason, c);
    case WorkerFailure(k, reason) => FailWorkerStays(s, k, reason);
    case WorkerExit(k, code, err) => ExitStays(s, k, code, err);
    case ScanRequest(path, c) => ScanStays(s, path, c);
    case ScanTimeout(id) => ScanTimeoutStays(s, id);
    case QueryActive(scannerId, c) => QueryStays(s, scannerId, c);
    case Shutdown(c) =>
      NothingStays(s, c, Err(STOP_IN_PROGRESS));
      ShutdownStays(s, c);
    case Dequeue(k) => DequeueStays(s, k);
    case Cancel => CloseStays(s, Cancelled);
  }

  lemma MessageMovesPath(s: State, k: WorkerKey, m: Message)
    ensures PathsMove(s, HandleMessage(s, k, m), WorkerMessage(k, m))
  {
    if m.kind == TypeReloadResult && k in s.workers && !s.workers[k].Terminal() {
      ReloadResultMovesPath(s, k, m);
      hide HandleReloadResult, PathsMove, FailWorker;
    } else if m.kind == TypeReloadResult {
      NothingStays(s, 0, Ok);
      hide PathsMove, PathsStay, HandleReloadResult;
      StayMoves(s, s, WorkerMessage(k, m));
    } else {
      hide PathsStay, PathsMove, HandleMessage;
      MessageStays(s, k, m);
      StayMoves(s, HandleMessage(s, k, m), WorkerMessage(k, m));
    }
  }

  lemma HandleMovesPath(s: State, e: Event)
    requires RoutesOk(s)
    ensures PathsMove(s, Handle(s, e), e)
  {
    hide RoutesOk, PathsStay, PathsMove, HandleMessage, HandleReload, HandleReloadTimeout;
    match e
    case WorkerMessage(k, m) => MessageMovesPath(s, k, m);
    case ReloadRequest(scannerId, path, c) => ReloadMovesPath(s, scannerId, path, c);
    case ReloadTimeout(k) => ReloadTimeoutMovesPath(s, k);
    case _ =>
      hide Handle;
      OtherStays(s, e);
      StayMoves(s, Handle(s, e), e);
  }

  lemma StepMovesPath(s: State, e: Event)
    requires RoutesOk(s) && s.phase == Running
    ensures PathsMove(s, Step(s, e), e)
  {
    HandleMovesPath(s, e);
    SamePaths(s, e);
    hide RoutesOk, Step, Handle;
    var t := Handle(s, e);
    var u := Step(s, e);
    forall k | k in u.workers ensures if k in s.workers then PathMoves(s.workers[k], u.workers[k], e, k) else IsNew(u.workers[k]) {
      assert if k in s.workers then PathMoves(s.workers[k], t.workers[k], e, k) else IsNew(t.workers[k]);
      if k in s.workers { SameMoves(s.workers[k], t.workers[k], u.workers[k], e, k); }
    }
  }

  lemma SameMoves(w: Worker, w': Worker, w'': Worker, e: Event, k: WorkerKey)
    requires PathMoves(w, w', e, k)
    requires w'' == w' || w'' == w'.(terminated := true)
    ensures PathMoves(w, w'', e, k)
  {
    assert w''.Log() == w'.Log();
    hide Reloads;
  }

  lemma SamePaths(s: State, e: Event)
    requires s.phase == Running
    ensures var t := Handle(s, e); var u := Step(s, e);
            u.workers.Keys == t.workers.Keys
            && forall k | k in t.workers ::
                 u.workers[k] == t.workers[k] || u.workers[k] == t.workers[k].(terminated := true)
  {
    hide Handle, AllExited;
  }

  // ----- runs

  /** A reload under way is the last one that was asked for. */
  predicate LastAsked(w: Worker) {
    w.reloadReply.Some? ==>
      var asked := Reloads(w.Log());
      asked != [] && asked[|asked| - 1] == ReloadCommand(w.pendingSignaturePath)
  }

  ghost predicate ReloadsOk(s: State) { forall k | k in s.workers :: LastAsked(s.workers[k]) }

  /** How many reloads of the worker are over, whatever came of them. */
  function Ended(w: Worker): int { |Reloads(w.Log())| - if w.reloadReply.Some? then 1 else 0 }

  /** What one event does to one worker, for its path: a path that changes is the last one asked for, and one more reload is over. */
  lemma WorkerReloads(w: Worker, w': Worker, e: Event, k: WorkerKey)
    requires PathMoves(w, w', e, k) && LastAsked(w)
    ensures LastAsked(w')
    ensures |Reloads(w.Log())| <= |Reloads(w'.Log())| && Ended(w) <= Ended(w')
    ensures w'.signaturePath != w.signaturePath ==>
              && Ended(w) < Ended(w') && Reloads(w'.Log()) == Reloads(w.Log()) != []
              && ReloadCommand(w'.signaturePath) == Reloads(w'.Log())[|Reloads(w'.Log())| - 1]
  {
    hide Reloads;
  }

  lemma WorkerStep(s: State, e: Event, k: WorkerKey)
    requires CoreInv(s) && s.phase == Running && k in s.workers
    ensures k in Step(s, e).workers && PathMoves(s.workers[k], Step(s, e).workers[k], e, k)
    ensures s.workers[k].Log() <= Step(s, e).workers[k].Log()
  {
    StepMoves(s, e);
    assert RoutesOk(s);
    hide CoreInv, RoutesOk, Step, Moves, PathMoves;
    StepMovesPath(s, e);
    RuntimeLifecycle.MovesAt(s, Step(s, e), k, Slips(s, e));
  }

  lemma NewRecord(s: State, e: Event, k: WorkerKey)
    requires CoreInv(s) && k !in s.workers && k in Step(s, e).workers
    ensures s.phase == Running && IsNew(Step(s, e).workers[k])
  {
    assert RoutesOk(s);
    hide CoreInv, RoutesOk, Handle, AllExited;
    if s.phase == Running {
      hide Step;
      StepMovesPath(s, e);
    }
  }

  lemma StepReloads(s: State, e: Event)
    requires CoreInv(s) && ReloadsOk(s)
    ensures ReloadsOk(Step(s, e))
  {
    hide CoreInv, Step, PathMoves, Reloads;
    StepStands(s, e);
    forall k | k in Step(s, e).workers ensures LastAsked(Step(s, e).workers[k]) {
      if k !in s.workers {
        NewRecord(s, e, k);
      } else if s.phase == Running {
        WorkerStep(s, e, k);
        WorkerReloads(s.workers[k], Step(s, e).workers[k], e, k);
      }
    }
  }

  lemma StepStands(s: State, e: Event)
    ensures s.phase != Running ==> Step(s, e) == s
  {
  }

  lemma {:induction false} RunReloads(capacity: nat, events: seq<Event>)
    requires EventsOk(events)
    ensures ReloadsOk(Run(capacity, events))
  {
    if events != [] {
      var n := |events| - 1;
      RunReloads(capacity, events[..n]);
      RunKeeps(capacity, events[..n]);
      hide ReloadsOk, CoreInv, Step;
      StepReloads(Run(capacity, events[..n]), events[n]);
    }
  }

  lemma {:induction false} ReloadsInLog(log: seq<Message>, m: Message)
    requires m in Reloads(log)
    ensures m in log
  {
    var n := |log| - 1;
    if m in Reloads(log[..n]) {
      ReloadsInLog(log[..n], m);
    }
  }

  lemma StillQueued(a: seq<Message>, b: seq<Message>, path: string)
    requires ReloadQueued(a, path) && a <= b
    ensures ReloadQueued(b, path)
  {
    var i :| 0 <= i < |a| && a[i] == ReloadCommand(path);
    assert b[i] == ReloadCommand(path);
  }

  /** One more event of a run, as one worker sees it. */
  lemma StepPath(s: State, e: Event, k: WorkerKey)
    requires CoreInv(s) && ReloadsOk(s) && k in s.workers
    ensures k in Step(s, e).workers
    ensures var w, w' := s.workers[k], Step(s, e).workers[k];
            && w.Log() <= w'.Log() && |Reloads(w.Log())| <= |Reloads(w'.Log())| && Ended(w) <= Ended(w')
            && (w'.signaturePath != w.signaturePath ==> Ended(w) < Ended(w') && ReloadQueued(w'.Log(), w'.signaturePath))
  {
    hide CoreInv, Step, PathMoves, Reloads;
    StepStands(s, e);
    if s.phase == Running {
      WorkerStep(s, e, k);
      var w, w' := s.workers[k], Step(s, e).workers[k];
      WorkerReloads(w, w', e, k);
      if w'.signaturePath != w.signaturePath {
        ReloadsInLog(w'.Log(), ReloadCommand(w'.signaturePath));
      }
    }
  }

  /**
   A worker's signature path changes only to a path of a RELOAD that was queued to that worker, however late its
   result, and only when a reload ends.
   */
  lemma {:induction false} SignaturePath(capacity: nat, past: seq<Event>, future: seq<Event>, k: WorkerKey)
    requires EventsOk(past + future) && k in Run(capacity, past).workers
    ensures var w := Run(capacity, past).workers[k]; var t := Run(capacity, past + future);
            && k in t.workers && w.Log() <= t.workers[k].Log()
            && |Reloads(w.Log())| <= |Reloads(t.workers[k].Log())| && Ended(w) <= Ended(t.workers[k])
            && (t.workers[k].signaturePath != w.signaturePath ==>
                  Ended(w) < Ended(t.workers[k]) && ReloadQueued(t.workers[k].Log(), t.workers[k].signaturePath))
    decreases |future|
  {
    if future == [] {
      assert past + future == past;
    } else {
      var rest := future[..|future| - 1];
      SplitLast(past, future);
      EventsOkPrefix(past, future);
      hide EventsOk, ReloadsOk, CoreInv, Step, ReloadQueued, Ended, Reloads;
      SignaturePath(capacity, past, rest, k);
      RunKeeps(capacity, past + rest);
      RunReloads(capacity, past + rest);
      StepPath(Run(capacity, past + rest), future[|future| - 1], k);
      var s, t := Run(capacity, past + rest), Run(capacity, past + future);
      if ReloadQueued(s.workers[k].Log(), s.workers[k].signaturePath) {
        StillQueued(s.workers[k].Log(), t.workers[k].Log(), s.workers[k].signaturePath);
      }
    }
  }

  // ----- which reload a path is credited to

  /** Event e is a good result for worker k while a reload of it is under way; which one it answers is not checked. */
  predicate Credits(s: State, e: Event, k: WorkerKey) {
    && s.phase == Running && IsResult(e, k) && e.message.success
    && k in s.workers && !s.workers[k].Terminal() && s.workers[k].reloadReply.Some?
  }

  /** The number, counted from one, of the reload that the last such result was credited to; 0 if there was none. */
  function Credited(capacity: nat, events: seq<Event>, k: WorkerKey): nat {
    if events == [] then 0
    else
      var n := |events| - 1;
      var s := Run(capacity, events[..n]);
      if Credits(s, events[n], k) then |Reloads(s.workers[k].Log())| else Credited(capacity, events[..n], k)
  }

  /** The path that worker k was registered with. */
  function FirstPath(capacity: nat, events: seq<Event>, k: WorkerKey): string {
    if events == [] then ""
    else
      var n := |events| - 1;
      var s := Run(capacity, events);
      if k in s.workers && k !in Run(capacity, events[..n]).workers then s.workers[k].signaturePath
      else FirstPath(capacity, events[..n], k)
  }

  /** What one event does to the path of one worker, when its reloads are numbered. */
  lemma CreditMoves(w: Worker, w': Worker, e: Event, k: WorkerKey, s: State, first: string, credited: nat)
    requires PathMoves(w, w', e, k) && LastAsked(w) && s.phase == Running && k in s.workers && s.workers[k] == w
    requires credited <= |Reloads(w.Log())| && w.signaturePath == PathOf(first, Reloads(w.Log()), credited)
    ensures var now := if Credits(s, e, k) then |Reloads(w.Log())| else credited;
            now <= |Reloads(w'.Log())| && w'.signaturePath == PathOf(first, Reloads(w'.Log()), now)
  {
    hide Reloads;
  }

  /**
   Over every run: a worker's signature path is that of the reload last credited with a good result, or, before any,
   the one it was registered with.
   */
  lemma {:induction false} CreditedPath(capacity: nat, events: seq<Event>, k: WorkerKey)
    requires EventsOk(events)
    ensures var s, n := Run(capacity, events), Credited(capacity, events, k);
            if k in s.workers then
              n <= |Reloads(s.workers[k].Log())|
              && s.workers[k].signaturePath == PathOf(FirstPath(capacity, events, k), Reloads(s.workers[k].Log()), n)
            else n == 0
  {
    if events != [] {
      var n := |events| - 1;
      var s, e := Run(capacity, events[..n]), events[n];
      CreditedPath(capacity, events[..n], k);
      RunKeeps(capacity, events[..n]);
      RunReloads(capacity, events[..n]);
      hide CoreInv, Step, PathMoves, Reloads;
      StepStands(s, e);
      if k in s.workers {
        if s.phase == Running {
          WorkerStep(s, e, k);
          CreditMoves(s.workers[k], Step(s, e).workers[k], e, k, s, FirstPath(capacity, events[..n], k), Credited(capacity, events[..n], k));
        }
      } else if k in Step(s, e).workers {
        NewRecord(s, e, k);
      }
    }
  }
}
