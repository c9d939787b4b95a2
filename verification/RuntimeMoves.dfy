/** How one event may change the state: what grows, what only moves forward, what is written once. */
module RuntimeMoves {
  import opened Wrappers
  import opened Messages
  import opened RuntimeSpec
  import opened RuntimeInvariants
  import opened RuntimeSafety

  // ----- one worker

  function Rank(state: WorkerState): nat {
    match state
    case Starting => 0
    case Healthy => 1
    case Active => 2
    case Draining => 3
    case Retired => 4
    case Failed => 4
  }

  /** The documented lifecycle: STARTING, HEALTHY, ACTIVE, DRAINING, RETIRED in this order, FAILED from any live state. */
  predicate Forward(a: WorkerState, b: WorkerState) { a == b || Rank(a) < Rank(b) }

  /** What may happen to one worker; `loose` drops the claim that its state moves forward. */
  ghost predicate Evolves(w: Worker, w': Worker, loose: bool) {
    && (w.Terminal() ==> w'.state == w.state && w'.failureReason == w.failureReason)
    && (!loose ==> Forward(w.state, w'.state))
    && (w.shutdownSent ==> w'.shutdownSent)
    && (w.exited ==> w'.exited)
    && w.Log() <= w'.Log()
    && w.written <= w'.written
  }

  // ----- the whole state

  /** Request id is tracked and waits for worker k. */
  predicate Waits(requests: map<nat, Request>, id: nat, k: WorkerKey) {
    id in requests && k in requests[id].results && Pending(requests[id].results[k])
  }

  predicate Known(s: State, id: nat) { id in s.requests || id in s.completed }

  /** The request admitted under `id`, tracked or answered. */
  function Book(s: State, id: nat): Request
    requires Known(s, id)
  {
    if id in s.requests then s.requests[id] else s.completed[id]
  }

  /** Same file, same caller, same entries, and those answered stay as they are. */
  ghost predicate WrittenOnce(r: Request, r': Request) {
    && r'.path == r.path && r'.reply == r.reply && r'.results.Keys == r.results.Keys
    && forall k | k in r.results && !Pending(r.results[k]) :: r'.results[k] == r.results[k]
  }

  ghost predicate WorkersMove(s: State, t: State, loose: bool) {
    s.workers.Keys <= t.workers.Keys
    && forall k | k in s.workers :: Evolves(s.workers[k], t.workers[k], loose)
  }

  ghost predicate BooksMove(s: State, t: State) {
    && (forall id | Known(s, id) :: Known(t, id) && WrittenOnce(Book(s, id), Book(t, id)))
    && (forall id | id in s.completed && id !in s.requests :: id in t.completed && id !in t.requests && t.completed[id] == s.completed[id])
  }

  ghost predicate Moves(s: State, t: State, loose: bool := false) {
    && WorkersMove(s, t, loose)
    && BooksMove(s, t)
    && s.sends <= t.sends
    && s.nextRequestID <= t.nextRequestID
    && (s.stopReply.Some? ==> t.stopReply == s.stopReply && t.nextRequestID == s.nextRequestID)
  }

  lemma MovesTrans(s: State, t: State, u: State, loose: bool := false)
    requires Moves(s, t, loose) && Moves(t, u, loose)
    ensures Moves(s, u, loose)
  {
    hide Known, Book, Evolves, WrittenOnce, BooksMove;
    forall k | k in s.workers ensures Evolves(s.workers[k], u.workers[k], loose) {
      EvolvesTrans(s.workers[k], t.workers[k], u.workers[k], loose);
    }
    BooksTrans(s, t, u);
  }

  lemma BooksTrans(s: State, t: State, u: State)
    requires BooksMove(s, t) && BooksMove(t, u)
    ensures BooksMove(s, u)
  {
    hide Book;
    forall id | Known(s, id) ensures Known(u, id) && WrittenOnce(Book(s, id), Book(u, id)) {
      assert WrittenOnce(Book(s, id), Book(t, id)) && WrittenOnce(Book(t, id), Book(u, id));
    }
  }

  lemma EvolvesTrans(v: Worker, w: Worker, x: Worker, loose: bool)
    requires Evolves(v, w, loose) && Evolves(w, x, loose)
    ensures Evolves(v, x, loose)
  {
  }

  lemma Loosen(s: State, t: State, loose: bool)
    requires Moves(s, t)
    ensures Moves(s, t, loose)
  {
    hide BooksMove;
  }

  lemma EvolvesSame(w: Worker, w': Worker, loose: bool)
    requires w'.state == w.state && w'.failureReason == w.failureReason && w'.shutdownSent == w.shutdownSent && (w.exited ==> w'.exited)
    requires w'.queue == w.queue && w'.written == w.written
    ensures Evolves(w, w', loose)
  {
    assert w'.Log() == w.Log();
  }

  lemma EvolvesPush(w: Worker, w': Worker, m: Message, loose: bool)
    requires Evolves(w, w', loose)
    ensures Evolves(w, Push(w', m), loose)
  {
    assert Push(w', m).Log() == w'.Log() + [m];
  }

  lemma EvolvesShutdown(w: Worker, w': Worker, capacity: nat, loose: bool)
    requires Evolves(w, w', loose)
    ensures Evolves(w, RequestShutdown(w', capacity), loose)
  {
    var w1 := w'.(shutdownSent := true);
    assert w1.Log() == w'.Log() && Push(w1, Command(TypeShutdown)).Log() == w'.Log() + [Command(TypeShutdown)];
    assert w'.(shutdownSent := true, terminated := true).Log() == w'.Log();
  }

  lemma EvolvesRelease(w: Worker, n: nat, capacity: nat, loose: bool)
    ensures Evolves(w, Release(w, n, capacity), loose)
  {
    var left := if w.inFlight > n then w.inFlight - n else 0;
    var w' := w.(inFlight := left);
    EvolvesSame(w, w, loose);
    EvolvesSame(w, w', loose);
    EvolvesShutdown(w, w', capacity, loose);
    hide Evolves, RequestShutdown;
  }

  lemma EvolvesFailed(w: Worker, reason: string, loose: bool)
    requires !w.Terminal()
    ensures Evolves(w, MarkFailed(w, reason), loose)
  {
    assert MarkFailed(w, reason).Log() == w.Log();
  }

  // ----- primitives

  lemma SameBooksMove(s: State, t: State)
    requires t.requests == s.requests && t.completed == s.completed
    ensures BooksMove(s, t)
  {
  }

  /** One worker record changes, and perhaps replies are sent. */
  lemma SetMoves(s: State, t: State, k: WorkerKey, w: Worker, loose: bool := false)
    requires SameBooks(s, t) && t.workers == s.workers[k := w]
    requires k in s.workers ==> Evolves(s.workers[k], w, loose)
    ensures Moves(s, t, loose)
  {
    SameBooksMove(s, t);
    hide BooksMove;
    forall j | j in s.workers ensures Evolves(s.workers[j], t.workers[j], loose) {
      EvolvesSame(s.workers[j], s.workers[j], loose);
    }
  }

  lemma NoMove(s: State, t: State)
    requires SameBooks(s, t) && t.workers == s.workers
    ensures Moves(s, t)
  {
    SameBooksMove(s, t);
    hide BooksMove;
    forall j | j in s.workers ensures Evolves(s.workers[j], t.workers[j], false) {
      EvolvesSame(s.workers[j], s.workers[j], false);
    }
  }

  lemma FillFinishBooks(s: State, ids: set<nat>, keys: set<WorkerKey>, cause: Cause, done: set<nat>)
    requires done <= s.requests.Keys
    ensures BooksMove(s, FillFinish(s, ids, keys, cause, done))
  {
    hide Release, Using, Answered, Entry, RepliesTo;
    var t := FillFinish(s, ids, keys, cause, done);
    forall id | Known(s, id) ensures Known(t, id) && WrittenOnce(Book(s, id), Book(t, id)) {
      if id in s.requests {
        var f := Fill(s, ids, keys, cause).requests[id];
        assert WrittenOnce(s.requests[id], f);
        assert id in done ==> t.completed[id] == f.(timer := false) && id !in t.requests;
      }
    }
  }

  lemma FillFinishWorkersMove(s: State, ids: set<nat>, keys: set<WorkerKey>, cause: Cause, done: set<nat>)
    requires done <= s.requests.Keys
    ensures WorkersMove(s, FillFinish(s, ids, keys, cause, done), false)
  {
    var t := FillFinish(s, ids, keys, cause, done);
    forall k | k in s.workers ensures Evolves(s.workers[k], t.workers[k], false) {
      hide Release, Evolves;
      EvolvesRelease(s.workers[k], |Using(Fill(s, ids, keys, cause).requests, done, k)|, s.capacity, false);
    }
  }

  lemma FillFinishMoves(s: State, ids: set<nat>, keys: set<WorkerKey>, cause: Cause, done: set<nat>)
    requires done <= s.requests.Keys
    ensures Moves(s, FillFinish(s, ids, keys, cause, done))
  {
    hide WorkersMove, BooksMove;
    FillFinishBooks(s, ids, keys, cause, done);
    FillFinishWorkersMove(s, ids, keys, cause, done);
    FillFinishShape(s, ids, keys, cause, done);
  }

  lemma SettleMoves(s: State, ids: set<nat>, keys: set<WorkerKey>, cause: Cause)
    ensures Moves(s, Settle(s, ids, keys, cause))
  {
    hide Moves;
    FillFinishMoves(s, ids, keys, cause, Ready(s.requests, ids, keys));
  }

  lemma MarkMoves(s: State, keys: set<WorkerKey>, reason: string)
    requires forall k | k in keys && k in s.workers :: !s.workers[k].Terminal()
    ensures Moves(s, Mark(s, keys, reason))
  {
    var t := Mark(s, keys, reason);
    SameBooksMove(s, t);
    hide BooksMove;
    forall k | k in s.workers ensures Evolves(s.workers[k], t.workers[k], false) {
      if k in keys {
        EvolvesFailed(s.workers[k], reason, false);
      } else {
        EvolvesSame(s.workers[k], s.workers[k], false);
      }
      hide Evolves;
    }
  }

  lemma FailAllMoves(s: State, keys: set<WorkerKey>, reason: string)
    requires forall k | k in keys && k in s.workers :: !s.workers[k].Terminal()
    ensures Moves(s, FailAll(s, keys, reason))
  {
    hide Moves, Mark, Settle;
    var marked := Mark(s, keys, reason);
    MarkMoves(s, keys, reason);
    SettleMoves(marked, marked.requests.Keys, keys, Unavailable(reason));
    MovesTrans(s, marked, FailAll(s, keys, reason));
  }

  lemma FailWorkerMoves(s: State, k: WorkerKey, reason: string)
    ensures Moves(s, FailWorker(s, k, reason))
  {
    if k in s.workers && !s.workers[k].Terminal() {
      hide Moves, FailAll;
      FailAllMoves(s, {k}, reason);
    } else {
      hide Moves;
      NoMove(s, s);
    }
  }

  lemma ThenTell(s: State, t: State, c: Chan, r: Reply)
    requires Moves(s, t)
    ensures Moves(s, Tell(t, c, r))
  {
    hide Moves;
    NoMove(t, Tell(t, c, r));
    MovesTrans(s, t, Tell(t, c, r));
  }

  lemma ThenFail(s: State, t: State, k: WorkerKey, reason: string)
    requires Moves(s, t)
    ensures Moves(s, FailWorker(t, k, reason))
  {
    hide Moves, FailWorker;
    FailWorkerMoves(t, k, reason);
    MovesTrans(s, t, FailWorker(t, k, reason));
  }

  // ----- events

  /** A command is answered at once and changes nothing else. */
  lemma TellMoves(s: State, c: Chan, r: Reply)
    ensures Moves(s, Tell(s, c, r))
  {
    hide Moves;
    NoMove(s, Tell(s, c, r));
  }

  lemma RecordMoves(s: State, k: WorkerKey, w: Worker)
    requires k in s.workers ==> Evolves(s.workers[k], w, false)
    ensures Moves(s, SetWorker(s, k, w))
  {
    hide Moves, Evolves;
    SetMoves(s, SetWorker(s, k, w), k, w);
  }

  lemma RegisterMoves(s: State, k: WorkerKey, path: string, c: Chan)
    ensures Moves(s, HandleRegister(s, k, path, c))
  {
    hide Moves, Tell, SetWorker;
    TellMoves(s, c, Err(ALREADY_REGISTERED));
    TellMoves(s, c, Err(HAS_CANDIDATE));
    if k !in s.workers {
      RecordMoves(s, k, NewWorker(path));
      ThenTell(s, SetWorker(s, k, NewWorker(path)), c, Ok);
    }
  }

  /** A message is queued and the caller's channel is kept, or the queue is full and the worker fails. */
  lemma AskMoves(s: State, k: WorkerKey, w: Worker, m: Message, c: Chan)
    requires k in s.workers && w.state == s.workers[k].state && w.failureReason == s.workers[k].failureReason
    requires w.shutdownSent == s.workers[k].shutdownSent
    requires w.queue == s.workers[k].queue && w.written == s.workers[k].written && w.exited == s.workers[k].exited
    ensures Moves(s, SetWorker(s, k, Push(w, m)))
    ensures Moves(s, FailWorker(Tell(s, c, Err(QUEUE_FULL)), k, QUEUE_FULL))
    ensures Moves(s, FailWorker(Tell(SetWorker(s, k, w), c, Err(QUEUE_FULL)), k, QUEUE_FULL))
  {
    EvolvesSame(s.workers[k], w, false);
    EvolvesPush(s.workers[k], w, m, false);
    hide Moves, Evolves, SetWorker, FailWorker, Push;
    RecordMoves(s, k, Push(w, m));
    RecordMoves(s, k, w);
    ThenTell(s, SetWorker(s, k, w), c, Err(QUEUE_FULL));
    ThenFail(s, Tell(SetWorker(s, k, w), c, Err(QUEUE_FULL)), k, QUEUE_FULL);
    TellMoves(s, c, Err(QUEUE_FULL));
    ThenFail(s, Tell(s, c, Err(QUEUE_FULL)), k, QUEUE_FULL);
  }

  lemma HelloMoves(s: State, k: WorkerKey, c: Chan)
    ensures Moves(s, HandleHello(s, k, c))
  {
    hide Moves, FailWorker;
    TellMoves(s, c, Err(NOT_STARTING));
    TellMoves(s, c, Err(ALREADY_PENDING));
    if k in s.workers {
      AskMoves(s, k, s.workers[k].(helloReply := Some(c)), Command(TypeHello), c);
    }
  }

  lemma HealthMoves(s: State, k: WorkerKey, c: Chan)
    ensures Moves(s, HandleHealth(s, k, c))
  {
    hide Moves, FailWorker;
    TellMoves(s, c, Err(NOT_STARTING));
    TellMoves(s, c, Err(ALREADY_PENDING));
    if k in s.workers {
      AskMoves(s, k, s.workers[k].(healthReply := Some(c)), Command(TypeHealthCheck), c);
    }
  }

  lemma RetreatMoves(w: Worker, capacity: nat, loose: bool)
    requires w.state == Active
    ensures Evolves(w, Retreat(w, capacity), loose)
  {
    var w' := w.(state := Draining);
    assert w'.Log() == w.Log();
    EvolvesShutdown(w, w', capacity, loose);
  }

  lemma ActivateMoves(s: State, k: WorkerKey, c: Chan)
    requires RoutesOk(s)
    ensures Moves(s, HandleActivate(s, k, c))
  {
    hide Moves;
    TellMoves(s, c, Err(NOT_HEALTHY));
    if k in s.workers && s.workers[k].state == Healthy {
      var d := Displace(s, k.scannerId);
      NoMove(s, s);
      if k.scannerId in s.active {
        var p := s.active[k.scannerId];
        RetreatMoves(s.workers[p], s.capacity, false);
        RecordMoves(s, p, Retreat(s.workers[p], s.capacity));
        hide Retreat;
      }
      assert d.workers[k] == s.workers[k];
      assert d.workers[k].(state := Active).Log() == d.workers[k].Log();
      var t := Promote(d, k);
      hide RoutesOk, Displace;
      SetMoves(d, t, k, d.workers[k].(state := Active));
      MovesTrans(s, d, t);
      ThenTell(s, t, c, Ok);
    }
  }

  lemma FailCommandMoves(s: State, k: WorkerKey, reason: string, c: Chan)
    ensures Moves(s, HandleFail(s, k, reason, c))
  {
    hide Moves, FailWorker;
    TellMoves(s, c, Err(NOT_REGISTERED));
    TellMoves(s, c, Err(CANNOT_FAIL));
    FailWorkerMoves(s, k, reason);
    ThenTell(s, FailWorker(s, k, reason), c, Ok);
  }

  /** One record changes in a way that its slots may be answered. */
  lemma AnswerMoves(s: State, k: WorkerKey, w: Worker, c: Chan, r: Reply)
    requires k in s.workers && Evolves(s.workers[k], w, false)
    ensures Moves(s, SetWorker(s, k, w)) && Moves(s, Tell(SetWorker(s, k, w), c, r))
  {
    hide Moves, Evolves, SetWorker;
    RecordMoves(s, k, w);
    ThenTell(s, SetWorker(s, k, w), c, r);
  }

  lemma HelloAckMoves(s: State, k: WorkerKey, m: Message)
    requires k in s.workers
    ensures Moves(s, HandleHelloAck(s, k, m))
  {
    hide Moves, FailWorker;
    FailWorkerMoves(s, k, UNEXPECTED_MESSAGE);
    var w := s.workers[k];
    EvolvesSame(w, w.(helloReply := None), false);
    if w.helloReply.Some? {
      AnswerMoves(s, k, w.(helloReply := None), w.helloReply.value, HelloOutcome(k, m));
    }
  }

  /** After shutdown began, a HEALTH_RESULT that was still awaited takes a DRAINING worker back to HEALTHY. */
  predicate Regresses(s: State, e: Event, k: WorkerKey) {
    && e.WorkerMessage? && e.key == k && e.message.kind == TypeHealthResult && e.message.status == "ok"
    && s.phase == Running
    && k in s.workers && s.workers[k].state == Draining && s.workers[k].healthReply.Some?
  }

  predicate Slips(s: State, e: Event) { e.WorkerMessage? && Regresses(s, e, e.key) }

  lemma HealthyAgain(w: Worker, stopping: bool, loose: bool)
    requires WorkerOk(w, stopping) && w.healthReply.Some? && !w.Terminal()
    requires !loose ==> w.state != Draining
    ensures Evolves(w, w.(state := Healthy, healthReply := None), loose)
  {
    assert w.(state := Healthy, healthReply := None).Log() == w.Log();
  }

  lemma HealthResultMoves(s: State, k: WorkerKey, m: Message)
    requires CoreInv(s) && k in s.workers && !s.workers[k].Terminal() && m.kind == TypeHealthResult && s.phase == Running
    ensures Moves(s, HandleHealthResult(s, k, m), Slips(s, WorkerMessage(k, m)))
  {
    hide Moves, FailWorker, RoutesOk, CountsOk, RequestsOk, CandidatesOk, HistoryOk, WorkersOk, QueuesOk, WorkerOk;
    var w := s.workers[k];
    var loose := Slips(s, WorkerMessage(k, m));
    if w.healthReply.None? {
      FailWorkerMoves(s, k, UNEXPECTED_MESSAGE);
      Loosen(s, FailWorker(s, k, UNEXPECTED_MESSAGE), loose);
    } else if m.status != "ok" {
      EvolvesSame(w, w.(healthReply := None), false);
      AnswerMoves(s, k, w.(healthReply := None), w.healthReply.value, Err(UNHEALTHY));
    } else {
      RecordOk(s, k);
      HealthyAgain(w, s.stopReply.Some?, loose);
      hide Evolves;
      var w' := w.(state := Healthy, healthReply := None);
      SetMoves(s, Tell(SetWorker(s, k, w'), w.healthReply.value, Ok), k, w', loose);
    }
  }

  lemma ReloadResultMoves(s: State, k: WorkerKey, m: Message)
    requires k in s.workers
    ensures Moves(s, HandleReloadResult(s, k, m))
  {
    hide Moves;
    NoMove(s, s);
    var w := s.workers[k];
    if w.reloadReply.Some? {
      var w' := w.(reloadReply := None, reloadTimer := false, pendingSignaturePath := "",
                   signaturePath := if m.success then w.pendingSignaturePath else w.signaturePath);
      EvolvesSame(w, w', false);
      AnswerMoves(s, k, w', w.reloadReply.value,
                  ReloadReply(k, m.signatureCount, if m.success then None else Some(m.error)));
    }
  }

  lemma AckMoves(s: State, k: WorkerKey)
    requires k in s.workers
    ensures Moves(s, HandleAck(s, k))
  {
    hide Moves, FailWorker;
    FailWorkerMoves(s, k, UNEXPECTED_MESSAGE);
    var w := s.workers[k].(shutdownAck := true, terminated := true);
    EvolvesSame(s.workers[k], w, false);
    RecordMoves(s, k, w);
  }

  lemma MessageMoves(s: State, k: WorkerKey, m: Message)
    requires CoreInv(s) && s.phase == Running
    ensures Moves(s, HandleMessage(s, k, m), Slips(s, WorkerMessage(k, m)))
  {
    hide Moves, CoreInv, FailWorker, Settle;
    NoMove(s, s);
    FailWorkerMoves(s, k, UNEXPECTED_MESSAGE);
    if k in s.workers && !s.workers[k].Terminal() {
      match m.kind
      case TypeHelloAck => HelloAckMoves(s, k, m);
      case TypeHealthResult => HealthResultMoves(s, k, m);
      case TypeScanResult => SettleMoves(s, {m.requestId}, {k}, Answer(m));
      case TypeReloadResult => ReloadResultMoves(s, k, m);
      case TypeShutdownAck => AckMoves(s, k);
      case _ =>
    }
  }

  lemma ExitMoves(s: State, k: WorkerKey, code: int, err: Option<string>)
    ensures Moves(s, HandleExit(s, k, code, err))
  {
    hide Moves, FailWorker;
    NoMove(s, s);
    if k in s.workers {
      var x := Exited(s.workers[k], code, err);
      EvolvesSame(s.workers[k], x, false);
      assert x.(state := Retired).Log() == s.workers[k].Log();
      RecordMoves(s, k, x);
      if s.workers[k].state == Draining {
        RecordMoves(s, k, x.(state := Retired));
      }
      hide Exited;
      ThenFail(s, SetWorker(s, k, x), k, EXITED);
    }
  }

  lemma AdmitBooks(s: State, path: string, c: Chan)
    requires s.nextRequestID + 1 !in s.requests && s.nextRequestID + 1 !in s.completed
    ensures BooksMove(s, Admit(s, path, c))
  {
    var t := Admit(s, path, c);
    assert forall id | id in s.requests :: id in t.requests && t.requests[id] == s.requests[id];
    assert t.completed == s.completed;
  }

  lemma AdmitMoves(s: State, path: string, c: Chan)
    requires s.nextRequestID + 1 !in s.requests && s.nextRequestID + 1 !in s.completed && s.stopReply.None?
    ensures Moves(s, Admit(s, path, c))
  {
    var t := Admit(s, path, c);
    AdmitBooks(s, path, c);
    hide BooksMove, Evolves;
    forall k | k in s.workers ensures Evolves(s.workers[k], t.workers[k], false) {
      EvolvesSame(s.workers[k], t.workers[k], false);
    }
  }

  lemma PushAllMoves(s: State, keys: set<WorkerKey>, m: Message)
    ensures Moves(s, PushAll(s, keys, m))
  {
    var t := PushAll(s, keys, m);
    SameBooksMove(s, t);
    hide BooksMove, Evolves;
    forall k | k in s.workers ensures Evolves(s.workers[k], t.workers[k], false) {
      EvolvesSame(s.workers[k], s.workers[k], false);
      EvolvesPush(s.workers[k], s.workers[k], m, false);
    }
  }

  lemma NewIdUnknown(s: State)
    requires HistoryOk(s)
    ensures s.nextRequestID + 1 !in s.completed
  {
    hide CompletedOk;
  }

  lemma DispatchedMoves(s: State, path: string, c: Chan)
    requires CoreInv(s) && s.stopReply.None?
    ensures Moves(s, Dispatched(s, path, c, s.active.Values))
  {
    hide Moves, RoutesOk, CountsOk, RequestsOk, CandidatesOk, HistoryOk, WorkersOk, QueuesOk, Admit, PushAll;
    NewIdUnused(s);
    NewIdUnknown(s);
    var a := Admit(s, path, c);
    AdmitMoves(s, path, c);
    var keys := s.active.Values - Full(a, s.active.Values);
    PushAllMoves(a, keys, ScanCommand(s.nextRequestID + 1, path));
    MovesTrans(s, a, PushAll(a, keys, ScanCommand(s.nextRequestID + 1, path)));
  }

  /** The workers that fail in a dispatch were routed, hence live. */
  lemma FullIsLive(s: State, path: string, c: Chan)
    requires RoutesOk(s)
    ensures var d := Dispatched(s, path, c, s.active.Values);
            forall k | k in Full(Admit(s, path, c), s.active.Values) && k in d.workers :: !d.workers[k].Terminal()
  {
    var d := Dispatched(s, path, c, s.active.Values);
    forall k | k in s.active.Values && k in d.workers ensures d.workers[k].state == Active {
      assert s.workers[k].state == Active;
    }
  }

  lemma ScanMoves(s: State, path: string, c: Chan)
    requires CoreInv(s)
    ensures Moves(s, HandleScan(s, path, c))
  {
    hide Moves;
    if s.stopReply.Some? {
      TellMoves(s, c, Err(SHUTTING_DOWN));
    } else if s.active == map[] {
      TellMoves(s, c, Err(NO_ACTIVE));
    } else {
      FullIsLive(s, path, c);
      hide CoreInv, FailAll, Admit, Full;
      DispatchedMoves(s, path, c);
      var d := Dispatched(s, path, c, s.active.Values);
      var full := Full(Admit(s, path, c), s.active.Values);
      FailAllMoves(d, full, QUEUE_FULL);
      MovesTrans(s, d, FailAll(d, full, QUEUE_FULL));
    }
  }

  lemma ScanTimeoutMoves(s: State, id: nat)
    ensures Moves(s, HandleScanTimeout(s, id))
  {
    hide Moves;
    NoMove(s, s);
    if id in s.requests {
      FillFinishMoves(s, {id}, s.requests[id].results.Keys, Timeout, {id});
    }
  }

  lemma ReloadMoves(s: State, scannerId: string, path: string, c: Chan)
    ensures Moves(s, HandleReload(s, scannerId, path, c))
  {
    hide Moves, FailWorker;
    TellMoves(s, c, Err(NO_ACTIVE_WORKER));
    TellMoves(s, c, Err(RELOAD_IN_PROGRESS));
    if scannerId in s.active && s.active[scannerId] in s.workers {
      var k := s.active[scannerId];
      var w := s.workers[k];
      AskMoves(s, k, w.(reloadReply := Some(c), pendingSignaturePath := path, reloadTimer := true), ReloadCommand(path), c);
      AskMoves(s, k, w.(pendingSignaturePath := ""), ReloadCommand(path), c);
    }
  }

  lemma ReloadTimeoutMoves(s: State, k: WorkerKey)
    ensures Moves(s, HandleReloadTimeout(s, k))
  {
    hide Moves;
    NoMove(s, s);
    if k in s.workers && s.workers[k].reloadReply.Some? {
      var w' := s.workers[k].(reloadReply := None, pendingSignaturePath := "");
      EvolvesSame(s.workers[k], w', false);
      AnswerMoves(s, k, w', s.workers[k].reloadReply.value, Err(RELOAD_TIMED_OUT));
    }
  }

  lemma DrainMoves(s: State)
    requires s.stopReply.Some?
    ensures Moves(s, DrainAll(s))
  {
    var t := DrainAll(s);
    SameBooksMove(s, t);
    hide BooksMove;
    forall k | k in s.workers ensures Evolves(s.workers[k], t.workers[k], false) {
      var w := s.workers[k];
      if w.Terminal() {
        EvolvesSame(w, w, false);
      } else {
        assert w.(state := Draining).Log() == w.Log();
        assert Evolves(w, w.(state := Draining), false);
        EvolvesShutdown(w, w.(state := Draining), s.capacity, false);
      }
      hide Evolves, RequestShutdown;
    }
  }

  lemma StopMoves(s: State, c: Chan)
    requires s.stopReply.None?
    ensures Moves(s, s.(stopReply := Some(c)))
  {
    var t := s.(stopReply := Some(c));
    SameBooksMove(s, t);
    hide BooksMove;
    forall k | k in s.workers ensures Evolves(s.workers[k], t.workers[k], false) {
      EvolvesSame(s.workers[k], s.workers[k], false);
    }
  }

  lemma ShutdownMoves(s: State, c: Chan)
    requires s.stopReply.None?
    ensures Moves(s, HandleShutdown(s, c))
  {
    hide Moves, DrainAll, AbandonAll;
    var h := s.(stopReply := Some(c));
    StopMoves(s, c);
    AbandonMoves(h);
    MovesTrans(s, h, AbandonAll(h));
    DrainMoves(AbandonAll(h));
    MovesTrans(s, AbandonAll(h), DrainAll(AbandonAll(h)));
  }

  lemma AbandonMoves(s: State)
    ensures Moves(s, AbandonAll(s)) && AbandonAll(s).stopReply == s.stopReply
  {
    hide Moves;
    FillFinishMoves(s, s.requests.Keys, s.workers.Keys, Unavailable(SHUTTING_DOWN), s.requests.Keys);
  }

  lemma DequeueMoves(s: State, k: WorkerKey)
    ensures Moves(s, HandleDequeue(s, k))
  {
    hide Moves;
    NoMove(s, s);
    if k in s.workers && s.workers[k].queue != [] {
      var w := s.workers[k];
      var w' := w.(queue := w.queue[1..], written := w.written + [w.queue[0]]);
      assert w'.Log() == w.Log();
      RecordMoves(s, k, w');
    }
  }

  lemma CloseMoves(s: State, phase: Phase)
    ensures Moves(s, Close(s, phase))
  {
    var t := Close(s, phase);
    SameBooksMove(s, t);
    hide BooksMove, Evolves;
    forall k | k in s.workers ensures Evolves(s.workers[k], t.workers[k], false) {
      EvolvesSame(s.workers[k], t.workers[k], false);
    }
  }

  lemma HandleMoves(s: State, e: Event)
    requires CoreInv(s) && s.phase == Running
    ensures Moves(s, Handle(s, e), Slips(s, e))
  {
    hide Moves, RoutesOk, CountsOk, RequestsOk, CandidatesOk, HistoryOk, WorkersOk, QueuesOk, FailWorker;
    match e
    case Register(k, path, c) => RegisterMoves(s, k, path, c);
    case BeginHello(k, c) => HelloMoves(s, k, c);
    case BeginHealth(k, c) => HealthMoves(s, k, c);
    case Activate(k, c) => ActivateMoves(s, k, c);
    case FailCommand(k, reason, c) => FailCommandMoves(s, k, reason, c);
    case WorkerMessage(k, m) => MessageMoves(s, k, m);
    case WorkerFailure(k, reason) => FailWorkerMoves(s, k, reason);
    case WorkerExit(k, code, err) => ExitMoves(s, k, code, err);
    case ScanRequest(path, c) => ScanMoves(s, path, c);
    case ScanTimeout(id) => ScanTimeoutMoves(s, id);
    case ReloadRequest(scannerId, path, c) => ReloadMoves(s, scannerId, path, c);
    case ReloadTimeout(k) => ReloadTimeoutMoves(s, k);
    case QueryActive(scannerId, c) => QueryMoves(s, scannerId, c);
    case Shutdown(c) =>
      if s.stopReply.Some? {
        TellMoves(s, c, Err(STOP_IN_PROGRESS));
      } else {
        ShutdownMoves(s, c);
      }
    case Dequeue(k) => DequeueMoves(s, k);
    case Cancel => CloseMoves(s, Cancelled);
  }

  lemma QueryMoves(s: State, scannerId: string, c: Chan)
    ensures Moves(s, HandleQuery(s, scannerId, c))
  {
    hide Moves;
    TellMoves(s, c, Err(NO_ACTIVE_WORKER));
    if scannerId in s.active && s.active[scannerId] in s.workers {
      TellMoves(s, c, WorkerReply(s.active[scannerId], s.workers[s.active[scannerId]].signaturePath));
    }
  }

  lemma StepMoves(s: State, e: Event)
    requires CoreInv(s)
    ensures Moves(s, Step(s, e), Slips(s, e))
  {
    hide Moves, CoreInv, Handle, Close;
    if s.phase == Running {
      var t := Handle(s, e);
      HandleMoves(s, e);
      if t.stopReply.Some? {
        var u := Tell(t, t.stopReply.value, Ok);
        TellMoves(t, t.stopReply.value, Ok);
        CloseMoves(u, ShutDown);
        MovesTrans(t, u, Close(u, ShutDown));
        Loosen(t, Close(u, ShutDown), Slips(s, e));
        MovesTrans(s, t, Close(u, ShutDown), Slips(s, e));
      }
    } else {
      NoMove(s, s);
    }
  }

  // ----- runs

  lemma SplitLast(past: seq<Event>, future: seq<Event>)
    requires future != []
    ensures var all := past + future; var n := |all| - 1;
            all[..n] == past + future[..|future| - 1] && all[n] == future[|future| - 1]
  {
  }

  lemma EventsOkPrefix(past: seq<Event>, future: seq<Event>)
    requires EventsOk(past + future)
    ensures EventsOk(past) && (future != [] ==> EventsOk(past + future[..|future| - 1]))
  {
    var all := past + future;
    forall i | 0 <= i < |past| ensures EventOk(past[i]) {
      assert all[i] == past[i];
    }
    if future != [] {
      var part := past + future[..|future| - 1];
      forall i | 0 <= i < |part| ensures EventOk(part[i]) {
        assert all[i] == part[i];
      }
    }
  }

  lemma SlipsWhenStopping(s: State, e: Event)
    requires CoreInv(s) && Slips(s, e)
    ensures s.stopReply.Some?
  {
    hide RoutesOk, CountsOk, RequestsOk, CandidatesOk, HistoryOk, QueuesOk;
    assert WorkerOk(s.workers[e.key], s.stopReply.Some?);
  }

  lemma StopsForGood(s: State, t: State, loose: bool)
    requires Moves(s, t, loose) && s.stopReply.Some?
    ensures t.stopReply.Some?
  {
  }

  lemma Looser(s: State, t: State, loose: bool, loose': bool)
    requires Moves(s, t, loose) && (loose ==> loose')
    ensures Moves(s, t, loose')
  {
    hide BooksMove;
  }

  /** Whatever follows, a run only moves on from where it is; states move forward until shutdown begins. */
  lemma {:induction false} RunMoves(capacity: nat, past: seq<Event>, future: seq<Event>)
    requires EventsOk(past + future)
    ensures Moves(Run(capacity, past), Run(capacity, past + future), Run(capacity, past + future).stopReply.Some?)
  {
    hide Moves, CoreInv, Step, Slips;
    var s := Run(capacity, past);
    if future == [] {
      assert past + future == past;
      NoMove(s, s);
      Looser(s, s, false, s.stopReply.Some?);
    } else {
      var rest := future[..|future| - 1];
      var e := future[|future| - 1];
      SplitLast(past, future);
      EventsOkPrefix(past, future);
      hide EventsOk;
      var t := Run(capacity, past + rest);
      var u := Run(capacity, past + future);
      RunMoves(capacity, past, rest);
      RunKeeps(capacity, past + rest);
      StepMoves(t, e);
      if Slips(t, e) { SlipsWhenStopping(t, e); }
      if t.stopReply.Some? { StopsForGood(t, u, Slips(t, e)); }
      Looser(s, t, t.stopReply.Some?, u.stopReply.Some?);
      Looser(t, u, Slips(t, e), u.stopReply.Some?);
      MovesTrans(s, t, u, u.stopReply.Some?);
    }
  }
}
