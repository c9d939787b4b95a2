/** Where every entry of every scan result comes from, and what the delivered verdict means. */
module RuntimeProvenance {
  import opened Wrappers
  import opened Messages
  import opened Aggregator
  import opened RuntimeSpec
  import opened RuntimeInvariants
  import opened RuntimeSafety
  import opened RuntimeReplies
  import opened RuntimeMoves

  // ----- one event

  /** Event e is a SCAN_RESULT of worker k that fills its pending entry in request id. */
  ghost predicate Takes(s: State, e: Event, id: nat, k: WorkerKey) {
    && s.phase == Running && e.WorkerMessage? && e.key == k && e.message.kind == TypeScanResult && e.message.requestId == id
    && k in s.workers && !s.workers[k].Terminal() && Accepts(s, k, e.message)
  }

  /** The four ways in which event e, leading from s to t, gives worker k's entry in request id the message m. */
  ghost predicate Caused(s: State, e: Event, t: State, id: nat, k: WorkerKey, m: Message) {
    s.phase == Running &&
    (|| (Takes(s, e, id, k) && m == e.message)
     || (e == ScanTimeout(id) && m == Entry(Timeout, id))
     || (k in s.workers && !s.workers[k].Terminal() && k in t.workers && t.workers[k].state == Failed
         && m == Entry(Unavailable(t.workers[k].failureReason), id))
     || (e.Shutdown? && s.stopReply.None? && m == Entry(Unavailable(SHUTTING_DOWN), id)))
  }

  /** Event e admits request id as r: the entries are those of the workers routed at that moment. */
  ghost predicate Admits(s: State, e: Event, id: nat, r: Request) {
    && s.phase == Running && s.stopReply.None? && s.active != map[] && id == s.nextRequestID + 1
    && e == ScanRequest(r.path, r.reply) && r.results.Keys == s.active.Values
  }

  ghost predicate EntryWrote(s: State, t: State, e: Event, id: nat, k: WorkerKey)
    requires Known(t, id) && k in Book(t, id).results
  {
    var m := Book(t, id).results[k];
    Pending(m) || (Known(s, id) && k in Book(s, id).results && Book(s, id).results[k] == m) || Caused(s, e, t, id, k, m)
  }

  ghost predicate Wrote(s: State, t: State, e: Event) {
    forall id | Known(t, id) ::
      (Known(s, id) || Admits(s, e, id, Book(t, id))) && forall k | k in Book(t, id).results :: EntryWrote(s, t, e, id, k)
  }

  lemma SameWrote(s: State, t: State, e: Event)
    requires t.requests == s.requests && t.completed == s.completed
    ensures Wrote(s, t, e)
  {
  }

  /** Later changes to anything but the books and the causes do not matter. */
  lemma StillWrote(s: State, t: State, u: State, e: Event)
    requires Wrote(s, t, e) && u.requests == t.requests && u.completed == t.completed && t.workers.Keys <= u.workers.Keys
    requires forall k | k in t.workers && t.workers[k].state == Failed ::
               u.workers[k].state == Failed && u.workers[k].failureReason == t.workers[k].failureReason
    ensures Wrote(s, u, e)
  {
    hide Admits, EntryWrote;
    forall id | Known(u, id)
      ensures (Known(s, id) || Admits(s, e, id, Book(u, id))) && forall k | k in Book(u, id).results :: EntryWrote(s, u, e, id, k)
    {
      assert Known(t, id) && Book(t, id) == Book(u, id);
      forall k | k in Book(u, id).results ensures EntryWrote(s, u, e, id, k) {
        SameEntry(s, t, u, e, id, k);
      }
    }
  }

  lemma SameEntry(s: State, t: State, u: State, e: Event, id: nat, k: WorkerKey)
    requires Known(t, id) && Known(u, id) && k in Book(t, id).results && k in Book(u, id).results
    requires EntryWrote(s, t, e, id, k) && Book(u, id).results[k] == Book(t, id).results[k]
    requires k in t.workers && t.workers[k].state == Failed ==>
               k in u.workers && u.workers[k].state == Failed && u.workers[k].failureReason == t.workers[k].failureReason
    ensures EntryWrote(s, u, e, id, k)
  {
    hide Known, Book, Takes, Entry;
  }

  lemma TellWrote(s: State, t: State, c: Chan, r: Reply, e: Event)
    requires Wrote(s, t, e)
    ensures Wrote(s, Tell(t, c, r), e)
  {
    hide Wrote;
    StillWrote(s, t, Tell(t, c, r), e);
  }

  /** A fill writes in the requests and for the workers it names, and only what was pending. */
  lemma FillWrites(s: State, ids: set<nat>, keys: set<WorkerKey>, cause: Cause, done: set<nat>, id: nat)
    requires done <= s.requests.Keys && Known(FillFinish(s, ids, keys, cause, done), id)
    ensures var t := FillFinish(s, ids, keys, cause, done);
            && Known(s, id)
            && Book(t, id).results.Keys == Book(s, id).results.Keys
            && forall k | k in Book(t, id).results ::
                 || Book(t, id).results[k] == Book(s, id).results[k]
                 || (id in ids && k in keys && Waits(s.requests, id, k) && Book(t, id).results[k] == Entry(cause, id))
  {
    hide Release, Using, Entry, Answered;
    var t := FillFinish(s, ids, keys, cause, done);
    if id in s.requests {
      var f := Fill(s, ids, keys, cause).requests[id];
      assert Book(t, id).results == f.results;
    } else {
      assert id !in done;
      assert Book(t, id) == s.completed[id];
    }
  }

  /** A fill that follows from event e. */
  lemma FillWrote(s: State, h: State, ids: set<nat>, keys: set<WorkerKey>, cause: Cause, done: set<nat>, t: State, e: Event)
    requires done <= h.requests.Keys && t == FillFinish(h, ids, keys, cause, done)
    requires Wrote(s, h, e)
    requires forall k | k in h.workers && h.workers[k].state == Failed ::
               k in t.workers && t.workers[k].state == Failed && t.workers[k].failureReason == h.workers[k].failureReason
    requires forall id, k | id in ids && k in keys && Waits(h.requests, id, k) :: Caused(s, e, t, id, k, Entry(cause, id))
    ensures Wrote(s, t, e)
  {
    hide Accepts, Entry, Admits, FillFinish, Book, Known, EntryWrote, Caused;
    forall id | Known(t, id)
      ensures (Known(s, id) || Admits(s, e, id, Book(t, id))) && forall k | k in Book(t, id).results :: EntryWrote(s, t, e, id, k)
    {
      FillWrites(h, ids, keys, cause, done, id);
      FillFinishBooks(h, ids, keys, cause, done);
      assert WrittenOnce(Book(h, id), Book(t, id));
      if Admits(s, e, id, Book(h, id)) { SameAdmission(s, e, id, Book(h, id), Book(t, id)); }
      forall k | k in Book(t, id).results ensures EntryWrote(s, t, e, id, k) {
        if Book(t, id).results[k] == Book(h, id).results[k] {
          SameEntry(s, h, t, e, id, k);
        } else {
          hide Wrote;
          CauseWrote(s, t, e, id, k, Entry(cause, id));
        }
      }
    }
  }

  lemma CauseWrote(s: State, t: State, e: Event, id: nat, k: WorkerKey, m: Message)
    requires Known(t, id) && k in Book(t, id).results && Book(t, id).results[k] == m && Caused(s, e, t, id, k, m)
    ensures EntryWrote(s, t, e, id, k)
  {
    hide Known, Book, Caused;
  }

  lemma SameAdmission(s: State, e: Event, id: nat, r: Request, r': Request)
    requires WrittenOnce(r, r') && Admits(s, e, id, r)
    ensures Admits(s, e, id, r')
  {
  }

  // ----- failures

  lemma MarkedBooks(h: State, keys: set<WorkerKey>, reason: string)
    ensures var m := Mark(h, keys, reason);
            && m.requests == h.requests && m.completed == h.completed && m.workers.Keys == h.workers.Keys
            && forall k | k in h.workers ::
                 m.workers[k].state == (if k in keys then Failed else h.workers[k].state)
                 && m.workers[k].failureReason == (if k in keys then reason else h.workers[k].failureReason)
  {
    hide HeldBy, Unroute, FailureSends;
  }

  lemma FilledStates(s: State, ids: set<nat>, keys: set<WorkerKey>, cause: Cause, done: set<nat>)
    requires done <= s.requests.Keys
    ensures var t := FillFinish(s, ids, keys, cause, done);
            t.workers.Keys == s.workers.Keys
            && forall k | k in s.workers ::
                 t.workers[k].state == s.workers[k].state && t.workers[k].failureReason == s.workers[k].failureReason
  {
    hide Using, FillResults, Answered;
  }

  /** The workers of `keys`, live in s and untouched in h, fail. */
  lemma FailAllWrote(s: State, h: State, keys: set<WorkerKey>, reason: string, e: Event)
    requires Wrote(s, h, e) && s.phase == Running
    requires forall k | k in keys :: k in s.workers && !s.workers[k].Terminal() && k in h.workers && h.workers[k].state != Failed
    ensures Wrote(s, FailAll(h, keys, reason), e)
  {
    var m := Mark(h, keys, reason);
    var done := Ready(m.requests, m.requests.Keys, keys);
    MarkedBooks(h, keys, reason);
    assert done <= m.requests.Keys;
    hide Mark, Wrote, Takes, FillFinish, Ready;
    var t := FillFinish(m, m.requests.Keys, keys, Unavailable(reason), done);
    FailAllIs(h, keys, reason);
    hide FailAll;
    FilledStates(m, m.requests.Keys, keys, Unavailable(reason), done);
    StillWrote(s, h, m, e);
    FillWrote(s, m, m.requests.Keys, keys, Unavailable(reason), done, t, e);
  }

  /** A worker fails in a state that differs from s in no book. */
  lemma FailWrote(s: State, h: State, k: WorkerKey, reason: string, e: Event)
    requires h.requests == s.requests && h.completed == s.completed && s.phase == Running
    requires k in h.workers <==> k in s.workers
    requires k in s.workers ==> h.workers[k].state == s.workers[k].state
    ensures Wrote(s, FailWorker(h, k, reason), e)
  {
    hide Wrote, FailAll;
    SameWrote(s, h, e);
    if k in h.workers && !h.workers[k].Terminal() {
      FailAllWrote(s, h, {k}, reason, e);
    }
  }

  // ----- events

  lemma TakenIsCause(s: State, k: WorkerKey, m: Message, t: State)
    requires s.phase == Running && k in s.workers && !s.workers[k].Terminal() && m.kind == TypeScanResult && Accepts(s, k, m)
    ensures Caused(s, WorkerMessage(k, m), t, m.requestId, k, Entry(Answer(m), m.requestId))
  {
    hide Accepts;
  }

  lemma ScanResultWrote(s: State, k: WorkerKey, m: Message)
    requires s.phase == Running && k in s.workers && !s.workers[k].Terminal() && m.kind == TypeScanResult
    ensures Wrote(s, HandleMessage(s, k, m), WorkerMessage(k, m))
  {
    hide Wrote, FillFinish, Ready, Accepts, Caused, HandleMessage, Entry;
    var e := WorkerMessage(k, m);
    SameWrote(s, s, e);
    if Accepts(s, k, m) {
      var ids, done := {m.requestId}, Ready(s.requests, {m.requestId}, {k});
      ReadyIds(s.requests, ids, {k});
      var t := FillFinish(s, ids, {k}, Answer(m), done);
      TakenIs(s, k, m);
      FilledStates(s, ids, {k}, Answer(m), done);
      TakenIsCause(s, k, m, t);
      FillWrote(s, s, ids, {k}, Answer(m), done, t, e);
    } else {
      IgnoredIs(s, k, m);
    }
  }

  lemma IgnoredIs(s: State, k: WorkerKey, m: Message)
    requires k in s.workers && !s.workers[k].Terminal() && m.kind == TypeScanResult && !Accepts(s, k, m)
    ensures HandleMessage(s, k, m) == s
  {
    hide Accepts, Settle;
  }

  lemma ScanTimeoutWrote(s: State, id: nat)
    requires s.phase == Running
    ensures Wrote(s, HandleScanTimeout(s, id), ScanTimeout(id))
  {
    hide Wrote;
    SameWrote(s, s, ScanTimeout(id));
    if id in s.requests {
      var keys := s.requests[id].results.Keys;
      FilledStates(s, {id}, keys, Timeout, {id});
      FillWrote(s, s, {id}, keys, Timeout, {id}, FillFinish(s, {id}, keys, Timeout, {id}), ScanTimeout(id));
    }
  }

  lemma DrainedBooks(s: State)
    ensures var t := DrainAll(s);
            && t.requests == s.requests && t.completed == s.completed && t.workers.Keys == s.workers.Keys
            && forall k | k in s.workers && s.workers[k].state == Failed :: t.workers[k] == s.workers[k]
  {
  }

  lemma ShutdownWrote(s: State, c: Chan)
    requires s.phase == Running && s.stopReply.None?
    ensures Wrote(s, HandleShutdown(s, c), Shutdown(c))
  {
    hide Wrote, DrainAll;
    var h := s.(stopReply := Some(c));
    var cause := Unavailable(SHUTTING_DOWN);
    SameWrote(s, h, Shutdown(c));
    FilledStates(h, h.requests.Keys, h.workers.Keys, cause, h.requests.Keys);
    var a := FillFinish(h, h.requests.Keys, h.workers.Keys, cause, h.requests.Keys);
    FillWrote(s, h, h.requests.Keys, h.workers.Keys, cause, h.requests.Keys, a, Shutdown(c));
    assert AbandonAll(h) == a;
    hide FillFinish, AbandonAll;
    DrainedBooks(a);
    StillWrote(s, a, DrainAll(a), Shutdown(c));
  }

  lemma DispatchedWrote(s: State, path: string, c: Chan)
    requires s.phase == Running && s.stopReply.None? && s.active != map[]
    ensures Wrote(s, Dispatched(s, path, c, s.active.Values), ScanRequest(path, c))
    ensures forall k | k in s.workers ::
              k in Dispatched(s, path, c, s.active.Values).workers
              && Dispatched(s, path, c, s.active.Values).workers[k].state == s.workers[k].state
  {
    var t := Dispatched(s, path, c, s.active.Values);
    var newId := s.nextRequestID + 1;
    assert Pending(BLANK);
    forall id | Known(t, id)
      ensures Known(s, id) || Admits(s, ScanRequest(path, c), id, Book(t, id))
      ensures forall k | k in Book(t, id).results :: EntryWrote(s, t, ScanRequest(path, c), id, k)
    {
      if id == newId {
        assert Admits(s, ScanRequest(path, c), id, Book(t, id));
      } else {
        assert Known(s, id) && Book(t, id) == Book(s, id);
      }
    }
  }

  lemma FullIsRouted(s: State, path: string, c: Chan)
    requires RoutesOk(s)
    ensures forall k | k in Full(Admit(s, path, c), s.active.Values) :: k in s.workers && s.workers[k].state == Active
  {
  }

  lemma ScanWrote(s: State, path: string, c: Chan)
    requires RoutesOk(s) && s.phase == Running
    ensures Wrote(s, HandleScan(s, path, c), ScanRequest(path, c))
  {
    hide RoutesOk, Wrote, FailAll, Full, Admit;
    var e := ScanRequest(path, c);
    FullIsRouted(s, path, c);
    SameWrote(s, s, e);
    TellWrote(s, s, c, Err(SHUTTING_DOWN), e);
    TellWrote(s, s, c, Err(NO_ACTIVE), e);
    if s.stopReply.None? && s.active != map[] {
      DispatchedWrote(s, path, c);
      FailAllWrote(s, Dispatched(s, path, c, s.active.Values), Full(Admit(s, path, c), s.active.Values), QUEUE_FULL, e);
    }
  }

  lemma MessageWrote(s: State, k: WorkerKey, m: Message)
    requires s.phase == Running
    ensures Wrote(s, HandleMessage(s, k, m), WorkerMessage(k, m))
  {
    var e := WorkerMessage(k, m);
    hide Wrote, FailWorker, HandleScanResult;
    SameWrote(s, s, e);
    FailWrote(s, s, k, UNEXPECTED_MESSAGE, e);
    if k in s.workers && !s.workers[k].Terminal() {
      match m.kind
      case TypeHelloAck =>
        if s.workers[k].helloReply.Some? { SameWrote(s, HandleHelloAck(s, k, m), e); }
      case TypeHealthResult =>
        if s.workers[k].healthReply.Some? { SameWrote(s, HandleHealthResult(s, k, m), e); }
      case TypeScanResult => ScanResultWrote(s, k, m);
      case TypeReloadResult => SameWrote(s, HandleReloadResult(s, k, m), e);
      case TypeShutdownAck =>
        if s.workers[k].state == Draining { SameWrote(s, HandleAck(s, k), e); }
      case _ =>
    }
  }

  lemma ExitWrote(s: State, k: WorkerKey, code: int, err: Option<string>)
    requires s.phase == Running
    ensures Wrote(s, HandleExit(s, k, code, err), WorkerExit(k, code, err))
  {
    var e := WorkerExit(k, code, err);
    hide Wrote, FailWorker;
    SameWrote(s, s, e);
    if k in s.workers {
      var x := Exited(s.workers[k], code, err);
      SameWrote(s, SetWorker(s, k, x.(state := Retired)), e);
      FailWrote(s, SetWorker(s, k, x), k, EXITED, e);
    }
  }

  lemma CheckWrote(s: State, k: WorkerKey, c: Chan)
    requires s.phase == Running
    ensures Wrote(s, HandleHello(s, k, c), BeginHello(k, c)) && Wrote(s, HandleHealth(s, k, c), BeginHealth(k, c))
  {
    hide Wrote, FailWorker;
    FailWrote(s, Tell(s, c, Err(QUEUE_FULL)), k, QUEUE_FULL, BeginHello(k, c));
    FailWrote(s, Tell(s, c, Err(QUEUE_FULL)), k, QUEUE_FULL, BeginHealth(k, c));
    var failed := FailWorker(Tell(s, c, Err(QUEUE_FULL)), k, QUEUE_FULL);
    if HandleHello(s, k, c) != failed { SameWrote(s, HandleHello(s, k, c), BeginHello(k, c)); }
    if HandleHealth(s, k, c) != failed { SameWrote(s, HandleHealth(s, k, c), BeginHealth(k, c)); }
  }

  lemma ReloadWrote(s: State, scannerId: string, path: string, c: Chan)
    requires s.phase == Running
    ensures Wrote(s, HandleReload(s, scannerId, path, c), ReloadRequest(scannerId, path, c))
  {
    var e := ReloadRequest(scannerId, path, c);
    hide Wrote, FailWorker;
    SameWrote(s, s, e);
    TellWrote(s, s, c, Err(NO_ACTIVE_WORKER), e);
    if scannerId in s.active && s.active[scannerId] in s.workers {
      var k := s.active[scannerId];
      var w := s.workers[k];
      FailWrote(s, Tell(SetWorker(s, k, w.(pendingSignaturePath := "")), c, Err(QUEUE_FULL)), k, QUEUE_FULL, e);
      if w.reloadReply.Some? || HasRoom(w, s.capacity) { SameWrote(s, HandleReload(s, scannerId, path, c), e); }
    }
  }

  lemma HandleWrote(s: State, e: Event)
    requires RoutesOk(s) && s.phase == Running
    ensures Wrote(s, Handle(s, e), e)
  {
    hide Wrote, RoutesOk, FailWorker, HandleMessage, HandleExit, HandleScan, HandleScanTimeout, HandleShutdown, HandleReload,
         HandleHello, HandleHealth;
    match e
    case Register(k, path, c) => SameWrote(s, HandleRegister(s, k, path, c), e);
    case BeginHello(k, c) => CheckWrote(s, k, c);
    case BeginHealth(k, c) => CheckWrote(s, k, c);
    case Activate(k, c) => SameWrote(s, HandleActivate(s, k, c), e);
    case FailCommand(k, reason, c) =>
      FailWrote(s, s, k, reason, e);
      TellWrote(s, FailWorker(s, k, reason), c, Ok, e);
      SameWrote(s, s, e);
      TellWrote(s, s, c, Err(NOT_REGISTERED), e);
      TellWrote(s, s, c, Err(CANNOT_FAIL), e);
    case WorkerMessage(k, m) => MessageWrote(s, k, m);
    case WorkerFailure(k, reason) => FailWrote(s, s, k, reason, e);
    case WorkerExit(k, code, err) => ExitWrote(s, k, code, err);
    case ScanRequest(path, c) => ScanWrote(s, path, c);
    case ScanTimeout(id) => ScanTimeoutWrote(s, id);
    case ReloadRequest(scannerId, path, c) => ReloadWrote(s, scannerId, path, c);
    case ReloadTimeout(k) => SameWrote(s, HandleReloadTimeout(s, k), e);
    case QueryActive(scannerId, c) => SameWrote(s, HandleQuery(s, scannerId, c), e);
    case Shutdown(c) =>
      if s.stopReply.Some? {
        SameWrote(s, Tell(s, c, Err(STOP_IN_PROGRESS)), e);
      } else {
        ShutdownWrote(s, c);
      }
    case Dequeue(k) => SameWrote(s, HandleDequeue(s, k), e);
    case Cancel => SameWrote(s, Close(s, Cancelled), e);
  }

  lemma StepWrote(s: State, e: Event)
    requires RoutesOk(s)
    ensures Wrote(s, Step(s, e), e)
  {
    hide Wrote, RoutesOk, Handle;
    SameWrote(s, s, e);
    if s.phase == Running {
      HandleWrote(s, e);
      var t := Handle(s, e);
      if t.stopReply.Some? {
        StillWrote(s, t, Close(Tell(t, t.stopReply.value, Ok), ShutDown), e);
      }
    }
  }

  // ----- runs

  /** The state before event i of the run. */
  function Before(capacity: nat, events: seq<Event>, i: nat): State
    requires i <= |events|
  {
    Run(capacity, events[..i])
  }

  lemma BeforePrefix(capacity: nat, events: seq<Event>, i: nat)
    requires 0 < |events| && i < |events|
    ensures Before(capacity, events[..|events| - 1], i) == Before(capacity, events, i)
    ensures Before(capacity, events, i + 1) == Step(Before(capacity, events, i), events[i])
  {
    assert events[..|events| - 1][..i] == events[..i];
    assert events[..i + 1][..i] == events[..i];
    hide Step;
  }

  /** Event i is the cause of the entry of worker k in request id. */
  ghost predicate CausedBy(capacity: nat, events: seq<Event>, i: nat, id: nat, k: WorkerKey, m: Message) {
    i < |events| && Caused(Before(capacity, events, i), events[i], Before(capacity, events, i + 1), id, k, m)
  }

  ghost predicate AdmittedBy(capacity: nat, events: seq<Event>, i: nat, id: nat, r: Request) {
    i < |events| && Admits(Before(capacity, events, i), events[i], id, r)
  }

  lemma EarlierCause(capacity: nat, events: seq<Event>, i: nat, id: nat, k: WorkerKey, m: Message, r: Request)
    requires events != []
    ensures CausedBy(capacity, events[..|events| - 1], i, id, k, m) ==> CausedBy(capacity, events, i, id, k, m)
    ensures AdmittedBy(capacity, events[..|events| - 1], i, id, r) ==> AdmittedBy(capacity, events, i, id, r)
  {
    hide Caused, Admits;
    if i < |events| - 1 {
      BeforePrefix(capacity, events, i);
      BeforePrefix(capacity, events, i + 1);
    }
  }

  /** The whole of a run is what its last event made of the part before it. */
  lemma LastStep(capacity: nat, events: seq<Event>)
    requires events != []
    ensures var n := |events| - 1;
            Before(capacity, events, n) == Run(capacity, events[..n])
            && Before(capacity, events, n + 1) == Run(capacity, events)
            && Run(capacity, events) == Step(Run(capacity, events[..n]), events[n])
  {
    assert events[..|events|] == events;
  }

  /** Every answered entry in every run was written by one of the four causes, at a definite event. */
  lemma {:induction false} Provenance(capacity: nat, events: seq<Event>, id: nat, k: WorkerKey) returns (i: nat)
    requires EventsOk(events)
    requires Known(Run(capacity, events), id) && k in Book(Run(capacity, events), id).results
    requires !Pending(Book(Run(capacity, events), id).results[k])
    ensures CausedBy(capacity, events, i, id, k, Book(Run(capacity, events), id).results[k])
  {
    assert events != [];
    var n := |events| - 1;
    var s := Run(capacity, events[..n]);
    var t := Run(capacity, events);
    LastStep(capacity, events);
    RunKeeps(capacity, events[..n]);
    hide CountsOk, RequestsOk, CandidatesOk, HistoryOk, WorkersOk, QueuesOk;
    StepWrote(s, events[n]);
    hide RoutesOk, Run, Step, Caused, Admits, Book, Known;
    var m := Book(t, id).results[k];
    assert EntryWrote(s, t, events[n], id, k);
    if Caused(s, events[n], t, id, k, m) {
      i := n;
    } else {
      i := Provenance(capacity, events[..n], id, k);
      EarlierCause(capacity, events, i, id, k, m, Book(s, id));
    }
  }

  /** Every request in every run was admitted by one ScanRequest, with exactly the workers routed at that moment. */
  lemma {:induction false} Admission(capacity: nat, events: seq<Event>, id: nat) returns (i: nat)
    requires EventsOk(events) && Known(Run(capacity, events), id)
    ensures AdmittedBy(capacity, events, i, id, Book(Run(capacity, events), id))
  {
    assert events != [];
    var n := |events| - 1;
    var s := Run(capacity, events[..n]);
    var t := Run(capacity, events);
    LastStep(capacity, events);
    RunKeeps(capacity, events[..n]);
    StepMoves(s, events[n]);
    hide CountsOk, RequestsOk, CandidatesOk, HistoryOk, WorkersOk, QueuesOk;
    StepWrote(s, events[n]);
    hide RoutesOk, Run, Step, Admits, Book, Known;
    if Known(s, id) {
      i := Admission(capacity, events[..n], id);
      assert WrittenOnce(Book(s, id), Book(t, id));
      SameAdmission(Before(capacity, events[..n], i), events[i], id, Book(s, id), Book(t, id));
      EarlierCause(capacity, events, i, id, WorkerKey("", ""), BLANK, Book(t, id));
    } else {
      i := n;
    }
  }

  // ----- verdicts

  /** Worker k itself answered request id, in time, with this verdict. */
  ghost predicate OwnAnswer(capacity: nat, events: seq<Event>, id: nat, k: WorkerKey, verdict: Verdict) {
    exists i | 0 <= i < |events| ::
      Takes(Before(capacity, events, i), events[i], id, k) && events[i].message.verdict == verdict
  }

  lemma StepBooks(s: State, e: Event)
    requires s.phase == Running
    ensures Step(s, e).requests == Handle(s, e).requests && Step(s, e).completed == Handle(s, e).completed
  {
    hide Handle, AllExited;
  }

  lemma TakenIs(s: State, k: WorkerKey, m: Message)
    requires k in s.workers && !s.workers[k].Terminal() && m.kind == TypeScanResult && Accepts(s, k, m)
    ensures HandleMessage(s, k, m) == FillFinish(s, {m.requestId}, {k}, Answer(m), Ready(s.requests, {m.requestId}, {k}))
  {
    hide Finish, Fill, Ready, Accepts;
  }

  lemma FilledIsBooked(s: State, id: nat, k: WorkerKey, m: Message, done: set<nat>)
    requires done <= s.requests.Keys && Waits(s.requests, id, k)
    ensures var t := FillFinish(s, {id}, {k}, Answer(m), done);
            Known(t, id) && k in Book(t, id).results && Book(t, id).results[k] == m
  {
    hide Release, Using, Answered;
    var t := FillFinish(s, {id}, {k}, Answer(m), done);
    assert Known(t, id) && Book(t, id).results == FillResults(s.requests[id].results, {k}, m);
  }

  lemma TakenIsBooked(s: State, e: Event, id: nat, k: WorkerKey)
    requires Takes(s, e, id, k)
    ensures var t := Step(s, e); Known(t, id) && k in Book(t, id).results && Book(t, id).results[k] == e.message
  {
    hide Step, HandleMessage, FillFinish;
    var done := Ready(s.requests, {id}, {k});
    assert done <= s.requests.Keys;
    hide Ready;
    TakenIs(s, k, e.message);
    StepBooks(s, e);
    FilledIsBooked(s, id, k, e.message, done);
  }

  /** An answer taken at event i is what the books hold from then on. */
  lemma TakenKind(s: State, e: Event, id: nat, k: WorkerKey)
    requires Takes(s, e, id, k)
    ensures e.message.kind == TypeScanResult
  {
    hide Accepts;
  }

  lemma TakenStays(capacity: nat, events: seq<Event>, i: nat, id: nat, k: WorkerKey)
    requires EventsOk(events) && i < |events| && Takes(Before(capacity, events, i), events[i], id, k)
    ensures var t := Run(capacity, events);
            Known(t, id) && k in Book(t, id).results
            && (!Pending(events[i].message) ==> Book(t, id).results[k] == events[i].message)
  {
    var past, future := events[..i + 1], events[i + 1..];
    assert past + future == events;
    BeforePrefix(capacity, events, i);
    TakenIsBooked(Before(capacity, events, i), events[i], id, k);
    RunMoves(capacity, past, future);
    hide Run, Step, Book, Known, Takes;
    assert WrittenOnce(Book(Run(capacity, past), id), Book(Run(capacity, events), id));
  }

  lemma OwnVerdict(capacity: nat, events: seq<Event>, id: nat, k: WorkerKey, verdict: Verdict)
    requires EventsOk(events) && Known(Run(capacity, events), id) && k in Book(Run(capacity, events), id).results
    requires verdict == VerdictClean || verdict == VerdictMalware
    ensures OwnAnswer(capacity, events, id, k, verdict) <==>
            !Pending(Book(Run(capacity, events), id).results[k]) && Book(Run(capacity, events), id).results[k].verdict == verdict
  {
    hide Run, Accepts, Book, Known;
    var m := Book(Run(capacity, events), id).results[k];
    if !Pending(m) && m.verdict == verdict {
      var i := Provenance(capacity, events, id, k);
      assert Takes(Before(capacity, events, i), events[i], id, k);
    }
    if OwnAnswer(capacity, events, id, k, verdict) {
      var i :| 0 <= i < |events| && Takes(Before(capacity, events, i), events[i], id, k) && events[i].message.verdict == verdict;
      TakenStays(capacity, events, i, id, k);
      TakenKind(Before(capacity, events, i), events[i], id, k);
    }
  }

  /** What the aggregation of finished results says. */
  lemma Aggregated(id: nat, r: Request) returns (v: Overall)
    requires r.results != map[] && AllAnswered(r.results) && AnswersOk(id, r.results)
    ensures Answered(id, r) == ScanReply(id, Success(v), r.results)
    ensures v == Malware <==> exists k :: k in r.results && r.results[k].verdict == VerdictMalware
    ensures v == Clean <==> forall k | k in r.results :: r.results[k].verdict == VerdictClean
  {
    var verdicts := Verdicts(r.results);
    var some :| some in r.results;
    assert r.results[some].verdict in verdicts;
    forall v | v in verdicts ensures ValidVerdict(v) {
      var k :| k in r.results && r.results[k].verdict == v;
      assert EntryOk(id, r.results[k]);
    }
    v := Policy(verdicts).value;
    assert forall k | k in r.results :: r.results[k].verdict in verdicts;
    if forall k | k in r.results :: r.results[k].verdict == VerdictClean {
      assert verdicts == {VerdictClean};
    }
    if exists k :: k in r.results && r.results[k].verdict == VerdictMalware {
      assert VerdictMalware in verdicts;
    }
  }

  /**
   An answered request's caller got one reply, never an aggregation error: MALWARE iff some worker routed at
   admission itself answered MALWARE, CLEAN iff every one itself answered CLEAN, INCONCLUSIVE otherwise.
   */
  lemma DeliveredVerdict(capacity: nat, events: seq<Event>, id: nat) returns (v: Overall, i: nat)
    requires EventsOk(events) && OwnChans(events) && id in Run(capacity, events).completed
    ensures var s := Run(capacity, events); var r := s.completed[id];
            && AdmittedBy(capacity, events, i, id, r)
            && Send(r.reply, ScanReply(id, Success(v), r.results)) in s.sends
            && (forall n | n in s.sends && n.to == r.reply :: n.reply == ScanReply(id, Success(v), r.results))
            && (v == Malware <==> exists k :: k in r.results && OwnAnswer(capacity, events, id, k, VerdictMalware))
            && (v == Clean <==> forall k | k in r.results :: OwnAnswer(capacity, events, id, k, VerdictClean))
  {
    var s := Run(capacity, events);
    var r := s.completed[id];
    RunKeeps(capacity, events);
    ReplyDiscipline(capacity, events);
    CompletedIs(s, id);
    hide CoreInv, Run, OwnAnswer, Admits, Before, Answered, AnswersOk, OwnChans;
    i := Admission(capacity, events, id);
    v := Aggregated(id, r);
    OneReply(s, Send(r.reply, Answered(id, r)));
    forall k | k in r.results
      ensures OwnAnswer(capacity, events, id, k, VerdictMalware) <==> r.results[k].verdict == VerdictMalware
      ensures OwnAnswer(capacity, events, id, k, VerdictClean) <==> r.results[k].verdict == VerdictClean
    {
      OwnVerdict(capacity, events, id, k, VerdictMalware);
      OwnVerdict(capacity, events, id, k, VerdictClean);
    }
  }

  lemma CompletedIs(s: State, id: nat)
    requires CoreInv(s) && id in s.completed
    ensures var r := s.completed[id];
            id !in s.requests && r.results != map[] && AllAnswered(r.results) && AnswersOk(id, r.results)
            && Send(r.reply, Answered(id, r)) in s.sends && Known(s, id) && Book(s, id) == r
  {
    hide RoutesOk, CountsOk, RequestsOk, CandidatesOk, WorkersOk, QueuesOk, AnswersOk, AllAnswered, Answered;
    assert CompletedOk(s, id, s.completed[id]);
  }

  lemma OneReply(s: State, n: Send)
    requires RepliesOk(s) && n in s.sends
    ensures forall m | m in s.sends && m.to == n.to :: m == n
  {
    hide At;
  }
}
