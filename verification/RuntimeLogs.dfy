/** What the loop sends its workers: every message ever queued, field by field, and where it comes from. */
module RuntimeLogs {
  import opened Wrappers
  import opened Messages
  import opened RuntimeSpec
  import opened RuntimeInvariants
  import opened RuntimeSafety
  import opened RuntimeReplies
  import opened RuntimeMoves
  import opened RuntimeProvenance
  import opened RuntimeRecords
  import opened RuntimeBooks
  import opened RuntimeAnswers

  /** The message that event e queues to worker k, if it queues one, but for SHUTDOWN. */
  ghost function Queues(s: State, e: Event, k: WorkerKey): seq<Message>
    requires k in s.workers
  {
    var w := s.workers[k];
    if Reason(s, e, k).Some? then []
    else
      match e
      case BeginHello(j, _) => if j == k && w.state == Starting && w.helloReply.None? then [Note(TypeHello)] else []
      case BeginHealth(j, _) => if j == k && w.state == Starting && w.healthReply.None? then [Note(TypeHealthCheck)] else []
      case ScanRequest(path, _) =>
        if Admitted(s, e) && w.state == Active then [Note(TypeScan).(requestId := s.nextRequestID + 1, filePath := path)] else []
      case ReloadRequest(scannerId, path, _) =>
        if k.scannerId == scannerId && w.state == Active && w.reloadReply.None? then [Note(TypeReload).(signaturePath := path)] else []
      case _ => []
  }

  lemma SameLogs(w: Worker, e: Event, reason: string)
    ensures AsFailed(w, e, reason).Log() == w.Log() && AsExited(w, e).Log() == w.Log()
  {
  }

  lemma ToldLog(w: Worker, m: Message)
    ensures Told(w, m).written == w.written && Told(w, m).queue == w.queue
  {
  }

  lemma ChangedLog(s: State, e: Event, k: WorkerKey)
    requires k in s.workers
    ensures Changed(s, e, k).Log() == s.workers[k].Log() + Queues(s, e, k)
  {
    hide Reason, Unexpected, Admitted, AsFailed, AsExited, Told, Note, Over;
    var w := s.workers[k];
    assert w.Log() + [] == w.Log();
    SameLogs(w, e, if Reason(s, e, k).Some? then Reason(s, e, k).value else "");
    if e.WorkerMessage? { ToldLog(w, e.message); }
    if Queues(s, e, k) != [] {
      assert w.written + (w.queue + [Queues(s, e, k)[0]]) == w.Log() + [Queues(s, e, k)[0]];
    } else if e.Dequeue? && e.key == k && w.queue != [] {
      assert (w.written + [w.queue[0]]) + w.queue[1..] == w.Log();
    }
  }

  lemma AskedLog(w: Worker, n: nat, capacity: nat, phase: Phase)
    ensures var w' := Ended(Asked(w.(inFlight := n), capacity), phase);
            w'.Log() == w.Log() || w'.Log() == w.Log() + [Note(TypeShutdown)]
  {
    hide Note;
    assert w.written + (w.queue + [Note(TypeShutdown)]) == w.Log() + [Note(TypeShutdown)];
  }

  lemma StepLog(s: State, e: Event, k: WorkerKey)
    requires CoreInv(s) && EventOk(e) && s.phase == Running && k in s.workers
    ensures var t, more := Step(s, e), s.workers[k].Log() + Queues(s, e, k);
            k in t.workers && (t.workers[k].Log() == more || t.workers[k].Log() == more + [Note(TypeShutdown)])
  {
    hide CoreInv, Step, Changed, EventOk, Asked, Ended, Entrusted, Queues, Note;
    OneWorkerView(s, e, k);
    ChangedLog(s, e, k);
    AskedLog(Changed(s, e, k), |Entrusted(Step(s, e), k)|, s.capacity, Step(s, e).phase);
  }

  /** Some caller asked to have this scanner reload this path. */
  ghost predicate ReloadAsked(events: seq<Event>, scannerId: string, path: string) {
    exists i :: 0 <= i < |events| && events[i].ReloadRequest? && events[i].scannerId == scannerId && events[i].path == path
  }

  /** A command of Core as it may stand in the log of worker k: every field, and what the IDs and paths refer to. */
  ghost predicate Written(s: State, events: seq<Event>, k: WorkerKey, m: Message) {
    match m.kind
    case TypeHello => m == Message(1, TypeHello, 0, "", "", None, "", "", "", NoVerdict, "", 0, false, 0, "")
    case TypeHealthCheck => m == Message(1, TypeHealthCheck, 0, "", "", None, "", "", "", NoVerdict, "", 0, false, 0, "")
    case TypeShutdown => m == Message(1, TypeShutdown, 0, "", "", None, "", "", "", NoVerdict, "", 0, false, 0, "")
    case TypeScan =>
      && m == Message(1, TypeScan, m.requestId, "", "", None, m.filePath, "", "", NoVerdict, "", 0, false, 0, "")
      && m.requestId > 0 && (m.requestId in s.requests || m.requestId in s.completed)
      && m.filePath == Book(s, m.requestId).path && k in Book(s, m.requestId).results
    case TypeReload =>
      && m == Message(1, TypeReload, 0, "", "", None, "", m.signaturePath, "", NoVerdict, "", 0, false, 0, "")
      && ReloadAsked(events, k.scannerId, m.signaturePath)
    case _ => false
  }

  lemma WrittenMore(s: State, t: State, events: seq<Event>, e: Event, k: WorkerKey, m: Message)
    requires Written(s, events, k, m) && BooksMove(s, t)
    ensures Written(t, events + [e], k, m)
  {
    if m.kind == TypeReload {
      var i :| 0 <= i < |events| && events[i].ReloadRequest? && events[i].scannerId == k.scannerId && events[i].path == m.signaturePath;
      assert (events + [e])[i] == events[i];
    }
  }

  lemma QueuedWritten(s: State, e: Event, t: State, events: seq<Event>, k: WorkerKey, m: Message)
    requires k in s.workers && m in Queues(s, e, k) && Kept(s, e, t, s.nextRequestID + 1)
    requires s.nextRequestID + 1 !in s.requests && s.nextRequestID + 1 !in s.completed
    ensures Written(t, events + [e], k, m)
  {
    hide Reason, Admitted, Kept;
    if e.ScanRequest? { NewBook(s, e, t); }
    if e.ReloadRequest? { assert (events + [e])[|events|] == e; }
  }

  lemma StopWritten(s: State, events: seq<Event>, k: WorkerKey)
    ensures Written(s, events, k, Note(TypeShutdown))
  {
  }

  lemma NewIdIsNew(s: State)
    requires CoreInv(s)
    ensures s.nextRequestID + 1 !in s.requests && s.nextRequestID + 1 !in s.completed
  {
    hide CountsOk, WorkersOk, QueuesOk, CandidatesOk, RoutesOk, CompletedOk, RequestOk;
  }

  lemma StepWritten(s: State, events: seq<Event>, e: Event, k: WorkerKey)
    requires CoreInv(s) && EventOk(e) && s.phase == Running && k in s.workers
    requires forall m | m in s.workers[k].Log() :: Written(s, events, k, m)
    ensures k in Step(s, e).workers
    ensures forall m | m in Step(s, e).workers[k].Log() :: Written(Step(s, e), events + [e], k, m)
  {
    hide CoreInv, Step, EventOk, Queues, Written, Kept, BooksMove, WorkersMove;
    var t := Step(s, e);
    StepLog(s, e, k);
    StepMoves(s, e);
    OneRequestView(s, e, s.nextRequestID + 1);
    NewIdIsNew(s);
    forall m | m in t.workers[k].Log() ensures Written(t, events + [e], k, m) {
      if m in s.workers[k].Log() {
        WrittenMore(s, t, events, e, k, m);
      } else if m in Queues(s, e, k) {
        QueuedWritten(s, e, t, events, k, m);
      } else {
        StopWritten(t, events + [e], k);
      }
    }
  }

  lemma StepAllWritten(s: State, events: seq<Event>, e: Event, k: WorkerKey)
    requires CoreInv(s) && EventOk(e) && k in Step(s, e).workers
    requires k in s.workers ==> forall m | m in s.workers[k].Log() :: Written(s, events, k, m)
    ensures forall m | m in Step(s, e).workers[k].Log() :: Written(Step(s, e), events + [e], k, m)
  {
    hide CoreInv, Step, EventOk, Written, BooksMove, WorkersMove;
    StaysOut(s, e);
    if s.phase != Running {
      NoMove(s, s);
      forall m | m in s.workers[k].Log() ensures Written(s, events + [e], k, m) {
        WrittenMore(s, s, events, e, k, m);
      }
    } else if k in s.workers {
      StepWritten(s, events, e, k);
    } else {
      NewWorkerView(s, e, k);
    }
  }

  /**
   Over every run, every message ever queued to a worker is one of Core's five commands with nothing in it that does not belong
   there: a SCAN carries the ID of a request that has an entry for the worker and the path its caller gave, a RELOAD a path that
   some caller asked the worker's scanner to reload.
   */
  lemma {:induction false} LogsWritten(capacity: nat, events: seq<Event>, k: WorkerKey)
    requires EventsOk(events) && k in Run(capacity, events).workers
    ensures forall m | m in Run(capacity, events).workers[k].Log() :: Written(Run(capacity, events), events, k, m)
  {
    assert events != [];
    var last := |events| - 1;
    LastStep(capacity, events);
    RunKeeps(capacity, events[..last]);
    hide CoreInv, Run, EventOk, Step, Written;
    assert events == events[..last] + [events[last]];
    if k in Run(capacity, events[..last]).workers { LogsWritten(capacity, events[..last], k); }
    StepAllWritten(Run(capacity, events[..last]), events[..last], events[last], k);
  }

  /** No queue ever holds more than the capacity that the loop was made with. */
  lemma {:induction false} QueueBound(capacity: nat, events: seq<Event>)
    requires EventsOk(events)
    ensures var s := Run(capacity, events);
            s.capacity == capacity && forall k | k in s.workers :: |s.workers[k].queue| <= capacity
  {
    RunKeeps(capacity, events);
    if events != [] {
      var last := |events| - 1;
      LastStep(capacity, events);
      QueueBound(capacity, events[..last]);
      RunKeeps(capacity, events[..last]);
      hide CoreInv, Run, Step, EventOk;
      CapacityStays(Run(capacity, events[..last]), events[last]);
    }
    BoundIn(Run(capacity, events));
    hide CoreInv, Run;
  }

  lemma CapacityStays(s: State, e: Event)
    requires CoreInv(s) && EventOk(e)
    ensures Step(s, e).capacity == s.capacity
  {
    hide CoreInv, Step, EventOk;
    if s.phase == Running { LoopView(s, e); } else { StaysOut(s, e); }
  }

  lemma BoundIn(s: State)
    requires CoreInv(s)
    ensures forall k | k in s.workers :: |s.workers[k].queue| <= s.capacity
  {
    hide RoutesOk, CountsOk, RequestsOk, CandidatesOk, HistoryOk, WorkersOk, LogOk;
  }
}
