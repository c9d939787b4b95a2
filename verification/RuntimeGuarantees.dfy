/** Isolation of candidates, completion of shutdown, and progress of the tracked requests. */
module RuntimeGuarantees {
  import opened Wrappers
  import opened Messages
  import opened RuntimeSpec
  import opened RuntimeInvariants
  import opened RuntimeSafety
  import RuntimeReplies
  import opened RuntimeMoves
  import RuntimeOrder
  import opened RuntimePending
  import opened RuntimeProvenance

  // ----- a worker that was never activated

  /** From s to t no route, no request and no record but worker k's changes; replies may be sent. */
  ghost predicate OnlyWorker(s: State, t: State, k: WorkerKey) {
    && t.active == s.active && t.requests == s.requests && t.completed == s.completed
    && t.nextRequestID == s.nextRequestID && t.stopReply == s.stopReply
    && t.workers.Keys == s.workers.Keys
    && forall j | j in s.workers && j != k :: t.workers[j] == s.workers[j]
  }

  lemma CandidateIdle(s: State, k: WorkerKey)
    requires CoreInv(s) && k in s.workers && s.workers[k].Candidate()
    ensures forall id | id in s.requests :: k !in s.requests[id].results
    ensures forall id | id in s.active :: s.active[id] != k
  {
    assert forall id | id in s.active :: s.active[id] != k by {
      hide CountsOk, RequestsOk, CandidatesOk, HistoryOk, WorkersOk, QueuesOk;
    }
    hide RoutesOk, RequestsOk, CandidatesOk, HistoryOk, QueuesOk;
    assert WorkerOk(s.workers[k], s.stopReply.Some?);
    assert |Load(s, k)| == 0;
    forall id | id in s.requests ensures k !in s.requests[id].results {
      assert id !in Load(s, k);
    }
  }

  lemma MarkOnly(s: State, k: WorkerKey, reason: string)
    requires k in s.workers
    requires forall id | id in s.active :: s.active[id] != k
    ensures OnlyWorker(s, Mark(s, {k}, reason), k)
    ensures Mark(s, {k}, reason).workers[k] == MarkFailed(s.workers[k], reason)
  {
    hide HeldBy, MarkFailed;
    assert Mark(s, {k}, reason).active == s.active;
  }

  /** No tracked request and no route mentions worker k. */
  ghost predicate Unused(s: State, k: WorkerKey) {
    && (forall id | id in s.requests :: k !in s.requests[id].results)
    && (forall id | id in s.active :: s.active[id] != k)
  }

  lemma CandidateFails(s: State, k: WorkerKey, reason: string)
    requires k in s.workers && s.workers[k].Candidate() && Unused(s, k)
    ensures OnlyWorker(s, FailWorker(s, k, reason), k)
    ensures FailWorker(s, k, reason).workers[k] == MarkFailed(s.workers[k], reason)
  {
    hide Mark, MarkFailed, FailAll, FillFinish, Ready, OnlyWorker;
    var m := Mark(s, {k}, reason);
    MarkOnly(s, k, reason);
    NothingReady(s, m, k);
    FailAllIs(s, {k}, reason);
    RuntimeOrder.FillFinishNothing(m, m.requests.Keys, {k}, Unavailable(reason));
  }

  lemma NothingReady(s: State, m: State, k: WorkerKey)
    requires Unused(s, k) && OnlyWorker(s, m, k)
    ensures Ready(m.requests, m.requests.Keys, {k}) == {}
    ensures forall id | id in m.requests :: !Touches(m.requests[id].results, {k})
  {
  }

  /** Failing the worker after a change of its own record, or after a reply. */
  lemma ChangedFails(s: State, h: State, k: WorkerKey, reason: string)
    requires OnlyWorker(s, h, k) && k in h.workers && h.workers[k].Candidate() && Unused(s, k)
    ensures OnlyWorker(s, FailWorker(h, k, reason), k)
  {
    hide FailWorker, MarkFailed;
    CandidateFails(h, k, reason);
  }

  lemma RecordOnly(s: State, k: WorkerKey, w: Worker, c: Chan, r: Reply)
    requires k in s.workers
    ensures OnlyWorker(s, s, k) && OnlyWorker(s, Tell(s, c, r), k)
    ensures OnlyWorker(s, SetWorker(s, k, w), k) && OnlyWorker(s, Tell(SetWorker(s, k, w), c, r), k)
  {
  }

  /** The events that concern worker k before activation, whether or not they make it fail. */
  predicate Concerns(e: Event, k: WorkerKey) {
    match e
    case BeginHello(j, _) => j == k
    case BeginHealth(j, _) => j == k
    case FailCommand(j, _, _) => j == k
    case WorkerMessage(j, _) => j == k
    case WorkerFailure(j, _) => j == k
    case WorkerExit(j, _, _) => j == k
    case _ => false
  }

  lemma CheckOnly(s: State, k: WorkerKey, c: Chan)
    requires k in s.workers && s.workers[k].Candidate() && Unused(s, k)
    ensures OnlyWorker(s, HandleHello(s, k, c), k) && OnlyWorker(s, HandleHealth(s, k, c), k)
  {
    hide OnlyWorker, FailWorker, Unused;
    var w := s.workers[k];
    RecordOnly(s, k, Push(w.(helloReply := Some(c)), Command(TypeHello)), c, Err(NOT_STARTING));
    RecordOnly(s, k, Push(w.(healthReply := Some(c)), Command(TypeHealthCheck)), c, Err(ALREADY_PENDING));
    RecordOnly(s, k, w, c, Err(QUEUE_FULL));
    ChangedFails(s, Tell(s, c, Err(QUEUE_FULL)), k, QUEUE_FULL);
  }

  lemma AnswerOnly(s: State, k: WorkerKey, m: Message)
    requires k in s.workers && s.workers[k].Candidate() && Unused(s, k)
    ensures OnlyWorker(s, HandleHelloAck(s, k, m), k)
    ensures OnlyWorker(s, HandleHealthResult(s, k, m), k)
    ensures OnlyWorker(s, HandleReloadResult(s, k, m), k)
  {
    hide OnlyWorker, FailWorker, Unused, SetWorker, Tell, HelloOutcome;
    var w := s.workers[k];
    RecordOnly(s, k, w, 0, Ok);
    ChangedFails(s, s, k, UNEXPECTED_MESSAGE);
    if w.helloReply.Some? { RecordOnly(s, k, w.(helloReply := None), w.helloReply.value, HelloOutcome(k, m)); }
    if w.healthReply.Some? {
      RecordOnly(s, k, w.(healthReply := None), w.healthReply.value, Err(UNHEALTHY));
      RecordOnly(s, k, w.(state := Healthy, healthReply := None), w.healthReply.value, Ok);
    }
    if w.reloadReply.Some? {
      var w' := w.(reloadReply := None, reloadTimer := false, pendingSignaturePath := "",
                   signaturePath := if m.success then w.pendingSignaturePath else w.signaturePath);
      RecordOnly(s, k, w', w.reloadReply.value, ReloadReply(k, m.signatureCount, if m.success then None else Some(m.error)));
    }
  }

  lemma MessageOnly(s: State, k: WorkerKey, m: Message)
    requires k in s.workers && s.workers[k].Candidate() && Unused(s, k)
    ensures OnlyWorker(s, HandleMessage(s, k, m), k)
  {
    hide OnlyWorker, FailWorker, SetWorker, Tell, Settle, HandleHelloAck, HandleHealthResult, HandleReloadResult;
    assert !Accepts(s, k, m);
    hide Unused, Accepts;
    var w := s.workers[k];
    RecordOnly(s, k, w, 0, Ok);
    ChangedFails(s, s, k, UNEXPECTED_MESSAGE);
    match m.kind
    case TypeHelloAck => AnswerOnly(s, k, m);
    case TypeHealthResult => AnswerOnly(s, k, m);
    case TypeReloadResult => AnswerOnly(s, k, m);
    case TypeShutdownAck => assert w.state != Draining;
    case _ =>
  }

  lemma FailureOnly(s: State, k: WorkerKey, reason: string, c: Chan, code: int, err: Option<string>)
    requires k in s.workers && s.workers[k].Candidate() && Unused(s, k)
    ensures OnlyWorker(s, FailWorker(s, k, reason), k) && OnlyWorker(s, HandleFail(s, k, reason, c), k)
    ensures OnlyWorker(s, HandleExit(s, k, code, err), k)
  {
    hide FailWorker, Unused;
    RecordOnly(s, k, s.workers[k], c, Ok);
    ChangedFails(s, s, k, reason);
    var x := Exited(s.workers[k], code, err);
    RecordOnly(s, k, x, c, Ok);
    ChangedFails(s, SetWorker(s, k, x), k, EXITED);
    assert HandleExit(s, k, code, err) == FailWorker(SetWorker(s, k, x), k, EXITED);
    hide HandleExit;
  }

  /** Whatever happens to a STARTING or HEALTHY worker, its failure included, stays with that worker. */
  lemma CandidateIsolation(s: State, e: Event, k: WorkerKey)
    requires CoreInv(s) && k in s.workers && s.workers[k].Candidate() && Concerns(e, k)
    ensures OnlyWorker(s, Handle(s, e), k)
  {
    hide CoreInv, OnlyWorker, FailWorker, FailAll, HandleHello, HandleHealth, HandleMessage, HandleFail, HandleExit;
    assert Unused(s, k) by { CandidateIdle(s, k); }
    hide Unused;
    match e
    case BeginHello(_, c) => CheckOnly(s, k, c);
    case BeginHealth(_, c) => CheckOnly(s, k, c);
    case FailCommand(_, reason, c) => FailureOnly(s, k, reason, c, 0, None);
    case WorkerMessage(_, m) => MessageOnly(s, k, m);
    case WorkerFailure(_, reason) => FailureOnly(s, k, reason, 0, 0, None);
    case WorkerExit(_, code, err) => FailureOnly(s, k, EXITED, 0, code, err);
  }

  // ----- shutdown

  /** Once shutdown has begun every request ever admitted is answered, and none is admitted again. */
  lemma ShutdownSettles(capacity: nat, past: seq<Event>, future: seq<Event>)
    requires EventsOk(past + future) && Run(capacity, past).stopReply.Some?
    ensures var s := Run(capacity, past); var t := Run(capacity, past + future);
            && t.stopReply == s.stopReply && t.requests == map[] && t.nextRequestID == s.nextRequestID
            && forall id | 1 <= id <= t.nextRequestID ::
                 id in t.completed && Send(t.completed[id].reply, Answered(id, t.completed[id])) in t.sends
  {
    RunKeeps(capacity, past + future);
    RunMoves(capacity, past, future);
    hide RoutesOk, CountsOk, CandidatesOk, WorkersOk, QueuesOk, WorkersMove, BooksMove, Run, Answered, AnswersOk;
    var t := Run(capacity, past + future);
    forall id | 1 <= id <= t.nextRequestID
      ensures id in t.completed && Send(t.completed[id].reply, Answered(id, t.completed[id])) in t.sends
    {
      assert id in t.completed && CompletedOk(t, id, t.completed[id]);
    }
  }

  /** The loop is left with the shutdown reply exactly when every worker has exited. */
  ghost predicate StopOk(s: State) {
    && (s.phase == ShutDown ==> s.stopReply.Some? && AllExited(s) && Send(s.stopReply.value, Ok) in s.sends)
    && (s.phase == Running && s.stopReply.Some? ==> !AllExited(s))
  }

  lemma ClosedStopOk(t: State, c: Chan)
    requires AllExited(t) && t.stopReply == Some(c)
    ensures StopOk(Close(Tell(t, c, Ok), ShutDown))
  {
    var u := Close(Tell(t, c, Ok), ShutDown);
    assert Send(c, Ok) in u.sends;
    forall k | k in u.workers ensures u.workers[k].exited {
      assert t.workers[k].exited;
    }
  }

  lemma SkippedStopOk(s: State, e: Event)
    requires StopOk(s) && s.phase == Running && SkipsStopCheck(s, e)
    ensures StopOk(Handle(s, e))
  {
    hide AllExited;
    SkippedExits(s, e);
    if s.stopReply.Some? && AllExited(Handle(s, e)) {
      SameExits(s, Handle(s, e));
    }
    hide Handle;
  }

  lemma SkippedExits(s: State, e: Event)
    requires SkipsStopCheck(s, e) && s.phase == Running
    ensures var t := Handle(s, e);
            && t.workers.Keys == s.workers.Keys && t.stopReply == s.stopReply && t.phase != ShutDown
            && forall k | k in s.workers :: t.workers[k].exited == s.workers[k].exited
  {
    hide HandleShutdown, Close, HandleDequeue;
    CloseExits(s);
    if e.Dequeue? { DequeueExits(s, e.key); }
  }

  lemma CloseExits(s: State)
    ensures var t := Close(s, Cancelled);
            t.workers.Keys == s.workers.Keys && t.stopReply == s.stopReply && t.phase == Cancelled
            && forall k | k in s.workers :: t.workers[k].exited == s.workers[k].exited
  {
  }

  lemma DequeueExits(s: State, k: WorkerKey)
    ensures var t := HandleDequeue(s, k);
            t.workers.Keys == s.workers.Keys && t.stopReply == s.stopReply && t.phase == s.phase
            && forall j | j in s.workers :: t.workers[j].exited == s.workers[j].exited
  {
  }

  lemma SameExits(s: State, t: State)
    requires t.workers.Keys == s.workers.Keys && AllExited(t) && forall k | k in s.workers :: t.workers[k].exited == s.workers[k].exited
    ensures AllExited(s)
  {
  }

  lemma StepStopOk(s: State, e: Event)
    requires StopOk(s)
    ensures StopOk(Step(s, e))
  {
    if s.phase == Running {
      var t := Handle(s, e);
      if SkipsStopCheck(s, e) {
        SkippedStopOk(s, e);
      } else {
        RuntimeReplies.PhaseKept(s, e);
        if t.stopReply.Some? && AllExited(t) {
          ClosedStopOk(t, t.stopReply.value);
        }
        hide Handle, Close;
      }
    }
  }

  lemma {:induction false} RunStopOk(capacity: nat, events: seq<Event>)
    ensures StopOk(Run(capacity, events))
  {
    if events != [] {
      var n := |events| - 1;
      RunStopOk(capacity, events[..n]);
      hide StopOk, Step;
      StepStopOk(Run(capacity, events[..n]), events[n]);
    }
  }

  /**
   When the shutdown reply is sent every registered worker has exited and is FAILED or RETIRED, nothing is
   routed or tracked; and while it is not sent, unless the context was cancelled, some worker still runs.
   */
  lemma ShutdownCompletes(capacity: nat, events: seq<Event>)
    requires EventsOk(events)
    ensures var s := Run(capacity, events);
            && (s.phase == ShutDown ==>
                  && s.stopReply.Some? && Send(s.stopReply.value, Ok) in s.sends
                  && s.active == map[] && s.requests == map[]
                  && forall k | k in s.workers :: s.workers[k].exited && s.workers[k].Terminal())
            && (s.phase == Running && s.stopReply.Some? ==> exists k :: k in s.workers && !s.workers[k].exited)
  {
    var s := Run(capacity, events);
    RunKeeps(capacity, events);
    RunStopOk(capacity, events);
    hide CountsOk, CandidatesOk, HistoryOk, QueuesOk, Run;
    if s.phase == ShutDown {
      forall k | k in s.workers ensures s.workers[k].exited && s.workers[k].Terminal() {
        assert WorkerOk(s.workers[k], true);
      }
      assert s.requests == map[];
      hide WorkersOk, RequestsOk;
      assert forall id :: id !in s.active;
    }
  }

  // ----- progress

  function PendingPairs(s: State): set<(nat, WorkerKey)> {
    set id, k | id in s.requests && k in s.requests[id].results && Pending(s.requests[id].results[k]) :: (id, k)
  }

  lemma PairIn(s: State, id: nat, k: WorkerKey)
    ensures (id, k) in PendingPairs(s) <==> Waits(s.requests, id, k)
  {
  }

  /** Event e settles something: an accepted result, a timer, the failure of a worker waited for, or shutdown. */
  ghost predicate Settles(s: State, e: Event) {
    s.phase == Running &&
    (|| (exists id, k :: Takes(s, e, id, k))
     || (e.ScanTimeout? && e.id in s.requests)
     || (exists id, k :: Waits(s.requests, id, k) && Breaks(s, e, k))
     || (e.Shutdown? && s.stopReply.None? && s.requests != map[]))
  }

  ghost predicate Breaks(s: State, e: Event, k: WorkerKey) {
    k in s.workers && !s.workers[k].Terminal() && k in Step(s, e).workers && Step(s, e).workers[k].state == Failed
  }

  /** With no new scan, what waits afterwards waited before. */
  lemma WaitsShrink(s: State, e: Event, id: nat, k: WorkerKey)
    requires CoreInv(s) && !e.ScanRequest? && Waits(Step(s, e).requests, id, k)
    ensures Waits(s.requests, id, k)
  {
    var t := Step(s, e);
    StepMoves(s, e);
    StepWrote(s, e);
    hide CoreInv, Step, WorkersMove, Takes, Caused;
    assert Known(t, id) && !Admits(s, e, id, Book(t, id));
    assert WrittenOnce(Book(s, id), Book(t, id));
  }

  lemma AnsweredInHistory(t: State, id: nat, k: WorkerKey)
    requires HistoryOk(t) && Known(t, id) && k in Book(t, id).results && !Waits(t.requests, id, k)
    ensures !Pending(Book(t, id).results[k])
  {
    if id !in t.requests {
      assert CompletedOk(t, id, t.completed[id]);
      hide AnswersOk, Answered;
    }
  }

  lemma CauseSettles(s: State, e: Event, id: nat, k: WorkerKey, m: Message)
    requires Waits(s.requests, id, k) && Caused(s, e, Step(s, e), id, k, m)
    ensures Settles(s, e)
  {
    hide Step;
  }

  /** What stopped waiting was settled. */
  lemma WaitEnds(s: State, e: Event, id: nat, k: WorkerKey)
    requires CoreInv(s) && EventOk(e) && Waits(s.requests, id, k) && !Waits(Step(s, e).requests, id, k)
    ensures Settles(s, e)
  {
    var t := Step(s, e);
    StepMoves(s, e);
    StepKeeps(s, e);
    StepWrote(s, e);
    hide RoutesOk, CountsOk, RequestsOk, CandidatesOk, WorkersOk, QueuesOk, Step, WorkersMove, HistoryOk, Caused, Settles, Admits;
    assert Known(s, id) && WrittenOnce(Book(s, id), Book(t, id));
    AnsweredInHistory(t, id, k);
    assert EntryWrote(s, t, e, id, k);
    CauseSettles(s, e, id, k, Book(t, id).results[k]);
  }

  lemma AnsweredEnds(s: State, e: Event, id: nat, k: WorkerKey)
    requires CoreInv(s) && EventOk(e) && Takes(s, e, id, k)
    ensures Waits(s.requests, id, k) && !Waits(Step(s, e).requests, id, k)
  {
    TakenIsBooked(s, e, id, k);
    hide CoreInv, Step;
  }

  lemma TimeoutEnds(s: State, id: nat)
    requires s.phase == Running && id in s.requests
    ensures id !in Step(s, ScanTimeout(id)).requests
  {
    hide Step, FillFinish;
    StepBooks(s, ScanTimeout(id));
    FillFinishShape(s, {id}, s.requests[id].results.Keys, Timeout, {id});
  }

  lemma BreakEnds(s: State, e: Event, id: nat, k: WorkerKey)
    requires CoreInv(s) && Swept(s) && Breaks(s, e, k)
    ensures !Waits(Step(s, e).requests, id, k)
  {
    hide CountsOk, RequestsOk, CandidatesOk, HistoryOk, WorkersOk, QueuesOk, RoutesOk, Step;
    StepSwept(s, e);
  }

  lemma ShutdownEnds(s: State, c: Chan)
    requires s.phase == Running && s.stopReply.None?
    ensures Step(s, Shutdown(c)).requests == map[]
  {
    StepBooks(s, Shutdown(c));
    hide Step, RequestShutdown, Release, Using, Answered;
  }

  /** Some wait ends at every event that settles something. */
  lemma SettlingEnds(s: State, e: Event) returns (id: nat, k: WorkerKey)
    requires CoreInv(s) && Swept(s) && EventOk(e) && Settles(s, e)
    ensures Waits(s.requests, id, k) && !Waits(Step(s, e).requests, id, k)
  {
    hide CoreInv, Swept, Step, Takes, Waits, Breaks;
    if i, j :| Takes(s, e, i, j) {
      id, k := i, j;
      AnsweredEnds(s, e, id, k);
    } else if i, j :| Waits(s.requests, i, j) && Breaks(s, e, j) {
      id, k := i, j;
      BreakEnds(s, e, id, k);
    } else if e.ScanTimeout? {
      id := e.id;
      k := SomeWait(s, id);
      TimeoutEnds(s, id);
      GoneNoWait(Step(s, e), id, k);
    } else {
      id :| id in s.requests;
      k := SomeWait(s, id);
      ShutdownEnds(s, e.reply);
      GoneNoWait(Step(s, e), id, k);
    }
  }

  lemma GoneNoWait(s: State, id: nat, k: WorkerKey)
    requires id !in s.requests
    ensures !Waits(s.requests, id, k)
  {
  }

  lemma SomeWait(s: State, id: nat) returns (k: WorkerKey)
    requires CoreInv(s) && id in s.requests
    ensures Waits(s.requests, id, k)
  {
    StillPending(s, id);
    k :| Waits(s.requests, id, k);
  }

  lemma Shrinks<T>(a: set<T>, b: set<T>)
    requires a <= b
    ensures |a| < |b| <==> a < b
  {
    assert b == a + (b - a);
    assert |b| == |a| + |b - a|;
    if b - a == {} {
      assert a == b;
    }
  }

  lemma PairsShrink(s: State, e: Event)
    requires CoreInv(s) && !e.ScanRequest?
    ensures PendingPairs(Step(s, e)) <= PendingPairs(s)
  {
    hide CoreInv, Step, PendingPairs, Waits;
    forall p | p in PendingPairs(Step(s, e)) ensures p in PendingPairs(s) {
      PairIn(Step(s, e), p.0, p.1);
      WaitsShrink(s, e, p.0, p.1);
      PairIn(s, p.0, p.1);
    }
  }

  lemma RequestsShrink(s: State, e: Event)
    requires CoreInv(s) && CoreInv(Step(s, e)) && !e.ScanRequest?
    ensures Step(s, e).requests.Keys <= s.requests.Keys
  {
    hide CoreInv, Step, Waits;
    forall id | id in Step(s, e).requests ensures id in s.requests {
      var k := SomeWait(Step(s, e), id);
      WaitsShrink(s, e, id, k);
      GoneNoWaitHere(s, id, k);
    }
  }

  lemma PairsShrinkExactly(s: State, e: Event)
    requires CoreInv(s) && Swept(s) && EventOk(e) && !e.ScanRequest?
    ensures PendingPairs(Step(s, e)) < PendingPairs(s) <==> Settles(s, e)
  {
    hide CoreInv, Swept, Step, Settles, PendingPairs, Waits;
    PairsShrink(s, e);
    if Settles(s, e) {
      var id, k := SettlingEnds(s, e);
      PairIn(s, id, k);
      PairIn(Step(s, e), id, k);
    } else if PendingPairs(Step(s, e)) < PendingPairs(s) {
      var p :| p in PendingPairs(s) && p !in PendingPairs(Step(s, e));
      PairIn(s, p.0, p.1);
      PairIn(Step(s, e), p.0, p.1);
      WaitEnds(s, e, p.0, p.1);
    }
  }

  /**
   With no new scan the pending entries and the tracked requests only shrink, and the number of pending
   entries drops exactly at the events that settle something; when none is pending nothing is tracked.
   */
  lemma Progress(s: State, e: Event)
    requires CoreInv(s) && Swept(s) && EventOk(e) && !e.ScanRequest?
    ensures PendingPairs(Step(s, e)) <= PendingPairs(s)
    ensures Step(s, e).requests.Keys <= s.requests.Keys
    ensures |PendingPairs(Step(s, e))| < |PendingPairs(s)| <==> Settles(s, e)
    ensures PendingPairs(s) == {} <==> s.requests == map[]
  {
    hide CoreInv, Swept, Step, Settles, PendingPairs, EventOk;
    StepKeeps(s, e);
    PairsShrink(s, e);
    RequestsShrink(s, e);
    PairsShrinkExactly(s, e);
    NonePending(s);
    Shrinks(PendingPairs(Step(s, e)), PendingPairs(s));
  }

  lemma GoneNoWaitHere(s: State, id: nat, k: WorkerKey)
    requires Waits(s.requests, id, k)
    ensures id in s.requests
  {
  }

  lemma NonePending(s: State)
    requires CoreInv(s)
    ensures PendingPairs(s) == {} <==> s.requests == map[]
  {
    if s.requests != map[] {
      var id :| id in s.requests;
      var k := SomeWait(s, id);
      hide CoreInv;
      assert (id, k) in PendingPairs(s);
    }
  }
}
