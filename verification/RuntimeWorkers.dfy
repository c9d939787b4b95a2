/** Which workers there are: who adds one, and how many candidates a scanner can have. */
module RuntimeWorkers {
  import opened Wrappers
  import opened Messages
  import opened RuntimeSpec
  import opened RuntimeInvariants
  import opened RuntimeSafety
  import opened RuntimeMoves
  import opened RuntimeLifecycle
  import opened RuntimeProvenance

  // ----- only registration adds a worker

  lemma FailAllKeys(s: State, keys: set<WorkerKey>, reason: string)
    ensures FailAll(s, keys, reason).workers.Keys == s.workers.Keys
  {
    var m := Mark(s, keys, reason);
    var done := Ready(m.requests, m.requests.Keys, keys);
    assert m.workers.Keys == s.workers.Keys && done <= m.requests.Keys;
    hide Mark, Ready, FillFinish, FailAll;
    FailAllIs(s, keys, reason);
    FillFinishShape(m, m.requests.Keys, keys, Unavailable(reason), done);
  }

  lemma FailWorkerKeys(s: State, k: WorkerKey, reason: string)
    ensures FailWorker(s, k, reason).workers.Keys == s.workers.Keys
  {
    FailAllKeys(s, {k}, reason);
    hide FailAll;
  }

  lemma MessageKeys(s: State, k: WorkerKey, m: Message)
    ensures HandleMessage(s, k, m).workers.Keys == s.workers.Keys
  {
    hide FailWorker;
    FailWorkerKeys(s, k, UNEXPECTED_MESSAGE);
    if k in s.workers && !s.workers[k].Terminal() && m.kind == TypeScanResult && Accepts(s, k, m) {
      TakenIs(s, k, m);
      var done := Ready(s.requests, {m.requestId}, {k});
      assert done <= s.requests.Keys;
      hide Ready, FillFinish, HandleMessage;
      FillFinishShape(s, {m.requestId}, {k}, Answer(m), done);
    } else {
      hide Settle;
    }
  }

  lemma ScanKeys(s: State, path: string, c: Chan)
    ensures HandleScan(s, path, c).workers.Keys == s.workers.Keys
  {
    var d := Dispatched(s, path, c, s.active.Values);
    assert d.workers.Keys == s.workers.Keys;
    FailAllKeys(d, Full(Admit(s, path, c), s.active.Values), QUEUE_FULL);
    hide FailAll, Full, Admit;
  }

  lemma OtherKeys(s: State, id: nat, k: WorkerKey, scannerId: string, c: Chan)
    ensures HandleScanTimeout(s, id).workers.Keys == s.workers.Keys && HandleDequeue(s, k).workers.Keys == s.workers.Keys
    ensures HandleQuery(s, scannerId, c).workers.Keys == s.workers.Keys && Close(s, Cancelled).workers.Keys == s.workers.Keys
  {
    hide Release, Using, Answered, FillResults, Entry;
  }

  lemma CheckKeys(s: State, k: WorkerKey, c: Chan)
    ensures HandleHello(s, k, c).workers.Keys == s.workers.Keys && HandleHealth(s, k, c).workers.Keys == s.workers.Keys
  {
    hide FailWorker;
    FailWorkerKeys(Tell(s, c, Err(QUEUE_FULL)), k, QUEUE_FULL);
  }

  lemma EndKeys(s: State, k: WorkerKey, code: int, err: Option<string>, reason: string, c: Chan)
    ensures HandleFail(s, k, reason, c).workers.Keys == s.workers.Keys && HandleExit(s, k, code, err).workers.Keys == s.workers.Keys
  {
    hide FailWorker;
    FailWorkerKeys(s, k, reason);
    if k in s.workers { FailWorkerKeys(SetWorker(s, k, Exited(s.workers[k], code, err)), k, EXITED); }
  }

  lemma ReloadKeys(s: State, scannerId: string, path: string, c: Chan, k: WorkerKey)
    ensures HandleReload(s, scannerId, path, c).workers.Keys == s.workers.Keys && HandleReloadTimeout(s, k).workers.Keys == s.workers.Keys
  {
    hide FailWorker;
    if scannerId in s.active && s.active[scannerId] in s.workers {
      var j := s.active[scannerId];
      FailWorkerKeys(Tell(SetWorker(s, j, s.workers[j].(pendingSignaturePath := "")), c, Err(QUEUE_FULL)), j, QUEUE_FULL);
    }
  }

  lemma CommandKeys(s: State, e: Event)
    requires !e.Register? && !e.WorkerMessage? && !e.ScanRequest?
    ensures Handle(s, e).workers.Keys == s.workers.Keys
  {
    hide FailWorker, HandleHello, HandleHealth, HandleFail, HandleExit, HandleReload, HandleReloadTimeout, HandleScanTimeout,
         HandleActivate, HandleShutdown, HandleQuery, HandleDequeue, Close;
    match e
    case BeginHello(k, c) => CheckKeys(s, k, c);
    case BeginHealth(k, c) => CheckKeys(s, k, c);
    case FailCommand(k, reason, c) => EndKeys(s, k, 0, None, reason, c);
    case WorkerFailure(k, reason) => FailWorkerKeys(s, k, reason);
    case WorkerExit(k, code, err) => EndKeys(s, k, code, err, "", 0);
    case ReloadRequest(scannerId, path, c) => ReloadKeys(s, scannerId, path, c, WorkerKey("", ""));
    case ReloadTimeout(k) => ReloadKeys(s, "", "", 0, k);
    case Activate(k, c) => ActivateKeys(s, k, c);
    case Shutdown(c) => ShutdownKeys(s, c);
    case ScanTimeout(id) => OtherKeys(s, id, WorkerKey("", ""), "", 0);
    case QueryActive(scannerId, c) => OtherKeys(s, 0, WorkerKey("", ""), scannerId, c);
    case Dequeue(k) => OtherKeys(s, 0, k, "", 0);
    case Cancel => OtherKeys(s, 0, WorkerKey("", ""), "", 0);
  }

  lemma ActivateKeys(s: State, k: WorkerKey, c: Chan)
    ensures HandleActivate(s, k, c).workers.Keys == s.workers.Keys
  {
    hide Retreat;
  }

  lemma ShutdownKeys(s: State, c: Chan)
    ensures HandleShutdown(s, c).workers.Keys == s.workers.Keys
  {
    hide Release, RequestShutdown, Using, Answered, FillResults, Entry;
  }

  /** Event e registers worker k. */
  ghost predicate Registers(s: State, e: Event, k: WorkerKey) {
    e.Register? && e.key == k && s.phase == Running && k !in s.workers && !HasCandidate(s, k.scannerId)
  }

  /** An event registers its worker with an empty connection, or none. */
  lemma StepKeys(s: State, e: Event)
    ensures forall k | k in Step(s, e).workers && k !in s.workers :: Step(s, e).workers[k].written == [] && Registers(s, e, k)
    ensures !e.Register? ==> Step(s, e).workers.Keys == s.workers.Keys
  {
    if s.phase == Running {
      StepRecords(s, e);
      hide Step, Handle;
      match e
      case Register(k, path, c) => RegisterKeys(s, k, path, c);
      case WorkerMessage(k, m) => MessageIs(s, k, m);
      case ScanRequest(path, c) => ScanIsKept(s, path, c);
      case _ => CommandKeys(s, e);
    }
  }

  lemma MessageIs(s: State, k: WorkerKey, m: Message)
    ensures Handle(s, WorkerMessage(k, m)).workers.Keys == s.workers.Keys
  {
    hide HandleMessage;
    MessageKeys(s, k, m);
  }

  lemma ScanIsKept(s: State, path: string, c: Chan)
    ensures Handle(s, ScanRequest(path, c)).workers.Keys == s.workers.Keys
  {
    hide HandleScan;
    ScanKeys(s, path, c);
  }

  lemma RegisterKeys(s: State, k: WorkerKey, path: string, c: Chan)
    ensures var t := Handle(s, Register(k, path, c));
            forall j | j in t.workers && j !in s.workers :: t.workers[j].written == [] && j == k && !HasCandidate(s, k.scannerId)
  {
    hide HasCandidate;
  }

  /** Leaving the loop adds no worker and writes nothing. */
  lemma StepRecords(s: State, e: Event)
    requires s.phase == Running
    ensures var t := Handle(s, e);
            Step(s, e).workers.Keys == t.workers.Keys && forall k | k in t.workers :: Step(s, e).workers[k].written == t.workers[k].written
  {
    hide Handle, AllExited;
  }

  // ----- one candidate per scanner

  /** No scanner has two STARTING or HEALTHY workers. */
  ghost predicate OneCandidate(s: State) {
    forall j, k | j in s.workers && k in s.workers && j.scannerId == k.scannerId && s.workers[j].Candidate() && s.workers[k].Candidate() ::
      j == k
  }

  ghost predicate IsCandidate(s: State, k: WorkerKey) { k in s.workers && s.workers[k].Candidate() }

  /** A worker becomes a candidate by registration or by going back from DRAINING. */
  lemma BecomesCandidate(s: State, e: Event, k: WorkerKey)
    requires CoreInv(s) && IsCandidate(Step(s, e), k) && !IsCandidate(s, k)
    ensures Regresses(s, e, k) || Registers(s, e, k)
  {
    hide CoreInv, Step, Moves, HasCandidate;
    StepMoves(s, e);
    StepKeys(s, e);
    if k in s.workers {
      if Slips(s, e) {
        SlipIs(s, e);
      } else {
        MovesAt(s, Step(s, e), k, false);
      }
    }
  }

  /** Going back makes the worker a candidate beside every other there was. */
  lemma RegressionAdds(s: State, e: Event, k: WorkerKey)
    requires Regresses(s, e, k)
    ensures IsCandidate(Step(s, e), k) && !IsCandidate(s, k)
    ensures forall j | IsCandidate(s, j) :: IsCandidate(Step(s, e), j)
  {
    SlipIs(s, e);
    hide Step;
  }

  /** A scanner comes to have two candidates exactly when a worker of its goes back from DRAINING while it has one. */
  lemma SecondCandidateExactly(s: State, e: Event)
    requires CoreInv(s) && OneCandidate(s)
    ensures !OneCandidate(Step(s, e)) <==> exists k: WorkerKey :: Regresses(s, e, k) && HasCandidate(s, k.scannerId)
  {
    var t := Step(s, e);
    hide CoreInv, Step, Regresses;
    if j, k :| IsCandidate(t, j) && IsCandidate(t, k) && j.scannerId == k.scannerId && j != k {
      if IsCandidate(s, j) && IsCandidate(s, k) {
        assert false;
      } else if !IsCandidate(s, j) {
        OtherCandidate(s, e, j, k);
      } else {
        OtherCandidate(s, e, k, j);
      }
    }
    if k: WorkerKey :| Regresses(s, e, k) && HasCandidate(s, k.scannerId) {
      RegressionAdds(s, e, k);
      var j :| j in s.workers && j.scannerId == k.scannerId && s.workers[j].Candidate();
      assert IsCandidate(s, j);
    }
  }

  lemma OtherCandidate(s: State, e: Event, j: WorkerKey, k: WorkerKey)
    requires CoreInv(s) && j != k && j.scannerId == k.scannerId
    requires IsCandidate(Step(s, e), j) && !IsCandidate(s, j) && IsCandidate(Step(s, e), k)
    ensures Regresses(s, e, j) && HasCandidate(s, j.scannerId)
  {
    BecomesCandidate(s, e, j);
    if !IsCandidate(s, k) {
      BecomesCandidate(s, e, k);
    }
    hide CoreInv, Step;
  }

  /** Until shutdown begins there is never a second one. */
  lemma OneCandidateBefore(s: State)
    requires CoreInv(s) && s.stopReply.None?
    ensures OneCandidate(s)
  {
    hide RoutesOk, CountsOk, RequestsOk, HistoryOk, WorkersOk, QueuesOk;
  }

  /** A run that has two candidates of one scanner got them after shutdown began, from one event that took a worker back. */
  lemma {:induction false} TwoCandidates(capacity: nat, events: seq<Event>) returns (i: nat, k: WorkerKey)
    requires EventsOk(events) && !OneCandidate(Run(capacity, events))
    ensures i < |events| && OneCandidate(Before(capacity, events, i)) && Before(capacity, events, i + 1).stopReply.Some?
    ensures Regresses(Before(capacity, events, i), events[i], k) && HasCandidate(Before(capacity, events, i), k.scannerId)
  {
    hide CoreInv, Step, OneCandidate, Regresses, HasCandidate;
    assert events != [] by { NoCandidates(capacity); }
    var n := |events| - 1;
    var s := Run(capacity, events[..n]);
    RunKeeps(capacity, events[..n]);
    RunKeeps(capacity, events);
    if OneCandidate(s) {
      i := n;
      SecondCandidateExactly(s, events[n]);
      if Run(capacity, events).stopReply.None? { OneCandidateBefore(Run(capacity, events)); }
      k :| Regresses(s, events[n], k) && HasCandidate(s, k.scannerId);
      assert events[..n + 1] == events;
    } else {
      i, k := TwoCandidates(capacity, events[..n]);
      assert events[..n][..i] == events[..i] && events[..n][..i + 1] == events[..i + 1] && events[..n][i] == events[i];
    }
  }

  lemma NoCandidates(capacity: nat)
    ensures OneCandidate(Run(capacity, []))
  {
  }
}
