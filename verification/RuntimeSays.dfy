/** The loop as its callers see it: what each event sends, and on which reply channel. */
module RuntimeSays {
  import opened Wrappers
  import opened Messages
  import opened Aggregator
  import opened RuntimeSpec
  import opened RuntimeInvariants
  import opened RuntimeRecords
  import opened RuntimeBooks
  import RuntimeReplies

  // ----- the view

  predicate Is(s: State, k: WorkerKey, state: WorkerState) { k in s.workers && s.workers[k].state == state }

  /** The answer that a command gets at once, if it gets one. */
  ghost function AtOnce(s: State, e: Event): Option<Reply> {
    match e
    case Register(k, _, _) =>
      if k in s.workers then Some(Err(ALREADY_REGISTERED))
      else if Taken(s, k.scannerId) then Some(Err(HAS_CANDIDATE)) else Some(Ok)
    case BeginHello(k, _) =>
      if !Is(s, k, Starting) then Some(Err(NOT_STARTING))
      else if s.workers[k].helloReply.Some? then Some(Err(ALREADY_PENDING))
      else if |s.workers[k].queue| >= s.capacity then Some(Err(QUEUE_FULL)) else None
    case BeginHealth(k, _) =>
      if !Is(s, k, Starting) then Some(Err(NOT_STARTING))
      else if s.workers[k].healthReply.Some? then Some(Err(ALREADY_PENDING))
      else if |s.workers[k].queue| >= s.capacity then Some(Err(QUEUE_FULL)) else None
    case Activate(k, _) => if Is(s, k, Healthy) then Some(Ok) else Some(Err(NOT_HEALTHY))
    case FailCommand(k, _, _) =>
      if k !in s.workers then Some(Err(NOT_REGISTERED))
      else if Is(s, k, Starting) || Is(s, k, Healthy) then Some(Ok) else Some(Err(CANNOT_FAIL))
    case ScanRequest(_, _) =>
      if s.stopReply.Some? then Some(Err(SHUTTING_DOWN)) else if !Admitted(s, e) then Some(Err(NO_ACTIVE)) else None
    case ReloadRequest(scannerId, _, _) =>
      if scannerId !in s.active || s.active[scannerId] !in s.workers then Some(Err(NO_ACTIVE_WORKER))
      else if s.workers[s.active[scannerId]].reloadReply.Some? then Some(Err(RELOAD_IN_PROGRESS))
      else if |s.workers[s.active[scannerId]].queue| >= s.capacity then Some(Err(QUEUE_FULL)) else None
    case QueryActive(scannerId, _) =>
      if scannerId !in s.active || s.active[scannerId] !in s.workers then Some(Err(NO_ACTIVE_WORKER))
      else Some(WorkerReply(s.active[scannerId], s.workers[s.active[scannerId]].signaturePath))
    case Shutdown(_) => if s.stopReply.Some? then Some(Err(STOP_IN_PROGRESS)) else None
    case _ => None
  }

  /** The answer to the caller of a command. */
  ghost predicate CommandSays(s: State, e: Event, n: Send) {
    RuntimeReplies.EventChan(e) == Some(n.to) && AtOnce(s, e) == Some(n.reply)
  }

  /** The answer to a caller who waits for a check or a reload of worker k. */
  ghost predicate WorkerSays(s: State, e: Event, k: WorkerKey, n: Send) {
    k in s.workers
    && var w := s.workers[k];
       if Reason(s, e, k).Some? then
         n.reply == Err(Reason(s, e, k).value)
         && (w.helloReply == Some(n.to) || w.healthReply == Some(n.to) || w.reloadReply == Some(n.to))
       else
         match e
         case WorkerMessage(j, m) => j == k && !Over(w) && MessageSays(w, k, m, n)
         case ReloadTimeout(j) => j == k && w.reloadReply == Some(n.to) && n.reply == Err(RELOAD_TIMED_OUT)
         case _ => false
  }

  predicate MessageSays(w: Worker, k: WorkerKey, m: Message, n: Send) {
    match m.kind
    case TypeHelloAck =>
      w.helloReply == Some(n.to)
      && n.reply == if m.scannerId == k.scannerId && m.workerVersion == k.version then Ok else Err(IDENTITY_MISMATCH)
    case TypeHealthResult => w.healthReply == Some(n.to) && n.reply == if m.status == "ok" then Ok else Err(UNHEALTHY)
    case TypeReloadResult =>
      w.reloadReply == Some(n.to) && n.reply == ReloadReply(k, m.signatureCount, if m.success then None else Some(m.error))
    case _ => false
  }

  /** The answer to the caller of a scan that is now complete. */
  ghost predicate ScanSays(s: State, e: Event, id: nat, n: Send) {
    Opened(s, e, id).Some?
    && var r := Opened(s, e, id).value;
       var after := EntriesAfter(s, e, id, r.results);
       Complete(after) && n == Send(r.reply, ScanReply(id, Policy(set k | k in after :: after[k].verdict), after))
  }

  ghost predicate Says(s: State, e: Event, n: Send) {
    CommandSays(s, e, n) || (exists k :: WorkerSays(s, e, k, n)) || (exists id :: ScanSays(s, e, id, n))
  }

  /** What is sent from s to t is what event e says. */
  ghost predicate Sends(s: State, e: Event, t: State) { forall n :: n in t.sends <==> n in s.sends || Says(s, e, n) }

  // ----- filling

  lemma FinishedSays(s: State, e: Event, h: State, ids: set<nat>, keys: set<WorkerKey>, cause: Cause, done: set<nat>, id: nat, n: Send)
    requires done <= h.requests.Keys && FillsAt(s, e, h, ids, keys, cause, done, id)
    ensures ScanSays(s, e, id, n) <==>
            var f := Fill(h, ids, keys, cause).requests;
            id in done && id in f && n == Send(f[id].reply, Answered(id, f[id]))
  {
    hide FillResults, Entry, Final, Complete, Opened, EntriesAfter, Fits, Policy;
    if id in h.requests {
      FitsGive(s, e, id, h.requests[id], ids, keys, cause);
    }
  }

  lemma FillSays(s: State, e: Event, h: State, ids: set<nat>, keys: set<WorkerKey>, cause: Cause, done: set<nat>)
    requires done <= h.requests.Keys && forall id :: FillsAt(s, e, h, ids, keys, cause, done, id)
    ensures forall n :: n in FillFinish(h, ids, keys, cause, done).sends <==> n in h.sends || exists id :: ScanSays(s, e, id, n)
  {
    hide FillsAt, ScanSays, Answered, Fill, FillFinish;
    RuntimeReplies.FillFinishSends(h, ids, keys, cause, done);
    var f := Fill(h, ids, keys, cause).requests;
    forall n ensures n in RepliesTo(f, done) <==> exists id :: ScanSays(s, e, id, n) {
      forall id: nat ensures ScanSays(s, e, id, n) <==> id in done && id in f && n == Send(f[id].reply, Answered(id, f[id])) {
        FinishedSays(s, e, h, ids, keys, cause, done, id, n);
      }
    }
  }

  // ----- the handlers

  /** An event that gives no entry and admits no scan completes none. */
  lemma NoScanSays(s: State, e: Event)
    requires RequestsOk(s) && !Admitted(s, e) && forall id, k :: Final(s, e, id, k).None?
    ensures forall id, n :: !ScanSays(s, e, id, n)
  {
    hide Final, Complete, RequestsOk, ScanSays, Admitted;
    forall id | id in s.requests ensures EntriesAfter(s, e, id, s.requests[id].results) == s.requests[id].results {
      NoneGiven(s, e, id, s.requests[id].results);
    }
    UnchangedSays(s, e);
  }

  lemma UnchangedSays(s: State, e: Event)
    requires RequestsOk(s) && !Admitted(s, e)
    requires forall id | id in s.requests :: EntriesAfter(s, e, id, s.requests[id].results) == s.requests[id].results
    ensures forall id, n :: !ScanSays(s, e, id, n)
  {
    hide EntriesAfter, Complete, RequestsOk, ScanSays, Admitted;
    forall id, n ensures !ScanSays(s, e, id, n) {
      if id in s.requests { TrackedIs(s, id); }
      UnchangedScan(s, e, id, n);
    }
  }

  lemma UnchangedScan(s: State, e: Event, id: nat, n: Send)
    requires !Admitted(s, e)
    requires id in s.requests ==> EntriesAfter(s, e, id, s.requests[id].results) == s.requests[id].results && !Complete(s.requests[id].results)
    ensures !ScanSays(s, e, id, n)
  {
    hide EntriesAfter, Complete, Policy, Admitted;
  }

  /** Only worker j's callers are answered. */
  lemma OneSays(s: State, e: Event, j: WorkerKey)
    requires forall k | k in s.workers && k != j :: Reason(s, e, k).None?
    requires (e.WorkerMessage? ==> e.key == j) && (e.ReloadTimeout? ==> e.key == j)
    ensures forall n :: (exists k :: WorkerSays(s, e, k, n)) <==> WorkerSays(s, e, j, n)
  {
    hide Reason, MessageSays;
    forall k, n | WorkerSays(s, e, k, n) ensures k == j {
    }
  }

  /** Nothing but the answer to a command is sent. */
  lemma JustCommand(s: State, e: Event, t: State)
    requires forall k, n :: !WorkerSays(s, e, k, n)
    requires forall id, n :: !ScanSays(s, e, id, n)
    requires t.sends == s.sends + match (RuntimeReplies.EventChan(e), AtOnce(s, e)) case (Some(c), Some(r)) => {Send(c, r)} case _ => {}
    ensures Sends(s, e, t)
  {
    hide WorkerSays, ScanSays, AtOnce;
  }

  lemma NobodySays(s: State, e: Event)
    requires !e.WorkerMessage? && !e.ReloadTimeout? && forall k | k in s.workers :: Reason(s, e, k).None?
    ensures forall k, n :: !WorkerSays(s, e, k, n)
  {
    hide Reason;
  }

  lemma FailSays(s: State, e: Event, h: State, j: WorkerKey, reason: string)
    requires JustFails(s, e, h, j, reason)
    ensures forall n :: n in FailWorker(h, j, reason).sends <==>
                        n in h.sends || (n.reply == Err(reason) && n.to in HeldBy(h.workers[j])) || exists id :: ScanSays(s, e, id, n)
  {
    hide FillFinish, Ready, FailAll, FillsAt, Final, RequestsOk, ScanSays, HeldBy;
    var m := Mark(h, {j}, reason);
    FailAllIs(h, {j}, reason);
    forall id: nat ensures FillsAt(s, e, m, m.requests.Keys, {j}, Unavailable(reason), Ready(m.requests, m.requests.Keys, {j}), id) {
      FailAt(s, e, h, j, reason, id);
    }
    ReadyIds(m.requests, m.requests.Keys, {j});
    FillSays(s, e, m, m.requests.Keys, {j}, Unavailable(reason), Ready(m.requests, m.requests.Keys, {j}));
    assert forall n :: n in m.sends <==> n in h.sends || (n.reply == Err(reason) && n.to in HeldBy(h.workers[j]));
  }

  lemma HeldIs(w: Worker, c: Chan)
    ensures c in HeldBy(w) <==> w.helloReply == Some(c) || w.healthReply == Some(c) || w.reloadReply == Some(c)
  {
  }

  /** What a worker's callers are told when it alone fails. */
  lemma FailedSays(s: State, e: Event, h: State, j: WorkerKey, reason: string)
    requires JustFails(s, e, h, j, reason) && HeldBy(h.workers[j]) == HeldBy(s.workers[j])
    requires forall k | k in s.workers :: Reason(s, e, k) == if k == j then Some(reason) else None
    requires (e.WorkerMessage? ==> e.key == j) && (e.ReloadTimeout? ==> e.key == j)
    requires forall n :: n in h.sends <==> n in s.sends || CommandSays(s, e, n)
    ensures Sends(s, e, FailWorker(h, j, reason))
  {
    hide JustFails, FailWorker, ScanSays, CommandSays, HeldBy, Reason;
    JustIn(s, e, h, j, reason);
    FailSays(s, e, h, j, reason);
    OneSays(s, e, j);
    forall n ensures WorkerSays(s, e, j, n) <==> n.reply == Err(reason) && n.to in HeldBy(h.workers[j]) {
      HeldIs(s.workers[j], n.to);
      hide MessageSays;
    }
  }

  lemma JustIn(s: State, e: Event, h: State, j: WorkerKey, reason: string)
    requires JustFails(s, e, h, j, reason)
    ensures j in s.workers && j in h.workers
  {
    hide Final, RequestsOk;
  }

  lemma HelloSays(s: State, j: WorkerKey, c: Chan)
    requires RequestsOk(s)
    ensures Sends(s, BeginHello(j, c), HandleHello(s, j, c))
  {
    hide FailWorker, Sends, Final, RequestsOk, Complete, HeldBy, WorkerSays;
    var e := BeginHello(j, c);
    if j in s.workers && Reason(s, e, j).Some? {
      OneFails(s, e, j, QUEUE_FULL);
      FailedSays(s, e, Tell(s, c, Err(QUEUE_FULL)), j, QUEUE_FULL);
    } else {
      forall id, k ensures Final(s, e, id, k).None? { NoneFails(s, e, id); }
      NoScanSays(s, e);
      NobodySays(s, e);
      JustCommand(s, e, HandleHello(s, j, c));
    }
  }

  lemma HealthSays(s: State, j: WorkerKey, c: Chan)
    requires RequestsOk(s)
    ensures Sends(s, BeginHealth(j, c), HandleHealth(s, j, c))
  {
    hide FailWorker, Sends, Final, RequestsOk, Complete, HeldBy, WorkerSays;
    var e := BeginHealth(j, c);
    if j in s.workers && Reason(s, e, j).Some? {
      OneFails(s, e, j, QUEUE_FULL);
      FailedSays(s, e, Tell(s, c, Err(QUEUE_FULL)), j, QUEUE_FULL);
    } else {
      forall id, k ensures Final(s, e, id, k).None? { NoneFails(s, e, id); }
      NoScanSays(s, e);
      NobodySays(s, e);
      JustCommand(s, e, HandleHealth(s, j, c));
    }
  }

  lemma QuietSays(s: State, e: Event)
    requires RequestsOk(s) && RoutesOk(s)
    requires e.Register? || e.Activate? || e.QueryActive? || e.Dequeue? || e.Cancel? || (e.Shutdown? && s.stopReply.Some?)
    ensures Sends(s, e, Handle(s, e))
  {
    hide Sends, Final, RequestsOk, RoutesOk, WorkerSays, Admitted;
    forall id, k ensures Final(s, e, id, k).None? { QuietFinal(s, e, id, k); }
    assert !Admitted(s, e) by { QuietFinal(s, e, 0, WorkerKey("", "")); }
    NoScanSays(s, e);
    forall k | k in s.workers ensures Reason(s, e, k).None? { QuietReason(s, e, k); }
    NobodySays(s, e);
    QuietSends(s, e);
    hide Handle;
    JustCommand(s, e, Handle(s, e));
  }

  lemma QuietReason(s: State, e: Event, k: WorkerKey)
    requires k in s.workers && (e.Register? || e.Activate? || e.QueryActive? || e.Dequeue? || e.Cancel? || e.Shutdown?)
    ensures Reason(s, e, k).None?
  {
  }

  lemma QuietSends(s: State, e: Event)
    requires e.Register? || e.Activate? || e.QueryActive? || e.Dequeue? || e.Cancel? || (e.Shutdown? && s.stopReply.Some?)
    ensures Handle(s, e).sends ==
            s.sends + match (RuntimeReplies.EventChan(e), AtOnce(s, e)) case (Some(c), Some(r)) => {Send(c, r)} case _ => {}
  {
    hide Retreat, HandleShutdown;
    if e.Register? { assert HasCandidate(s, e.key.scannerId) <==> Taken(s, e.key.scannerId); }
  }

  lemma SameSends(s: State, e: Event, t: State, u: State)
    requires Sends(s, e, t) && forall n :: n in t.sends <==> n in u.sends
    ensures Sends(s, e, u)
  {
    hide Says;
  }

  lemma FailCommandSays(s: State, j: WorkerKey, reason: string, c: Chan)
    requires RequestsOk(s)
    ensures Sends(s, FailCommand(j, reason, c), HandleFail(s, j, reason, c))
  {
    hide FailWorker, Sends, Final, RequestsOk, Complete, HeldBy, WorkerSays;
    var e := FailCommand(j, reason, c);
    if j in s.workers && Reason(s, e, j).Some? {
      OneFails(s, e, j, reason);
      FailedSays(s, e, Tell(s, c, Ok), j, reason);
      FailAfterTell(s, j, reason, c, Ok);
      SameSends(s, e, FailWorker(Tell(s, c, Ok), j, reason), HandleFail(s, j, reason, c));
    } else {
      forall id, k ensures Final(s, e, id, k).None? { NoneFails(s, e, id); }
      NoScanSays(s, e);
      NobodySays(s, e);
      JustCommand(s, e, HandleFail(s, j, reason, c));
    }
  }

  /** Whether the caller is told before or after the failure makes no difference. */
  lemma FailAfterTell(s: State, j: WorkerKey, reason: string, c: Chan, r: Reply)
    ensures forall n :: n in FailWorker(Tell(s, c, r), j, reason).sends <==> n in Tell(FailWorker(s, j, reason), c, r).sends
  {
    hide Release, Using, FillResults, Answered, Ready, Unroute, RepliesTo, FailureSends;
  }

  lemma FailureSays(s: State, j: WorkerKey, reason: string)
    requires RequestsOk(s)
    ensures Sends(s, WorkerFailure(j, reason), FailWorker(s, j, reason))
  {
    hide FailWorker, Sends, Final, RequestsOk, Complete, HeldBy, WorkerSays;
    var e := WorkerFailure(j, reason);
    if j in s.workers && Reason(s, e, j).Some? {
      OneFails(s, e, j, reason);
      FailedSays(s, e, s, j, reason);
    } else {
      forall id, k ensures Final(s, e, id, k).None? { NoneFails(s, e, id); }
      NoScanSays(s, e);
      NobodySays(s, e);
      FailsNothing(s, j, reason);
      JustCommand(s, e, s);
    }
  }

  lemma ExitSays(s: State, j: WorkerKey, code: int, err: Option<string>)
    requires RequestsOk(s)
    ensures Sends(s, WorkerExit(j, code, err), HandleExit(s, j, code, err))
  {
    hide FailWorker, Sends, Final, RequestsOk, Complete, WorkerSays;
    var e := WorkerExit(j, code, err);
    if j in s.workers && Reason(s, e, j).Some? {
      OneFails(s, e, j, EXITED);
      FailedSays(s, e, SetWorker(s, j, Exited(s.workers[j], code, err)), j, EXITED);
    } else {
      forall id, k ensures Final(s, e, id, k).None? { NoneFails(s, e, id); }
      NoScanSays(s, e);
      NobodySays(s, e);
      if j in s.workers && Over(s.workers[j]) { FailsNothing(SetWorker(s, j, Exited(s.workers[j], code, err)), j, EXITED); }
      JustCommand(s, e, HandleExit(s, j, code, err));
    }
  }

  lemma ReloadSays(s: State, scannerId: string, path: string, c: Chan)
    requires RequestsOk(s) && RoutesOk(s)
    ensures Sends(s, ReloadRequest(scannerId, path, c), HandleReload(s, scannerId, path, c))
  {
    hide FailWorker, Sends, Final, RequestsOk, Complete, WorkerSays;
    var e := ReloadRequest(scannerId, path, c);
    RoutesIff(s);
    if scannerId in s.active && Reason(s, e, s.active[scannerId]).Some? {
      FullReloadSays(s, scannerId, path, c);
    } else {
      forall id, k ensures Final(s, e, id, k).None? { NoneFails(s, e, id); }
      hide RoutesOk;
      NoScanSays(s, e);
      NobodySays(s, e);
      JustCommand(s, e, HandleReload(s, scannerId, path, c));
    }
  }

  lemma FullReloadSays(s: State, scannerId: string, path: string, c: Chan)
    requires RequestsOk(s) && RoutesOk(s) && scannerId in s.active && s.active[scannerId] in s.workers
    requires Reason(s, ReloadRequest(scannerId, path, c), s.active[scannerId]).Some?
    ensures Sends(s, ReloadRequest(scannerId, path, c), HandleReload(s, scannerId, path, c))
  {
    hide FailWorker, Sends, Final, RequestsOk, Complete, WorkerSays;
    var e, j := ReloadRequest(scannerId, path, c), s.active[scannerId];
    RoutesIff(s);
    OneFails(s, e, j, QUEUE_FULL);
    hide RoutesOk;
    FailedSays(s, e, Tell(SetWorker(s, j, s.workers[j].(pendingSignaturePath := "")), c, Err(QUEUE_FULL)), j, QUEUE_FULL);
  }

  lemma ReloadTimeoutSays(s: State, j: WorkerKey)
    requires RequestsOk(s)
    ensures Sends(s, ReloadTimeout(j), HandleReloadTimeout(s, j))
  {
    hide Final, RequestsOk, ScanSays, MessageSays;
    var e, t := ReloadTimeout(j), HandleReloadTimeout(s, j);
    forall id, k ensures Final(s, e, id, k).None? { QuietFinal(s, e, id, k); }
    assert !Admitted(s, e);
    NoScanSays(s, e);
    OneSays(s, e, j);
    forall n ensures n in t.sends <==> n in s.sends || WorkerSays(s, e, j, n) {
    }
    hide WorkerSays, HandleReloadTimeout;
    assert forall n :: !CommandSays(s, e, n);
  }

  lemma IgnoredSays(s: State, j: WorkerKey, m: Message)
    requires RequestsOk(s) && (j !in s.workers || Over(s.workers[j]))
    ensures Sends(s, WorkerMessage(j, m), s)
  {
    hide RequestsOk, ScanSays, Unexpected, MessageSays;
    var e := WorkerMessage(j, m);
    assert forall id, k :: Final(s, e, id, k).None?;
    NoScanSays(s, e);
    assert forall k, n :: !WorkerSays(s, e, k, n);
    assert forall n :: !CommandSays(s, e, n);
  }

  lemma UnexpectedSays(s: State, j: WorkerKey, m: Message)
    requires RequestsOk(s) && j in s.workers && !Over(s.workers[j]) && Unexpected(s.workers[j], m)
    ensures Sends(s, WorkerMessage(j, m), FailWorker(s, j, UNEXPECTED_MESSAGE))
  {
    var e := WorkerMessage(j, m);
    ScanIsExpected(s.workers[j], m);
    assert JustFails(s, e, s, j, UNEXPECTED_MESSAGE) by { hide RequestsOk, Unexpected; }
    hide FailWorker, Sends, Final, RequestsOk, Complete, WorkerSays, JustFails, Unexpected;
    FailedSays(s, e, s, j, UNEXPECTED_MESSAGE);
  }

  /** An expected message answers whoever waits for it. */
  lemma ExpectedReason(s: State, j: WorkerKey, m: Message, k: WorkerKey)
    requires j in s.workers && !Unexpected(s.workers[j], m) && k in s.workers
    ensures Reason(s, WorkerMessage(j, m), k).None?
  {
    hide Unexpected;
  }

  lemma ToldSays(s: State, j: WorkerKey, m: Message)
    requires RequestsOk(s) && j in s.workers && !Over(s.workers[j]) && !Unexpected(s.workers[j], m) && m.kind != TypeScanResult
    ensures Sends(s, WorkerMessage(j, m), HandleMessage(s, j, m))
  {
    hide RequestsOk, ScanSays, Sends, MessageSays, HandleMessage, CommandSays, Unexpected;
    var e := WorkerMessage(j, m);
    forall k | k in s.workers ensures Reason(s, e, k).None? { ExpectedReason(s, j, m, k); }
    assert forall id, k :: Final(s, e, id, k).None?;
    assert !Admitted(s, e);
    NoScanSays(s, e);
    OneSays(s, e, j);
    hide Reason, Final;
    forall n ensures WorkerSays(s, e, j, n) <==> MessageSays(s.workers[j], j, m, n) {
      hide Over;
    }
    ToldSends(s, j, m);
    SaysIs(s, e, j, HandleMessage(s, j, m));
  }

  lemma SaysIs(s: State, e: Event, j: WorkerKey, t: State)
    requires RuntimeReplies.EventChan(e).None? && forall id, n :: !ScanSays(s, e, id, n)
    requires forall n :: (exists k :: WorkerSays(s, e, k, n)) <==> WorkerSays(s, e, j, n)
    requires forall n :: n in t.sends <==> n in s.sends || WorkerSays(s, e, j, n)
    ensures Sends(s, e, t)
  {
    hide ScanSays, WorkerSays, AtOnce;
  }

  lemma ToldSends(s: State, j: WorkerKey, m: Message)
    requires j in s.workers && !Over(s.workers[j]) && !Unexpected(s.workers[j], m) && m.kind != TypeScanResult
    ensures forall n :: n in HandleMessage(s, j, m).sends <==> n in s.sends || MessageSays(s.workers[j], j, m, n)
  {
    hide FailWorker, HandleScanResult;
  }

  lemma ScanResultSays(s: State, j: WorkerKey, m: Message)
    requires RequestsOk(s) && j in s.workers && !Over(s.workers[j]) && m.kind == TypeScanResult
    ensures Sends(s, WorkerMessage(j, m), HandleScanResult(s, j, m))
  {
    hide RequestsOk, ScanSays, FillFinish, Ready, Complete, Settle, Unexpected;
    var e := WorkerMessage(j, m);
    ScanIsExpected(s.workers[j], m);
    forall k | k in s.workers ensures Reason(s, e, k).None? { ExpectedReason(s, j, m, k); }
    hide Reason;
    assert forall k, n :: !WorkerSays(s, e, k, n);
    assert forall n :: !CommandSays(s, e, n);
    assert !Admitted(s, e);
    if Accepts(s, j, m) {
      SettleIs(s, {m.requestId}, {j}, Answer(m));
      forall id: nat ensures FillsAt(s, e, s, {m.requestId}, {j}, Answer(m), Ready(s.requests, {m.requestId}, {j}), id) {
        if id in s.requests { TrackedIs(s, id); }
        AcceptedAt(s, j, m, id);
      }
      hide FillsAt;
      FillSays(s, e, s, {m.requestId}, {j}, Answer(m), Ready(s.requests, {m.requestId}, {j}));
    } else {
      forall id | id in s.requests ensures EntriesAfter(s, e, id, s.requests[id].results) == s.requests[id].results {
        NotAccepted(s, j, m, id);
      }
      UnchangedSays(s, e);
    }
  }

  lemma AcceptedAt(s: State, j: WorkerKey, m: Message, id: nat)
    requires RequestsOk(s) && j in s.workers && !Over(s.workers[j]) && m.kind == TypeScanResult
    ensures FillsAt(s, WorkerMessage(j, m), s, {m.requestId}, {j}, Answer(m), Ready(s.requests, {m.requestId}, {j}), id)
  {
    hide RequestsOk, Ready, Complete;
    if id in s.requests { TrackedIs(s, id); }
    SettleAt(s, WorkerMessage(j, m), s, {m.requestId}, {j}, Answer(m), id);
  }

  lemma NotAccepted(s: State, j: WorkerKey, m: Message, id: nat)
    requires j in s.workers && !Over(s.workers[j]) && m.kind == TypeScanResult && !Accepts(s, j, m) && id in s.requests
    ensures EntriesAfter(s, WorkerMessage(j, m), id, s.requests[id].results) == s.requests[id].results
  {
  }

  lemma WorkerMessageSays(s: State, j: WorkerKey, m: Message)
    requires RequestsOk(s)
    ensures Sends(s, WorkerMessage(j, m), HandleMessage(s, j, m))
  {
    hide RequestsOk, Sends, HandleMessage, HandleScanResult, FailWorker, Unexpected;
    if j !in s.workers || Over(s.workers[j]) {
      RuntimeBooks.IgnoredIs(s, j, m);
      IgnoredSays(s, j, m);
    } else if Unexpected(s.workers[j], m) {
      UnexpectedIs(s, j, m);
      UnexpectedSays(s, j, m);
    } else if m.kind == TypeScanResult {
      ScanIs(s, j, m);
      ScanResultSays(s, j, m);
    } else {
      ToldSays(s, j, m);
    }
  }

  // ----- scans, timers and shutdown

  lemma RefusedSays(s: State, path: string, c: Chan)
    requires RequestsOk(s) && RoutesOk(s) && !Admitted(s, ScanRequest(path, c))
    ensures Sends(s, ScanRequest(path, c), HandleScan(s, path, c))
  {
    hide RequestsOk, Sends, Final, WorkerSays, ScanSays;
    var e := ScanRequest(path, c);
    RoutesIff(s);
    hide RoutesOk;
    forall k | k in s.workers ensures Reason(s, e, k).None? { RefusedFails(s, path, c, k); }
    forall id, k ensures Final(s, e, id, k).None? { NoneFails(s, e, id); }
    NoScanSays(s, e);
    NobodySays(s, e);
    JustCommand(s, e, HandleScan(s, path, c));
  }

  /** Who is told of the failures that a full queue causes. */
  lemma FullSays(s: State, path: string, c: Chan, n: Send)
    requires RequestsOk(s) && RoutesOk(s) && Admitted(s, ScanRequest(path, c))
    ensures n in FailureSends(Sending(s, path, c).workers, Full(Admit(s, path, c), s.active.Values), QUEUE_FULL)
            <==> exists k :: WorkerSays(s, ScanRequest(path, c), k, n)
  {
    var d, full := Sending(s, path, c), Full(Admit(s, path, c), s.active.Values);
    forall k ensures WorkerSays(s, ScanRequest(path, c), k, n) <==>
                     k in full && k in d.workers && n.to in HeldBy(d.workers[k]) && n.reply == Err(QUEUE_FULL) {
      if k in s.workers {
        FullIs(s, path, c, k);
        SendingSlots(s, path, c, k);
        HeldIs(s.workers[k], n.to);
        hide Sending, Full, RequestsOk, RoutesOk, Admitted, HeldBy, Reason;
      } else {
        hide Reason, RequestsOk;
      }
    }
    hide WorkerSays, Sending, Full;
    FailureSendsAre(d.workers, full, QUEUE_FULL, n);
  }

  lemma FailureSendsAre(workers: map<WorkerKey, Worker>, keys: set<WorkerKey>, reason: string, n: Send)
    ensures n in FailureSends(workers, keys, reason) <==>
            exists k :: k in keys && k in workers && n.to in HeldBy(workers[k]) && n.reply == Err(reason)
  {
    hide HeldBy;
    if k :| k in keys && k in workers && n.to in HeldBy(workers[k]) && n.reply == Err(reason) {
      assert n == Send(n.to, Err(reason));
    }
  }

  lemma SendingSlots(s: State, path: string, c: Chan, k: WorkerKey)
    requires k in s.workers
    ensures k in Sending(s, path, c).workers && HeldBy(Sending(s, path, c).workers[k]) == HeldBy(s.workers[k])
    ensures Sending(s, path, c).workers.Keys == s.workers.Keys
  {
    hide Full;
  }

  lemma AdmittedSays(s: State, path: string, c: Chan)
    requires RequestsOk(s) && RoutesOk(s) && Admitted(s, ScanRequest(path, c))
    ensures Sends(s, ScanRequest(path, c), HandleScan(s, path, c))
  {
    var e := ScanRequest(path, c);
    RoutesIff(s);
    assert forall n :: !CommandSays(s, e, n);
    hide RequestsOk, RoutesOk, FillFinish, Ready, ScanSays, WorkerSays, CommandSays, FailAll, Full, FillsAt, Sending;
    ScanIsSending(s, path, c);
    var d, full := Sending(s, path, c), Full(Admit(s, path, c), s.active.Values);
    FailAllIs(d, full, QUEUE_FULL);
    var m := Mark(d, full, QUEUE_FULL);
    forall id: nat ensures FillsAt(s, e, m, m.requests.Keys, full, Unavailable(QUEUE_FULL), Ready(m.requests, m.requests.Keys, full), id) {
      SendingAt(s, path, c, id);
    }
    ReadyIds(m.requests, m.requests.Keys, full);
    FillSays(s, e, m, m.requests.Keys, full, Unavailable(QUEUE_FULL), Ready(m.requests, m.requests.Keys, full));
    forall n ensures n in m.sends <==> n in s.sends || exists k :: WorkerSays(s, e, k, n) {
      FullSays(s, path, c, n);
      SendingSends(s, path, c);
      hide FailureSends;
    }
    hide Mark, HandleScan, Admitted;
  }

  lemma SendingSends(s: State, path: string, c: Chan)
    ensures Sending(s, path, c).sends == s.sends
  {
    hide Full;
  }

  lemma ScanTimeoutSays(s: State, i: nat)
    requires RequestsOk(s)
    ensures Sends(s, ScanTimeout(i), HandleScanTimeout(s, i))
  {
    hide RequestsOk, FillFinish, ScanSays, FillsAt, Final, EntriesAfter;
    var e := ScanTimeout(i);
    assert forall k, n :: !WorkerSays(s, e, k, n);
    assert forall n :: !CommandSays(s, e, n);
    if i in s.requests {
      forall id: nat ensures FillsAt(s, e, s, {i}, s.requests[i].results.Keys, Timeout, {i}, id) { TimeoutAt(s, i, id); }
      TimeoutIs(s, i);
      hide HandleScanTimeout;
      FillSays(s, e, s, {i}, s.requests[i].results.Keys, Timeout, {i});
    } else {
      forall id | id in s.requests ensures EntriesAfter(s, e, id, s.requests[id].results) == s.requests[id].results {
        forall k ensures Final(s, e, id, k).None? { TimeoutFinal(s, i, id, k); }
        NoneGiven(s, e, id, s.requests[id].results);
      }
      UnchangedSays(s, e);
    }
  }

  lemma ShutdownSays(s: State, c: Chan)
    requires RequestsOk(s) && s.stopReply.None?
    ensures Sends(s, Shutdown(c), HandleShutdown(s, c))
  {
    hide RequestsOk, FillFinish, ScanSays, FillsAt, HandleShutdown;
    var e := Shutdown(c);
    var h := s.(stopReply := Some(c));
    assert forall k, n :: !WorkerSays(s, e, k, n);
    assert forall n :: !CommandSays(s, e, n);
    forall id: nat ensures FillsAt(s, e, h, h.requests.Keys, h.workers.Keys, Unavailable(SHUTTING_DOWN), h.requests.Keys, id) {
      StopAt(s, c, id);
    }
    StopSends(s, c);
    FillSays(s, e, h, h.requests.Keys, h.workers.Keys, Unavailable(SHUTTING_DOWN), h.requests.Keys);
  }

  lemma StopSends(s: State, c: Chan)
    ensures var h := s.(stopReply := Some(c));
            HandleShutdown(s, c).sends == FillFinish(h, h.requests.Keys, h.workers.Keys, Unavailable(SHUTTING_DOWN), h.requests.Keys).sends
  {
    hide Finish, Fill, RequestShutdown;
  }

  lemma HandleSays(s: State, e: Event)
    requires RequestsOk(s) && RoutesOk(s)
    ensures Sends(s, e, Handle(s, e))
  {
    hide Sends, RequestsOk, RoutesOk, Admitted;
    hide HandleRegister, HandleHello, HandleHealth, HandleActivate, HandleFail, HandleMessage, FailWorker, HandleExit, HandleScan,
         HandleScanTimeout, HandleReload, HandleReloadTimeout, HandleQuery, HandleShutdown, HandleDequeue, Close, Tell;
    match e
    case BeginHello(j, c) => HelloSays(s, j, c);
    case BeginHealth(j, c) => HealthSays(s, j, c);
    case FailCommand(j, reason, c) => FailCommandSays(s, j, reason, c);
    case WorkerMessage(j, m) => WorkerMessageSays(s, j, m);
    case WorkerFailure(j, reason) => FailureSays(s, j, reason);
    case WorkerExit(j, code, err) => ExitSays(s, j, code, err);
    case ScanRequest(path, c) => if Admitted(s, e) { AdmittedSays(s, path, c); } else { RefusedSays(s, path, c); }
    case ScanTimeout(i) => ScanTimeoutSays(s, i);
    case ReloadRequest(scannerId, path, c) => ReloadSays(s, scannerId, path, c);
    case ReloadTimeout(j) => ReloadTimeoutSays(s, j);
    case Shutdown(c) => if s.stopReply.None? { ShutdownSays(s, c); } else { QuietSays(s, e); }
    case _ => QuietSays(s, e);
  }

  /** What one step sends: what the event says, and Ok to whoever asked for the shutdown when it is over. */
  lemma CallersView(s: State, e: Event)
    requires CoreInv(s) && s.phase == Running
    ensures var t := Step(s, e);
            forall n :: n in t.sends <==>
                        n in s.sends || Says(s, e, n) || (t.phase == ShutDown && t.stopReply.Some? && n == Send(t.stopReply.value, Ok))
  {
    assert RequestsOk(s) && RoutesOk(s);
    hide CoreInv, Handle, Says;
    HandleSays(s, e);
    if !e.Cancel? { RuntimeReplies.PhaseKept(s, e); }
    hide Step;
    StepSends(s, e);
  }

  lemma StepSends(s: State, e: Event)
    requires s.phase == Running && (e.Cancel? || Handle(s, e).phase == s.phase)
    ensures var t := Step(s, e);
            t.sends == Handle(s, e).sends + if t.phase == ShutDown && t.stopReply.Some? then {Send(t.stopReply.value, Ok)} else {}
  {
    hide AllExited;
    if e.Cancel? {
      assert Step(s, e) == Close(s, Cancelled);
    } else {
      hide Handle;
    }
  }
}
