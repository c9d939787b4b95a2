/**
 The loop as one worker sees it: what each event makes of its record, written down field by field from the event,
 the record and a few facts about the rest, and proved of every step.
 */
module RuntimeRecords {
  import opened Wrappers
  import opened Messages
  import opened RuntimeSpec
  import opened RuntimeInvariants
  import RuntimeReplies
  import RuntimeSafety
  import RuntimeWorkers

  // ----- the view

  /** A message with nothing but a type. */
  function Note(kind: MessageType): Message { Message(1, kind, 0, "", "", None, "", "", "", NoVerdict, "", 0, false, 0, "") }

  predicate Over(w: Worker) { w.state == Failed || w.state == Retired }

  /** A scan is admitted: no shutdown was asked for, and some worker is ACTIVE. */
  ghost predicate Admitted(s: State, e: Event) {
    e.ScanRequest? && s.stopReply.None? && exists k :: k in s.workers && s.workers[k].state == Active
  }

  /** A message that its worker should not have sent. */
  predicate Unexpected(w: Worker, m: Message) {
    match m.kind
    case TypeHelloAck => w.helloReply.None?
    case TypeHealthResult => w.healthReply.None?
    case TypeScanResult => false
    case TypeReloadResult => false
    case TypeShutdownAck => w.state != Draining
    case _ => true
  }

  /** Why event e fails worker k, if it does. */
  ghost function Reason(s: State, e: Event, k: WorkerKey): Option<string>
    requires k in s.workers
  {
    var w := s.workers[k];
    var full := |w.queue| >= s.capacity;
    if Over(w) then None
    else
      match e
      case WorkerFailure(j, reason) => if j == k then Some(reason) else None
      case FailCommand(j, reason, _) => if j == k && (w.state == Starting || w.state == Healthy) then Some(reason) else None
      case WorkerExit(j, _, _) => if j == k && !(w.state == Draining && w.shutdownAck) then Some(EXITED) else None
      case WorkerMessage(j, m) => if j == k && Unexpected(w, m) then Some(UNEXPECTED_MESSAGE) else None
      case BeginHello(j, _) => if j == k && w.state == Starting && w.helloReply.None? && full then Some(QUEUE_FULL) else None
      case BeginHealth(j, _) => if j == k && w.state == Starting && w.healthReply.None? && full then Some(QUEUE_FULL) else None
      case ScanRequest(_, _) => if Admitted(s, e) && w.state == Active && full then Some(QUEUE_FULL) else None
      case ReloadRequest(scannerId, _, _) =>
        if k.scannerId == scannerId && w.state == Active && w.reloadReply.None? && full then Some(QUEUE_FULL) else None
      case _ => None
  }

  /** The record of a worker that fails, with its exit noted and without a path to reload if that is how it failed. */
  function AsFailed(w: Worker, e: Event, reason: string): Worker {
    AsExited(w, e).(state := Failed, failureReason := reason, terminated := true,
                    helloReply := None, healthReply := None, reloadReply := None,
                    pendingSignaturePath := if e.ReloadRequest? then "" else w.pendingSignaturePath)
  }

  function AsExited(w: Worker, e: Event): Worker {
    if e.WorkerExit? then w.(exited := true, exitCode := e.code, exitError := if e.err.Some? then e.err.value else w.exitError)
    else w
  }

  /** What a message that its worker may send makes of its record. */
  function Told(w: Worker, m: Message): Worker {
    match m.kind
    case TypeHelloAck => w.(helloReply := None)
    case TypeHealthResult => w.(healthReply := None, state := if m.status == "ok" then Healthy else w.state)
    case TypeReloadResult =>
      if w.reloadReply.None? then w
      else
        w.(reloadReply := None, reloadTimer := false, pendingSignaturePath := "",
           signaturePath := if m.success then w.pendingSignaturePath else w.signaturePath)
    case TypeShutdownAck => w.(shutdownAck := true, terminated := true)
    case _ => w
  }

  /** What event e makes of the record of worker k, but for counting and being asked to stop. */
  ghost function Changed(s: State, e: Event, k: WorkerKey): Worker
    requires k in s.workers
  {
    var w := s.workers[k];
    if Reason(s, e, k).Some? then AsFailed(w, e, Reason(s, e, k).value)
    else
      match e
      case BeginHello(j, c) =>
        if j == k && w.state == Starting && w.helloReply.None? then w.(helloReply := Some(c), queue := w.queue + [Note(TypeHello)])
        else w
      case BeginHealth(j, c) =>
        if j == k && w.state == Starting && w.healthReply.None? then
          w.(healthReply := Some(c), queue := w.queue + [Note(TypeHealthCheck)])
        else w
      case Activate(j, _) =>
        if j == k && w.state == Healthy then w.(state := Active)
        else if j in s.workers && s.workers[j].state == Healthy && j.scannerId == k.scannerId && w.state == Active then
          w.(state := Draining)
        else w
      case WorkerMessage(j, m) => if j == k && !Over(w) then Told(w, m) else w
      case WorkerExit(j, _, _) =>
        if j != k then w else if w.state == Draining then AsExited(w, e).(state := Retired) else AsExited(w, e)
      case ScanRequest(path, _) =>
        if Admitted(s, e) && w.state == Active then
          w.(queue := w.queue + [Note(TypeScan).(requestId := s.nextRequestID + 1, filePath := path)])
        else w
      case ReloadRequest(scannerId, path, c) =>
        if k.scannerId == scannerId && w.state == Active && w.reloadReply.None? then
          w.(reloadReply := Some(c), reloadTimer := true, pendingSignaturePath := path,
             queue := w.queue + [Note(TypeReload).(signaturePath := path)])
        else w
      case ReloadTimeout(j) =>
        if j == k && w.reloadReply.Some? then w.(reloadReply := None, pendingSignaturePath := "") else w
      case Shutdown(_) => if s.stopReply.None? && !Over(w) then w.(state := Draining) else w
      case Dequeue(j) =>
        if j == k && w.queue != [] then w.(queue := w.queue[1..], written := w.written + [w.queue[0]]) else w
      case _ => w
  }

  /** A DRAINING worker with nothing in flight is asked to stop, once; if its queue is full its child is terminated instead. */
  function Asked(w: Worker, capacity: nat): Worker {
    if w.state != Draining || w.inFlight > 0 || w.shutdownSent then w
    else if |w.queue| < capacity then w.(shutdownSent := true, queue := w.queue + [Note(TypeShutdown)])
    else w.(shutdownSent := true, terminated := true)
  }

  // ----- releases

  /** w' is w after some of its requests were completed. */
  ghost predicate Eased(w: Worker, w': Worker, capacity: nat) { w' == Asked(w.(inFlight := w'.inFlight), capacity) }

  predicate Gated(w: Worker) { w.state == Draining && w.inFlight == 0 ==> w.shutdownSent }

  lemma ReleaseEases(w: Worker, n: nat, capacity: nat)
    requires Gated(w)
    ensures Eased(w, Release(w, n, capacity), capacity)
  {
  }

  lemma SameEases(w: Worker, capacity: nat)
    requires Gated(w)
    ensures Eased(w, w, capacity)
  {
  }

  lemma FillEases(s: State, ids: set<nat>, keys: set<WorkerKey>, cause: Cause, done: set<nat>, k: WorkerKey)
    requires done <= s.requests.Keys && k in s.workers && Gated(s.workers[k])
    ensures var t := FillFinish(s, ids, keys, cause, done);
            k in t.workers && Eased(s.workers[k], t.workers[k], s.capacity)
  {
    hide Release, Eased, Using, FillResults, Entry, RepliesTo, Closed, Without;
    ReleaseEases(s.workers[k], |Using(Fill(s, ids, keys, cause).requests, done, k)|, s.capacity);
  }

  lemma FailAllEases(s: State, keys: set<WorkerKey>, reason: string, k: WorkerKey)
    requires k in s.workers && (k in keys || Gated(s.workers[k]))
    ensures var t := FailAll(s, keys, reason);
            k in t.workers
            && Eased(if k in keys then MarkFailed(s.workers[k], reason) else s.workers[k], t.workers[k], s.capacity)
  {
    hide FillFinish, Ready, FailAll, Unroute, FailureSends;
    var m := Mark(s, keys, reason);
    var done := Ready(m.requests, m.requests.Keys, keys);
    ReadyIds(m.requests, m.requests.Keys, keys);
    FailAllIs(s, keys, reason);
    FillEases(m, m.requests.Keys, keys, Unavailable(reason), done, k);
  }

  lemma FailEases(s: State, j: WorkerKey, reason: string, k: WorkerKey)
    requires k in s.workers && Gated(s.workers[k])
    ensures var t := FailWorker(s, j, reason);
            k in t.workers
            && Eased(if k == j && !Over(s.workers[k]) then MarkFailed(s.workers[k], reason) else s.workers[k], t.workers[k], s.capacity)
  {
    hide FailAll, MarkFailed, Eased;
    FailAllEases(s, {j}, reason, k);
    SameEases(s.workers[k], s.capacity);
  }

  // ----- the handlers

  lemma HelloRecord(s: State, j: WorkerKey, c: Chan, k: WorkerKey)
    requires k in s.workers && Gated(s.workers[k])
    ensures var t := HandleHello(s, j, c); k in t.workers && Eased(Changed(s, BeginHello(j, c), k), t.workers[k], s.capacity)
  {
    hide FailWorker, Eased, MarkFailed;
    var told := Tell(s, c, Err(QUEUE_FULL));
    FailEases(told, j, QUEUE_FULL, k);
    FailedIs(s.workers[k], BeginHello(j, c), QUEUE_FULL);
    SameEases(Changed(s, BeginHello(j, c), k), s.capacity);
  }

  lemma HealthRecord(s: State, j: WorkerKey, c: Chan, k: WorkerKey)
    requires k in s.workers && Gated(s.workers[k])
    ensures var t := HandleHealth(s, j, c); k in t.workers && Eased(Changed(s, BeginHealth(j, c), k), t.workers[k], s.capacity)
  {
    hide FailWorker, Eased, MarkFailed;
    var told := Tell(s, c, Err(QUEUE_FULL));
    FailEases(told, j, QUEUE_FULL, k);
    FailedIs(s.workers[k], BeginHealth(j, c), QUEUE_FULL);
    SameEases(Changed(s, BeginHealth(j, c), k), s.capacity);
  }

  lemma FailedIs(w: Worker, e: Event, reason: string)
    requires !e.WorkerExit? && !e.ReloadRequest?
    ensures AsFailed(w, e, reason) == MarkFailed(w, reason)
  {
  }

  lemma MessageRecord(s: State, j: WorkerKey, m: Message, k: WorkerKey)
    requires k in s.workers && Gated(s.workers[k])
    ensures var t := HandleMessage(s, j, m); k in t.workers && Eased(Changed(s, WorkerMessage(j, m), k), t.workers[k], s.capacity)
  {
    hide FailWorker, Eased, HandleScanResult, MarkFailed, Told;
    FailEases(s, j, UNEXPECTED_MESSAGE, k);
    FailedIs(s.workers[k], WorkerMessage(j, m), UNEXPECTED_MESSAGE);
    SameEases(s.workers[k], s.capacity);
    ScanResultRecord(s, j, m, k);
    if j == k && !Over(s.workers[k]) {
      if Unexpected(s.workers[k], m) {
        UnexpectedIs(s, k, m);
        hide HandleMessage;
      } else {
        ToldIs(s, k, m);
        hide HandleMessage, Unexpected;
      }
    } else {
      OtherMessage(s, j, m, k);
      hide HandleMessage;
    }
  }

  lemma UnexpectedIs(s: State, k: WorkerKey, m: Message)
    requires k in s.workers && !Over(s.workers[k]) && Unexpected(s.workers[k], m)
    ensures HandleMessage(s, k, m) == FailWorker(s, k, UNEXPECTED_MESSAGE)
  {
    hide FailWorker;
  }

  lemma ToldIs(s: State, k: WorkerKey, m: Message)
    requires k in s.workers && Gated(s.workers[k]) && !Over(s.workers[k]) && !Unexpected(s.workers[k], m)
    ensures var t := HandleMessage(s, k, m); k in t.workers && Eased(Told(s.workers[k], m), t.workers[k], s.capacity)
  {
    hide FailWorker, HandleScanResult, Eased, Settle;
    if m.kind == TypeScanResult {
      ScanResultRecord(s, k, m, k);
    } else {
      SameEases(Told(s.workers[k], m), s.capacity);
    }
  }

  lemma OtherMessage(s: State, j: WorkerKey, m: Message, k: WorkerKey)
    requires k in s.workers && Gated(s.workers[k]) && (j != k || Over(s.workers[k]))
    ensures var t := HandleMessage(s, j, m); k in t.workers && Eased(s.workers[k], t.workers[k], s.capacity)
  {
    hide FailWorker, HandleScanResult, Eased, Settle, MarkFailed;
    FailEases(s, j, UNEXPECTED_MESSAGE, k);
    SameEases(s.workers[k], s.capacity);
    ScanResultRecord(s, j, m, k);
  }

  lemma ScanResultRecord(s: State, j: WorkerKey, m: Message, k: WorkerKey)
    requires k in s.workers && Gated(s.workers[k])
    ensures var t := HandleScanResult(s, j, m); k in t.workers && Eased(s.workers[k], t.workers[k], s.capacity)
  {
    hide Eased, FillFinish, Ready;
    SameEases(s.workers[k], s.capacity);
    ReadyIds(s.requests, {m.requestId}, {j});
    FillEases(s, {m.requestId}, {j}, Answer(m), Ready(s.requests, {m.requestId}, {j}), k);
    SettleIs(s, {m.requestId}, {j}, Answer(m));
  }

  lemma SettleIs(s: State, ids: set<nat>, keys: set<WorkerKey>, cause: Cause)
    ensures Ready(s.requests, ids, keys) <= s.requests.Keys
    ensures Settle(s, ids, keys, cause) == FillFinish(s, ids, keys, cause, Ready(s.requests, ids, keys))
  {
    hide Finish, Fill;
  }

  lemma ExitRecord(s: State, j: WorkerKey, code: int, err: Option<string>, k: WorkerKey)
    requires k in s.workers && Gated(s.workers[k])
    ensures var t := HandleExit(s, j, code, err);
            k in t.workers && Eased(Changed(s, WorkerExit(j, code, err), k), t.workers[k], s.capacity)
  {
    hide FailWorker;
    if j in s.workers { FailEases(SetWorker(s, j, Exited(s.workers[j], code, err)), j, EXITED, k); }
    SameEases(s.workers[k], s.capacity);
  }

  lemma FailRecord(s: State, j: WorkerKey, reason: string, c: Chan, k: WorkerKey)
    requires k in s.workers && Gated(s.workers[k])
    ensures var t := HandleFail(s, j, reason, c); k in t.workers && Eased(Changed(s, FailCommand(j, reason, c), k), t.workers[k], s.capacity)
    ensures var t := FailWorker(s, j, reason); k in t.workers && Eased(Changed(s, WorkerFailure(j, reason), k), t.workers[k], s.capacity)
  {
    hide FailWorker;
    FailEases(s, j, reason, k);
    SameEases(s.workers[k], s.capacity);
  }

  lemma RoutedIsActive(s: State, k: WorkerKey)
    requires RoutesOk(s) && k in s.workers
    ensures k in s.active.Values <==> s.workers[k].state == Active
    ensures k.scannerId in s.active && s.active[k.scannerId] == k <==> s.workers[k].state == Active
    ensures s.active == map[] <==> !exists j :: j in s.workers && s.workers[j].state == Active
  {
    if s.active != map[] {
      var id :| id in s.active;
    }
  }

  lemma ActivateRecord(s: State, j: WorkerKey, c: Chan, k: WorkerKey)
    requires RoutesOk(s) && k in s.workers && Gated(s.workers[k])
    ensures var t := HandleActivate(s, j, c); k in t.workers && Eased(Changed(s, Activate(j, c), k), t.workers[k], s.capacity)
  {
    hide Eased, Retreat;
    RoutedIsActive(s, k);
    SameEases(s.workers[k], s.capacity);
    RetreatEases(s.workers[k], s.capacity);
    if j == k && s.workers[k].state == Healthy {
      SameEases(s.workers[k].(state := Active), s.capacity);
    }
    DisplacedRecord(s, j, k);
    hide Changed, RoutesOk;
    ActivatedIs(s, j, c, k);
  }

  lemma RetreatEases(w: Worker, capacity: nat)
    ensures Eased(w.(state := Draining), Retreat(w, capacity), capacity)
  {
  }

  /** Changed, for this event. */
  lemma ActivatedIs(s: State, j: WorkerKey, c: Chan, k: WorkerKey)
    requires k in s.workers
    ensures var w := s.workers[k];
            Changed(s, Activate(j, c), k) ==
            if j == k && w.state == Healthy then w.(state := Active)
            else if j in s.workers && s.workers[j].state == Healthy && j.scannerId == k.scannerId && w.state == Active then w.(state := Draining)
            else w
  {
  }

  lemma DisplacedRecord(s: State, j: WorkerKey, k: WorkerKey)
    requires RoutesOk(s) && k in s.workers
    ensures var d := Displace(s, j.scannerId);
            k in d.workers && d.workers.Keys == s.workers.Keys
            && d.workers[k] == if j.scannerId == k.scannerId && s.workers[k].state == Active then Retreat(s.workers[k], s.capacity)
                               else s.workers[k]
  {
    hide Retreat;
    RoutedIsActive(s, k);
  }

  lemma CountAside(v: Worker, w: Worker, w': Worker, capacity: nat)
    requires Eased(v, w', capacity) && v.(inFlight := 0) == w.(inFlight := 0)
    ensures Eased(w, w', capacity)
  {
    assert v.(inFlight := w'.inFlight) == w.(inFlight := w'.inFlight);
  }

  /** The state in which the SCAN has gone to the workers that have room. */
  function Sending(s: State, path: string, c: Chan): State {
    PushAll(Admit(s, path, c), s.active.Values - Full(Admit(s, path, c), s.active.Values), ScanCommand(s.nextRequestID + 1, path))
  }

  lemma SentRecord(s: State, path: string, c: Chan, k: WorkerKey)
    requires k in s.workers
    ensures var w, d := s.workers[k], Sending(s, path, c);
            && k in d.workers && d.capacity == s.capacity
            && (k in Full(Admit(s, path, c), s.active.Values) <==> k in s.active.Values && |w.queue| >= s.capacity)
            && d.workers[k] == if k !in s.active.Values then w
                               else if |w.queue| >= s.capacity then w.(inFlight := w.inFlight + 1)
                               else w.(inFlight := w.inFlight + 1,
                                       queue := w.queue + [Note(TypeScan).(requestId := s.nextRequestID + 1, filePath := path)])
  {
  }

  lemma DispatchedRecord(s: State, path: string, c: Chan, k: WorkerKey)
    requires RoutesOk(s) && k in s.workers && Gated(s.workers[k]) && Admitted(s, ScanRequest(path, c))
    ensures var full, d := Full(Admit(s, path, c), s.active.Values), Sending(s, path, c);
            && k in d.workers && (k in full || Gated(d.workers[k])) && d.capacity == s.capacity
            && (if k in full then MarkFailed(d.workers[k], QUEUE_FULL) else d.workers[k]).(inFlight := 0)
               == Changed(s, ScanRequest(path, c), k).(inFlight := 0)
  {
    RoutedIsActive(s, k);
    hide RoutesOk, Changed, Admitted, Sending, Full, Admit, Note;
    SentRecord(s, path, c, k);
    AdmittedIs(s, path, c, k);
  }

  lemma AdmittedIs(s: State, path: string, c: Chan, k: WorkerKey)
    requires k in s.workers && Admitted(s, ScanRequest(path, c))
    ensures var w := s.workers[k];
            Changed(s, ScanRequest(path, c), k) ==
            if w.state != Active then w
            else if |w.queue| >= s.capacity then AsFailed(w, ScanRequest(path, c), QUEUE_FULL)
            else w.(queue := w.queue + [Note(TypeScan).(requestId := s.nextRequestID + 1, filePath := path)])
  {
    hide AsFailed, Note;
  }

  lemma ScanSends(s: State, path: string, c: Chan)
    requires RoutesOk(s)
    ensures HandleScan(s, path, c) == if Admitted(s, ScanRequest(path, c))
                                      then FailAll(Sending(s, path, c), Full(Admit(s, path, c), s.active.Values), QUEUE_FULL)
                                      else Tell(s, c, Err(if s.stopReply.Some? then SHUTTING_DOWN else NO_ACTIVE))
  {
    RoutesIff(s);
    hide FailAll, Full, Admit, PushAll, RoutesOk, Tell;
  }

  lemma RefusedIs(s: State, path: string, c: Chan, k: WorkerKey)
    requires k in s.workers && !Admitted(s, ScanRequest(path, c))
    ensures Changed(s, ScanRequest(path, c), k) == s.workers[k]
  {
  }

  lemma ScanRecord(s: State, path: string, c: Chan, k: WorkerKey)
    requires RoutesOk(s) && k in s.workers && Gated(s.workers[k])
    ensures var t := HandleScan(s, path, c); k in t.workers && Eased(Changed(s, ScanRequest(path, c), k), t.workers[k], s.capacity)
  {
    ScanSends(s, path, c);
    hide HandleScan, FailAll, Eased, MarkFailed, Full, Admit, Sending, RoutesOk, Changed, Admitted, Gated;
    if Admitted(s, ScanRequest(path, c)) {
      var full, d := Full(Admit(s, path, c), s.active.Values), Sending(s, path, c);
      DispatchedRecord(s, path, c, k);
      FailAllEases(d, full, QUEUE_FULL, k);
      CountAside(if k in full then MarkFailed(d.workers[k], QUEUE_FULL) else d.workers[k], Changed(s, ScanRequest(path, c), k),
                 HandleScan(s, path, c).workers[k], s.capacity);
    } else {
      RefusedIs(s, path, c, k);
      SameEases(s.workers[k], s.capacity);
    }
  }

  lemma ReloadRecord(s: State, scannerId: string, path: string, c: Chan, k: WorkerKey)
    requires RoutesOk(s) && k in s.workers && Gated(s.workers[k])
    ensures var t := HandleReload(s, scannerId, path, c);
            k in t.workers && Eased(Changed(s, ReloadRequest(scannerId, path, c), k), t.workers[k], s.capacity)
  {
    RoutedIsActive(s, k);
    assert scannerId in s.active ==> s.active[scannerId] in s.workers && s.active[scannerId].scannerId == scannerId;
    hide RoutesOk, Changed, HandleReload, Eased;
    AskedToReload(s, scannerId, path, c, k);
    if scannerId in s.active && s.active[scannerId] == k {
      RoutedReload(s, scannerId, path, c);
    } else {
      OtherReload(s, scannerId, path, c, k);
    }
  }

  /** The worker that is asked to reload. */
  lemma RoutedReload(s: State, scannerId: string, path: string, c: Chan)
    requires scannerId in s.active && s.active[scannerId] in s.workers
    requires var w := s.workers[s.active[scannerId]]; w.state == Active && Gated(w)
    ensures var k, t := s.active[scannerId], HandleReload(s, scannerId, path, c); var w := s.workers[k];
            k in t.workers
            && Eased(if w.reloadReply.Some? then w
                     else if |w.queue| >= s.capacity then MarkFailed(w.(pendingSignaturePath := ""), QUEUE_FULL)
                     else w.(reloadReply := Some(c), reloadTimer := true, pendingSignaturePath := path,
                             queue := w.queue + [Note(TypeReload).(signaturePath := path)]), t.workers[k], s.capacity)
  {
    hide FailWorker, Eased, MarkFailed;
    var k := s.active[scannerId];
    var w := s.workers[k];
    if w.reloadReply.Some? {
      SameEases(w, s.capacity);
    } else if |w.queue| < s.capacity {
      SameEases(w.(reloadReply := Some(c), reloadTimer := true, pendingSignaturePath := path,
                   queue := w.queue + [Note(TypeReload).(signaturePath := path)]), s.capacity);
    } else {
      FailEases(Tell(SetWorker(s, k, w.(pendingSignaturePath := "")), c, Err(QUEUE_FULL)), k, QUEUE_FULL, k);
    }
  }

  /** Any other. */
  lemma OtherReload(s: State, scannerId: string, path: string, c: Chan, k: WorkerKey)
    requires k in s.workers && Gated(s.workers[k]) && !(scannerId in s.active && s.active[scannerId] == k)
    ensures var t := HandleReload(s, scannerId, path, c); k in t.workers && Eased(s.workers[k], t.workers[k], s.capacity)
  {
    hide FailWorker, Eased, MarkFailed;
    SameEases(s.workers[k], s.capacity);
    if scannerId in s.active && s.active[scannerId] in s.workers {
      var j := s.active[scannerId];
      FailEases(Tell(SetWorker(s, j, s.workers[j].(pendingSignaturePath := "")), c, Err(QUEUE_FULL)), j, QUEUE_FULL, k);
    }
  }

  lemma AskedToReload(s: State, scannerId: string, path: string, c: Chan, k: WorkerKey)
    requires k in s.workers
    ensures var w := s.workers[k];
            Changed(s, ReloadRequest(scannerId, path, c), k) ==
            if k.scannerId != scannerId || w.state != Active || w.reloadReply.Some? then w
            else if |w.queue| >= s.capacity then MarkFailed(w.(pendingSignaturePath := ""), QUEUE_FULL)
            else w.(reloadReply := Some(c), reloadTimer := true, pendingSignaturePath := path,
                    queue := w.queue + [Note(TypeReload).(signaturePath := path)])
  {
  }

  lemma ScanTimeoutRecord(s: State, id: nat, k: WorkerKey)
    requires k in s.workers && Gated(s.workers[k])
    ensures var t := HandleScanTimeout(s, id); k in t.workers && Eased(Changed(s, ScanTimeout(id), k), t.workers[k], s.capacity)
  {
    hide Eased, Finish, Fill;
    SameEases(s.workers[k], s.capacity);
    if id in s.requests {
      FillEases(s, {id}, s.requests[id].results.Keys, Timeout, {id}, k);
    }
  }

  lemma ReloadTimeoutRecord(s: State, j: WorkerKey, k: WorkerKey)
    requires k in s.workers && Gated(s.workers[k])
    ensures var t := HandleReloadTimeout(s, j); k in t.workers && Eased(Changed(s, ReloadTimeout(j), k), t.workers[k], s.capacity)
  {
    hide Eased;
    SameEases(Changed(s, ReloadTimeout(j), k), s.capacity);
  }

  lemma DequeueRecord(s: State, j: WorkerKey, k: WorkerKey)
    requires k in s.workers && Gated(s.workers[k])
    ensures var t := HandleDequeue(s, j); k in t.workers && Eased(Changed(s, Dequeue(j), k), t.workers[k], s.capacity)
  {
    hide Eased;
    SameEases(Changed(s, Dequeue(j), k), s.capacity);
  }

  lemma DrainEases(w: Worker, released: Worker, capacity: nat)
    requires Eased(w, released, capacity) && !Over(w) && released.inFlight == 0
    ensures Eased(w.(state := Draining), RequestShutdown(released.(state := Draining), capacity), capacity)
  {
  }

  lemma NothingInFlight(s: State, c: Chan, k: WorkerKey)
    requires CoreInv(s) && k in s.workers
    ensures var a := AbandonAll(s.(stopReply := Some(c))); k in a.workers && a.workers[k].inFlight == 0 && a.capacity == s.capacity
  {
    RuntimeSafety.AbandonKeeps(s);
    var b := AbandonAll(s);
    assert b.requests == map[] && CountsOk(b);
    hide CoreInv, Release, Using, FillResults, Entry;
    assert Load(b, k) == {} by { NoLoad(b, k); }
    assert AbandonAll(s.(stopReply := Some(c))) == b.(stopReply := Some(c));
    assert b.workers.Keys == s.workers.Keys;
  }

  lemma NoLoad(s: State, k: WorkerKey)
    requires s.requests == map[]
    ensures Load(s, k) == {}
  {
  }

  lemma ShutdownRecord(s: State, c: Chan, k: WorkerKey)
    requires CoreInv(s) && k in s.workers && s.stopReply.None?
    ensures var t := HandleShutdown(s, c); k in t.workers && Eased(Changed(s, Shutdown(c), k), t.workers[k], s.capacity)
  {
    var h := s.(stopReply := Some(c));
    assert Gated(s.workers[k]) by { RecordOk(s, k); }
    hide CoreInv, Finish, Fill, Eased, RequestShutdown, Changed;
    FillEases(h, h.requests.Keys, h.workers.Keys, Unavailable(SHUTTING_DOWN), h.requests.Keys, k);
    NothingInFlight(s, c, k);
    var a := AbandonAll(h);
    OverStays(s.workers[k], a.workers[k], s.capacity);
    if !Over(s.workers[k]) {
      DrainEases(s.workers[k], a.workers[k], s.capacity);
    }
    StoppedIs(s, c, k);
    hide AbandonAll;
  }

  lemma StoppedIs(s: State, c: Chan, k: WorkerKey)
    requires k in s.workers && s.stopReply.None?
    ensures Changed(s, Shutdown(c), k) == if Over(s.workers[k]) then s.workers[k] else s.workers[k].(state := Draining)
  {
  }

  lemma OverStays(w: Worker, w': Worker, capacity: nat)
    requires Eased(w, w', capacity)
    ensures Over(w) == Over(w')
  {
  }

  // ----- the step

  lemma GatedIn(s: State, k: WorkerKey)
    requires CoreInv(s) && k in s.workers
    ensures RoutesOk(s) && Gated(s.workers[k])
  {
    RecordOk(s, k);
    hide RoutesOk, CountsOk, RequestsOk, CandidatesOk, HistoryOk, WorkersOk, QueuesOk;
  }

  lemma RegisterRecord(s: State, j: WorkerKey, path: string, c: Chan, k: WorkerKey)
    requires k in s.workers && Gated(s.workers[k])
    ensures var t := HandleRegister(s, j, path, c);
            k in t.workers && Eased(Changed(s, Register(j, path, c), k), t.workers[k], s.capacity)
  {
    hide Eased, HasCandidate;
    SameEases(s.workers[k], s.capacity);
  }

  lemma QueryRecord(s: State, scannerId: string, c: Chan, k: WorkerKey)
    requires k in s.workers && Gated(s.workers[k])
    ensures var t := HandleQuery(s, scannerId, c);
            k in t.workers && Eased(Changed(s, QueryActive(scannerId, c), k), t.workers[k], s.capacity)
    ensures Eased(Changed(s, Cancel, k), s.workers[k], s.capacity)
    ensures s.stopReply.Some? ==> Eased(Changed(s, Shutdown(c), k), s.workers[k], s.capacity)
  {
    hide Eased;
    SameEases(s.workers[k], s.capacity);
  }

  lemma HandleRecord(s: State, e: Event, k: WorkerKey)
    requires CoreInv(s) && k in s.workers && !e.Cancel?
    ensures var t := Handle(s, e); k in t.workers && Eased(Changed(s, e, k), t.workers[k], s.capacity)
  {
    hide CoreInv, Eased, Changed, RoutesOk, Gated;
    hide HandleRegister, HandleHello, HandleHealth, HandleActivate, HandleFail, HandleMessage, FailWorker, HandleExit, HandleScan,
         HandleScanTimeout, HandleReload, HandleReloadTimeout, HandleQuery, HandleShutdown, HandleDequeue;
    GatedIn(s, k);
    match e
    case Register(j, path, c) => RegisterRecord(s, j, path, c, k);
    case BeginHello(j, c) => HelloRecord(s, j, c, k);
    case BeginHealth(j, c) => HealthRecord(s, j, c, k);
    case Activate(j, c) => ActivateRecord(s, j, c, k);
    case FailCommand(j, reason, c) => FailRecord(s, j, reason, c, k);
    case WorkerMessage(j, m) => MessageRecord(s, j, m, k);
    case WorkerFailure(j, reason) => FailRecord(s, j, reason, 0, k);
    case WorkerExit(j, code, err) => ExitRecord(s, j, code, err, k);
    case ScanRequest(path, c) => ScanRecord(s, path, c, k);
    case ScanTimeout(id) => ScanTimeoutRecord(s, id, k);
    case ReloadRequest(scannerId, path, c) => ReloadRecord(s, scannerId, path, c, k);
    case ReloadTimeout(j) => ReloadTimeoutRecord(s, j, k);
    case QueryActive(scannerId, c) => QueryRecord(s, scannerId, c, k);
    case Shutdown(c) => if s.stopReply.Some? { QueryRecord(s, "", c, k); } else { ShutdownRecord(s, c, k); }
    case Dequeue(j) => DequeueRecord(s, j, k);
  }

  /** Leaving the loop terminates the child of every worker that is not RETIRED. */
  function Ended(w: Worker, phase: Phase): Worker {
    if phase == Running || w.state == Retired then w else w.(terminated := true)
  }

  lemma StepEnds(s: State, e: Event, k: WorkerKey)
    requires s.phase == Running && k in s.workers && !e.Cancel? && k in Handle(s, e).workers
    requires Handle(s, e).phase == Running
    ensures var t := Step(s, e); k in t.workers && t.workers[k] == Ended(Handle(s, e).workers[k], t.phase)
  {
    hide Handle, AllExited;
  }

  lemma CancelEnds(s: State, k: WorkerKey)
    requires s.phase == Running && k in s.workers
    ensures var t := Step(s, Cancel); k in t.workers && t.workers[k] == Ended(s.workers[k], t.phase)
  {
    hide AllExited;
  }

  /** The requests that worker k has an entry in. */
  function Entrusted(s: State, k: WorkerKey): set<nat> { set id | id in s.requests && k in s.requests[id].results }

  /**
   The step as worker k sees it: the change above, the count of its requests, the request to stop once that is 0,
   and the end of the loop.
   */
  lemma OneWorkerView(s: State, e: Event, k: WorkerKey)
    requires CoreInv(s) && RuntimeSafety.EventOk(e) && s.phase == Running && k in s.workers
    ensures var t := Step(s, e);
            k in t.workers
            && t.workers[k] == Ended(Asked(Changed(s, e, k).(inFlight := |Entrusted(t, k)|), s.capacity), t.phase)
  {
    hide CoreInv, Step, Changed, Handle;
    var t := Step(s, e);
    RuntimeSafety.StepKeeps(s, e);
    if e.Cancel? {
      CancelEnds(s, k);
      GatedIn(s, k);
      QueryRecord(s, "", 0, k);
    } else {
      HandleRecord(s, e, k);
      RuntimeReplies.PhaseKept(s, e);
      StepEnds(s, e, k);
    }
    CountIn(t, k);
  }

  lemma CountIn(s: State, k: WorkerKey)
    requires CoreInv(s) && k in s.workers
    ensures s.workers[k].inFlight == |Entrusted(s, k)|
  {
    hide RoutesOk, RequestsOk, CandidatesOk, HistoryOk, WorkersOk, QueuesOk;
    assert Load(s, k) == Entrusted(s, k);
  }

  /** Is there a STARTING or HEALTHY worker of this scanner? */
  ghost predicate Taken(s: State, scannerId: string) {
    exists j :: j in s.workers && j.scannerId == scannerId && (s.workers[j].state == Starting || s.workers[j].state == Healthy)
  }

  /** A worker is added by its registration only, when its key is new and its scanner has no candidate. */
  lemma NewWorkerView(s: State, e: Event, k: WorkerKey)
    requires s.phase == Running && k !in s.workers
    ensures var t := Step(s, e);
            && (k in t.workers <==> e.Register? && e.key == k && !Taken(s, k.scannerId))
            && (k in t.workers ==>
                  t.workers[k] == Worker(Starting, e.path, "", 0, "", 0, None, None, None, false, "", false, false, false, [], [], false))
  {
    RuntimeWorkers.StepKeys(s, e);
    hide Step;
    if e.Register? && e.key == k {
      assert HasCandidate(s, k.scannerId) <==> Taken(s, k.scannerId);
      hide HasCandidate, Taken;
      Registered(s, k, e.path, e.reply);
    } else {
      hide HasCandidate;
    }
  }

  lemma Registered(s: State, k: WorkerKey, path: string, c: Chan)
    requires s.phase == Running && k !in s.workers
    ensures var t := Step(s, Register(k, path, c));
            && (k in t.workers <==> !HasCandidate(s, k.scannerId))
            && (k in t.workers ==> t.workers[k] == NewWorker(path))
  {
    hide HasCandidate;
    if !HasCandidate(s, k.scannerId) {
      assert !HandleRegister(s, k, path, c).workers[k].exited;
    }
  }

  // ----- the rest of the loop

  ghost predicate Steady(s: State, t: State) { t.capacity == s.capacity && t.nextRequestID == s.nextRequestID && t.stopReply == s.stopReply }

  lemma FailAllSteady(s: State, keys: set<WorkerKey>, reason: string)
    ensures Steady(s, FailAll(s, keys, reason))
  {
    hide Unroute, FailureSends, Using, FillResults, Ready;
  }

  lemma HandleSteady(s: State, e: Event)
    ensures var t := Handle(s, e);
            && t.capacity == s.capacity
            && t.nextRequestID == (if e.ScanRequest? && s.stopReply.None? && s.active != map[] then s.nextRequestID + 1 else s.nextRequestID)
            && t.stopReply == if e.Shutdown? && s.stopReply.None? then Some(e.reply) else s.stopReply
  {
    hide FailAll, Finish, Fill, DrainAll, Close, HandleMessage, HandleExit, HandleFail, HandleHello, HandleHealth, HandleReload, Displace,
         HandleScan, HandleShutdown, FailWorker, Ready, HasCandidate;
    FailedSteady(s, e);
    if e.ScanRequest? { ScanSteady(s, e.path, e.reply); }
    if e.Shutdown? { ShutdownSteady(s, e.reply); }
    if e.Activate? { DisplaceSteady(s, e.key); }
    if e.ScanTimeout? { FinishSteady(s, e.id); }
    if e.Cancel? { CloseSteady(s); }
  }

  lemma FinishSteady(s: State, id: nat)
    ensures Steady(s, HandleScanTimeout(s, id))
  {
    hide Using, FillResults;
  }

  lemma CloseSteady(s: State)
    ensures Steady(s, Close(s, Cancelled))
  {
  }

  lemma DisplaceSteady(s: State, j: WorkerKey)
    ensures Steady(s, Displace(s, j.scannerId))
  {
    hide Retreat;
  }

  lemma ShutdownSteady(s: State, c: Chan)
    ensures Steady(s.(stopReply := Some(c)), HandleShutdown(s, c))
  {
    hide Using, FillResults, RequestShutdown;
  }

  lemma ScanSteady(s: State, path: string, c: Chan)
    ensures Steady(if s.stopReply.None? && s.active != map[] then s.(nextRequestID := s.nextRequestID + 1) else s, HandleScan(s, path, c))
  {
    hide FailAll, Full;
    if s.stopReply.None? && s.active != map[] {
      var full := Full(Admit(s, path, c), s.active.Values);
      FailAllSteady(PushAll(Admit(s, path, c), s.active.Values - full, ScanCommand(s.nextRequestID + 1, path)), full, QUEUE_FULL);
    }
  }

  lemma FailWorkerSteady(s: State, k: WorkerKey, reason: string)
    ensures Steady(s, FailWorker(s, k, reason))
  {
    hide FailAll;
    FailAllSteady(s, {k}, reason);
  }

  lemma FailedSteady(s: State, e: Event)
    ensures match e
            case WorkerMessage(k, m) => Steady(s, HandleMessage(s, k, m))
            case WorkerExit(k, code, err) => Steady(s, HandleExit(s, k, code, err))
            case FailCommand(k, reason, c) => Steady(s, HandleFail(s, k, reason, c))
            case WorkerFailure(k, reason) => Steady(s, FailWorker(s, k, reason))
            case BeginHello(k, c) => Steady(s, HandleHello(s, k, c))
            case BeginHealth(k, c) => Steady(s, HandleHealth(s, k, c))
            case ReloadRequest(scannerId, path, c) => Steady(s, HandleReload(s, scannerId, path, c))
            case _ => true
  {
    match e
    case WorkerMessage(k, m) => MessageSteady(s, k, m);
    case WorkerExit(k, code, err) => ExitSteady(s, k, code, err);
    case FailCommand(k, reason, c) =>
      hide FailWorker;
      FailWorkerSteady(s, k, reason);
    case WorkerFailure(k, reason) => FailWorkerSteady(s, k, reason);
    case BeginHello(k, c) => CheckSteady(s, k, c);
    case BeginHealth(k, c) => CheckSteady(s, k, c);
    case ReloadRequest(scannerId, path, c) => ReloadSteady(s, scannerId, path, c);
    case _ =>
  }

  lemma MessageSteady(s: State, k: WorkerKey, m: Message)
    ensures Steady(s, HandleMessage(s, k, m))
  {
    hide FailWorker, Using, FillResults, Ready;
    FailWorkerSteady(s, k, UNEXPECTED_MESSAGE);
  }

  lemma ExitSteady(s: State, k: WorkerKey, code: int, err: Option<string>)
    ensures Steady(s, HandleExit(s, k, code, err))
  {
    hide FailWorker;
    if k in s.workers { FailWorkerSteady(SetWorker(s, k, Exited(s.workers[k], code, err)), k, EXITED); }
  }

  lemma CheckSteady(s: State, k: WorkerKey, c: Chan)
    ensures Steady(s, HandleHello(s, k, c)) && Steady(s, HandleHealth(s, k, c))
  {
    hide FailWorker;
    FailWorkerSteady(Tell(s, c, Err(QUEUE_FULL)), k, QUEUE_FULL);
  }

  lemma ReloadSteady(s: State, scannerId: string, path: string, c: Chan)
    ensures Steady(s, HandleReload(s, scannerId, path, c))
  {
    hide FailWorker;
    if scannerId in s.active && s.active[scannerId] in s.workers {
      var j := s.active[scannerId];
      FailWorkerSteady(Tell(SetWorker(s, j, s.workers[j].(pendingSignaturePath := "")), c, Err(QUEUE_FULL)), j, QUEUE_FULL);
    }
  }

  /**
   The rest of the loop: routes are the ACTIVE workers, request IDs count the scans admitted, the first Shutdown is kept,
   and the loop ends with Cancel or, once a Shutdown is kept, when every worker has exited.
   */
  lemma LoopView(s: State, e: Event)
    requires CoreInv(s) && RuntimeSafety.EventOk(e) && s.phase == Running
    ensures var t := Step(s, e);
            && t.capacity == s.capacity
            && t.nextRequestID == s.nextRequestID + (if Admitted(s, e) then 1 else 0)
            && t.stopReply == (if e.Shutdown? && s.stopReply.None? then Some(e.reply) else s.stopReply)
            && (forall k :: k in t.workers && t.workers[k].state == Active <==> k.scannerId in t.active && t.active[k.scannerId] == k)
            && (forall id | id in t.active :: t.active[id].scannerId == id)
            && t.phase == if e.Cancel? then Cancelled
                          else if t.stopReply.Some? && !e.Dequeue? && !(e.Shutdown? && s.stopReply.Some?)
                                  && forall k | k in t.workers :: t.workers[k].exited then ShutDown
                          else Running
  {
    RuntimeSafety.StepKeeps(s, e);
    assert RoutesOk(Step(s, e)) && RoutesOk(s);
    hide CoreInv, Handle, Step;
    RoutesIff(s);
    RoutesIff(Step(s, e));
    hide RoutesOk;
    HandleSteady(s, e);
    if !e.Cancel? { RuntimeReplies.PhaseKept(s, e); }
    StepLeaves(s, e);
  }

  lemma RoutesIff(s: State)
    requires RoutesOk(s)
    ensures forall k :: k in s.workers && s.workers[k].state == Active <==> k.scannerId in s.active && s.active[k.scannerId] == k
    ensures forall id | id in s.active :: s.active[id].scannerId == id
    ensures s.active == map[] <==> !exists j :: j in s.workers && s.workers[j].state == Active
  {
    if s.active != map[] {
      var id :| id in s.active;
      assert s.active[id] in s.workers;
    }
  }

  lemma StepLeaves(s: State, e: Event)
    requires s.phase == Running && (if e.Cancel? then Handle(s, e).phase == Cancelled else Handle(s, e).phase == Running)
    ensures var h, t := Handle(s, e), Step(s, e);
            && t.capacity == h.capacity && t.nextRequestID == h.nextRequestID && t.stopReply == h.stopReply
            && t.phase == if e.Cancel? then Cancelled
                          else if t.stopReply.Some? && !e.Dequeue? && !(e.Shutdown? && s.stopReply.Some?)
                                  && forall k | k in t.workers :: t.workers[k].exited then ShutDown
                          else Running
  {
    hide Handle;
  }
}
