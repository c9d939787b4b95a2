/** The loop as its requests see it: what each event makes of every entry, which requests it completes, which it admits. */
module RuntimeBooks {
  import opened Wrappers
  import opened Messages
  import opened RuntimeSpec
  import opened RuntimeInvariants
  import opened RuntimeRecords
  import RuntimeProvenance

  // ----- the view

  /** What Core writes for worker k in request id. */
  function Missing(id: nat, verdict: Verdict, reason: string): Message {
    Note(TypeScanResult).(requestId := id, verdict := verdict, error := reason)
  }

  /** The entry that event e gives worker k in request id, if it was pending. */
  ghost function Final(s: State, e: Event, id: nat, k: WorkerKey): Option<Message> {
    if k in s.workers && Reason(s, e, k).Some? then Some(Missing(id, VerdictUnavailable, Reason(s, e, k).value))
    else
      match e
      case WorkerMessage(j, m) =>
        if j == k && k in s.workers && !Over(s.workers[k]) && m.kind == TypeScanResult && m.requestId == id then Some(m) else None
      case ScanTimeout(i) => if i == id then Some(Missing(id, VerdictTimeout, SCAN_TIMED_OUT)) else None
      case Shutdown(_) => if s.stopReply.None? then Some(Missing(id, VerdictUnavailable, SHUTTING_DOWN)) else None
      case _ => None
  }

  /** One pending entry for each ACTIVE worker. */
  ghost function NewEntries(s: State): map<WorkerKey, Message> {
    map k | k in s.workers && s.workers[k].state == Active :: Message(0, NoType, 0, "", "", None, "", "", "", NoVerdict, "", 0, false, 0, "")
  }

  /** Request id before event e takes effect on its entries; a scan that is admitted starts with one for each ACTIVE worker. */
  ghost function Opened(s: State, e: Event, id: nat): Option<Request> {
    if id in s.requests then Some(s.requests[id])
    else if Admitted(s, e) && id == s.nextRequestID + 1 then
      Some(Request(e.path, NewEntries(s), e.reply, true))
    else None
  }

  ghost function EntriesAfter(s: State, e: Event, id: nat, results: map<WorkerKey, Message>): map<WorkerKey, Message> {
    map k | k in results ::
      if results[k].kind == NoType && Final(s, e, id, k).Some? then Final(s, e, id, k).value else results[k]
  }

  ghost predicate Complete(results: map<WorkerKey, Message>) { forall k | k in results :: results[k].kind != NoType }

  /** What becomes of request id: it stays with the entries it now has, or is completed with them. */
  ghost predicate Kept(s: State, e: Event, t: State, id: nat) {
    match Opened(s, e, id)
    case None => id !in t.requests && (id in t.completed <==> id in s.completed) && (id in s.completed ==> t.completed[id] == s.completed[id])
    case Some(r) =>
      var after := EntriesAfter(s, e, id, r.results);
      if Complete(after) then
        id !in t.requests && id in t.completed && t.completed[id] == Request(r.path, after, r.reply, false)
      else
        id in t.requests && t.requests[id] == Request(r.path, after, r.reply, true) && (id in t.completed <==> id in s.completed)
  }

  // ----- filling

  lemma FillKeeps(s: State, ids: set<nat>, keys: set<WorkerKey>, cause: Cause, done: set<nat>, id: nat)
    requires done <= s.requests.Keys
    ensures var t := FillFinish(s, ids, keys, cause, done);
            if id in s.requests then
              var r := s.requests[id];
              var f := if id in ids then r.(results := FillResults(r.results, keys, Entry(cause, id))) else r;
              if id in done then id !in t.requests && id in t.completed && t.completed[id] == f.(timer := false)
              else id in t.requests && t.requests[id] == f && (id in t.completed <==> id in s.completed)
            else id !in t.requests && (id in t.completed <==> id in s.completed) && (id in s.completed ==> t.completed[id] == s.completed[id])
  {
    hide Release, Using, FillResults, Entry, Answered;
  }

  /** The entries that a fill gives are those that event e gives. */
  ghost predicate Fits(s: State, e: Event, id: nat, r: Request, ids: set<nat>, keys: set<WorkerKey>, cause: Cause) {
    forall k | k in r.results && Pending(r.results[k]) ::
      if id in ids && k in keys then Final(s, e, id, k) == Some(Entry(cause, id)) else Final(s, e, id, k).None?
  }

  lemma FitsGive(s: State, e: Event, id: nat, r: Request, ids: set<nat>, keys: set<WorkerKey>, cause: Cause)
    requires Fits(s, e, id, r, ids, keys, cause)
    ensures EntriesAfter(s, e, id, r.results) == if id in ids then FillResults(r.results, keys, Entry(cause, id)) else r.results
  {
    hide Final, Entry;
  }

  /** In state h request id is as event e found or opened it, and a fill there gives what e gives. */
  ghost predicate FillsAt(s: State, e: Event, h: State, ids: set<nat>, keys: set<WorkerKey>, cause: Cause, done: set<nat>, id: nat) {
    && (Opened(s, e, id).Some? <==> id in h.requests)
    && (id in h.requests ==>
          && Opened(s, e, id) == Some(h.requests[id]) && h.requests[id].timer
          && Fits(s, e, id, h.requests[id], ids, keys, cause)
          && (id in done <==> Complete(EntriesAfter(s, e, id, h.requests[id].results))))
  }

  lemma FillKept(s: State, e: Event, h: State, ids: set<nat>, keys: set<WorkerKey>, cause: Cause, done: set<nat>, id: nat)
    requires done <= h.requests.Keys && h.completed == s.completed && FillsAt(s, e, h, ids, keys, cause, done, id)
    ensures Kept(s, e, FillFinish(h, ids, keys, cause, done), id)
  {
    hide FillFinish, FillResults, Entry, Final, Complete, Opened, EntriesAfter, Fits;
    FillKeeps(h, ids, keys, cause, done, id);
    if id in h.requests { FitsGive(s, e, id, h.requests[id], ids, keys, cause); }
  }

  /** A settled request is ready exactly when it is complete. */
  lemma SettledReady(requests: map<nat, Request>, ids: set<nat>, keys: set<WorkerKey>, id: nat, m: Message)
    requires id in requests && !Complete(requests[id].results) && m.kind != NoType
    ensures id in Ready(requests, ids, keys) <==>
            Complete(if id in ids then FillResults(requests[id].results, keys, m) else requests[id].results)
  {
    var r := requests[id].results;
    var other := Command(TypeScanResult);
    assert AllAnswered(FillResults(r, keys, other)) <==> Complete(FillResults(r, keys, m)) by {
      forall k | k in r ensures Pending(FillResults(r, keys, other)[k]) <==> FillResults(r, keys, m)[k].kind == NoType {
      }
    }
    if !Touches(r, keys) {
      assert FillResults(r, keys, m) == r;
    }
  }

  lemma SettleAt(s: State, e: Event, h: State, ids: set<nat>, keys: set<WorkerKey>, cause: Cause, id: nat)
    requires Opened(s, e, id).Some? <==> id in h.requests
    requires cause.Answer? ==> cause.message.kind != NoType
    requires id in h.requests ==>
               && Opened(s, e, id) == Some(h.requests[id]) && h.requests[id].timer && !Complete(h.requests[id].results)
               && Fits(s, e, id, h.requests[id], ids, keys, cause)
    ensures FillsAt(s, e, h, ids, keys, cause, Ready(h.requests, ids, keys), id)
  {
    hide FillResults, Final, Complete, Opened, EntriesAfter, Fits, Ready;
    if id in h.requests {
      FitsGive(s, e, id, h.requests[id], ids, keys, cause);
      SettledReady(h.requests, ids, keys, id, Entry(cause, id));
    }
  }

  lemma TrackedIs(s: State, id: nat)
    requires RequestsOk(s) && id in s.requests
    ensures s.requests[id].timer && !Complete(s.requests[id].results) && s.requests[id].results.Keys <= s.workers.Keys
  {
    assert RequestOk(s.workers.Keys, s.nextRequestID, id, s.requests[id]);
  }

  /** An event that gives no entry and admits no scan. */
  lemma NothingKept(s: State, e: Event, t: State, id: nat)
    requires RequestsOk(s) && t.requests == s.requests && t.completed == s.completed && !Admitted(s, e)
    requires forall k :: Final(s, e, id, k).None?
    ensures Kept(s, e, t, id)
  {
    hide Final, RequestsOk, Complete;
    if id in s.requests {
      TrackedIs(s, id);
      var r := s.requests[id];
      assert EntriesAfter(s, e, id, r.results) == r.results;
      assert r == Request(r.path, r.results, r.reply, true);
    }
  }

  /** Event e fails worker j and does no more to requests; h differs from s in other respects only. */
  ghost predicate JustFails(s: State, e: Event, h: State, j: WorkerKey, reason: string) {
    && RequestsOk(s) && h.requests == s.requests && h.completed == s.completed && !Admitted(s, e)
    && j in h.workers && !h.workers[j].Terminal() && j in s.workers
    && forall id, k :: Final(s, e, id, k) == if k == j then Some(Missing(id, VerdictUnavailable, reason)) else None
  }

  lemma FailFits(s: State, e: Event, h: State, j: WorkerKey, reason: string, id: nat)
    requires JustFails(s, e, h, j, reason) && id in s.requests
    ensures Opened(s, e, id) == Some(s.requests[id]) && Fits(s, e, id, s.requests[id], s.requests.Keys, {j}, Unavailable(reason))
  {
    hide Final, Complete, RequestsOk, Admitted;
  }

  lemma FailOpens(s: State, e: Event, h: State, j: WorkerKey, reason: string, id: nat)
    requires JustFails(s, e, h, j, reason)
    ensures Opened(s, e, id).Some? <==> id in s.requests
    ensures RequestsOk(s) && h.requests == s.requests
  {
    hide Final, Complete, RequestsOk, Admitted;
  }

  lemma FailAt(s: State, e: Event, h: State, j: WorkerKey, reason: string, id: nat)
    requires JustFails(s, e, h, j, reason)
    ensures var m := Mark(h, {j}, reason);
            FillsAt(s, e, m, m.requests.Keys, {j}, Unavailable(reason), Ready(m.requests, m.requests.Keys, {j}), id)
  {
    hide JustFails, Opened, Fits, FillsAt, Complete, RequestsOk, Ready;
    var m := Mark(h, {j}, reason);
    FailOpens(s, e, h, j, reason, id);
    assert m.requests == s.requests;
    hide Mark;
    if id in s.requests {
      TrackedIs(s, id);
      FailFits(s, e, h, j, reason, id);
    }
    SettleAt(s, e, m, m.requests.Keys, {j}, Unavailable(reason), id);
  }

  lemma FailKept(s: State, e: Event, h: State, j: WorkerKey, reason: string, id: nat)
    requires JustFails(s, e, h, j, reason)
    ensures Kept(s, e, FailWorker(h, j, reason), id)
  {
    hide FillFinish, Ready, FailAll, FillsAt, Final, RequestsOk, Kept;
    var m := Mark(h, {j}, reason);
    assert m.requests == s.requests && m.completed == s.completed;
    FailAllIs(h, {j}, reason);
    FailAt(s, e, h, j, reason, id);
    hide Mark;
    ReadyIds(m.requests, m.requests.Keys, {j});
    FillKept(s, e, m, m.requests.Keys, {j}, Unavailable(reason), Ready(m.requests, m.requests.Keys, {j}), id);
  }

  // ----- the handlers

  /** The events that neither fail a worker, nor answer, nor admit. */
  lemma QuietFinal(s: State, e: Event, id: nat, k: WorkerKey)
    requires e.Register? || e.Activate? || e.ReloadTimeout? || e.QueryActive? || e.Dequeue? || e.Cancel? || (e.Shutdown? && s.stopReply.Some?)
    ensures Final(s, e, id, k).None? && !Admitted(s, e)
  {
  }

  lemma QuietRequests(s: State, e: Event)
    requires e.Register? || e.Activate? || e.ReloadTimeout? || e.QueryActive? || e.Dequeue? || e.Cancel? || (e.Shutdown? && s.stopReply.Some?)
    ensures Handle(s, e).requests == s.requests && Handle(s, e).completed == s.completed
  {
    hide HasCandidate, Retreat, HandleShutdown;
  }

  lemma QuietKept(s: State, e: Event, id: nat)
    requires RequestsOk(s)
    requires e.Register? || e.Activate? || e.ReloadTimeout? || e.QueryActive? || e.Dequeue? || e.Cancel? || (e.Shutdown? && s.stopReply.Some?)
    ensures Kept(s, e, Handle(s, e), id)
  {
    hide Final, Kept, RequestsOk, Admitted, Handle;
    QuietRequests(s, e);
    forall k ensures Final(s, e, id, k).None? && !Admitted(s, e) {
      QuietFinal(s, e, id, k);
    }
    assert !Admitted(s, e) by { QuietFinal(s, e, id, WorkerKey("", "")); }
    NothingKept(s, e, Handle(s, e), id);
  }

  /** What a failure of worker j alone gives. */
  lemma OneFails(s: State, e: Event, j: WorkerKey, reason: string)
    requires !e.WorkerMessage? && !e.ScanTimeout? && !e.Shutdown? && j in s.workers
    requires forall k | k in s.workers :: Reason(s, e, k) == if k == j then Some(reason) else None
    ensures forall id, k :: Final(s, e, id, k) == if k == j then Some(Missing(id, VerdictUnavailable, reason)) else None
  {
    hide Reason;
  }

  lemma NoneFails(s: State, e: Event, id: nat)
    requires !e.WorkerMessage? && !e.ScanTimeout? && !e.Shutdown?
    requires forall k | k in s.workers :: Reason(s, e, k).None?
    ensures forall k :: Final(s, e, id, k).None?
  {
    hide Reason;
  }

  lemma HelloKept(s: State, j: WorkerKey, c: Chan, id: nat)
    requires RequestsOk(s)
    ensures Kept(s, BeginHello(j, c), HandleHello(s, j, c), id)
  {
    hide FailWorker, Kept, Final, RequestsOk;
    var e := BeginHello(j, c);
    if j in s.workers && Reason(s, e, j).Some? {
      OneFails(s, e, j, QUEUE_FULL);
      FailKept(s, e, Tell(s, c, Err(QUEUE_FULL)), j, QUEUE_FULL, id);
    } else {
      NoneFails(s, e, id);
      NothingKept(s, e, HandleHello(s, j, c), id);
    }
  }

  lemma HealthKept(s: State, j: WorkerKey, c: Chan, id: nat)
    requires RequestsOk(s)
    ensures Kept(s, BeginHealth(j, c), HandleHealth(s, j, c), id)
  {
    hide FailWorker, Kept, Final, RequestsOk;
    var e := BeginHealth(j, c);
    if j in s.workers && Reason(s, e, j).Some? {
      OneFails(s, e, j, QUEUE_FULL);
      FailKept(s, e, Tell(s, c, Err(QUEUE_FULL)), j, QUEUE_FULL, id);
    } else {
      NoneFails(s, e, id);
      NothingKept(s, e, HandleHealth(s, j, c), id);
    }
  }

  lemma FailCommandKept(s: State, j: WorkerKey, reason: string, c: Chan, id: nat)
    requires RequestsOk(s)
    ensures Kept(s, FailCommand(j, reason, c), HandleFail(s, j, reason, c), id)
    ensures Kept(s, WorkerFailure(j, reason), FailWorker(s, j, reason), id)
  {
    hide FailWorker, Kept, Final, RequestsOk;
    var e, f := FailCommand(j, reason, c), WorkerFailure(j, reason);
    if j in s.workers && Reason(s, f, j).Some? {
      OneFails(s, f, j, reason);
      FailKept(s, f, s, j, reason, id);
    } else {
      NoneFails(s, f, id);
      FailsNothing(s, j, reason);
      NothingKept(s, f, FailWorker(s, j, reason), id);
    }
    if j in s.workers && Reason(s, e, j).Some? {
      OneFails(s, e, j, reason);
      FailKept(s, e, s, j, reason, id);
      TellKept(s, e, FailWorker(s, j, reason), c, Ok, id);
    } else {
      NoneFails(s, e, id);
      NothingKept(s, e, HandleFail(s, j, reason, c), id);
    }
  }

  lemma FailsNothing(s: State, j: WorkerKey, reason: string)
    requires j !in s.workers || Over(s.workers[j])
    ensures FailWorker(s, j, reason) == s
  {
  }

  lemma TellKept(s: State, e: Event, t: State, c: Chan, r: Reply, id: nat)
    requires Kept(s, e, t, id)
    ensures Kept(s, e, Tell(t, c, r), id)
  {
    hide Opened, EntriesAfter, Complete;
  }

  lemma ExitKept(s: State, j: WorkerKey, code: int, err: Option<string>, id: nat)
    requires RequestsOk(s)
    ensures Kept(s, WorkerExit(j, code, err), HandleExit(s, j, code, err), id)
  {
    hide FailWorker, Kept, Final, RequestsOk;
    var e := WorkerExit(j, code, err);
    if j in s.workers {
      var h := SetWorker(s, j, Exited(s.workers[j], code, err));
      if Reason(s, e, j).Some? {
        OneFails(s, e, j, EXITED);
        FailKept(s, e, h, j, EXITED, id);
      } else {
        NoneFails(s, e, id);
        if Over(s.workers[j]) { FailsNothing(h, j, EXITED); }
        NothingKept(s, e, HandleExit(s, j, code, err), id);
      }
    } else {
      NoneFails(s, e, id);
      NothingKept(s, e, s, id);
    }
  }

  lemma ReloadKept(s: State, scannerId: string, path: string, c: Chan, id: nat)
    requires RequestsOk(s) && RoutesOk(s)
    ensures Kept(s, ReloadRequest(scannerId, path, c), HandleReload(s, scannerId, path, c), id)
  {
    hide FailWorker, Kept, Final, RequestsOk;
    var e := ReloadRequest(scannerId, path, c);
    RoutesIff(s);
    if scannerId in s.active && Reason(s, e, s.active[scannerId]).Some? {
      var j := s.active[scannerId];
      OneFails(s, e, j, QUEUE_FULL);
      FailKept(s, e, Tell(SetWorker(s, j, s.workers[j].(pendingSignaturePath := "")), c, Err(QUEUE_FULL)), j, QUEUE_FULL, id);
    } else {
      NoneFails(s, e, id);
      hide RoutesOk;
      NothingKept(s, e, HandleReload(s, scannerId, path, c), id);
    }
  }

  lemma MessageKept(s: State, j: WorkerKey, m: Message, id: nat)
    requires RequestsOk(s)
    ensures Kept(s, WorkerMessage(j, m), HandleMessage(s, j, m), id)
  {
    hide FailWorker, Kept, RequestsOk, HandleScanResult, Unexpected, HandleMessage;
    var e := WorkerMessage(j, m);
    if j in s.workers && !Over(s.workers[j]) {
      if Unexpected(s.workers[j], m) {
        UnexpectedIs(s, j, m);
        ScanIsExpected(s.workers[j], m);
        FailKept(s, e, s, j, UNEXPECTED_MESSAGE, id);
      } else if m.kind == TypeScanResult {
        ScanResultKept(s, j, m, id);
        ScanIs(s, j, m);
      } else {
        ToldKeeps(s, j, m);
        NothingKept(s, e, HandleMessage(s, j, m), id);
      }
    } else {
      IgnoredIs(s, j, m);
      NothingKept(s, e, s, id);
    }
  }

  lemma ScanIsExpected(w: Worker, m: Message)
    ensures m.kind == TypeScanResult ==> !Unexpected(w, m)
  {
  }

  lemma ScanIs(s: State, j: WorkerKey, m: Message)
    requires j in s.workers && !Over(s.workers[j]) && m.kind == TypeScanResult
    ensures HandleMessage(s, j, m) == HandleScanResult(s, j, m)
  {
    hide HandleScanResult;
  }

  lemma IgnoredIs(s: State, j: WorkerKey, m: Message)
    requires j !in s.workers || Over(s.workers[j])
    ensures HandleMessage(s, j, m) == s
  {
  }

  lemma ToldKeeps(s: State, j: WorkerKey, m: Message)
    requires j in s.workers && !Over(s.workers[j]) && !Unexpected(s.workers[j], m) && m.kind != TypeScanResult
    ensures HandleMessage(s, j, m).requests == s.requests && HandleMessage(s, j, m).completed == s.completed
  {
    hide FailWorker, HandleScanResult;
  }

  lemma UnchangedKept(s: State, e: Event, id: nat)
    requires RequestsOk(s) && !Admitted(s, e)
    requires id in s.requests ==> EntriesAfter(s, e, id, s.requests[id].results) == s.requests[id].results
    ensures Kept(s, e, s, id)
  {
    hide EntriesAfter, RequestsOk, Complete;
    if id in s.requests {
      TrackedIs(s, id);
      var r := s.requests[id];
      assert r == Request(r.path, r.results, r.reply, true);
    }
  }

  lemma ScanResultKept(s: State, j: WorkerKey, m: Message, id: nat)
    requires RequestsOk(s) && j in s.workers && !Over(s.workers[j]) && m.kind == TypeScanResult
    ensures Kept(s, WorkerMessage(j, m), HandleScanResult(s, j, m), id)
  {
    hide Kept, RequestsOk, FillFinish, Ready, Complete, Settle;
    var e := WorkerMessage(j, m);
    if id in s.requests { TrackedIs(s, id); }
    if Accepts(s, j, m) {
      SettleIs(s, {m.requestId}, {j}, Answer(m));
      SettleAt(s, e, s, {m.requestId}, {j}, Answer(m), id);
      hide FillsAt;
      FillKept(s, e, s, {m.requestId}, {j}, Answer(m), Ready(s.requests, {m.requestId}, {j}), id);
    } else if id in s.requests {
      var r := s.requests[id];
      assert EntriesAfter(s, e, id, r.results) == r.results;
      assert r == Request(r.path, r.results, r.reply, true);
      UnchangedKept(s, e, id);
    } else {
      UnchangedKept(s, e, id);
    }
  }

  lemma ScanIsSending(s: State, path: string, c: Chan)
    requires s.stopReply.None? && s.active != map[]
    ensures HandleScan(s, path, c) == FailAll(Sending(s, path, c), Full(Admit(s, path, c), s.active.Values), QUEUE_FULL)
  {
    hide FailAll, Full, Admit, PushAll;
  }

  lemma SendingOpens(s: State, path: string, c: Chan, id: nat)
    requires RequestsOk(s) && RoutesOk(s) && Admitted(s, ScanRequest(path, c))
    ensures var d := Sending(s, path, c);
            && d.completed == s.completed && (Opened(s, ScanRequest(path, c), id).Some? <==> id in d.requests)
            && (id in d.requests ==>
                  Opened(s, ScanRequest(path, c), id) == Some(d.requests[id]) && d.requests[id].timer
                  && !Complete(d.requests[id].results) && d.requests[id].results.Keys <= s.workers.Keys)
  {
    hide RequestsOk, RoutesOk, Full, Complete;
    NewIdFree(s);
    NewResults(s);
    if id in s.requests {
      TrackedIs(s, id);
    } else if id == s.nextRequestID + 1 {
      NewIsOpen(s);
    }
  }

  lemma NewIdFree(s: State)
    requires RequestsOk(s)
    ensures s.nextRequestID + 1 !in s.requests
  {
  }

  lemma NewResults(s: State)
    requires RoutesOk(s)
    ensures (map k | k in s.active.Values :: BLANK) == NewEntries(s)
  {
    forall k ensures k in s.active.Values <==> k in s.workers && s.workers[k].state == Active {
      if k in s.workers {
        RoutedIsActive(s, k);
      }
    }
  }

  lemma NewIsOpen(s: State)
    requires exists k :: k in s.workers && s.workers[k].state == Active
    ensures !Complete(NewEntries(s))
  {
    var k :| k in s.workers && s.workers[k].state == Active;
    assert NewEntries(s)[k].kind == NoType;
  }

  lemma SendingFits(s: State, path: string, c: Chan, id: nat)
    requires RoutesOk(s) && Admitted(s, ScanRequest(path, c))
    requires id in Sending(s, path, c).requests && Sending(s, path, c).requests[id].results.Keys <= s.workers.Keys
    ensures var d := Sending(s, path, c);
            Fits(s, ScanRequest(path, c), id, d.requests[id], d.requests.Keys, Full(Admit(s, path, c), s.active.Values), Unavailable(QUEUE_FULL))
  {
    var r := Sending(s, path, c).requests[id];
    var full := Full(Admit(s, path, c), s.active.Values);
    forall k | k in r.results
      ensures k in full <==> Reason(s, ScanRequest(path, c), k).Some?
      ensures Reason(s, ScanRequest(path, c), k).Some? ==> Reason(s, ScanRequest(path, c), k).value == QUEUE_FULL
    {
      FullIs(s, path, c, k);
    }
    hide Sending, Reason, Full, RoutesOk, Admitted;
  }

  lemma FullIs(s: State, path: string, c: Chan, k: WorkerKey)
    requires RoutesOk(s) && k in s.workers && Admitted(s, ScanRequest(path, c))
    ensures k in Full(Admit(s, path, c), s.active.Values) <==> Reason(s, ScanRequest(path, c), k).Some?
    ensures Reason(s, ScanRequest(path, c), k).Some? ==> Reason(s, ScanRequest(path, c), k).value == QUEUE_FULL
  {
    RoutedIsActive(s, k);
    hide RoutesOk;
  }

  lemma SendingAt(s: State, path: string, c: Chan, id: nat)
    requires RequestsOk(s) && RoutesOk(s) && Admitted(s, ScanRequest(path, c))
    ensures var full := Full(Admit(s, path, c), s.active.Values);
            var m := Mark(Sending(s, path, c), full, QUEUE_FULL);
            FillsAt(s, ScanRequest(path, c), m, m.requests.Keys, full, Unavailable(QUEUE_FULL), Ready(m.requests, m.requests.Keys, full), id)
  {
    hide RequestsOk, Ready, Complete, Opened, Fits, RoutesOk, Sending, Full, Admitted;
    var d, full := Sending(s, path, c), Full(Admit(s, path, c), s.active.Values);
    SendingOpens(s, path, c, id);
    if id in d.requests { SendingFits(s, path, c, id); }
    var m := Mark(d, full, QUEUE_FULL);
    assert m.requests == d.requests;
    hide Mark;
    SettleAt(s, ScanRequest(path, c), m, m.requests.Keys, full, Unavailable(QUEUE_FULL), id);
  }

  lemma ScanKept(s: State, path: string, c: Chan, id: nat)
    requires RequestsOk(s) && RoutesOk(s)
    ensures Kept(s, ScanRequest(path, c), HandleScan(s, path, c), id)
  {
    var e := ScanRequest(path, c);
    RoutesIff(s);
    hide Kept, RequestsOk, FillFinish, Ready, Complete, Opened, Fits, Final, RoutesOk, FailAll, Sending, Full, Reason;
    if Admitted(s, e) {
      AdmittedKept(s, path, c, id);
    } else {
      forall k | k in s.workers ensures Reason(s, e, k).None? {
        RefusedFails(s, path, c, k);
      }
      NoneFails(s, e, id);
      NothingKept(s, e, HandleScan(s, path, c), id);
    }
  }

  lemma AdmittedKept(s: State, path: string, c: Chan, id: nat)
    requires RequestsOk(s) && RoutesOk(s) && Admitted(s, ScanRequest(path, c))
    ensures Kept(s, ScanRequest(path, c), HandleScan(s, path, c), id)
  {
    ScanSends(s, path, c);
    hide Kept, RequestsOk, FillFinish, Ready, RoutesOk, FailAll, Sending, Full, Admitted, HandleScan, FillsAt;
    var d, full := Sending(s, path, c), Full(Admit(s, path, c), s.active.Values);
    SendingDone(s, path, c);
    SendingAt(s, path, c, id);
    FailAllIs(d, full, QUEUE_FULL);
    var m := Mark(d, full, QUEUE_FULL);
    assert m.completed == d.completed;
    hide Mark;
    ReadyIds(m.requests, m.requests.Keys, full);
    FillKept(s, ScanRequest(path, c), m, m.requests.Keys, full, Unavailable(QUEUE_FULL), Ready(m.requests, m.requests.Keys, full), id);
  }

  lemma SendingDone(s: State, path: string, c: Chan)
    ensures Sending(s, path, c).completed == s.completed
  {
    hide Full;
  }

  lemma RefusedFails(s: State, path: string, c: Chan, k: WorkerKey)
    requires k in s.workers && !Admitted(s, ScanRequest(path, c))
    ensures Reason(s, ScanRequest(path, c), k).None?
  {
  }

  lemma AllGiven(s: State, e: Event, id: nat, results: map<WorkerKey, Message>)
    requires forall k | k in results :: Final(s, e, id, k).Some? && Final(s, e, id, k).value.kind != NoType
    ensures Complete(EntriesAfter(s, e, id, results))
  {
    hide Final;
  }

  lemma NoneGiven(s: State, e: Event, id: nat, results: map<WorkerKey, Message>)
    requires forall k | k in results :: Final(s, e, id, k).None?
    ensures EntriesAfter(s, e, id, results) == results
  {
    hide Final;
  }

  lemma TimeoutFinal(s: State, i: nat, id: nat, k: WorkerKey)
    ensures Final(s, ScanTimeout(i), id, k) == if i == id then Some(Missing(id, VerdictTimeout, SCAN_TIMED_OUT)) else None
  {
  }

  lemma TimeoutAt(s: State, i: nat, id: nat)
    requires RequestsOk(s) && i in s.requests
    ensures FillsAt(s, ScanTimeout(i), s, {i}, s.requests[i].results.Keys, Timeout, {i}, id)
  {
    hide RequestsOk, Complete, Final, EntriesAfter;
    var e := ScanTimeout(i);
    forall k ensures Final(s, e, id, k) == if i == id then Some(Missing(id, VerdictTimeout, SCAN_TIMED_OUT)) else None {
      TimeoutFinal(s, i, id, k);
    }
    if id in s.requests {
      TrackedIs(s, id);
      if id == i { AllGiven(s, e, id, s.requests[id].results); } else { NoneGiven(s, e, id, s.requests[id].results); }
    }
  }

  lemma ScanTimeoutKept(s: State, i: nat, id: nat)
    requires RequestsOk(s)
    ensures Kept(s, ScanTimeout(i), HandleScanTimeout(s, i), id)
  {
    hide Kept, RequestsOk, FillFinish, Complete, Final, EntriesAfter, Finish, Fill;
    var e := ScanTimeout(i);
    forall k ensures Final(s, e, id, k) == if i == id then Some(Missing(id, VerdictTimeout, SCAN_TIMED_OUT)) else None {
      TimeoutFinal(s, i, id, k);
    }
    if i in s.requests {
      TimeoutAt(s, i, id);
      TimeoutIs(s, i);
      hide FillsAt;
      FillKept(s, e, s, {i}, s.requests[i].results.Keys, Timeout, {i}, id);
    } else if id != i {
      NothingKept(s, e, s, id);
    } else {
      UnchangedKept(s, e, id);
    }
  }

  lemma TimeoutIs(s: State, i: nat)
    requires i in s.requests
    ensures HandleScanTimeout(s, i) == FillFinish(s, {i}, s.requests[i].results.Keys, Timeout, {i})
  {
    hide Finish, Fill;
  }

  lemma StopFinal(s: State, c: Chan, id: nat, k: WorkerKey)
    requires s.stopReply.None?
    ensures Final(s, Shutdown(c), id, k) == Some(Missing(id, VerdictUnavailable, SHUTTING_DOWN))
  {
  }

  lemma StopIs(s: State, c: Chan)
    ensures var h := s.(stopReply := Some(c));
            var a := FillFinish(h, h.requests.Keys, h.workers.Keys, Unavailable(SHUTTING_DOWN), h.requests.Keys);
            HandleShutdown(s, c).requests == a.requests && HandleShutdown(s, c).completed == a.completed
  {
    hide Finish, Fill, RequestShutdown;
  }

  lemma StopAt(s: State, c: Chan, id: nat)
    requires RequestsOk(s) && s.stopReply.None?
    ensures var h := s.(stopReply := Some(c));
            FillsAt(s, Shutdown(c), h, h.requests.Keys, h.workers.Keys, Unavailable(SHUTTING_DOWN), h.requests.Keys, id)
  {
    hide RequestsOk, Complete, Final, EntriesAfter, Opened, Fits;
    StopOpens(s, c, id);
    if id in s.requests {
      TrackedIs(s, id);
      forall k ensures Final(s, Shutdown(c), id, k) == Some(Missing(id, VerdictUnavailable, SHUTTING_DOWN)) {
        StopFinal(s, c, id, k);
      }
      AllGiven(s, Shutdown(c), id, s.requests[id].results);
      StopFits(s, c, id);
    }
  }

  lemma ShutdownKept(s: State, c: Chan, id: nat)
    requires RequestsOk(s) && s.stopReply.None?
    ensures Kept(s, Shutdown(c), HandleShutdown(s, c), id)
  {
    hide RequestsOk, FillFinish, HandleShutdown, FillsAt;
    var e := Shutdown(c);
    var h := s.(stopReply := Some(c));
    StopAt(s, c, id);
    StopIs(s, c);
    FillKept(s, e, h, h.requests.Keys, h.workers.Keys, Unavailable(SHUTTING_DOWN), h.requests.Keys, id);
  }

  lemma StopOpens(s: State, c: Chan, id: nat)
    ensures Opened(s, Shutdown(c), id) == if id in s.requests then Some(s.requests[id]) else None
  {
  }

  lemma StopFits(s: State, c: Chan, id: nat)
    requires s.stopReply.None? && id in s.requests && s.requests[id].results.Keys <= s.workers.Keys
    ensures Fits(s, Shutdown(c), id, s.requests[id], s.requests.Keys, s.workers.Keys, Unavailable(SHUTTING_DOWN))
  {
    hide Final;
    forall k ensures Final(s, Shutdown(c), id, k) == Some(Missing(id, VerdictUnavailable, SHUTTING_DOWN)) {
      StopFinal(s, c, id, k);
    }
  }

  lemma HandleKept(s: State, e: Event, id: nat)
    requires RequestsOk(s) && RoutesOk(s)
    ensures Kept(s, e, Handle(s, e), id)
  {
    hide Kept, RequestsOk, RoutesOk;
    hide HandleRegister, HandleHello, HandleHealth, HandleActivate, HandleFail, HandleMessage, FailWorker, HandleExit, HandleScan,
         HandleScanTimeout, HandleReload, HandleReloadTimeout, HandleQuery, HandleShutdown, HandleDequeue, Close, Tell;
    match e
    case BeginHello(j, c) => HelloKept(s, j, c, id);
    case BeginHealth(j, c) => HealthKept(s, j, c, id);
    case FailCommand(j, reason, c) => FailCommandKept(s, j, reason, c, id);
    case WorkerMessage(j, m) => MessageKept(s, j, m, id);
    case WorkerFailure(j, reason) => FailCommandKept(s, j, reason, 0, id);
    case WorkerExit(j, code, err) => ExitKept(s, j, code, err, id);
    case ScanRequest(path, c) => ScanKept(s, path, c, id);
    case ScanTimeout(i) => ScanTimeoutKept(s, i, id);
    case ReloadRequest(scannerId, path, c) => ReloadKept(s, scannerId, path, c, id);
    case Shutdown(c) => if s.stopReply.None? { ShutdownKept(s, c, id); } else { QuietKept(s, e, id); }
    case _ => QuietKept(s, e, id);
  }

  /** The step as request id sees it: the entries it gives, its admission, and its completion once no entry is pending. */
  lemma OneRequestView(s: State, e: Event, id: nat)
    requires CoreInv(s) && s.phase == Running
    ensures Kept(s, e, Step(s, e), id)
  {
    assert RequestsOk(s) && RoutesOk(s);
    hide CoreInv, Step, Handle;
    HandleKept(s, e, id);
    RuntimeProvenance.StepBooks(s, e);
    SameBooksKept(s, e, Handle(s, e), Step(s, e), id);
  }

  lemma SameBooksKept(s: State, e: Event, t: State, u: State, id: nat)
    requires Kept(s, e, t, id) && u.requests == t.requests && u.completed == t.completed
    ensures Kept(s, e, u, id)
  {
    hide Opened, EntriesAfter, Complete;
  }
}
