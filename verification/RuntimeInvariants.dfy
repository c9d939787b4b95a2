/** What every event of the Runtime loop keeps. */
module RuntimeInvariants {
  import opened Wrappers
  import opened Messages
  import opened Aggregator
  import opened RuntimeSpec

  // ----- the invariant

  /** `active[s] = k` iff worker k is registered, has scanner ID s and is ACTIVE. */
  ghost predicate RoutesOk(s: State) {
    && (forall id | id in s.active ::
          s.active[id] in s.workers && s.active[id].scannerId == id && s.workers[s.active[id]].state == Active)
    && (forall k | k in s.workers && s.workers[k].state == Active ::
          k.scannerId in s.active && s.active[k.scannerId] == k)
  }

  function Load(s: State, k: WorkerKey): set<nat> { Using(s.requests, s.requests.Keys, k) }

  /** `inFlight` is the number of tracked requests with an entry for the worker. */
  ghost predicate CountsOk(s: State) {
    forall k | k in s.workers :: s.workers[k].inFlight == |Load(s, k)|
  }

  ghost predicate EntryOk(id: nat, m: Message) {
    m.kind == TypeScanResult && m.requestId == id && ValidVerdict(m.verdict)
  }

  ghost predicate RequestOk(keys: set<WorkerKey>, last: nat, id: nat, r: Request) {
    && 1 <= id <= last
    && r.results.Keys <= keys
    && r.timer
    && !AllAnswered(r.results)
    && AnswersOk(id, r.results)
  }

  ghost predicate AnswersOk(id: nat, results: map<WorkerKey, Message>) {
    forall k | k in results && !Pending(results[k]) :: EntryOk(id, results[k])
  }

  ghost predicate RequestsOk(s: State) {
    && (forall id | id in s.requests :: RequestOk(s.workers.Keys, s.nextRequestID, id, s.requests[id]))
    && (s.stopReply.Some? ==> s.requests == map[])
  }

  ghost predicate CoreCommand(kind: MessageType) {
    kind == TypeHello || kind == TypeHealthCheck || kind == TypeScan || kind == TypeReload || kind == TypeShutdown
  }

  /** Everything queued to one worker: SHUTDOWN at most once, no SCAN after it, SCAN IDs strictly increasing. */
  ghost predicate LogOk(log: seq<Message>, last: nat, shutdownSent: bool) {
    && (forall i | 0 <= i < |log| :: CoreCommand(log[i].kind))
    && (forall i | 0 <= i < |log| && log[i].kind == TypeScan :: 1 <= log[i].requestId <= last)
    && (forall i, j | 0 <= i < j < |log| && log[i].kind == TypeScan && log[j].kind == TypeScan ::
          log[i].requestId < log[j].requestId)
    && (forall i | 0 <= i < |log| && log[i].kind == TypeShutdown :: shutdownSent)
    && (forall i, j | 0 <= i < j < |log| && log[i].kind == TypeShutdown ::
          log[j].kind != TypeScan && log[j].kind != TypeShutdown)
  }

  ghost predicate HasShutdown(log: seq<Message>) {
    exists i :: 0 <= i < |log| && log[i].kind == TypeShutdown
  }

  ghost predicate QueueOk(w: Worker, capacity: nat, last: nat) {
    && |w.queue| <= capacity
    && LogOk(w.Log(), last, w.shutdownSent)
    && (w.shutdownSent ==> HasShutdown(w.Log()) || w.terminated)
  }

  ghost predicate QueuesOk(s: State) {
    forall k | k in s.workers :: QueueOk(s.workers[k], s.capacity, s.nextRequestID)
  }

  /** The scalar fields of one worker: the drain gate and what each lifecycle state implies. */
  ghost predicate WorkerOk(w: Worker, stopping: bool) {
    && (w.shutdownSent ==> w.inFlight == 0)
    && (w.state == Draining && w.inFlight == 0 ==> w.shutdownSent)
    && (w.Candidate() ==> w.inFlight == 0)
    && (w.state == Failed ==> w.terminated && HeldBy(w) == {})
    && (w.state == Retired ==> w.shutdownAck && w.exited)
    && (w.exited ==> w.Terminal())
    && (w.reloadReply.Some? ==> w.reloadTimer)
    && (!stopping && w.shutdownSent ==> w.state == Draining || w.Terminal())
    && (w.healthReply.Some? ==> w.state == Starting || (stopping && (w.state == Draining || w.state == Retired)))
  }

  ghost predicate WorkersOk(s: State) {
    forall k | k in s.workers :: WorkerOk(s.workers[k], s.stopReply.Some?)
  }

  /** Until shutdown begins a scanner has at most one STARTING or HEALTHY worker. */
  ghost predicate CandidatesOk(s: State) {
    s.stopReply.None? ==>
      forall j, k | j in s.workers && k in s.workers && j.scannerId == k.scannerId
                    && s.workers[j].Candidate() && s.workers[k].Candidate() :: j == k
  }

  ghost predicate CompletedOk(s: State, id: nat, r: Request) {
    && id !in s.requests
    && r.results != map[]
    && AllAnswered(r.results) && AnswersOk(id, r.results)
    && Send(r.reply, Answered(id, r)) in s.sends
  }

  /** Every admitted request is either tracked or was answered, never both. */
  ghost predicate HistoryOk(s: State) {
    && (forall id :: 1 <= id <= s.nextRequestID <==> id in s.requests || id in s.completed)
    && (forall id | id in s.completed :: CompletedOk(s, id, s.completed[id]))
  }

  ghost predicate CoreInv(s: State) {
    RoutesOk(s) && CountsOk(s) && RequestsOk(s) && WorkersOk(s) && QueuesOk(s) && CandidatesOk(s) && HistoryOk(s)
  }

  // ----- logs

  lemma LogGrows(log: seq<Message>, m: Message, last: nat, last': nat, sent: bool, sent': bool)
    requires LogOk(log, last, sent) && last <= last' && CoreCommand(m.kind)
    requires m.kind == TypeScan ==> !sent && last < m.requestId <= last'
    requires m.kind == TypeShutdown ==> !sent && sent'
    requires sent ==> sent'
    ensures LogOk(log + [m], last', sent')
  {
  }

  // ----- one worker

  lemma RequestShutdownQueue(w: Worker, capacity: nat, last: nat)
    requires QueueOk(w, capacity, last)
    ensures QueueOk(RequestShutdown(w, capacity), capacity, last)
  {
    if !w.shutdownSent && HasRoom(w, capacity) {
      var w1 := w.(shutdownSent := true);
      var w2 := Push(w1, Command(TypeShutdown));
      assert w2.Log() == w.Log() + [Command(TypeShutdown)];
      LogGrows(w.Log(), Command(TypeShutdown), last, last, w.shutdownSent, true);
      assert w2.Log()[|w.Log()|].kind == TypeShutdown;
    } else if !w.shutdownSent {
      assert w.(shutdownSent := true, terminated := true).Log() == w.Log();
    }
  }

  lemma ReleaseQueue(w: Worker, n: nat, capacity: nat, last: nat)
    requires QueueOk(w, capacity, last)
    ensures QueueOk(Release(w, n, capacity), capacity, last)
  {
    if n != 0 && w.inFlight != 0 {
      var w1 := w.(inFlight := if w.inFlight > n then w.inFlight - n else 0);
      assert w1.Log() == w.Log();
      RequestShutdownQueue(w1, capacity, last);
    }
  }

  lemma ReleaseOk(w: Worker, n: nat, capacity: nat, stopping: bool)
    requires WorkerOk(w, stopping) && n <= w.inFlight
    ensures var w' := Release(w, n, capacity);
            WorkerOk(w', stopping) && w'.inFlight == w.inFlight - n && w'.state == w.state
            && w'.helloReply == w.helloReply && w'.healthReply == w.healthReply && w'.reloadReply == w.reloadReply
  {
  }

  // ----- filling and finishing

  lemma UsingSplit(s: State, done: set<nat>, k: WorkerKey)
    requires done <= s.requests.Keys
    ensures |Using(s.requests, done, k)| <= |Load(s, k)|
    ensures |Load(Finish(s, done), k)| == |Load(s, k)| - |Using(s.requests, done, k)|
  {
    var part := Using(s.requests, done, k);
    var rest := Load(Finish(s, done), k);
    assert Load(s, k) == part + rest;
    assert part !! rest;
  }

  lemma FillKeepsLoad(s: State, ids: set<nat>, keys: set<WorkerKey>, cause: Cause, k: WorkerKey)
    ensures Load(Fill(s, ids, keys, cause), k) == Load(s, k)
  {
  }

  function FillFinish(s: State, ids: set<nat>, keys: set<WorkerKey>, cause: Cause, done: set<nat>): State
    requires done <= s.requests.Keys
  {
    Finish(Fill(s, ids, keys, cause), done)
  }

  /** Filling entries of `keys` in the requests `ids` and completing exactly those left without a pending entry. */
  ghost predicate GoodFill(s: State, ids: set<nat>, keys: set<WorkerKey>, cause: Cause, done: set<nat>) {
    && done <= ids <= s.requests.Keys
    && (forall id | id in ids :: EntryOk(id, Entry(cause, id)))
    && (forall id | id in ids ::
          id in done <==> AllAnswered(FillResults(s.requests[id].results, keys, Entry(cause, id))))
  }

  lemma FillFinishWorkers(s: State, ids: set<nat>, keys: set<WorkerKey>, cause: Cause, done: set<nat>)
    requires CountsOk(s) && WorkersOk(s) && QueuesOk(s) && done <= s.requests.Keys
    ensures var t := FillFinish(s, ids, keys, cause, done); CountsOk(t) && WorkersOk(t) && QueuesOk(t)
    ensures forall k | k in s.workers :: FillFinish(s, ids, keys, cause, done).workers[k].state == s.workers[k].state
  {
    var f := Fill(s, ids, keys, cause);
    var t := FillFinish(s, ids, keys, cause, done);
    forall k | k in s.workers
      ensures t.workers[k].inFlight == |Load(t, k)|
      ensures WorkerOk(t.workers[k], s.stopReply.Some?) && t.workers[k].state == s.workers[k].state
      ensures QueueOk(t.workers[k], s.capacity, s.nextRequestID)
    {
      var n := |Using(f.requests, done, k)|;
      FillKeepsLoad(s, ids, keys, cause, k);
      UsingSplit(f, done, k);
      assert s.workers[k].inFlight == |Load(s, k)|;
      ReleaseOk(s.workers[k], n, s.capacity, s.stopReply.Some?);
      ReleaseQueue(s.workers[k], n, s.capacity, s.nextRequestID);
    }
  }

  lemma FillAnswers(results: map<WorkerKey, Message>, keys: set<WorkerKey>, id: nat, m: Message)
    requires AnswersOk(id, results) && EntryOk(id, m)
    ensures AnswersOk(id, FillResults(results, keys, m))
  {
  }

  lemma FillFinishRequests(s: State, ids: set<nat>, keys: set<WorkerKey>, cause: Cause, done: set<nat>)
    requires RequestsOk(s) && GoodFill(s, ids, keys, cause, done)
    ensures RequestsOk(FillFinish(s, ids, keys, cause, done))
  {
    var t := FillFinish(s, ids, keys, cause, done);
    hide AnswersOk, EntryOk, AllAnswered, FillResults, Entry;
    forall id | id in t.requests ensures RequestOk(t.workers.Keys, t.nextRequestID, id, t.requests[id]) {
      assert RequestOk(s.workers.Keys, s.nextRequestID, id, s.requests[id]);
      if id in ids {
        FillAnswers(s.requests[id].results, keys, id, Entry(cause, id));
        FillKeys(s.requests[id].results, keys, Entry(cause, id));
      }
    }
  }

  lemma FillKeys(results: map<WorkerKey, Message>, keys: set<WorkerKey>, m: Message)
    ensures FillResults(results, keys, m).Keys == results.Keys
  {
  }

  lemma PendingMeansNonEmpty(results: map<WorkerKey, Message>)
    requires !AllAnswered(results)
    ensures results != map[]
  {
  }

  /** What a request finished by a good fill leaves in the history. */
  lemma FinishedOk(s: State, ids: set<nat>, keys: set<WorkerKey>, cause: Cause, done: set<nat>, id: nat)
    requires RequestsOk(s) && GoodFill(s, ids, keys, cause, done) && id in done
    ensures var t := FillFinish(s, ids, keys, cause, done); id in t.completed && CompletedOk(t, id, t.completed[id])
  {
    var f := Fill(s, ids, keys, cause);
    hide AnswersOk, EntryOk, AllAnswered, FillResults, Entry, Policy, Verdicts;
    assert RequestOk(s.workers.Keys, s.nextRequestID, id, s.requests[id]);
    FillAnswers(s.requests[id].results, keys, id, Entry(cause, id));
    FillKeys(s.requests[id].results, keys, Entry(cause, id));
    PendingMeansNonEmpty(s.requests[id].results);
    assert Send(f.requests[id].reply, Answered(id, f.requests[id])) in FillFinish(s, ids, keys, cause, done).sends;
  }

  lemma ReadyIds(requests: map<nat, Request>, ids: set<nat>, keys: set<WorkerKey>)
    ensures Ready(requests, ids, keys) <= requests.Keys
  {
  }

  lemma FillFinishShape(s: State, ids: set<nat>, keys: set<WorkerKey>, cause: Cause, done: set<nat>)
    requires done <= s.requests.Keys
    ensures var t := FillFinish(s, ids, keys, cause, done);
            && t.requests.Keys == s.requests.Keys - done
            && t.completed.Keys == s.completed.Keys + done
            && s.sends <= t.sends
            && (forall id | id in s.completed && id !in done :: t.completed[id] == s.completed[id])
            && t.nextRequestID == s.nextRequestID && t.active == s.active && t.stopReply == s.stopReply
            && t.workers.Keys == s.workers.Keys
  {
  }

  lemma FillFinishHistory(s: State, ids: set<nat>, keys: set<WorkerKey>, cause: Cause, done: set<nat>)
    requires RequestsOk(s) && HistoryOk(s) && GoodFill(s, ids, keys, cause, done)
    ensures HistoryOk(FillFinish(s, ids, keys, cause, done))
  {
    hide AnswersOk, AllAnswered, Answered, GoodFill, RequestsOk, FillFinish;
    GoodFillIn(s, ids, keys, cause, done);
    var t := FillFinish(s, ids, keys, cause, done);
    FillFinishShape(s, ids, keys, cause, done);
    forall id | id in t.completed ensures CompletedOk(t, id, t.completed[id]) {
      if id in done {
        FinishedOk(s, ids, keys, cause, done, id);
      } else {
        assert CompletedOk(s, id, s.completed[id]);
      }
    }
  }

  /** Routes and candidates depend on lifecycle states alone. */
  lemma SameStates(s: State, t: State)
    requires s.active == t.active && s.workers.Keys == t.workers.Keys && s.stopReply == t.stopReply
    requires forall k | k in s.workers :: s.workers[k].state == t.workers[k].state
    ensures RoutesOk(s) ==> RoutesOk(t)
    ensures CandidatesOk(s) ==> CandidatesOk(t)
  {
  }

  lemma FillFinishKeeps(s: State, ids: set<nat>, keys: set<WorkerKey>, cause: Cause, done: set<nat>)
    requires CoreInv(s) && GoodFill(s, ids, keys, cause, done)
    ensures CoreInv(FillFinish(s, ids, keys, cause, done))
  {
    hide RoutesOk, CountsOk, RequestsOk, WorkersOk, QueuesOk, CandidatesOk, HistoryOk, GoodFill;
    assert done <= s.requests.Keys by { GoodFillIn(s, ids, keys, cause, done); }
    FillFinishWorkers(s, ids, keys, cause, done);
    FillFinishRequests(s, ids, keys, cause, done);
    FillFinishHistory(s, ids, keys, cause, done);
    SameStates(s, FillFinish(s, ids, keys, cause, done));
  }

  lemma GoodFillIn(s: State, ids: set<nat>, keys: set<WorkerKey>, cause: Cause, done: set<nat>)
    requires GoodFill(s, ids, keys, cause, done)
    ensures done <= ids <= s.requests.Keys
  {
  }

  // ----- changing worker records only

  ghost predicate SameBooks(s: State, t: State) {
    && t.requests == s.requests && t.completed == s.completed && t.nextRequestID == s.nextRequestID
    && t.stopReply == s.stopReply && t.capacity == s.capacity
    && s.sends <= t.sends && s.workers.Keys <= t.workers.Keys
  }

  lemma BooksKept(s: State, t: State)
    requires SameBooks(s, t)
    ensures RequestsOk(s) ==> RequestsOk(t)
    ensures HistoryOk(s) ==> HistoryOk(t)
  {
    hide AnswersOk, AllAnswered, Answered;
    if HistoryOk(s) {
      forall id | id in t.completed ensures CompletedOk(t, id, t.completed[id]) {
        assert CompletedOk(s, id, s.completed[id]);
      }
    }
    if RequestsOk(s) {
      forall id | id in t.requests ensures RequestOk(t.workers.Keys, t.nextRequestID, id, t.requests[id]) {
        assert RequestOk(s.workers.Keys, s.nextRequestID, id, s.requests[id]);
      }
    }
  }

  lemma SameLoad(s: State, t: State, k: WorkerKey)
    requires s.requests == t.requests
    ensures Load(s, k) == Load(t, k)
  {
  }

  /** Some worker records change, without change of route, of load or of candidacy. */
  lemma WorkersChange(s: State, t: State)
    requires CoreInv(s) && SameBooks(s, t) && t.active == s.active && t.workers.Keys == s.workers.Keys
    requires forall k | k in s.workers :: t.workers[k].inFlight == s.workers[k].inFlight
    requires forall k | k in s.workers :: t.workers[k].state == Active <==> s.workers[k].state == Active
    requires s.stopReply.None? ==> forall k | k in s.workers && t.workers[k].Candidate() :: s.workers[k].Candidate()
    requires WorkersOk(t) && QueuesOk(t)
    ensures CoreInv(t)
  {
    BooksKept(s, t);
    hide WorkersOk, QueuesOk, RequestsOk, HistoryOk;
    forall k | k in t.workers ensures t.workers[k].inFlight == |Load(t, k)| {
      SameLoad(s, t, k);
      assert s.workers[k].inFlight == |Load(s, k)|;
    }
    assert RoutesOk(t) by { hide CountsOk, CandidatesOk, Load; }
    assert CandidatesOk(t) by { hide CountsOk, RoutesOk, Load; }
  }

  lemma OneWorker(s: State, t: State, k: WorkerKey, w: Worker)
    requires WorkersOk(s) && QueuesOk(s) && t.workers == s.workers[k := w]
    requires t.stopReply == s.stopReply && t.capacity == s.capacity && t.nextRequestID == s.nextRequestID
    requires WorkerOk(w, s.stopReply.Some?) && QueueOk(w, s.capacity, s.nextRequestID)
    ensures WorkersOk(t) && QueuesOk(t)
  {
    hide WorkerOk, QueueOk;
  }

  lemma WorkerChange(s: State, t: State, k: WorkerKey, w: Worker)
    requires CoreInv(s) && k in s.workers && SameBooks(s, t) && t.active == s.active && t.workers == s.workers[k := w]
    requires w.inFlight == s.workers[k].inFlight
    requires w.state == Active <==> s.workers[k].state == Active
    requires s.stopReply.None? && w.Candidate() ==> s.workers[k].Candidate()
    requires WorkerOk(w, s.stopReply.Some?) && QueueOk(w, s.capacity, s.nextRequestID)
    ensures CoreInv(t)
  {
    hide RoutesOk, CountsOk, RequestsOk, CandidatesOk, HistoryOk, WorkersOk, QueuesOk, WorkerOk, QueueOk;
    OneWorker(s, t, k, w);
    WorkersChange(s, t);
  }

  lemma TellKeeps(s: State, c: Chan, r: Reply)
    requires CoreInv(s)
    ensures CoreInv(Tell(s, c, r))
  {
    var t := Tell(s, c, r);
    assert WorkersOk(t) && QueuesOk(t) by {
      hide RoutesOk, CountsOk, RequestsOk, CandidatesOk, HistoryOk, WorkerOk, QueueOk;
    }
    hide RoutesOk, CountsOk, RequestsOk, CandidatesOk, HistoryOk, WorkersOk, QueuesOk;
    WorkersChange(s, t);
  }

  // ----- settling and failing

  /** Which entries are left pending does not depend on what the filled ones now say. */
  lemma FillPending(results: map<WorkerKey, Message>, keys: set<WorkerKey>, m: Message)
    requires !Pending(m)
    ensures AllAnswered(FillResults(results, keys, m)) <==> forall k | k in results && Pending(results[k]) :: k in keys
    ensures !AllAnswered(results) && AllAnswered(FillResults(results, keys, m)) ==> Touches(results, keys)
  {
    var filled := FillResults(results, keys, m);
    forall k | k in results ensures Pending(filled[k]) <==> Pending(results[k]) && k !in keys {
    }
    if AllAnswered(filled) {
      forall k | k in results && Pending(results[k]) ensures k in keys {
        assert !Pending(filled[k]);
      }
    }
  }

  lemma ReadyIsGood(s: State, ids: set<nat>, keys: set<WorkerKey>, cause: Cause)
    requires RequestsOk(s) && ids <= s.requests.Keys
    requires forall id | id in ids :: EntryOk(id, Entry(cause, id))
    ensures GoodFill(s, ids, keys, cause, Ready(s.requests, ids, keys))
  {
    hide AllAnswered, FillResults, Touches, Entry, AnswersOk;
    forall id | id in ids
      ensures id in Ready(s.requests, ids, keys) <==>
              AllAnswered(FillResults(s.requests[id].results, keys, Entry(cause, id)))
    {
      assert RequestOk(s.workers.Keys, s.nextRequestID, id, s.requests[id]);
      FillPending(s.requests[id].results, keys, Entry(cause, id));
      FillPending(s.requests[id].results, keys, Command(TypeScanResult));
    }
  }

  lemma SettleKeeps(s: State, ids: set<nat>, keys: set<WorkerKey>, cause: Cause)
    requires CoreInv(s) && ids <= s.requests.Keys
    requires forall id | id in ids :: EntryOk(id, Entry(cause, id))
    ensures CoreInv(Settle(s, ids, keys, cause))
  {
    ReadyIsGood(s, ids, keys, cause);
    var done := Ready(s.requests, ids, keys);
    assert Settle(s, ids, keys, cause) == FillFinish(s, ids, keys, cause, done);
    hide RoutesOk, CountsOk, RequestsOk, CandidatesOk, HistoryOk, WorkersOk, QueuesOk, GoodFill;
    FillFinishKeeps(s, ids, keys, cause, done);
  }

  lemma MarkRoutes(s: State, keys: set<WorkerKey>, reason: string)
    requires RoutesOk(s) && CandidatesOk(s)
    ensures RoutesOk(Mark(s, keys, reason)) && CandidatesOk(Mark(s, keys, reason))
  {
  }

  lemma MarkWorkers(s: State, keys: set<WorkerKey>, reason: string)
    requires WorkersOk(s) && QueuesOk(s)
    ensures WorkersOk(Mark(s, keys, reason)) && QueuesOk(Mark(s, keys, reason))
  {
    var t := Mark(s, keys, reason);
    hide QueueOk, WorkerOk;
    forall k | k in t.workers
      ensures WorkerOk(t.workers[k], s.stopReply.Some?) && QueueOk(t.workers[k], s.capacity, s.nextRequestID)
    {
      MarkedRecord(s.workers[k], reason, s.capacity, s.nextRequestID, s.stopReply.Some?);
    }
  }

  lemma MarkedRecord(w: Worker, reason: string, capacity: nat, last: nat, stopping: bool)
    requires WorkerOk(w, stopping) && QueueOk(w, capacity, last)
    ensures WorkerOk(MarkFailed(w, reason), stopping) && QueueOk(MarkFailed(w, reason), capacity, last)
  {
    SameQueue(w, MarkFailed(w, reason), capacity, last);
    hide QueueOk;
  }

  lemma MarkCounts(s: State, keys: set<WorkerKey>, reason: string)
    requires CountsOk(s)
    ensures CountsOk(Mark(s, keys, reason))
  {
    var t := Mark(s, keys, reason);
    forall k | k in t.workers ensures t.workers[k].inFlight == |Load(t, k)| {
      assert s.workers[k].inFlight == |Load(s, k)|;
      SameLoad(s, t, k);
    }
  }

  lemma MarkKeeps(s: State, keys: set<WorkerKey>, reason: string)
    requires CoreInv(s)
    ensures CoreInv(Mark(s, keys, reason))
  {
    hide RoutesOk, CountsOk, RequestsOk, CandidatesOk, HistoryOk, WorkersOk, QueuesOk;
    MarkRoutes(s, keys, reason);
    MarkWorkers(s, keys, reason);
    MarkCounts(s, keys, reason);
    BooksKept(s, Mark(s, keys, reason));
  }

  lemma FailAllIs(s: State, keys: set<WorkerKey>, reason: string)
    ensures var marked := Mark(s, keys, reason);
            FailAll(s, keys, reason) == FillFinish(marked, marked.requests.Keys, keys, Unavailable(reason),
                                                   Ready(marked.requests, marked.requests.Keys, keys))
  {
    hide Mark, Finish;
  }

  lemma FailAllKeeps(s: State, keys: set<WorkerKey>, reason: string)
    requires CoreInv(s)
    ensures CoreInv(FailAll(s, keys, reason))
  {
    hide RoutesOk, CountsOk, RequestsOk, CandidatesOk, HistoryOk, WorkersOk, QueuesOk;
    MarkKeeps(s, keys, reason);
    var marked := Mark(s, keys, reason);
    SettleKeeps(marked, marked.requests.Keys, keys, Unavailable(reason));
  }

  lemma FailWorkerKeeps(s: State, k: WorkerKey, reason: string)
    requires CoreInv(s)
    ensures CoreInv(FailWorker(s, k, reason))
  {
    hide CoreInv;
    FailAllKeeps(s, {k}, reason);
  }

  // ----- event handlers

  lemma RegisterKeeps(s: State, k: WorkerKey, path: string, c: Chan)
    requires CoreInv(s)
    ensures CoreInv(HandleRegister(s, k, path, c))
  {
    if k in s.workers {
      TellKeeps(s, c, Err(ALREADY_REGISTERED));
    } else if HasCandidate(s, k.scannerId) {
      TellKeeps(s, c, Err(HAS_CANDIDATE));
    } else {
      AddWorkerKeeps(s, k, path);
      TellKeeps(SetWorker(s, k, NewWorker(path)), c, Ok);
    }
  }

  /** No request, however it arose, mentions a worker that is not registered. */
  lemma UnknownWorkerIdle(s: State, k: WorkerKey)
    requires RequestsOk(s) && k !in s.workers
    ensures Load(s, k) == {}
  {
    hide AnswersOk, AllAnswered;
    forall id | id in s.requests ensures k !in s.requests[id].results {
      assert RequestOk(s.workers.Keys, s.nextRequestID, id, s.requests[id]);
    }
  }

  lemma AddWorkerRecords(s: State, k: WorkerKey, path: string)
    requires WorkersOk(s) && QueuesOk(s)
    ensures var t := SetWorker(s, k, NewWorker(path)); WorkersOk(t) && QueuesOk(t)
  {
    assert NewWorker(path).Log() == [];
    OneWorker(s, SetWorker(s, k, NewWorker(path)), k, NewWorker(path));
  }

  lemma AddWorkerRoutes(s: State, k: WorkerKey, path: string)
    requires RoutesOk(s) && CandidatesOk(s) && k !in s.workers && !HasCandidate(s, k.scannerId)
    ensures var t := SetWorker(s, k, NewWorker(path)); RoutesOk(t) && CandidatesOk(t)
  {
  }

  lemma AddWorkerKeeps(s: State, k: WorkerKey, path: string)
    requires CoreInv(s) && k !in s.workers && !HasCandidate(s, k.scannerId)
    ensures CoreInv(SetWorker(s, k, NewWorker(path)))
  {
    var t := SetWorker(s, k, NewWorker(path));
    hide WorkersOk, QueuesOk, RequestsOk, HistoryOk, RoutesOk, CandidatesOk, HasCandidate;
    UnknownWorkerIdle(s, k);
    BooksKept(s, t);
    AddWorkerRoutes(s, k, path);
    AddWorkerRecords(s, k, path);
    forall j | j in t.workers ensures t.workers[j].inFlight == |Load(t, j)| {
      SameLoad(s, t, j);
    }
  }

  lemma QuietPush(w: Worker, w': Worker, m: Message, capacity: nat, last: nat)
    requires QueueOk(w, capacity, last) && HasRoom(w, capacity) && CoreCommand(m.kind)
    requires m.kind != TypeScan && m.kind != TypeShutdown
    requires w'.queue == w.queue && w'.written == w.written && w'.shutdownSent == w.shutdownSent && w'.terminated == w.terminated
    ensures QueueOk(Push(w', m), capacity, last)
  {
    assert Push(w', m).Log() == w.Log() + [m];
    LogGrows(w.Log(), m, last, last, w.shutdownSent, w.shutdownSent);
    if HasShutdown(w.Log()) {
      var i :| 0 <= i < |w.Log()| && w.Log()[i].kind == TypeShutdown;
      assert Push(w', m).Log()[i].kind == TypeShutdown;
    }
  }

  lemma SameQueue(w: Worker, w': Worker, capacity: nat, last: nat)
    requires QueueOk(w, capacity, last)
    requires w'.queue == w.queue && w'.written == w.written && w'.shutdownSent == w.shutdownSent
    requires w.terminated ==> w'.terminated
    ensures QueueOk(w', capacity, last)
  {
    assert w'.Log() == w.Log();
  }

  lemma HelloKeeps(s: State, k: WorkerKey, c: Chan)
    requires CoreInv(s)
    ensures CoreInv(HandleHello(s, k, c))
  {
    hide RoutesOk, CountsOk, RequestsOk, CandidatesOk, HistoryOk, QueueOk, WorkerOk;
    TellKeeps(s, c, Err(NOT_STARTING));
    TellKeeps(s, c, Err(ALREADY_PENDING));
    TellKeeps(s, c, Err(QUEUE_FULL));
    FailWorkerKeeps(Tell(s, c, Err(QUEUE_FULL)), k, QUEUE_FULL);
    if k in s.workers && HasRoom(s.workers[k], s.capacity) {
      var w := s.workers[k];
      var w' := Push(w.(helloReply := Some(c)), Command(TypeHello));
      QuietPush(w, w.(helloReply := Some(c)), Command(TypeHello), s.capacity, s.nextRequestID);
      if w.state == Starting {
        assert WorkerOk(w', s.stopReply.Some?) by { HelloHeld(w, c, s.stopReply.Some?); }
        WorkerChange(s, SetWorker(s, k, w'), k, w');
      }
    }
  }

  lemma HelloHeld(w: Worker, c: Chan, stopping: bool)
    requires WorkerOk(w, stopping) && w.state == Starting
    ensures WorkerOk(Push(w.(helloReply := Some(c)), Command(TypeHello)), stopping)
    ensures WorkerOk(Push(w.(healthReply := Some(c)), Command(TypeHealthCheck)), stopping)
  {
  }

  lemma HealthKeeps(s: State, k: WorkerKey, c: Chan)
    requires CoreInv(s)
    ensures CoreInv(HandleHealth(s, k, c))
  {
    hide RoutesOk, CountsOk, RequestsOk, CandidatesOk, HistoryOk, QueueOk, WorkerOk;
    TellKeeps(s, c, Err(NOT_STARTING));
    TellKeeps(s, c, Err(ALREADY_PENDING));
    TellKeeps(s, c, Err(QUEUE_FULL));
    FailWorkerKeeps(Tell(s, c, Err(QUEUE_FULL)), k, QUEUE_FULL);
    if k in s.workers && HasRoom(s.workers[k], s.capacity) {
      var w := s.workers[k];
      var w' := Push(w.(healthReply := Some(c)), Command(TypeHealthCheck));
      QuietPush(w, w.(healthReply := Some(c)), Command(TypeHealthCheck), s.capacity, s.nextRequestID);
      if w.state == Starting {
        assert WorkerOk(w', s.stopReply.Some?) by { HelloHeld(w, c, s.stopReply.Some?); }
        WorkerChange(s, SetWorker(s, k, w'), k, w');
      }
    }
  }

  lemma RetreatOk(w: Worker, capacity: nat, last: nat, stopping: bool)
    requires WorkerOk(w, stopping) && QueueOk(w, capacity, last) && w.state == Active
    ensures WorkerOk(Retreat(w, capacity), stopping) && QueueOk(Retreat(w, capacity), capacity, last)
  {
    var w' := w.(state := Draining);
    SameQueue(w, w', capacity, last);
    RequestShutdownQueue(w', capacity, last);
    hide QueueOk;
  }

  lemma ActiveOk(w: Worker, stopping: bool)
    requires WorkerOk(w, stopping) && w.state == Healthy
    ensures WorkerOk(w.(state := Active), stopping)
  {
  }

  lemma DisplaceRecords(s: State, k: WorkerKey)
    requires RoutesOk(s) && WorkersOk(s) && QueuesOk(s) && k in s.workers && s.workers[k].state == Healthy
    ensures var d := Displace(s, k.scannerId);
            && WorkersOk(d) && QueuesOk(d) && k in d.workers && d.workers[k] == s.workers[k]
            && d.stopReply == s.stopReply && d.capacity == s.capacity && d.nextRequestID == s.nextRequestID
  {
    hide WorkersOk, QueuesOk, WorkerOk, QueueOk, Retreat;
    if k.scannerId in s.active {
      var p := s.active[k.scannerId];
      RecordOk(s, p);
      RetreatOk(s.workers[p], s.capacity, s.nextRequestID, s.stopReply.Some?);
      OneWorker(s, Displace(s, k.scannerId), p, Retreat(s.workers[p], s.capacity));
    }
  }

  lemma ActivateRecords(s: State, k: WorkerKey)
    requires RoutesOk(s) && WorkersOk(s) && QueuesOk(s) && k in s.workers && s.workers[k].state == Healthy
    ensures var t := Promote(Displace(s, k.scannerId), k); WorkersOk(t) && QueuesOk(t)
  {
    hide WorkersOk, QueuesOk, WorkerOk, QueueOk, Retreat, RoutesOk, Displace;
    var d := Displace(s, k.scannerId);
    DisplaceRecords(s, k);
    RecordOk(s, k);
    var w := s.workers[k].(state := Active);
    ActiveOk(s.workers[k], s.stopReply.Some?);
    SameQueue(s.workers[k], w, s.capacity, s.nextRequestID);
    OneWorker(d, Promote(d, k), k, w);
  }

  lemma RetreatShape(w: Worker, capacity: nat)
    ensures Retreat(w, capacity).state == Draining && Retreat(w, capacity).inFlight == w.inFlight
  {
  }

  lemma ActivateStates(s: State, k: WorkerKey)
    requires RoutesOk(s) && k in s.workers && s.workers[k].state == Healthy
    ensures var t := Promote(Displace(s, k.scannerId), k);
            && t.workers.Keys == s.workers.Keys && t.active == s.active[k.scannerId := k]
            && SameBooks(s, t)
            && (forall j | j in s.workers :: t.workers[j].inFlight == s.workers[j].inFlight)
            && (forall j | j in s.workers :: t.workers[j].state ==
                  if j == k then Active
                  else if k.scannerId in s.active && s.active[k.scannerId] == j then Draining
                  else s.workers[j].state)
  {
    hide Retreat, Promote, Displace;
    DisplaceStates(s, k);
    PromoteStates(Displace(s, k.scannerId), k);
    hide RoutesOk;
  }

  lemma DisplaceStates(s: State, k: WorkerKey)
    requires RoutesOk(s) && k in s.workers && s.workers[k].state == Healthy
    ensures var d := Displace(s, k.scannerId);
            && d.workers.Keys == s.workers.Keys && d.active == s.active && SameBooks(s, d)
            && (forall j | j in s.workers :: d.workers[j].inFlight == s.workers[j].inFlight)
            && (forall j | j in s.workers :: d.workers[j].state ==
                  if k.scannerId in s.active && s.active[k.scannerId] == j then Draining else s.workers[j].state)
  {
    hide Retreat;
    if k.scannerId in s.active {
      RetreatShape(s.workers[s.active[k.scannerId]], s.capacity);
    }
  }

  lemma PromoteStates(s: State, k: WorkerKey)
    requires k in s.workers
    ensures var t := Promote(s, k);
            && t.workers.Keys == s.workers.Keys && t.active == s.active[k.scannerId := k] && SameBooks(s, t)
            && (forall j | j in s.workers :: t.workers[j].inFlight == s.workers[j].inFlight)
            && (forall j | j in s.workers :: t.workers[j].state == if j == k then Active else s.workers[j].state)
  {
  }

  lemma ActivateRoutes(s: State, t: State, k: WorkerKey)
    requires RoutesOk(s) && CandidatesOk(s) && k in s.workers && s.workers[k].state == Healthy
    requires t.workers.Keys == s.workers.Keys && t.active == s.active[k.scannerId := k] && t.stopReply == s.stopReply
    requires forall j | j in s.workers :: t.workers[j].state ==
               if j == k then Active
               else if k.scannerId in s.active && s.active[k.scannerId] == j then Draining
               else s.workers[j].state
    ensures RoutesOk(t) && CandidatesOk(t)
  {
    hide RoutesOk, CandidatesOk;
    PromotedRoutes(s, t, k);
    PromotedCandidates(s, t, k);
  }

  lemma PromotedRoutes(s: State, t: State, k: WorkerKey)
    requires RoutesOk(s) && k in s.workers && s.workers[k].state == Healthy
    requires t.workers.Keys == s.workers.Keys && t.active == s.active[k.scannerId := k]
    requires forall j | j in s.workers :: t.workers[j].state ==
               if j == k then Active
               else if k.scannerId in s.active && s.active[k.scannerId] == j then Draining
               else s.workers[j].state
    ensures RoutesOk(t)
  {
    forall j | j in t.workers && t.workers[j].state == Active ensures j.scannerId in t.active && t.active[j.scannerId] == j {
      if j != k {
        assert s.workers[j].state == Active;
        assert s.active[j.scannerId] == j;
      }
    }
    forall id | id in t.active
      ensures t.active[id] in t.workers && t.active[id].scannerId == id && t.workers[t.active[id]].state == Active
    {
    }
  }

  lemma PromotedCandidates(s: State, t: State, k: WorkerKey)
    requires CandidatesOk(s) && k in s.workers && t.workers.Keys == s.workers.Keys && t.stopReply == s.stopReply
    requires forall j | j in s.workers :: t.workers[j].Candidate() ==> s.workers[j].Candidate()
    ensures CandidatesOk(t)
  {
  }

  lemma ActivateKeeps(s: State, k: WorkerKey, c: Chan)
    requires CoreInv(s)
    ensures CoreInv(HandleActivate(s, k, c))
  {
    if k !in s.workers || s.workers[k].state != Healthy {
      hide CoreInv;
      TellKeeps(s, c, Err(NOT_HEALTHY));
    } else {
      var t := Promote(Displace(s, k.scannerId), k);
      hide WorkersOk, QueuesOk, RequestsOk, HistoryOk, RoutesOk, CandidatesOk;
      ActivateRecords(s, k);
      ActivateStates(s, k);
      ActivateRoutes(s, t, k);
      BooksKept(s, t);
      hide Promote, Displace;
      forall j | j in t.workers ensures t.workers[j].inFlight == |Load(t, j)| {
        SameLoad(s, t, j);
      }
      hide CountsOk;
      TellKeeps(t, c, Ok);
    }
  }

  lemma FailCommandKeeps(s: State, k: WorkerKey, reason: string, c: Chan)
    requires CoreInv(s)
    ensures CoreInv(HandleFail(s, k, reason, c))
  {
    hide CoreInv;
    TellKeeps(s, c, Err(NOT_REGISTERED));
    TellKeeps(s, c, Err(CANNOT_FAIL));
    FailWorkerKeeps(s, k, reason);
    TellKeeps(FailWorker(s, k, reason), c, Ok);
  }

  lemma RecordOk(s: State, k: WorkerKey)
    requires WorkersOk(s) && QueuesOk(s) && k in s.workers
    ensures WorkerOk(s.workers[k], s.stopReply.Some?) && QueueOk(s.workers[k], s.capacity, s.nextRequestID)
  {
  }

  /** Emptying a reply slot and noting an ack leave a record good. */
  lemma SlotsCleared(w: Worker, stopping: bool, w': Worker)
    requires WorkerOk(w, stopping)
    requires w' == w.(helloReply := w'.helloReply, reloadReply := w'.reloadReply, reloadTimer := w'.reloadTimer,
                      signaturePath := w'.signaturePath, pendingSignaturePath := w'.pendingSignaturePath,
                      shutdownAck := w'.shutdownAck, terminated := w'.terminated)
    requires w'.helloReply.Some? ==> w'.helloReply == w.helloReply
    requires w'.reloadReply.Some? ==> w'.reloadReply == w.reloadReply && w'.reloadTimer == w.reloadTimer
    requires (w.shutdownAck ==> w'.shutdownAck) && (w.terminated ==> w'.terminated)
    ensures WorkerOk(w', stopping)
  {
  }

  lemma HelloAckKeeps(s: State, k: WorkerKey, m: Message)
    requires CoreInv(s) && k in s.workers
    ensures CoreInv(HandleHelloAck(s, k, m))
  {
    hide FailWorker, HelloOutcome, RoutesOk, CountsOk, RequestsOk, CandidatesOk, HistoryOk, WorkersOk, QueuesOk, WorkerOk, QueueOk;
    FailWorkerKeeps(s, k, UNEXPECTED_MESSAGE);
    var w := s.workers[k];
    if w.helloReply.Some? {
      var w' := w.(helloReply := None);
      RecordOk(s, k);
      SlotsCleared(w, s.stopReply.Some?, w');
      SameQueue(w, w', s.capacity, s.nextRequestID);
      WorkerChange(s, HandleHelloAck(s, k, m), k, w');
    }
  }

  /** While shutdown is under way nothing is tracked, so no worker has anything in flight. */
  lemma StoppingIsIdle(s: State, k: WorkerKey)
    requires CountsOk(s) && RequestsOk(s) && s.stopReply.Some? && k in s.workers
    ensures s.workers[k].inFlight == 0
  {
    assert Load(s, k) == {};
  }

  lemma HealthResultRecord(s: State, k: WorkerKey)
    requires CountsOk(s) && RequestsOk(s) && WorkersOk(s) && k in s.workers && s.workers[k].healthReply.Some?
    requires !s.workers[k].Terminal()
    ensures WorkerOk(s.workers[k].(healthReply := None), s.stopReply.Some?)
    ensures WorkerOk(s.workers[k].(state := Healthy, healthReply := None), s.stopReply.Some?)
    ensures s.workers[k].state != Active && (s.stopReply.None? ==> s.workers[k].state == Starting)
  {
    if s.stopReply.Some? {
      StoppingIsIdle(s, k);
    }
    hide RequestsOk, CountsOk;
  }

  lemma HealthAnsweredKeeps(s: State, k: WorkerKey, state: WorkerState, r: Reply)
    requires CoreInv(s) && k in s.workers && !s.workers[k].Terminal() && s.workers[k].healthReply.Some?
    requires state == s.workers[k].state || state == Healthy
    ensures var w := s.workers[k];
            CoreInv(Tell(SetWorker(s, k, w.(state := state, healthReply := None)), w.healthReply.value, r))
  {
    hide RoutesOk, CountsOk, RequestsOk, CandidatesOk, HistoryOk, WorkersOk, QueuesOk, WorkerOk, QueueOk;
    var w := s.workers[k];
    var w' := w.(state := state, healthReply := None);
    HealthResultRecord(s, k);
    RecordOk(s, k);
    SameQueue(w, w', s.capacity, s.nextRequestID);
    assert WorkerOk(w', s.stopReply.Some?) by {
      if state == w.state {
        assert w' == w.(healthReply := None);
      }
    }
    WorkerChange(s, Tell(SetWorker(s, k, w'), w.healthReply.value, r), k, w');
  }

  lemma HealthResultKeeps(s: State, k: WorkerKey, m: Message)
    requires CoreInv(s) && k in s.workers && !s.workers[k].Terminal()
    ensures CoreInv(HandleHealthResult(s, k, m))
  {
    hide CoreInv;
    var w := s.workers[k];
    if w.healthReply.None? {
      FailWorkerKeeps(s, k, UNEXPECTED_MESSAGE);
    } else if m.status != "ok" {
      HealthAnsweredKeeps(s, k, w.state, Err(UNHEALTHY));
      assert w.(state := w.state, healthReply := None) == w.(healthReply := None);
    } else {
      HealthAnsweredKeeps(s, k, Healthy, Ok);
    }
  }

  lemma ScanResultKeeps(s: State, k: WorkerKey, m: Message)
    requires CoreInv(s) && m.kind == TypeScanResult && ValidVerdict(m.verdict)
    ensures CoreInv(HandleScanResult(s, k, m))
  {
    hide CoreInv;
    if Accepts(s, k, m) {
      SettleKeeps(s, {m.requestId}, {k}, Answer(m));
    }
  }

  lemma ReloadResultKeeps(s: State, k: WorkerKey, m: Message)
    requires CoreInv(s) && k in s.workers
    ensures CoreInv(HandleReloadResult(s, k, m))
  {
    hide RoutesOk, CountsOk, RequestsOk, CandidatesOk, HistoryOk, WorkersOk, QueuesOk, WorkerOk, QueueOk;
    var w := s.workers[k];
    if w.reloadReply.Some? {
      var w' := w.(reloadReply := None, reloadTimer := false, pendingSignaturePath := "",
                   signaturePath := if m.success then w.pendingSignaturePath else w.signaturePath);
      RecordOk(s, k);
      SlotsCleared(w, s.stopReply.Some?, w');
      SameQueue(w, w', s.capacity, s.nextRequestID);
      WorkerChange(s, HandleReloadResult(s, k, m), k, w');
    }
  }

  lemma AckKeeps(s: State, k: WorkerKey)
    requires CoreInv(s) && k in s.workers
    ensures CoreInv(HandleAck(s, k))
  {
    hide FailWorker, RoutesOk, CountsOk, RequestsOk, CandidatesOk, HistoryOk, WorkersOk, QueuesOk, WorkerOk, QueueOk;
    FailWorkerKeeps(s, k, UNEXPECTED_MESSAGE);
    var w := s.workers[k];
    if w.state == Draining {
      var w' := w.(shutdownAck := true, terminated := true);
      RecordOk(s, k);
      SlotsCleared(w, s.stopReply.Some?, w');
      SameQueue(w, w', s.capacity, s.nextRequestID);
      WorkerChange(s, HandleAck(s, k), k, w');
    }
  }

  lemma MessageKeeps(s: State, k: WorkerKey, m: Message)
    requires CoreInv(s) && (m.kind == TypeScanResult ==> ValidVerdict(m.verdict))
    ensures CoreInv(HandleMessage(s, k, m))
  {
    hide CoreInv;
    if k in s.workers && !s.workers[k].Terminal() {
      match m.kind
      case TypeHelloAck => HelloAckKeeps(s, k, m);
      case TypeHealthResult => HealthResultKeeps(s, k, m);
      case TypeScanResult => ScanResultKeeps(s, k, m);
      case TypeReloadResult => ReloadResultKeeps(s, k, m);
      case TypeShutdownAck => AckKeeps(s, k);
      case _ => FailWorkerKeeps(s, k, UNEXPECTED_MESSAGE);
    }
  }

  lemma ReloadRecords(w: Worker, path: string, c: Chan, stopping: bool)
    requires WorkerOk(w, stopping)
    ensures WorkerOk(w.(pendingSignaturePath := path), stopping)
    ensures w.state == Active ==>
              WorkerOk(Push(w.(reloadReply := Some(c), pendingSignaturePath := path, reloadTimer := true), ReloadCommand(path)),
                       stopping)
  {
  }

  lemma RouteIsActive(s: State, scannerId: string)
    requires RoutesOk(s) && scannerId in s.active
    ensures s.active[scannerId] in s.workers && s.workers[s.active[scannerId]].state == Active
    ensures s.active[scannerId].scannerId == scannerId
  {
  }

  lemma Pushed(w: Worker, m: Message)
    ensures Push(w, m).inFlight == w.inFlight && Push(w, m).state == w.state
  {
  }

  lemma ReloadSentKeeps(s: State, k: WorkerKey, path: string, c: Chan)
    requires CoreInv(s) && k in s.workers && s.workers[k].state == Active && HasRoom(s.workers[k], s.capacity)
    ensures var w' := s.workers[k].(reloadReply := Some(c), pendingSignaturePath := path, reloadTimer := true);
            CoreInv(SetWorker(s, k, Push(w', ReloadCommand(path))))
  {
    hide CoreCommand, RoutesOk, CountsOk, RequestsOk, CandidatesOk, HistoryOk, WorkersOk, QueuesOk, WorkerOk, QueueOk, Load;
    var w := s.workers[k];
    var w1 := w.(reloadReply := Some(c), pendingSignaturePath := path, reloadTimer := true);
    RecordOk(s, k);
    ReloadRecords(w, path, c, s.stopReply.Some?);
    QuietPush(w, w1, ReloadCommand(path), s.capacity, s.nextRequestID);
    hide HasRoom, ReloadCommand, Push;
    assert Push(w1, ReloadCommand(path)).inFlight == w.inFlight && Push(w1, ReloadCommand(path)).state == Active by { Pushed(w1, ReloadCommand(path)); }
    WorkerChange(s, SetWorker(s, k, Push(w1, ReloadCommand(path))), k, Push(w1, ReloadCommand(path)));
  }

  lemma ReloadFullKeeps(s: State, k: WorkerKey, c: Chan)
    requires CoreInv(s) && k in s.workers
    ensures CoreInv(FailWorker(Tell(SetWorker(s, k, s.workers[k].(pendingSignaturePath := "")), c, Err(QUEUE_FULL)), k, QUEUE_FULL))
  {
    hide RoutesOk, CountsOk, RequestsOk, CandidatesOk, HistoryOk, WorkersOk, QueuesOk, WorkerOk, QueueOk;
    var w := s.workers[k];
    var w1 := w.(pendingSignaturePath := "");
    RecordOk(s, k);
    ReloadRecords(w, "", c, s.stopReply.Some?);
    SameQueue(w, w1, s.capacity, s.nextRequestID);
    var t := Tell(SetWorker(s, k, w1), c, Err(QUEUE_FULL));
    WorkerChange(s, t, k, w1);
    FailWorkerKeeps(t, k, QUEUE_FULL);
  }

  lemma ReloadKeeps(s: State, scannerId: string, path: string, c: Chan)
    requires CoreInv(s)
    ensures CoreInv(HandleReload(s, scannerId, path, c))
  {
    if scannerId in s.active {
      RouteIsActive(s, scannerId);
      hide CoreInv, RoutesOk;
      var k := s.active[scannerId];
      if s.workers[k].reloadReply.Some? {
        TellKeeps(s, c, Err(RELOAD_IN_PROGRESS));
      } else if HasRoom(s.workers[k], s.capacity) {
        ReloadSentKeeps(s, k, path, c);
      } else {
        ReloadFullKeeps(s, k, c);
      }
    } else {
      hide CoreInv;
      TellKeeps(s, c, Err(NO_ACTIVE_WORKER));
    }
  }

  lemma ReloadTimeoutKeeps(s: State, k: WorkerKey)
    requires CoreInv(s)
    ensures CoreInv(HandleReloadTimeout(s, k))
  {
    hide RoutesOk, CountsOk, RequestsOk, CandidatesOk, HistoryOk, WorkersOk, QueuesOk, WorkerOk, QueueOk;
    if k in s.workers && s.workers[k].reloadReply.Some? {
      var w := s.workers[k];
      var w' := w.(reloadReply := None, pendingSignaturePath := "");
      RecordOk(s, k);
      SlotsCleared(w, s.stopReply.Some?, w');
      SameQueue(w, w', s.capacity, s.nextRequestID);
      WorkerChange(s, HandleReloadTimeout(s, k), k, w');
    }
  }

  lemma ExitRecords(w: Worker, code: int, err: Option<string>, reason: string, stopping: bool)
    requires WorkerOk(w, stopping)
    ensures w.Terminal() ==> WorkerOk(Exited(w, code, err), stopping)
    ensures w.state == Draining && w.shutdownAck ==> WorkerOk(Exited(w, code, err).(state := Retired), stopping)
    ensures WorkerOk(MarkFailed(Exited(w, code, err), reason), stopping)
  {
  }

  lemma RetireKeeps(s: State, k: WorkerKey, code: int, err: Option<string>)
    requires CoreInv(s) && k in s.workers && s.workers[k].state == Draining && s.workers[k].shutdownAck
    ensures CoreInv(SetWorker(s, k, Exited(s.workers[k], code, err).(state := Retired)))
  {
    hide RoutesOk, CountsOk, RequestsOk, CandidatesOk, HistoryOk, WorkersOk, QueuesOk, WorkerOk, QueueOk;
    var x := Exited(s.workers[k], code, err).(state := Retired);
    RecordOk(s, k);
    ExitRecords(s.workers[k], code, err, EXITED, s.stopReply.Some?);
    SameQueue(s.workers[k], x, s.capacity, s.nextRequestID);
    WorkerChange(s, SetWorker(s, k, x), k, x);
  }

  lemma TerminalExitKeeps(s: State, k: WorkerKey, code: int, err: Option<string>)
    requires CoreInv(s) && k in s.workers && s.workers[k].Terminal()
    ensures CoreInv(SetWorker(s, k, Exited(s.workers[k], code, err)))
  {
    hide RoutesOk, CountsOk, RequestsOk, CandidatesOk, HistoryOk, WorkersOk, QueuesOk, WorkerOk, QueueOk;
    var x := Exited(s.workers[k], code, err);
    RecordOk(s, k);
    ExitRecords(s.workers[k], code, err, EXITED, s.stopReply.Some?);
    SameQueue(s.workers[k], x, s.capacity, s.nextRequestID);
    WorkerChange(s, SetWorker(s, k, x), k, x);
  }

  /** Marking a worker failed after noting its exit differs from marking it failed in its exit fields only. */
  lemma MarkedExitKeeps(s: State, k: WorkerKey, code: int, err: Option<string>)
    requires CoreInv(s) && k in s.workers
    ensures CoreInv(Mark(SetWorker(s, k, Exited(s.workers[k], code, err)), {k}, EXITED))
  {
    hide RoutesOk, CountsOk, RequestsOk, CandidatesOk, HistoryOk, WorkersOk, QueuesOk, WorkerOk, QueueOk;
    var x := Exited(s.workers[k], code, err);
    RecordOk(s, k);
    ExitRecords(s.workers[k], code, err, EXITED, s.stopReply.Some?);
    SameQueue(s.workers[k], MarkFailed(x, EXITED), s.capacity, s.nextRequestID);
    MarkKeeps(s, {k}, EXITED);
    MarkedExit(s, k, x, EXITED);
    hide Mark, SameBooks, SetWorker;
    WorkerChange(Mark(s, {k}, EXITED), Mark(SetWorker(s, k, x), {k}, EXITED), k, MarkFailed(x, EXITED));
  }

  lemma CrashKeeps(s: State, k: WorkerKey, code: int, err: Option<string>)
    requires CoreInv(s) && k in s.workers
    ensures CoreInv(FailAll(SetWorker(s, k, Exited(s.workers[k], code, err)), {k}, EXITED))
  {
    hide CoreInv, Mark, Settle;
    var marked := Mark(SetWorker(s, k, Exited(s.workers[k], code, err)), {k}, EXITED);
    MarkedExitKeeps(s, k, code, err);
    SettleKeeps(marked, marked.requests.Keys, {k}, Unavailable(EXITED));
  }

  lemma ExitKeeps(s: State, k: WorkerKey, code: int, err: Option<string>)
    requires CoreInv(s)
    ensures CoreInv(HandleExit(s, k, code, err))
  {
    hide CoreInv;
    if k in s.workers {
      var w := s.workers[k];
      if w.state == Draining && w.shutdownAck {
        RetireKeeps(s, k, code, err);
      } else if w.Terminal() {
        TerminalExitKeeps(s, k, code, err);
      } else {
        CrashKeeps(s, k, code, err);
        hide FailAll;
      }
    }
  }

  lemma SameFailureSends(s: State, k: WorkerKey, x: Worker, reason: string)
    requires k in s.workers && HeldBy(x) == HeldBy(s.workers[k])
    ensures FailureSends(SetWorker(s, k, x).workers, {k}, reason) == FailureSends(s.workers, {k}, reason)
  {
    hide HeldBy;
  }

  lemma MarkedExit(s: State, k: WorkerKey, x: Worker, reason: string)
    requires k in s.workers && HeldBy(x) == HeldBy(s.workers[k])
    ensures var m := Mark(s, {k}, reason); var t := Mark(SetWorker(s, k, x), {k}, reason);
            k in m.workers && m.stopReply == s.stopReply && m.capacity == s.capacity && m.nextRequestID == s.nextRequestID
            && SameBooks(m, t) && t.active == m.active && t.workers == m.workers[k := MarkFailed(x, reason)]
            && m.workers[k] == MarkFailed(s.workers[k], reason) && t.requests == s.requests
  {
    hide HeldBy, MarkFailed, Unroute, FailureSends;
    var m := Mark(s, {k}, reason);
    var t := Mark(SetWorker(s, k, x), {k}, reason);
    assert forall j | j in s.workers :: t.workers[j] == if j == k then MarkFailed(x, reason) else s.workers[j];
    assert t.sends == m.sends by { SameFailureSends(s, k, x, reason); }
  }

  lemma TimeoutIsGood(s: State, id: nat)
    requires id in s.requests
    ensures GoodFill(s, {id}, s.requests[id].results.Keys, Timeout, {id})
  {
    FillPending(s.requests[id].results, s.requests[id].results.Keys, Entry(Timeout, id));
    hide FillResults, AllAnswered;
  }

  lemma ScanTimeoutKeeps(s: State, id: nat)
    requires CoreInv(s)
    ensures CoreInv(HandleScanTimeout(s, id))
  {
    hide CoreInv, GoodFill;
    if id in s.requests {
      TimeoutIsGood(s, id);
      FillFinishKeeps(s, {id}, s.requests[id].results.Keys, Timeout, {id});
    }
  }

  lemma CloseKeeps(s: State, phase: Phase)
    requires CoreInv(s)
    ensures CoreInv(Close(s, phase))
  {
    var t := Close(s, phase);
    hide RoutesOk, CountsOk, RequestsOk, CandidatesOk, HistoryOk, WorkersOk, QueuesOk, WorkerOk, QueueOk;
    assert WorkersOk(t) && QueuesOk(t) by { CloseRecords(s, phase); }
    WorkersChange(s, t);
  }

  lemma CloseRecords(s: State, phase: Phase)
    requires WorkersOk(s) && QueuesOk(s)
    ensures WorkersOk(Close(s, phase)) && QueuesOk(Close(s, phase))
  {
    var t := Close(s, phase);
    forall k | k in t.workers
      ensures WorkerOk(t.workers[k], s.stopReply.Some?) && QueueOk(t.workers[k], s.capacity, s.nextRequestID)
    {
      hide QueueOk;
      RecordOk(s, k);
      SameQueue(s.workers[k], t.workers[k], s.capacity, s.nextRequestID);
    }
  }

  lemma DequeueRecord(w: Worker, capacity: nat, last: nat, stopping: bool)
    requires WorkerOk(w, stopping) && QueueOk(w, capacity, last) && w.queue != []
    ensures var w' := w.(queue := w.queue[1..], written := w.written + [w.queue[0]]);
            WorkerOk(w', stopping) && QueueOk(w', capacity, last)
  {
    var w' := w.(queue := w.queue[1..], written := w.written + [w.queue[0]]);
    assert w'.Log() == w.Log();
    assert WorkerOk(w', stopping) by { hide QueueOk; }
    hide LogOk, HasShutdown;
  }

  lemma DequeueKeeps(s: State, k: WorkerKey)
    requires CoreInv(s)
    ensures CoreInv(HandleDequeue(s, k))
  {
    hide RoutesOk, CountsOk, RequestsOk, CandidatesOk, HistoryOk, WorkersOk, QueuesOk, WorkerOk, QueueOk;
    if k in s.workers && s.workers[k].queue != [] {
      RecordOk(s, k);
      var w := s.workers[k];
      var w' := w.(queue := w.queue[1..], written := w.written + [w.queue[0]]);
      DequeueRecord(w, s.capacity, s.nextRequestID, s.stopReply.Some?);
      var t := SetWorker(s, k, w');
      assert t == HandleDequeue(s, k);
      hide HandleDequeue;
      WorkerChange(s, t, k, w');
    }
  }
}
