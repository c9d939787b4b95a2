/**
 The Runtime event loop over mutable worker and request objects (pkg/coordinator/runtime.go).

 Each handler is proved to take the loop to the state that RuntimeSpec gives for its event, whatever
 order it walks its maps in; sending a reply requires that the one-slot channel is still empty.
 */
module RuntimeLoop {
  import opened Wrappers
  import opened Messages
  import opened Aggregator
  import opened RuntimeSpec
  import opened RuntimeInvariants
  import opened RuntimeSafety
  import opened RuntimeReplies
  import opened RuntimeOrder

  /** One worker object: its fields are the fields of the record it holds. */
  class RuntimeWorker {
    const key: WorkerKey
    var rec: Worker

    constructor (key: WorkerKey, path: string)
      ensures this.key == key && rec == NewWorker(path)
    {
      this.key := key;
      rec := NewWorker(path);
    }

    /** A send that never blocks: it fails when the channel is full. */
    method Queue(m: Message, capacity: nat) returns (ok: bool)
      modifies this
      ensures ok == HasRoom(old(rec), capacity)
      ensures rec == if ok then Push(old(rec), m) else old(rec)
    {
      ok := |rec.queue| < capacity;
      if ok {
        rec := rec.(queue := rec.queue + [m]);
      }
    }

    method RequestShutdown(capacity: nat)
      modifies this
      ensures rec == RuntimeSpec.RequestShutdown(old(rec), capacity)
    {
      if rec.shutdownSent {
        return;
      }
      rec := rec.(shutdownSent := true);
      var ok := Queue(Command(TypeShutdown), capacity);
      if !ok {
        rec := rec.(terminated := true);
      }
    }

    /** One request that counted this worker is completed. */
    method ReleaseOne(capacity: nat)
      modifies this
      ensures rec == Release(old(rec), 1, capacity)
    {
      if rec.inFlight > 0 {
        rec := rec.(inFlight := rec.inFlight - 1);
        if rec.state == Draining && rec.inFlight == 0 {
          RequestShutdown(capacity);
        }
      }
    }

    method Assign()
      modifies this
      ensures rec == old(rec).(inFlight := old(rec.inFlight) + 1)
    {
      rec := rec.(inFlight := rec.inFlight + 1);
    }

    method Drain(capacity: nat)
      modifies this
      ensures rec == DrainedOne(old(rec), capacity)
    {
      if rec.state != Failed && rec.state != Retired {
        rec := rec.(state := Draining);
        RequestShutdown(capacity);
      }
    }

    method Kill()
      modifies this
      ensures rec == if old(rec).state == Retired then old(rec) else old(rec).(terminated := true)
    {
      if rec.state != Retired {
        rec := rec.(terminated := true);
      }
    }

    method EndHealth(healthy: bool)
      modifies this
      ensures rec == if healthy then old(rec).(state := Healthy, healthReply := None) else old(rec).(healthReply := None)
    {
      if healthy {
        rec := rec.(state := Healthy);
      }
      rec := rec.(healthReply := None);
    }

    method NoteExit(code: int, err: Option<string>)
      modifies this
      ensures rec == Exited(old(rec), code, err)
    {
      rec := rec.(exitCode := code, exited := true);
      if err.Some? {
        rec := rec.(exitError := err.value);
      }
    }

    /** HELLO is queued and its reply kept, or neither. */
    method StartHello(c: Chan, capacity: nat) returns (ok: bool)
      requires rec.helloReply.None?
      modifies this
      ensures ok == HasRoom(old(rec), capacity)
      ensures rec == if ok then Push(old(rec).(helloReply := Some(c)), Command(TypeHello)) else old(rec)
    {
      rec := rec.(helloReply := Some(c));
      ok := Queue(Command(TypeHello), capacity);
      if !ok {
        rec := rec.(helloReply := None);
      }
    }

    /** HEALTH_CHECK is queued and its reply kept, or neither. */
    method StartHealth(c: Chan, capacity: nat) returns (ok: bool)
      requires rec.healthReply.None?
      modifies this
      ensures ok == HasRoom(old(rec), capacity)
      ensures rec == if ok then Push(old(rec).(healthReply := Some(c)), Command(TypeHealthCheck)) else old(rec)
    {
      rec := rec.(healthReply := Some(c));
      ok := Queue(Command(TypeHealthCheck), capacity);
      if !ok {
        rec := rec.(healthReply := None);
      }
    }

    /** RELOAD is queued and its reply kept, or neither. */
    method StartReload(path: string, c: Chan, capacity: nat) returns (ok: bool)
      requires rec.reloadReply.None?
      modifies this
      ensures ok == HasRoom(old(rec), capacity)
      ensures rec == if ok then
                Push(old(rec).(reloadReply := Some(c), pendingSignaturePath := path, reloadTimer := true), ReloadCommand(path))
              else old(rec).(pendingSignaturePath := "")
    {
      rec := rec.(reloadReply := Some(c), pendingSignaturePath := path);
      ok := Queue(ReloadCommand(path), capacity);
      if ok {
        rec := rec.(reloadTimer := true);
      } else {
        rec := rec.(reloadReply := None, pendingSignaturePath := "");
      }
    }
  }

  /** One request object. */
  class RuntimeRequest {
    const id: nat
    var rec: Request

    constructor (id: nat, path: string, reply: Chan)
      ensures this.id == id && rec == Request(path, map[], reply, false)
    {
      this.id := id;
      rec := Request(path, map[], reply, false);
    }
  }

  class Loop {
    const capacity: nat
    var workers: map<WorkerKey, RuntimeWorker>
    var active: map<string, WorkerKey>
    var requests: map<nat, RuntimeRequest>
    var nextRequestID: nat
    var stopReply: Option<Chan>
    var sends: set<Send>
    ghost var completed: map<nat, Request>
    var phase: Phase

    /** Distinct keys stand for distinct objects. */
    ghost predicate Valid()
      reads `workers, `requests, workers.Values, requests.Values
    {
      && (forall k | k in workers :: workers[k].key == k)
      && (forall id | id in requests :: requests[id].id == id)
    }

    ghost function Workers(): map<WorkerKey, Worker>
      reads `workers, workers.Values
    {
      map k | k in workers :: workers[k].rec
    }

    ghost function Requests(): map<nat, Request>
      reads `requests, requests.Values
    {
      map id | id in requests :: requests[id].rec
    }

    ghost function View(): State
      reads this, workers.Values, requests.Values
    {
      State(capacity, Workers(), active, Requests(), nextRequestID, stopReply, sends, completed, phase)
    }

    lemma WorkerAt(key: WorkerKey)
      requires key in workers
      ensures key in Workers() && Workers()[key] == workers[key].rec
    {
    }

    lemma SameKeys()
      ensures Workers().Keys == workers.Keys && Requests().Keys == requests.Keys
    {
    }

    lemma Shown()
      ensures View().workers.Keys == workers.Keys && View().requests.Keys == requests.Keys && View().sends == sends
    {
    }

    lemma RequestShown(id: nat)
      requires id in requests && Valid()
      ensures requests[id].id == id && id in View().requests && View().requests[id] == requests[id].rec && View().sends == sends
    {
    }

    lemma RequestAt(id: nat)
      requires id in requests
      ensures id in Requests() && Requests()[id] == requests[id].rec
    {
    }

    /** Only the record of `worker` was changed. */
    twostate lemma OneRecord(worker: RuntimeWorker)
      requires old(Valid()) && workers == old(workers) && worker.key in workers && workers[worker.key] == worker
      requires forall k | k in workers && workers[k] != worker :: workers[k].rec == old(workers[k].rec)
      ensures Workers() == old(Workers())[worker.key := worker.rec] && old(Workers())[worker.key] == old(worker.rec)
      ensures worker.key in old(Workers())
    {
    }

    /** Only the record of `request` was changed. */
    twostate lemma OneRequest(request: RuntimeRequest)
      requires old(Valid()) && requests == old(requests) && request.id in requests && requests[request.id] == request
      requires forall id | id in requests && requests[id] != request :: requests[id].rec == old(requests[id].rec)
      requires workers == old(workers) && forall k | k in workers :: workers[k].rec == old(workers[k].rec)
      ensures Requests() == old(Requests())[request.id := request.rec] && Workers() == old(Workers())
    {
    }

    constructor (capacity: nat)
      ensures Valid() && View() == Init(capacity) && fresh(workers.Values) && fresh(requests.Values)
    {
      this.capacity := capacity;
      workers, active, requests := map[], map[], map[];
      nextRequestID, stopReply, sends, completed, phase := 0, None, {}, map[], Running;
    }

    /** Sending on a one-slot channel blocks unless the channel is empty. */
    method Reply(c: Chan, r: RuntimeSpec.Reply)
      requires !Sent(sends, c)
      modifies this`sends
      ensures sends == old(sends) + {Send(c, r)}
    {
      sends := sends + {Send(c, r)};
    }

    // ----- completing requests

    /** The loop of completeRequest: collect the verdicts, release the workers. */
    method ReleaseAll(results: map<WorkerKey, Message>) returns (verdicts: seq<Verdict>)
      requires Valid()
      modifies workers.Values
      ensures Elements(verdicts) == Verdicts(results)
      ensures Workers() == Released(old(Workers()), results.Keys, capacity)
    {
      hide Release;
      ghost var was := Workers();
      verdicts := [];
      var rest := results.Keys;
      ReleasedNone(was, capacity);
      while rest != {}
        invariant rest <= results.Keys
        invariant Elements(verdicts) == set k | k in results && k !in rest :: results[k].verdict
        invariant Workers() == Released(was, results.Keys - rest, capacity)
      {
        var key :| key in rest;
        ReleasedStep(was, results.Keys - rest, key, capacity);
        rest := rest - {key};
        ElementsMore(verdicts, results[key].verdict);
        verdicts := verdicts + [results[key].verdict];
        if key in workers {
          workers[key].ReleaseOne(capacity);
        }
        hide Released;
        assert results.Keys - rest == results.Keys - (rest + {key}) + {key};
      }
    }

    /** completeRequest up to the reply. */
    method CloseRequest(request: RuntimeRequest) returns (verdict: Result<Overall>)
      requires Valid() && request.id in requests && requests[request.id] == request
      modifies workers.Values, request
      ensures request.rec == old(request.rec).(timer := false)
      ensures verdict == Policy(Verdicts(request.rec.results))
      ensures Workers() == Released(old(Workers()), request.rec.results.Keys, capacity)
      ensures Requests() == old(Requests())[request.id := request.rec]
    {
      hide Released, Policy, Verdicts, Elements;
      request.rec := request.rec.(timer := false);
      var verdicts := ReleaseAll(request.rec.results);
      verdict := Aggregate(verdicts);
    }

    method CompleteRequest(request: RuntimeRequest)
      requires Valid() && request.id in requests && requests[request.id] == request
      requires !Sent(sends, request.rec.reply)
      modifies this, workers.Values, request
      ensures Valid() && workers == old(workers) && requests == old(requests) - {request.id}
      ensures View() == Finish(old(View()), {request.id})
    {
      hide Finish, Released, Policy, Verdicts, Sent, Workers, Requests;
      ghost var was := View();
      RequestAt(request.id);
      var verdict := CloseRequest(request);
      Reply(request.rec.reply, ScanReply(request.id, verdict, request.rec.results));
      completed := completed[request.id := request.rec];
      Forget(request.id);
      UpdatedAway(was.requests, request.id, request.rec);
      FinishOne(was, request.id);
    }

    method Forget(id: nat)
      requires Valid()
      modifies this`requests
      ensures Valid() && requests == old(requests) - {id} && Requests() == old(Requests()) - {id} && Workers() == old(Workers())
    {
      requests := requests - {id};
    }

    method CompleteIfReady(request: RuntimeRequest)
      requires Valid() && request.id in requests && requests[request.id] == request
      requires !Sent(sends, request.rec.reply)
      modifies this, workers.Values, request
      ensures Valid() && workers == old(workers)
      ensures requests == if AllAnswered(old(request.rec.results)) then old(requests) - {request.id} else old(requests)
      ensures View() == if AllAnswered(old(request.rec.results)) then Finish(old(View()), {request.id}) else old(View())
    {
      hide Finish;
      var rest := request.rec.results.Keys;
      while rest != {}
        modifies {}
        invariant rest <= request.rec.results.Keys
        invariant forall k | k in request.rec.results && k !in rest :: !Pending(request.rec.results[k])
      {
        var key :| key in rest;
        if Pending(request.rec.results[key]) {
          return;
        }
        rest := rest - {key};
      }
      CompleteRequest(request);
    }

    // ----- failing a worker

    /** The three reply slots of a worker are answered and emptied. */
    method AnswerSlots(worker: RuntimeWorker, reason: string)
      requires SlotsFree(sends, worker.rec)
      modifies this`sends, worker
      ensures worker.rec == old(worker.rec).(helloReply := None, healthReply := None, reloadReply := None)
      ensures sends == old(sends) + SlotSends(old(worker.rec), reason)
    {
      if worker.rec.helloReply.Some? {
        Reply(worker.rec.helloReply.value, Err(reason));
        worker.rec := worker.rec.(helloReply := None);
      }
      if worker.rec.healthReply.Some? {
        Reply(worker.rec.healthReply.value, Err(reason));
        worker.rec := worker.rec.(healthReply := None);
      }
      if worker.rec.reloadReply.Some? {
        Reply(worker.rec.reloadReply.value, Err(reason));
        worker.rec := worker.rec.(reloadReply := None);
      }
    }

    method MarkWorkerFailed(worker: RuntimeWorker, reason: string)
      requires Valid() && worker.key in workers && workers[worker.key] == worker && SlotsFree(sends, worker.rec)
      modifies this`active, this`sends, worker
      ensures View() == Mark(old(View()), {worker.key}, reason)
    {
      hide SlotSends, SlotsFree, Mark;
      ghost var was := View();
      FailRecord(worker, reason);
      assert Workers() == was.workers[worker.key := worker.rec];
      DropRoute(worker.key);
      MarkOne(was, worker.key, reason);
      hide MarkFailed;
    }

    method FailRecord(worker: RuntimeWorker, reason: string)
      requires SlotsFree(sends, worker.rec)
      modifies this`sends, worker
      ensures worker.rec == MarkFailed(old(worker.rec), reason)
      ensures sends == old(sends) + SlotSends(old(worker.rec), reason)
    {
      hide SlotSends, SlotsFree;
      AnswerSlots(worker, reason);
      worker.rec := worker.rec.(state := Failed, failureReason := reason, terminated := true);
    }

    method DropRoute(key: WorkerKey)
      modifies this`active
      ensures active == if key.scannerId in old(active) && old(active)[key.scannerId] == key
                        then old(active) - {key.scannerId} else old(active)
    {
      if key.scannerId in active && active[key.scannerId] == key {
        active := active - {key.scannerId};
      }
    }

    /** The body of the loop over tracked requests in handleWorkerFailure. */
    method FailEntry(request: RuntimeRequest, key: WorkerKey, reason: string)
      requires Valid() && request.id in requests && requests[request.id] == request
      requires !Sent(sends, request.rec.reply)
      modifies this, workers.Values, request
      ensures Valid() && workers == old(workers)
      ensures requests == old(requests) || requests == old(requests) - {request.id}
      ensures View() == Settle(old(View()), {request.id}, {key}, Unavailable(reason))
    {
      hide Settle, Finish, AllAnswered, Sent, Workers, Requests;
      ghost var was := View();
      var id := request.id;
      RequestAt(id);
      SettleOne(was, id, key, Unavailable(reason));
      if key in request.rec.results && Pending(request.rec.results[key]) {
        request.rec := request.rec.(results :=
          request.rec.results[key := Substitute(id, VerdictUnavailable, reason)]);
        OneRequest(request);
        CompleteIfReady(request);
      }
    }

    /** The loop over tracked requests in handleWorkerFailure. */
    method FailEntries(key: WorkerKey, reason: string)
      requires Valid() && RepliesOk(View())
      modifies this, workers.Values, requests.Values
      ensures Valid() && workers == old(workers) && requests.Keys <= old(requests).Keys
      ensures forall id | id in requests :: requests[id] == old(requests)[id]
      ensures View() == Settle(old(View()), old(requests).Keys, {key}, Unavailable(reason))
    {
      hide RepliesOk, Settle, View, Valid;
      ghost var marked := View();
      ghost var all := requests.Keys;
      var rest := requests.Keys;
      Shown();
      SettleNothing(marked, {key}, Unavailable(reason));
      assert all - rest == {};
      while rest != {}
        invariant Valid() && workers == old(workers) && rest <= requests.Keys <= all == old(requests).Keys
        invariant forall id | id in requests :: requests[id] == old(requests)[id]
        invariant View() == Settle(marked, all - rest, {key}, Unavailable(reason))
        decreases |rest|
      {
        var id :| id in rest;
        SettleStep(marked, all - rest, {key}, Unavailable(reason), id);
        SettleReplies(marked, all - rest, {key}, Unavailable(reason), id);
        RequestShown(id);
        assert all - rest + {id} == all - (rest - {id});
        rest := rest - {id};
        FailEntry(requests[id], key, reason);
      }
      assert all - rest == all == marked.requests.Keys;
    }

    method HandleWorkerFailure(key: WorkerKey, reason: string)
      requires Valid() && RepliesOk(View())
      modifies this, workers.Values, requests.Values
      ensures Valid() && workers == old(workers) && requests.Keys <= old(requests).Keys
      ensures forall id | id in requests :: requests[id] == old(requests)[id]
      ensures View() == FailWorker(old(View()), key, reason)
    {
      hide RepliesOk, Mark, Settle;
      if key !in workers || workers[key].rec.Terminal() {
        return;
      }
      MarkAnswers(View(), {key}, reason);
      AnswersKeep(View(), Mark(View(), {key}, reason));
      SlotsApart(View(), key);
      MarkWorkerFailed(workers[key], reason);
      assert View().requests.Keys == requests.Keys;
      FailEntries(key, reason);
    }

    // ----- commands and events

    method Answer(c: Chan, r: RuntimeSpec.Reply)
      requires !Sent(sends, c)
      modifies this`sends
      ensures View() == Tell(old(View()), c, r)
    {
      Reply(c, r);
    }

    /** A reply on a fresh channel. */
    method Refuse(c: Chan, r: RuntimeSpec.Reply)
      requires Valid() && Inv(View()) && Fresh(View(), c)
      modifies this`sends
      ensures View() == Tell(old(View()), c, r) && Inv(View())
    {
      TellFresh(View(), c, r);
      TellKeeps(View(), c, r);
      hide CoreInv, RepliesOk;
      Answer(c, r);
    }

    method FindCandidate(scannerId: string) returns (found: bool)
      requires Valid()
      ensures found == HasCandidate(View(), scannerId)
    {
      var rest := workers.Keys;
      while rest != {}
        invariant rest <= workers.Keys
        invariant forall k | k in workers && k !in rest :: !(k.scannerId == scannerId && workers[k].rec.Candidate())
      {
        var key :| key in rest;
        if key.scannerId == scannerId && workers[key].rec.Candidate() {
          assert View().workers[key].Candidate();
          return true;
        }
        rest := rest - {key};
      }
      return false;
    }

    /** A record of its own for a key that has none. */
    method AddWorker(key: WorkerKey, path: string)
      requires Valid() && key !in workers
      modifies this`workers
      ensures Valid() && workers.Keys == old(workers).Keys + {key} && fresh(workers.Values - old(workers.Values))
      ensures Workers() == old(Workers())[key := NewWorker(path)] && Requests() == old(Requests())
    {
      var worker := new RuntimeWorker(key, path);
      workers := workers[key := worker];
    }

    method RegisterWorker(key: WorkerKey, path: string, c: Chan)
      requires Valid() && Inv(View()) && Fresh(View(), c)
      modifies this
      ensures Valid() && View() == HandleRegister(old(View()), key, path, c)
      ensures fresh(workers.Values - old(workers.Values)) && requests == old(requests)
    {
      hide HasCandidate, Inv, Fresh;
      if key in workers {
        Refuse(c, Err(ALREADY_REGISTERED));
        return;
      }
      var found := FindCandidate(key.scannerId);
      if found {
        Refuse(c, Err(HAS_CANDIDATE));
        return;
      }
      FreshUnsent(View(), c);
      AddWorker(key, path);
      Answer(c, Ok);
    }

    method BeginHello(key: WorkerKey, c: Chan)
      requires Valid() && Inv(View()) && Fresh(View(), c)
      modifies this, workers.Values, requests.Values
      ensures Kept(workers, requests, old(workers), old(requests)) && Valid()
      ensures View() == HandleHello(old(View()), key, c)
    {
      hide Inv, Fresh, FailWorker;
      if key !in workers || workers[key].rec.state != Starting {
        Refuse(c, Err(NOT_STARTING));
        return;
      }
      var worker := workers[key];
      if worker.rec.helloReply.Some? {
        Refuse(c, Err(ALREADY_PENDING));
        return;
      }
      ghost var was := View();
      var ok := worker.StartHello(c, capacity);
      assert Workers() == was.workers[key := worker.rec];
      if !ok {
        assert Workers() == was.workers;
        Refuse(c, Err(QUEUE_FULL));
        FailLive(key, QUEUE_FULL);
      }
    }

    method BeginHealth(key: WorkerKey, c: Chan)
      requires Valid() && Inv(View()) && Fresh(View(), c)
      modifies this, workers.Values, requests.Values
      ensures Kept(workers, requests, old(workers), old(requests)) && Valid()
      ensures View() == HandleHealth(old(View()), key, c)
    {
      hide Inv, Fresh, FailWorker;
      if key !in workers || workers[key].rec.state != Starting {
        Refuse(c, Err(NOT_STARTING));
        return;
      }
      var worker := workers[key];
      if worker.rec.healthReply.Some? {
        Refuse(c, Err(ALREADY_PENDING));
        return;
      }
      ghost var was := View();
      var ok := worker.StartHealth(c, capacity);
      assert Workers() == was.workers[key := worker.rec];
      if !ok {
        assert Workers() == was.workers;
        Refuse(c, Err(QUEUE_FULL));
        FailLive(key, QUEUE_FULL);
      }
    }

    /** handleWorkerFailure, where the whole invariant holds. */
    method FailLive(key: WorkerKey, reason: string)
      requires Valid() && Inv(View())
      modifies this, workers.Values, requests.Values
      ensures Kept(workers, requests, old(workers), old(requests)) && Valid()
      ensures View() == FailWorker(old(View()), key, reason)
    {
      hide CoreInv, RepliesOk, FailWorker;
      HandleWorkerFailure(key, reason);
    }

    /** activate, first half: the previous worker of the slot starts to drain. */
    method DisplacePrevious(scannerId: string)
      requires Valid() && Inv(View())
      modifies workers.Values
      ensures View() == Displace(old(View()), scannerId)
    {
      hide Inv, Workers, Requests;
      SameKeys();
      if scannerId in active {
        RouteIn(View(), scannerId);
        var previous := workers[active[scannerId]];
        previous.rec := previous.rec.(state := Draining);
        if previous.rec.inFlight == 0 {
          previous.RequestShutdown(capacity);
        }
        OneRecord(previous);
      }
    }

    method ActivateWorker(key: WorkerKey, c: Chan)
      requires Valid() && Inv(View()) && Fresh(View(), c)
      modifies this, workers.Values
      ensures Valid() && workers == old(workers) && requests == old(requests)
      ensures View() == HandleActivate(old(View()), key, c)
    {
      hide Displace, Promote, Inv, Fresh;
      if key !in workers || workers[key].rec.state != Healthy {
        Refuse(c, Err(NOT_HEALTHY));
        return;
      }
      FreshUnsent(View(), c);
      DisplacePrevious(key.scannerId);
      PromoteWorker(key);
      assert View().sends == old(View()).sends by { PromotedSends(old(View()), key); }
      Answer(c, Ok);
    }

    /** activate, second half: the worker takes the route. */
    method PromoteWorker(key: WorkerKey)
      requires Valid() && key in workers
      modifies this`active, workers.Values
      ensures View() == Promote(old(View()), key)
    {
      ghost var was := View();
      var worker := workers[key];
      worker.rec := worker.rec.(state := Active);
      active := active[key.scannerId := key];
      assert Workers() == was.workers[key := was.workers[key].(state := Active)];
    }

    method FailWorkerCommand(key: WorkerKey, reason: string, c: Chan)
      requires Valid() && Inv(View()) && Fresh(View(), c)
      modifies this, workers.Values, requests.Values
      ensures Kept(workers, requests, old(workers), old(requests)) && Valid()
      ensures View() == HandleFail(old(View()), key, reason, c)
    {
      hide FailWorker, Fresh, Inv;
      if key !in workers {
        Refuse(c, Err(NOT_REGISTERED));
        return;
      }
      if !workers[key].rec.Candidate() {
        Refuse(c, Err(CANNOT_FAIL));
        return;
      }
      FailedUnsent(View(), key, reason, c);
      FailLive(key, reason);
      Answer(c, Ok);
    }

    method HandleHelloAck(key: WorkerKey, m: Message)
      requires Valid() && Inv(View()) && key in workers
      modifies this, workers.Values, requests.Values
      ensures Kept(workers, requests, old(workers), old(requests)) && Valid()
      ensures View() == RuntimeSpec.HandleHelloAck(old(View()), key, m)
    {
      hide FailWorker, Inv, Workers, Requests;
      var worker := workers[key];
      WorkerAt(key);
      if worker.rec.helloReply.None? {
        FailLive(key, UNEXPECTED_MESSAGE);
        return;
      }
      SlotsFreeIn(View(), key);
      var err := m.scannerId != key.scannerId || m.workerVersion != key.version;
      Reply(worker.rec.helloReply.value, if err then Err(IDENTITY_MISMATCH) else Ok);
      worker.rec := worker.rec.(helloReply := None);
      OneRecord(worker);
    }

    method HandleHealthResult(key: WorkerKey, m: Message)
      requires Valid() && Inv(View()) && key in workers
      modifies this, workers.Values, requests.Values
      ensures Kept(workers, requests, old(workers), old(requests)) && Valid()
      ensures View() == RuntimeSpec.HandleHealthResult(old(View()), key, m)
    {
      hide FailWorker, Inv, Workers, Requests;
      var worker := workers[key];
      WorkerAt(key);
      if worker.rec.healthReply.None? {
        FailLive(key, UNEXPECTED_MESSAGE);
        return;
      }
      SlotsFreeIn(View(), key);
      var healthy := m.status == "ok";
      Reply(worker.rec.healthReply.value, if healthy then Ok else Err(UNHEALTHY));
      worker.EndHealth(healthy);
      OneRecord(worker);
    }

    method RecordScanResult(key: WorkerKey, m: Message)
      requires Valid() && Inv(View()) && m.kind == TypeScanResult
      modifies this, workers.Values, requests.Values
      ensures Kept(workers, requests, old(workers), old(requests)) && Valid()
      ensures View() == HandleScanResult(old(View()), key, m)
    {
      hide Settle, AllAnswered, Finish, Inv, Sent;
      if m.requestId !in requests {
        return;
      }
      var request := requests[m.requestId];
      if key !in request.rec.results || request.rec.results[key].kind != NoType {
        return;
      }
      assert Accepts(View(), key, m);
      RequestUnsent(View(), m.requestId);
      ghost var was := View();
      SettleOne(was, m.requestId, key, RuntimeSpec.Cause.Answer(m));
      request.rec := request.rec.(results := request.rec.results[key := m]);
      assert Requests() == was.requests[m.requestId := request.rec];
      CompleteIfReady(request);
    }

    method RecordReloadResult(key: WorkerKey, m: Message)
      requires Valid() && Inv(View()) && key in workers
      modifies this`sends, workers.Values
      ensures Valid() && View() == HandleReloadResult(old(View()), key, m)
    {
      hide Inv, Workers, Requests;
      var worker := workers[key];
      WorkerAt(key);
      if worker.rec.reloadReply.None? {
        return;
      }
      SlotsFreeIn(View(), key);
      if m.success {
        worker.rec := worker.rec.(signaturePath := worker.rec.pendingSignaturePath);
      }
      worker.rec := worker.rec.(reloadTimer := false, pendingSignaturePath := "");
      Reply(worker.rec.reloadReply.value, ReloadReply(key, m.signatureCount, if m.success then None else Some(m.error)));
      worker.rec := worker.rec.(reloadReply := None);
      OneRecord(worker);
    }

    method RecordAck(key: WorkerKey)
      requires Valid() && Inv(View()) && key in workers
      modifies this, workers.Values, requests.Values
      ensures Kept(workers, requests, old(workers), old(requests)) && Valid()
      ensures View() == HandleAck(old(View()), key)
    {
      hide FailWorker, Inv;
      var worker := workers[key];
      if worker.rec.state != Draining {
        FailLive(key, UNEXPECTED_MESSAGE);
        return;
      }
      ghost var was := View();
      worker.rec := worker.rec.(shutdownAck := true, terminated := true);
      assert Workers() == was.workers[key := worker.rec];
    }

    method HandleWorkerMessage(key: WorkerKey, m: Message)
      requires Valid() && Inv(View())
      modifies this, workers.Values, requests.Values
      ensures Kept(workers, requests, old(workers), old(requests)) && Valid()
      ensures View() == HandleMessage(old(View()), key, m)
    {
      hide FailWorker, Inv, RuntimeSpec.HandleHelloAck, RuntimeSpec.HandleHealthResult, HandleScanResult, HandleReloadResult, HandleAck;
      if key !in workers || workers[key].rec.Terminal() {
        return;
      }
      match m.kind
      case TypeHelloAck => HandleHelloAck(key, m);
      case TypeHealthResult => HandleHealthResult(key, m);
      case TypeScanResult => RecordScanResult(key, m);
      case TypeReloadResult => RecordReloadResult(key, m);
      case TypeShutdownAck => RecordAck(key);
      case _ => FailLive(key, UNEXPECTED_MESSAGE);
    }

    method HandleWorkerExit(key: WorkerKey, code: int, err: Option<string>)
      requires Valid() && Inv(View())
      modifies this, workers.Values, requests.Values
      ensures Kept(workers, requests, old(workers), old(requests)) && Valid()
      ensures View() == HandleExit(old(View()), key, code, err)
    {
      hide FailWorker, Inv, RepliesOk, Workers, Requests, HandleExit, Exited;
      SameKeys();
      if key !in workers {
        NoExit(View(), key, code, err);
        return;
      }
      var worker := workers[key];
      ghost var was := View();
      worker.NoteExit(code, err);
      WorkerAt(key);
      OneRecord(worker);
      ExitIs(was, key, code, err);
      if worker.rec.state == Draining && worker.rec.shutdownAck {
        worker.rec := worker.rec.(state := Retired);
        OneRecord(worker);
      } else if worker.rec.state != Retired {
        ExitedGood(was, key, code, err);
        HandleWorkerFailure(key, EXITED);
      } else {
        RetiredStays(View(), key);
      }
    }

    // ----- reloads

    method BeginReload(scannerId: string, path: string, c: Chan)
      requires Valid() && Inv(View()) && Fresh(View(), c)
      modifies this, workers.Values, requests.Values
      ensures Kept(workers, requests, old(workers), old(requests)) && Valid()
      ensures View() == HandleReload(old(View()), scannerId, path, c)
    {
      hide FailWorker, Fresh, Inv, Workers, Requests;
      SameKeys();
      if scannerId !in active {
        Refuse(c, Err(NO_ACTIVE_WORKER));
        return;
      }
      RouteIn(View(), scannerId);
      var key := active[scannerId];
      var worker := workers[key];
      WorkerAt(key);
      if worker.rec.reloadReply.Some? {
        Refuse(c, Err(RELOAD_IN_PROGRESS));
        return;
      }
      ghost var was := View();
      var ok := worker.StartReload(path, c, capacity);
      OneRecord(worker);
      if !ok {
        ReloadFullGood(was, key, c);
        Refuse(c, Err(QUEUE_FULL));
        FailLive(key, QUEUE_FULL);
      }
    }

    method TimeoutReload(key: WorkerKey)
      requires Valid() && Inv(View())
      modifies this`sends, workers.Values
      ensures Valid() && View() == HandleReloadTimeout(old(View()), key)
    {
      hide Inv, Workers, Requests;
      SameKeys();
      if key in workers { WorkerAt(key); }
      if key in workers && workers[key].rec.reloadReply.Some? {
        SlotsFreeIn(View(), key);
        var worker := workers[key];
        Reply(worker.rec.reloadReply.value, Err(RELOAD_TIMED_OUT));
        worker.rec := worker.rec.(reloadReply := None, pendingSignaturePath := "");
        OneRecord(worker);
      }
    }

    method QueryActiveWorker(scannerId: string, c: Chan)
      requires Valid() && Inv(View()) && Fresh(View(), c)
      modifies this`sends
      ensures Valid() && View() == HandleQuery(old(View()), scannerId, c)
    {
      hide Inv, Fresh;
      if scannerId !in active {
        Refuse(c, Err(NO_ACTIVE_WORKER));
        return;
      }
      RouteIn(View(), scannerId);
      Refuse(c, WorkerReply(active[scannerId], workers[active[scannerId]].rec.signaturePath));
    }

    /** The writer goroutine takes the next message of a worker's queue. */
    method DequeueMessage(key: WorkerKey)
      requires Valid()
      modifies workers.Values
      ensures Valid() && View() == HandleDequeue(old(View()), key)
    {
      if key in workers && workers[key].rec.queue != [] {
        ghost var was := View();
        var worker := workers[key];
        worker.rec := worker.rec.(queue := worker.rec.queue[1..], written := worker.rec.written + [worker.rec.queue[0]]);
        assert Workers() == was.workers[key := worker.rec];
      }
    }

    // ----- scans

    method AssignOne(key: WorkerKey)
      requires Valid() && key in workers
      modifies workers[key]
      ensures Workers() == old(Workers())[key := old(Workers())[key].(inFlight := old(Workers())[key].inFlight + 1)]
    {
      workers[key].Assign();
    }

    /** The first loop of beginScan: one pending entry and one more in flight for every routed worker. */
    method AssignAll(request: RuntimeRequest) returns (keys: seq<WorkerKey>)
      requires Valid() && RoutesOk(View()) && request.rec.results == map[]
      modifies workers.Values, request
      ensures KeySet(keys) == active.Values && Distinct(keys)
      ensures request.rec == old(request.rec).(results := Blanks(active.Values), timer := true)
      ensures Workers() == Assigned(old(Workers()), active.Values)
    {
      hide RoutesOk, Assigned, KeySet, Distinct, RoutedBut, Blanks, Workers;
      SameKeys();
      ghost var was := Workers();
      ghost var s := View();
      keys := [];
      var rest := active.Keys;
      AssignedNone(was);
      NoKeys();
      BlanksNone();
      RoutedEnds(active);
      while rest != {}
        modifies workers.Values, request
        invariant rest <= active.Keys
        invariant KeySet(keys) == RoutedBut(active, rest) && Distinct(keys)
        invariant request.rec == old(request.rec).(results := Blanks(KeySet(keys)))
        invariant Workers() == Assigned(was, KeySet(keys))
      {
        var scannerId :| scannerId in rest;
        var key := active[scannerId];
        RoutesDistinct(s, scannerId);
        RoutedNext(active, rest, scannerId);
        AssignedStep(was, KeySet(keys), key);
        KeySetMore(keys, key);
        BlanksMore(KeySet(keys), key);
        rest := rest - {scannerId};
        keys := keys + [key];
        request.rec := request.rec.(results := request.rec.results[key := BLANK]);
        AssignOne(key);
      }
      request.rec := request.rec.(timer := true);
    }

    method TrackRequest(path: string, c: Chan) returns (request: RuntimeRequest)
      requires Valid() && Inv(View())
      modifies this`nextRequestID, this`requests
      ensures Valid() && fresh(request) && request.id == nextRequestID == old(nextRequestID) + 1
      ensures request.rec == Request(path, map[], c, false)
      ensures requests == old(requests)[nextRequestID := request] && nextRequestID !in old(requests)
      ensures RoutesOk(View())
    {
      hide Inv, RoutesOk;
      ghost var was := View();
      NewIdIn(was);
      nextRequestID := nextRequestID + 1;
      request := new RuntimeRequest(nextRequestID, path, c);
      requests := requests[nextRequestID := request];
      SameRoutes(was, View());
    }

    /** beginScan up to the dispatch. */
    method AdmitScan(path: string, c: Chan) returns (keys: seq<WorkerKey>)
      requires Valid() && Inv(View())
      modifies this, workers.Values
      ensures Valid() && View() == Admit(old(View()), path, c)
      ensures KeySet(keys) == active.Values && Distinct(keys)
      ensures workers == old(workers) && fresh(requests.Values - old(requests.Values))
    {
      hide Inv, RoutesOk, KeySet, Distinct, Assigned, Admit, Workers;
      ghost var was := View();
      var request := TrackRequest(path, c);
      keys := AssignAll(request);
      assert Requests() == was.requests[nextRequestID := request.rec];
      AdmitParts(was, path, c);
    }

    /** The body of the second loop of beginScan. */
    method SendScan(key: WorkerKey, m: Message)
      requires Valid() && Inv(View()) && key in workers
      modifies this, workers.Values, requests.Values
      ensures Kept(workers, requests, old(workers), old(requests)) && Valid()
      ensures HasRoom(old(workers[key].rec), capacity) ==>
                View() == SetWorker(old(View()), key, Push(old(workers[key].rec), m))
      ensures !HasRoom(old(workers[key].rec), capacity) ==> View() == FailWorker(old(View()), key, QUEUE_FULL)
    {
      hide Inv, FailWorker;
      ghost var u := View();
      var ok := workers[key].Queue(m, capacity);
      assert Workers() == u.workers[key := workers[key].rec];
      if !ok {
        assert Workers() == u.workers;
        FailLive(key, QUEUE_FULL);
      }
    }

    method BeginScan(path: string, c: Chan)
      requires Valid() && Inv(View()) && Fresh(View(), c)
      modifies this, workers.Values, requests.Values
      ensures Valid() && workers == old(workers) && fresh(requests.Values - old(requests.Values))
      ensures View() == HandleScan(old(View()), path, c)
    {
      hide Inv, Fresh, Dispatch, Admit, KeySet, Distinct, Workers, Requests;
      if stopReply.Some? {
        Refuse(c, Err(SHUTTING_DOWN));
        return;
      }
      if active == map[] {
        Refuse(c, Err(NO_ACTIVE));
        return;
      }
      ghost var was := View();
      var keys := AdmitScan(path, c);
      ghost var a := View();
      assert a.active == was.active by { AdmitRoutes(was, path, c); }
      var m := ScanCommand(nextRequestID, path);
      assert nextRequestID == was.nextRequestID + 1 by { AdmitRoutes(was, path, c); }
      DispatchStart(was, path, c);
      ghost var admitted := requests;
      for i := 0 to |keys|
        invariant Valid() && Kept(workers, requests, old(workers), admitted)
        invariant View() == Dispatch(a, KeySet(keys[..i]), m)
      {
        KeyAt(keys, i);
        DispatchGood(was, path, c, KeySet(keys[..i]));
        DispatchMore(was, path, c, KeySet(keys[..i]), keys[i]);
        SameKeys();
        WorkerAt(keys[i]);
        SendScan(keys[i], m);
      }
      assert keys[..|keys|] == keys;
    }

    /** The loop over results in timeoutScan and beginShutdown. */
    method FillPending(request: RuntimeRequest, m: Message)
      requires !Pending(m)
      modifies request
      ensures request.rec == old(request.rec).(results := FillResults(old(request.rec.results), old(request.rec.results.Keys), m))
    {
      ghost var was := request.rec;
      var rest := request.rec.results.Keys;
      while rest != {}
        invariant rest <= was.results.Keys == request.rec.results.Keys
        invariant request.rec == was.(results := request.rec.results)
        invariant forall k | k in was.results ::
          request.rec.results[k] == if k !in rest && Pending(was.results[k]) then m else was.results[k]
      {
        var key :| key in rest;
        rest := rest - {key};
        if Pending(request.rec.results[key]) {
          request.rec := request.rec.(results := request.rec.results[key := m]);
        }
      }
      assert request.rec.results == FillResults(was.results, was.results.Keys, m);
    }

    method TimeoutScan(id: nat)
      requires Valid() && Inv(View())
      modifies this, workers.Values, requests.Values
      ensures Kept(workers, requests, old(workers), old(requests)) && Valid()
      ensures View() == HandleScanTimeout(old(View()), id)
    {
      hide Inv, Finish, FillResults;
      if id !in requests {
        return;
      }
      RequestUnsent(View(), id);
      ghost var was := View();
      var request := requests[id];
      FillPending(request, Substitute(id, VerdictTimeout, SCAN_TIMED_OUT));
      assert Requests() == was.requests[id := request.rec];
      assert Fill(was, {id}, was.requests[id].results.Keys, Timeout).requests == Requests();
      CompleteRequest(request);
    }

    // ----- shutdown

    /** The body of the first loop of beginShutdown. */
    method Abandon(request: RuntimeRequest)
      requires Valid() && request.id in requests && requests[request.id] == request
      requires request.rec.results.Keys <= workers.Keys
      requires !Sent(sends, request.rec.reply)
      modifies this, workers.Values, request
      ensures Valid() && workers == old(workers) && requests == old(requests) - {request.id}
      ensures View() == Abandoned(old(View()), {request.id})
    {
      hide Finish, FillResults;
      ghost var was := View();
      var id := request.id;
      FillWhole(was, id, Unavailable(SHUTTING_DOWN));
      FillPending(request, Substitute(id, VerdictUnavailable, SHUTTING_DOWN));
      assert Requests() == was.requests[id := request.rec];
      hide Fill;
      CompleteRequest(request);
    }

    method AbandonEvery()
      requires Valid() && Abandonable(View())
      modifies this, workers.Values, requests.Values
      ensures Kept(workers, requests, old(workers), old(requests)) && Valid()
      ensures View() == AbandonAll(old(View()))
    {
      hide Abandonable, Abandoned, AbandonAll, Sent, View, Valid;
      ghost var was := View();
      ghost var all := requests.Keys;
      var rest := requests.Keys;
      Shown();
      AbandonNone(was);
      assert all - rest == {};
      while rest != {}
        invariant Valid() && workers == old(workers) && rest <= requests.Keys <= all == old(requests).Keys
        invariant forall id | id in requests :: requests[id] == old(requests)[id]
        invariant View() == Abandoned(was, all - rest)
        decreases |rest|
      {
        var id :| id in rest;
        AbandonMore(was, all - rest, id);
        Shown();
        RequestShown(id);
        assert all - rest + {id} == all - (rest - {id});
        rest := rest - {id};
        Abandon(requests[id]);
      }
      assert all - rest == all == was.requests.Keys;
      AbandonDone(was);
    }

    method ClearRoutes()
      modifies this`active
      ensures active == map[]
    {
      var routes := active.Keys;
      while routes != {}
        invariant routes == active.Keys
      {
        var scannerId :| scannerId in routes;
        active := active - {scannerId};
        routes := routes - {scannerId};
      }
    }

    method DrainEvery()
      requires Valid()
      modifies workers.Values
      ensures Workers() == Drained(old(Workers()), workers.Keys, capacity)
    {
      ghost var was := Workers();
      var rest := workers.Keys;
      DrainedNone(was, capacity);
      assert workers.Keys - rest == {};
      while rest != {}
        invariant rest <= workers.Keys
        invariant Workers() == Drained(was, workers.Keys - rest, capacity)
      {
        hide Drained;
        var key :| key in rest;
        DrainedStep(was, workers.Keys - rest, key, capacity);
        assert workers.Keys - rest + {key} == workers.Keys - (rest - {key});
        rest := rest - {key};
        workers[key].Drain(capacity);
      }
      assert workers.Keys - rest == workers.Keys;
    }

    method StopWorkers()
      requires Valid()
      modifies this`active, workers.Values
      ensures Valid() && View() == DrainAll(old(View()))
    {
      hide DrainAll, Drained;
      ghost var mid := View();
      DrainedAll(mid);
      assert mid.workers.Keys == workers.Keys && Workers() == mid.workers;
      ClearRoutes();
      DrainEvery();
      assert Workers() == Drained(mid.workers, mid.workers.Keys, capacity);
    }

    method StopScans(c: Chan)
      requires Valid() && Inv(View()) && Fresh(View(), c) && stopReply.None? && phase == Running
      modifies this, workers.Values, requests.Values
      ensures Kept(workers, requests, old(workers), old(requests)) && Valid()
      ensures View() == AbandonAll(old(View()).(stopReply := Some(c)))
    {
      hide Inv, AbandonAll, Abandonable, Fresh;
      ghost var was := View();
      stopReply := Some(c);
      StoppingGood(was, c);
      assert View() == was.(stopReply := Some(c));
      AbandonEvery();
    }

    method BeginShutdown(c: Chan)
      requires Valid() && Inv(View()) && Fresh(View(), c) && stopReply.None? && phase == Running
      modifies this, workers.Values, requests.Values
      ensures Kept(workers, requests, old(workers), old(requests)) && Valid()
      ensures View() == HandleShutdown(old(View()), c)
    {
      hide Inv, DrainAll, AbandonAll, Fresh;
      StopScans(c);
      StopWorkers();
    }

    // ----- the loop

    method AllWorkersStopped() returns (stopped: bool)
      requires Valid()
      ensures stopped == AllExited(View())
    {
      var rest := workers.Keys;
      while rest != {}
        invariant rest <= workers.Keys
        invariant forall k | k in workers && k !in rest :: workers[k].rec.exited
      {
        var key :| key in rest;
        if !workers[key].rec.exited {
          assert !View().workers[key].exited;
          return false;
        }
        rest := rest - {key};
      }
      return true;
    }

    method TerminateAll()
      requires Valid()
      modifies workers.Values
      ensures Workers() == Killed(old(Workers()), workers.Keys)
    {
      ghost var was := Workers();
      var rest := workers.Keys;
      KilledNone(was);
      assert workers.Keys - rest == {};
      while rest != {}
        invariant rest <= workers.Keys
        invariant Workers() == Killed(was, workers.Keys - rest)
      {
        hide Killed;
        var key :| key in rest;
        KilledStep(was, workers.Keys - rest, key);
        assert workers.Keys - rest + {key} == workers.Keys - (rest - {key});
        rest := rest - {key};
        workers[key].Kill();
      }
      assert workers.Keys - rest == workers.Keys;
    }

    /** The deferred clean-up of run. */
    method Leave(phase: Phase)
      requires Valid()
      modifies this`phase, workers.Values
      ensures View() == Close(old(View()), phase)
    {
      hide Close, Killed;
      ghost var was := View();
      KilledAll(was, phase);
      assert workers.Keys == was.workers.Keys && Workers() == was.workers;
      this.phase := phase;
      TerminateAll();
      assert Workers() == Killed(was.workers, was.workers.Keys);
    }

    /** The commands with which StartWorker brings a worker up. */
    method HandleStart(e: Event)
      requires Valid() && Inv(View()) && Takes(View(), e) && StartsWorker(e)
      modifies this, workers.Values, requests.Values
      ensures Valid() && fresh(workers.Values - old(workers.Values)) && fresh(requests.Values - old(requests.Values))
      ensures View() == Handle(old(View()), e)
    {
      hide Inv, Fresh, Sent, HandleRegister, HandleHello, HandleHealth, HandleActivate, HandleFail;
      match e
      case Register(k, path, c) => RegisterWorker(k, path, c);
      case BeginHello(k, c) => BeginHello(k, c);
      case BeginHealth(k, c) => BeginHealth(k, c);
      case Activate(k, c) => ActivateWorker(k, c);
      case FailCommand(k, reason, c) => FailWorkerCommand(k, reason, c);
    }

    method HandleEvent(e: Event)
      requires Valid() && Inv(View()) && Takes(View(), e)
      modifies this, workers.Values, requests.Values
      ensures Valid() && fresh(workers.Values - old(workers.Values)) && fresh(requests.Values - old(requests.Values))
      ensures View() == Handle(old(View()), e)
    {
      hide Inv, Fresh, Sent, HandleRegister, HandleHello, HandleHealth, HandleActivate, HandleFail, HandleMessage, FailWorker;
      hide HandleExit, HandleScan, HandleScanTimeout, HandleReload, HandleReloadTimeout, HandleQuery, HandleShutdown;
      hide HandleDequeue, Close, Tell;
      if StartsWorker(e) {
        HandleStart(e);
        return;
      }
      match e
      case WorkerMessage(k, m) => HandleWorkerMessage(k, m);
      case WorkerFailure(k, reason) => FailLive(k, reason);
      case WorkerExit(k, code, err) => HandleWorkerExit(k, code, err);
      case ScanRequest(path, c) => BeginScan(path, c);
      case ScanTimeout(id) => TimeoutScan(id);
      case ReloadRequest(scannerId, path, c) => BeginReload(scannerId, path, c);
      case ReloadTimeout(k) => TimeoutReload(k);
      case QueryActive(scannerId, c) => QueryActiveWorker(scannerId, c);
      case Shutdown(c) =>
        if stopReply.Some? {
          Refuse(c, Err(STOP_IN_PROGRESS));
        } else {
          BeginShutdown(c);
        }
      case Dequeue(k) => DequeueMessage(k);
      case Cancel => Leave(Cancelled);
    }

    /** One turn of the loop in run: the event, then the stop check. */
    method Process(e: Event)
      requires Valid() && Inv(View()) && Takes(View(), e)
      modifies this, workers.Values, requests.Values
      ensures Valid() && Inv(View())
      ensures fresh(workers.Values - old(workers.Values)) && fresh(requests.Values - old(requests.Values))
      ensures View() == Step(old(View()), e)
    {
      hide Inv, Takes, Handle, Close, AllExited;
      ghost var was := View();
      TakenGood(was, e);
      var stopping := stopReply.Some?;
      HandleEvent(e);
      ghost var mid := View();
      if e.Dequeue? || e.Cancel? || (e.Shutdown? && stopping) || stopReply.None? {
        return;
      }
      StopUnsent(was, e);
      StopIfDone();
    }

    /** The stop check: the shutdown is answered and the loop left once every worker has exited. */
    method StopIfDone()
      requires Valid() && stopReply.Some? && !Sent(sends, stopReply.value)
      modifies this, workers.Values
      ensures Valid() && workers == old(workers) && requests == old(requests)
      ensures View() == if AllExited(old(View())) then Close(Tell(old(View()), old(stopReply).value, Ok), ShutDown) else old(View())
    {
      hide Close, AllExited, Sent;
      var stopped := AllWorkersStopped();
      if stopped {
        Answer(stopReply.value, Ok);
        Leave(ShutDown);
      }
    }
  }

  ghost function Killed(workers: map<WorkerKey, Worker>, keys: set<WorkerKey>): map<WorkerKey, Worker> {
    map k | k in workers ::
      if k !in keys || workers[k].state == Retired then workers[k] else workers[k].(terminated := true)
  }

  lemma KilledNone(workers: map<WorkerKey, Worker>)
    ensures Killed(workers, {}) == workers
  {
  }

  lemma KilledStep(workers: map<WorkerKey, Worker>, keys: set<WorkerKey>, k: WorkerKey)
    requires k in workers && k !in keys
    ensures var some := Killed(workers, keys);
            k in some && some[k] == workers[k]
            && Killed(workers, keys + {k}) == if some[k].state == Retired then some else some[k := some[k].(terminated := true)]
  {
  }

  lemma KilledAll(s: State, phase: Phase)
    ensures Close(s, phase) == s.(phase := phase, workers := Killed(s.workers, s.workers.Keys))
  {
  }

  lemma PromotedSends(s: State, k: WorkerKey)
    requires k in s.workers
    ensures k in Displace(s, k.scannerId).workers && Promote(Displace(s, k.scannerId), k).sends == s.sends
  {
  }

  predicate StartsWorker(e: Event) { e.Register? || e.BeginHello? || e.BeginHealth? || e.Activate? || e.FailCommand? }

  /** A loop that still runs takes an event: validated messages, channels of its own. */
  ghost predicate Takes(s: State, e: Event) {
    s.phase == Running && EventOk(e) && (EventChan(e).Some? ==> Fresh(s, EventChan(e).value))
  }

  lemma TakenGood(s: State, e: Event)
    requires Inv(s) && Takes(s, e)
    ensures Inv(Step(s, e)) && s.phase == Running
  {
    hide CoreInv, RepliesOk, Fresh, Step;
    StepKeeps(s, e);
    StepReplies(s, e);
  }

  lemma StopUnsent(s: State, e: Event)
    requires Inv(s) && Takes(s, e) && !e.Cancel? && Handle(s, e).stopReply.Some?
    ensures !Sent(Handle(s, e).sends, Handle(s, e).stopReply.value)
  {
    hide CoreInv, RepliesOk, Fresh, Handle;
    HandleReplies(s, e);
    PhaseKept(s, e);
    StopSlotUnsent(Handle(s, e));
  }

  lemma StopSlotUnsent(s: State)
    requires RepliesOk(s) && s.phase == Running && s.stopReply.Some?
    ensures !Sent(s.sends, s.stopReply.value)
  {
    assert At(s, StopSlot) == s.stopReply;
  }

  lemma FillAll(results: map<WorkerKey, Message>, keys: set<WorkerKey>, m: Message)
    requires results.Keys <= keys
    ensures FillResults(results, keys, m) == FillResults(results, results.Keys, m)
  {
  }

  lemma FillWhole(s: State, id: nat, cause: Cause)
    requires id in s.requests && s.requests[id].results.Keys <= s.workers.Keys
    ensures var r := s.requests[id];
            Fill(s, {id}, s.workers.Keys, cause) ==
            s.(requests := s.requests[id := r.(results := FillResults(r.results, r.results.Keys, Entry(cause, id)))])
  {
    FillAll(s.requests[id].results, s.workers.Keys, Entry(cause, id));
    hide FillResults, Entry;
    assert Fill(s, {id}, s.workers.Keys, cause).requests ==
           s.requests[id := s.requests[id].(results := FillResults(s.requests[id].results, s.workers.Keys, Entry(cause, id)))];
  }

  /** The requests `ids` abandoned. */
  ghost function Abandoned(s: State, ids: set<nat>): State {
    Finish(Fill(s, ids, s.workers.Keys, Unavailable(SHUTTING_DOWN)), ids)
  }

  lemma AbandonNone(s: State)
    ensures Abandoned(s, {}) == s
  {
    FillFinishNothing(s, {}, s.workers.Keys, Unavailable(SHUTTING_DOWN));
  }

  lemma AbandonMore(s: State, ids: set<nat>, id: nat)
    requires Abandonable(s) && ids <= s.requests.Keys && id in s.requests && id !in ids
    ensures var u := Abandoned(s, ids);
            && id in u.requests && u.requests[id].results.Keys <= u.workers.Keys && !Sent(u.sends, u.requests[id].reply)
            && Abandoned(s, ids + {id}) == Abandoned(u, {id})
  {
    var keys := s.workers.Keys;
    var u := FillFinish(s, ids, keys, Unavailable(SHUTTING_DOWN), ids);
    FillFinishStep(s, ids, keys, Unavailable(SHUTTING_DOWN), ids, id, {id});
    FillFinishShape(s, ids, keys, Unavailable(SHUTTING_DOWN), ids);
    FillFinishAnswers(s, ids, keys, Unavailable(SHUTTING_DOWN), ids);
    hide Finish, Fill, At, Answers, RepliesOk;
    AnswersKeep(s, u);
    KeysKnown(s, id);
    ReplyUnsent(u, id);
  }

  lemma KeysKnown(s: State, id: nat)
    requires Abandonable(s) && id in s.requests
    ensures s.requests[id].results.Keys <= s.workers.Keys
  {
  }

  lemma ReplyUnsent(s: State, id: nat)
    requires RepliesOk(s) && id in s.requests
    ensures !Sent(s.sends, s.requests[id].reply)
  {
    assert At(s, ScanSlot(id)) == Some(s.requests[id].reply);
  }

  /** What the first loop of beginShutdown needs. */
  ghost predicate Abandonable(s: State) {
    RepliesOk(s) && forall id | id in s.requests :: s.requests[id].results.Keys <= s.workers.Keys
  }

  lemma AbandonDone(s: State)
    ensures AbandonAll(s) == Abandoned(s, s.requests.Keys)
  {
  }

  lemma StoppingGood(s: State, c: Chan)
    requires Inv(s) && Fresh(s, c) && s.stopReply.None? && s.phase == Running
    ensures Abandonable(s.(stopReply := Some(c)))
  {
    hide CoreInv, RepliesOk, Fresh;
    forall id | id in s.requests ensures s.requests[id].results.Keys <= s.workers.Keys {
      RequestKeys(s, id);
    }
    HoldFresh(s, s.(stopReply := Some(c)), StopSlot, c);
  }

  lemma RequestKeys(s: State, id: nat)
    requires Inv(s) && id in s.requests
    ensures s.requests[id].results.Keys <= s.workers.Keys
  {
    hide CountsOk, HistoryOk, WorkersOk, QueuesOk, CandidatesOk, RepliesOk, RoutesOk, AnswersOk, AllAnswered;
    assert RequestOk(s.workers.Keys, s.nextRequestID, id, s.requests[id]);
  }

  ghost function DrainedOne(w: Worker, capacity: nat): Worker {
    if w.Terminal() then w else RuntimeSpec.RequestShutdown(w.(state := Draining), capacity)
  }

  ghost function Drained(workers: map<WorkerKey, Worker>, keys: set<WorkerKey>, capacity: nat): map<WorkerKey, Worker> {
    map k | k in workers :: if k in keys then DrainedOne(workers[k], capacity) else workers[k]
  }

  lemma DrainedNone(workers: map<WorkerKey, Worker>, capacity: nat)
    ensures Drained(workers, {}, capacity) == workers
  {
  }

  lemma DrainedStep(workers: map<WorkerKey, Worker>, keys: set<WorkerKey>, k: WorkerKey, capacity: nat)
    requires k in workers && k !in keys
    ensures Drained(workers, keys, capacity).Keys == workers.Keys && Drained(workers, keys, capacity)[k] == workers[k]
    ensures Drained(workers, keys + {k}, capacity) == Drained(workers, keys, capacity)[k := DrainedOne(workers[k], capacity)]
  {
    hide DrainedOne;
  }

  lemma DrainedAll(s: State)
    ensures DrainAll(s) == s.(active := map[], workers := Drained(s.workers, s.workers.Keys, s.capacity))
  {
  }

  ghost function KeySet(keys: seq<WorkerKey>): set<WorkerKey> { set k | k in keys }

  ghost predicate Distinct(keys: seq<WorkerKey>) { forall i, j | 0 <= i < j < |keys| :: keys[i] != keys[j] }

  lemma NoKeys()
    ensures KeySet([]) == {} && Distinct([])
  {
  }

  lemma KeySetMore(keys: seq<WorkerKey>, k: WorkerKey)
    ensures KeySet(keys + [k]) == KeySet(keys) + {k}
    ensures Distinct(keys) && k !in KeySet(keys) ==> Distinct(keys + [k])
  {
  }

  lemma RoutesDistinct(s: State, scannerId: string)
    requires RoutesOk(s) && scannerId in s.active
    ensures s.active[scannerId] in s.workers
    ensures forall id | id in s.active && s.active[id] == s.active[scannerId] :: id == scannerId
  {
  }

  /** The routes of the scanners that are not left. */
  ghost function RoutedBut(active: map<string, WorkerKey>, rest: set<string>): set<WorkerKey> {
    set id | id in active && id !in rest :: active[id]
  }

  lemma RoutedEnds(active: map<string, WorkerKey>)
    ensures RoutedBut(active, active.Keys) == {} && RoutedBut(active, {}) == active.Values
  {
  }

  lemma RoutedNext(active: map<string, WorkerKey>, rest: set<string>, scannerId: string)
    requires scannerId in rest && rest <= active.Keys
    requires forall id | id in active && active[id] == active[scannerId] :: id == scannerId
    ensures active[scannerId] !in RoutedBut(active, rest)
    ensures RoutedBut(active, rest - {scannerId}) == RoutedBut(active, rest) + {active[scannerId]}
  {
  }

  lemma SameRoutes(s: State, t: State)
    requires Inv(s) && t.workers == s.workers && t.active == s.active
    ensures RoutesOk(t)
  {
    hide CountsOk, RequestsOk, HistoryOk, WorkersOk, QueuesOk, CandidatesOk, RepliesOk;
  }

  lemma AdmitRoutes(s: State, path: string, c: Chan)
    ensures Admit(s, path, c).active == s.active && Admit(s, path, c).nextRequestID == s.nextRequestID + 1
  {
  }

  /** A pending entry for each key. */
  ghost function Blanks(keys: set<WorkerKey>): map<WorkerKey, Message> { map k | k in keys :: BLANK }

  lemma BlanksNone()
    ensures Blanks({}) == map[]
  {
  }

  lemma BlanksMore(keys: set<WorkerKey>, k: WorkerKey)
    ensures Blanks(keys + {k}) == Blanks(keys)[k := BLANK]
  {
  }

  lemma AdmitParts(s: State, path: string, c: Chan)
    ensures Admit(s, path, c) ==
            s.(nextRequestID := s.nextRequestID + 1,
               requests := s.requests[s.nextRequestID + 1 := Request(path, Blanks(s.active.Values), c, true)],
               workers := Assigned(s.workers, s.active.Values))
  {
  }

  lemma DispatchStart(s: State, path: string, c: Chan)
    requires Inv(s) && s.stopReply.None? && s.active != map[]
    ensures Dispatch(Admit(s, path, c), KeySet([]), ScanCommand(s.nextRequestID + 1, path)) == Admit(s, path, c)
  {
    NoKeys();
    var id :| id in s.active;
    AdmitIn(s, path, c, s.active[id]);
    hide RequestsOk, Dispatch, Inv, Admit;
    DispatchNothing(Admit(s, path, c), ScanCommand(s.nextRequestID + 1, path));
  }

  /** Key i of a list of distinct keys is new after the first i. */
  lemma KeyAt(keys: seq<WorkerKey>, i: nat)
    requires i < |keys| && Distinct(keys)
    ensures keys[i] in KeySet(keys) && keys[i] !in KeySet(keys[..i]) && KeySet(keys[..i]) <= KeySet(keys)
    ensures KeySet(keys[..i + 1]) == KeySet(keys[..i]) + {keys[i]}
  {
    assert keys[..i + 1] == keys[..i] + [keys[i]];
  }

  lemma NewIdIn(s: State)
    requires Inv(s)
    ensures s.nextRequestID + 1 !in s.requests
  {
    NewIdUnused(s);
  }

  /** The state in the middle of the dispatch loop. */
  lemma DispatchGood(s: State, path: string, c: Chan, keys: set<WorkerKey>)
    requires Inv(s) && Fresh(s, c) && s.stopReply.None? && s.active != map[] && keys <= s.active.Values
    ensures Inv(Dispatch(Admit(s, path, c), keys, ScanCommand(s.nextRequestID + 1, path)))
  {
    var a := Admit(s, path, c);
    var d := Dispatched(s, path, c, keys);
    NewIdIn(s);
    hide CoreInv, RepliesOk, Fresh, Admit, FailAll, Full;
    DispatchedKeeps(s, path, c, keys);
    DispatchedReplies(s, path, c, keys);
    FailAllKeeps(d, Full(a, keys), QUEUE_FULL);
    FailAllReplies(d, Full(a, keys), QUEUE_FULL);
  }

  /** One more worker served in the dispatch loop. */
  lemma DispatchMore(s: State, path: string, c: Chan, keys: set<WorkerKey>, k: WorkerKey)
    requires Inv(s) && s.stopReply.None? && s.active != map[] && k in s.active.Values && k !in keys
    ensures var m := ScanCommand(s.nextRequestID + 1, path);
            var u := Dispatch(Admit(s, path, c), keys, m);
            k in u.workers
            && Dispatch(Admit(s, path, c), keys + {k}, m) ==
               if HasRoom(u.workers[k], u.capacity) then SetWorker(u, k, Push(u.workers[k], m)) else FailWorker(u, k, QUEUE_FULL)
  {
    var m := ScanCommand(s.nextRequestID + 1, path);
    var a := Admit(s, path, c);
    AdmitIn(s, path, c, k);
    hide Inv, Dispatch, FailWorker, Admit, RequestsOk;
    if HasRoom(a.workers[k], a.capacity) {
      DispatchRoom(a, keys, m, k);
    } else {
      DispatchFull(a, keys, m, k);
      DispatchKeepsQueue(a, keys, m, k);
    }
  }

  lemma AdmitIn(s: State, path: string, c: Chan, k: WorkerKey)
    requires Inv(s) && s.stopReply.None? && s.active != map[] && k in s.active.Values
    ensures var a := Admit(s, path, c); RequestsOk(a) && k in a.workers && a.workers[k].state == Active
  {
    hide CountsOk, HistoryOk, WorkersOk, QueuesOk, CandidatesOk, RepliesOk, RequestsOk;
    AdmitRequests(s, path, c);
  }

  /** Serving other workers does not touch the queue of an ACTIVE one. */
  lemma DispatchKeepsQueue(s: State, keys: set<WorkerKey>, m: Message, k: WorkerKey)
    requires k in s.workers && k !in keys && s.workers[k].state == Active
    ensures var u := Dispatch(s, keys, m);
            k in u.workers && u.workers[k].queue == s.workers[k].queue && u.capacity == s.capacity
  {
    var full := Full(s, keys);
    var v := PushAll(s, keys - full, m);
    assert k !in full && v.workers[k] == s.workers[k];
    hide FailAll, Full, PushAll;
    FailAllBooks(v, full, QUEUE_FULL);
    FailAllWorker(v, full, QUEUE_FULL, k);
    PushRelease(s.workers[k], m, |Using(Fill(v, v.requests.Keys, full, Unavailable(QUEUE_FULL)).requests,
                                        Ready(v.requests, v.requests.Keys, full), k)|, s.capacity);
    hide Release, Push;
  }

  ghost function Assigned(workers: map<WorkerKey, Worker>, keys: set<WorkerKey>): map<WorkerKey, Worker> {
    map k | k in workers :: if k in keys then workers[k].(inFlight := workers[k].inFlight + 1) else workers[k]
  }

  lemma AssignedNone(workers: map<WorkerKey, Worker>)
    ensures Assigned(workers, {}) == workers
  {
  }

  lemma AssignedStep(workers: map<WorkerKey, Worker>, keys: set<WorkerKey>, k: WorkerKey)
    requires k in workers && k !in keys
    ensures var some := Assigned(workers, keys);
            k in some && Assigned(workers, keys + {k}) == some[k := some[k].(inFlight := some[k].inFlight + 1)]
  {
  }

  /** What the handlers need of the invariant, without unfolding it. */
  lemma SlotsFreeIn(s: State, k: WorkerKey)
    requires Inv(s) && k in s.workers
    ensures SlotsFree(s.sends, s.workers[k])
  {
    SlotsApart(s, k);
  }

  lemma RouteIn(s: State, scannerId: string)
    requires Inv(s) && scannerId in s.active
    ensures s.active[scannerId] in s.workers && s.workers[s.active[scannerId]].state == Active
    ensures s.active[scannerId].scannerId == scannerId
  {
    RouteIsActive(s, scannerId);
  }

  lemma FailedUnsent(s: State, k: WorkerKey, reason: string, c: Chan)
    requires Inv(s) && Fresh(s, c)
    ensures !Sent(FailWorker(s, k, reason).sends, c)
  {
    FailWorkerGood(s, k, reason);
    FreshSame(s, FailWorker(s, k, reason), c);
  }

  lemma RequestUnsent(s: State, id: nat)
    requires Inv(s) && id in s.requests
    ensures !Sent(s.sends, s.requests[id].reply)
  {
    hide CoreInv;
    assert At(s, ScanSlot(id)) == Some(s.requests[id].reply);
  }

  lemma ExitedGood(s: State, k: WorkerKey, code: int, err: Option<string>)
    requires Inv(s) && k in s.workers
    ensures var t := SetWorker(s, k, Exited(s.workers[k], code, err)); RepliesOk(t)
  {
    var t := SetWorker(s, k, Exited(s.workers[k], code, err));
    SetSlots(s, k, Exited(s.workers[k], code, err));
    hide RepliesOk, CoreInv;
    GoodSame(s, t);
  }

  lemma ExitIs(s: State, k: WorkerKey, code: int, err: Option<string>)
    requires k in s.workers
    ensures var w, x := s.workers[k], Exited(s.workers[k], code, err);
            && x.state == w.state && x.shutdownAck == w.shutdownAck
            && HandleExit(s, k, code, err) == if w.state == Draining && w.shutdownAck then SetWorker(s, k, x.(state := Retired))
                                              else FailWorker(SetWorker(s, k, x), k, EXITED)
  {
    hide FailWorker;
  }

  lemma NoExit(s: State, k: WorkerKey, code: int, err: Option<string>)
    requires k !in s.workers
    ensures HandleExit(s, k, code, err) == s
  {
  }

  lemma RetiredStays(s: State, k: WorkerKey)
    requires k in s.workers && s.workers[k].state == Retired
    ensures FailWorker(s, k, EXITED) == s
  {
  }

  lemma ReloadFullGood(s: State, k: WorkerKey, c: Chan)
    requires Inv(s) && Fresh(s, c) && k in s.workers
    ensures var t := SetWorker(s, k, s.workers[k].(pendingSignaturePath := "")); Inv(t) && Fresh(t, c)
  {
    hide CoreInv, RepliesOk, Fresh;
    var t := SetWorker(s, k, s.workers[k].(pendingSignaturePath := ""));
    ForgetPathKeeps(s, k, c);
    SetSlots(s, k, s.workers[k].(pendingSignaturePath := ""));
    GoodSame(s, t);
    FreshSame(s, t, c);
  }

  lemma ForgetPathKeeps(s: State, k: WorkerKey, c: Chan)
    requires CoreInv(s) && k in s.workers
    ensures CoreInv(SetWorker(s, k, s.workers[k].(pendingSignaturePath := "")))
  {
    hide RoutesOk, CountsOk, RequestsOk, CandidatesOk, HistoryOk, WorkersOk, QueuesOk, WorkerOk, QueueOk;
    var w := s.workers[k];
    var w1 := w.(pendingSignaturePath := "");
    RecordOk(s, k);
    ReloadRecords(w, "", c, s.stopReply.Some?);
    SameQueue(w, w1, s.capacity, s.nextRequestID);
    WorkerChange(s, SetWorker(s, k, w1), k, w1);
  }

  ghost predicate Inv(s: State) { CoreInv(s) && RepliesOk(s) }

  /** No new objects; requests may be gone. */
  ghost predicate Kept(w: map<WorkerKey, RuntimeWorker>, r: map<nat, RuntimeRequest>,
                       oldW: map<WorkerKey, RuntimeWorker>, oldR: map<nat, RuntimeRequest>) {
    w == oldW && r.Keys <= oldR.Keys && forall id | id in r :: r[id] == oldR[id]
  }

  lemma FreshUnsent(s: State, c: Chan)
    requires Fresh(s, c)
    ensures !Sent(s.sends, c)
  {
  }

  /** The reply channels of a worker are distinct and empty. */
  ghost predicate SlotsFree(sends: set<Send>, w: Worker) {
    && (w.helloReply.Some? ==> !Sent(sends, w.helloReply.value))
    && (w.healthReply.Some? ==> !Sent(sends, w.healthReply.value) && w.healthReply != w.helloReply)
    && (w.reloadReply.Some? ==> !Sent(sends, w.reloadReply.value) && w.reloadReply != w.helloReply
                                && w.reloadReply != w.healthReply)
  }

  lemma SlotsApart(s: State, k: WorkerKey)
    requires RepliesOk(s) && k in s.workers
    ensures SlotsFree(s.sends, s.workers[k])
  {
    assert At(s, HelloSlot(k)) == s.workers[k].helloReply;
    assert At(s, HealthSlot(k)) == s.workers[k].healthReply;
    assert At(s, ReloadSlot(k)) == s.workers[k].reloadReply;
  }

  ghost function SendsFor(c: Option<Chan>, reason: string): set<Send> { if c.Some? then {Send(c.value, Err(reason))} else {} }

  ghost function SlotSends(w: Worker, reason: string): set<Send> {
    SendsFor(w.helloReply, reason) + SendsFor(w.healthReply, reason) + SendsFor(w.reloadReply, reason)
  }

  lemma MarkOne(s: State, k: WorkerKey, reason: string)
    requires k in s.workers
    ensures Mark(s, {k}, reason) ==
            s.(workers := s.workers[k := MarkFailed(s.workers[k], reason)],
               active := if k.scannerId in s.active && s.active[k.scannerId] == k then s.active - {k.scannerId} else s.active,
               sends := s.sends + SlotSends(s.workers[k], reason))
  {
    assert FailureSends(s.workers, {k}, reason) == SlotSends(s.workers[k], reason);
    hide MarkFailed, FailureSends, SlotSends;
    assert Unroute(s.active, {k}) ==
           if k.scannerId in s.active && s.active[k.scannerId] == k then s.active - {k.scannerId} else s.active;
    hide Unroute;
    assert Mark(s, {k}, reason).workers == s.workers[k := MarkFailed(s.workers[k], reason)];
  }

  lemma SettleNothing(s: State, keys: set<WorkerKey>, cause: Cause)
    ensures Settle(s, {}, keys, cause) == s
  {
    assert Ready(s.requests, {}, keys) == {};
    FillFinishNothing(s, {}, keys, cause);
  }

  /** Settling some requests leaves the reply channel of every other tracked request empty. */
  lemma SettleReplies(s: State, ids: set<nat>, keys: set<WorkerKey>, cause: Cause, id: nat)
    requires RepliesOk(s) && ids <= s.requests.Keys && id in s.requests && id !in ids
    ensures var t := Settle(s, ids, keys, cause);
            id in t.requests && !Sent(t.sends, t.requests[id].reply)
  {
    hide RepliesOk, Ready, Finish, Fill, Sent, Answers;
    var t := Settle(s, ids, keys, cause);
    ReadyIds(s.requests, ids, keys);
    FillFinishAnswers(s, ids, keys, cause, Ready(s.requests, ids, keys));
    AnswersKeep(s, t);
    SettleStep(s, ids, keys, cause, id);
    ReplyUnsent(t, id);
  }

  /** Each worker of `keys` released once. */
  ghost function Released(workers: map<WorkerKey, Worker>, keys: set<WorkerKey>, capacity: nat): map<WorkerKey, Worker> {
    map k | k in workers :: Release(workers[k], if k in keys then 1 else 0, capacity)
  }

  lemma ReleasedNone(workers: map<WorkerKey, Worker>, capacity: nat)
    ensures Released(workers, {}, capacity) == workers
  {
  }

  lemma ReleasedStep(workers: map<WorkerKey, Worker>, keys: set<WorkerKey>, k: WorkerKey, capacity: nat)
    requires k !in keys
    ensures var some := Released(workers, keys, capacity);
            some.Keys == workers.Keys
            && Released(workers, keys + {k}, capacity) ==
               if k in workers then some[k := Release(some[k], 1, capacity)] else some
  {
    if k in workers {
      ReleaseZero(workers[k], capacity);
    }
    hide Release;
  }

  /** Finish for a single request, field by field. */
  lemma UpdatedAway(requests: map<nat, Request>, id: nat, r: Request)
    ensures requests[id := r] - {id} == requests - {id}
  {
  }

  lemma FinishOne(s: State, id: nat)
    requires id in s.requests
    ensures Finish(s, {id}) ==
            s.(workers := Released(s.workers, s.requests[id].results.Keys, s.capacity),
               requests := s.requests - {id},
               sends := s.sends + {Send(s.requests[id].reply, Answered(id, s.requests[id]))},
               completed := s.completed[id := s.requests[id].(timer := false)])
  {
    hide Release, Answered, RepliesTo, Closed, Without;
    FinishedParts(s.requests, id);
    assert Finish(s, {id}).workers == Released(s.workers, s.requests[id].results.Keys, s.capacity) by {
      hide Using;
      forall k | k in s.workers
        ensures Finish(s, {id}).workers[k] == Released(s.workers, s.requests[id].results.Keys, s.capacity)[k]
      {
        UsingOne(s.requests, id, k);
      }
    }
    hide Using, Released;
  }

  lemma FinishedParts(requests: map<nat, Request>, id: nat)
    requires id in requests
    ensures RepliesTo(requests, {id}) == {Send(requests[id].reply, Answered(id, requests[id]))}
    ensures Closed(requests, {id}) == map[id := requests[id].(timer := false)]
    ensures Without(requests, {id}) == requests - {id}
  {
    hide Answered;
  }

  lemma ElementsMore(verdicts: seq<Verdict>, v: Verdict)
    ensures Elements(verdicts + [v]) == Elements(verdicts) + {v}
  {
  }

  lemma ReleaseZero(w: Worker, capacity: nat)
    ensures Release(w, 0, capacity) == w
  {
  }

  lemma UsingOne(requests: map<nat, Request>, id: nat, k: WorkerKey)
    requires id in requests
    ensures |Using(requests, {id}, k)| == if k in requests[id].results then 1 else 0
  {
    assert Using(requests, {id}, k) == if k in requests[id].results then {id} else {};
  }

  /** The loop from its start over a whole list of events. */
  method RunEvents(capacity: nat, events: seq<Event>) returns (loop: Loop)
    requires EventsOk(events) && OwnChans(events)
    ensures fresh(loop) && loop.Valid() && loop.View() == Run(capacity, events)
  {
    loop := new Loop(capacity);
    InitGood(capacity);
    for i := 0 to |events|
      invariant loop.Valid() && fresh(loop) && fresh(loop.workers.Values) && fresh(loop.requests.Values)
      invariant loop.View() == Run(capacity, events[..i]) && Inv(loop.View())
    {
      hide Inv, Run, OwnChans, EventsOk, Takes, Step;
      RunStep(capacity, events, i);
      if loop.phase == Running {
        loop.Process(events[i]);
      }
    }
    assert events[..|events|] == events;
  }

  lemma InitGood(capacity: nat)
    ensures Inv(Init(capacity)) && Run(capacity, []) == Init(capacity)
  {
    assert forall x :: At(Init(capacity), x) == None;
  }

  lemma RunStep(capacity: nat, events: seq<Event>, i: nat)
    requires i < |events| && EventsOk(events) && OwnChans(events)
    ensures var s := Run(capacity, events[..i]);
            && Run(capacity, events[..i + 1]) == (if s.phase == Running then Step(s, events[i]) else s)
            && (s.phase == Running ==> Takes(s, events[i]))
  {
    var next := events[..i + 1];
    assert next[..|next| - 1] == events[..i] && next[|next| - 1] == events[i];
    ReplyDiscipline(capacity, events[..i]);
    ChansStep(next);
    hide Step, Seen, RepliesOk;
    StaysOut(Run(capacity, events[..i]), events[i]);
    assert OwnChans(next);
  }
}
