/** The Coordinator over mutable worker and request objects (pkg/coordinator/coordinator.go), proved to follow CoordinatorSpec. */
module CoordinatorLoop {
  import opened Wrappers
  import opened Messages
  import opened Text
  import opened CoordinatorSpec
  import CoordinatorOutcomes
  import Runtime = RuntimeSpec

  class WorkerEntry {
    const key: WorkerKey
    const pid: int
    var state: WorkerState
    var failureReason: string
    var exitCode: int
    var exitError: string

    constructor (key: WorkerKey, pid: int)
      ensures this.key == key && Rec() == Worker(pid, Runtime.Starting, "", 0, "")
    {
      this.key, this.pid := key, pid;
      state, failureReason, exitCode, exitError := Runtime.Starting, "", 0, "";
    }

    function Rec(): Worker
      reads this
    {
      Worker(pid, state, failureReason, exitCode, exitError)
    }

    method MarkFailed(reason: string)
      modifies this
      ensures Rec() == old(Rec()).(state := Runtime.Failed, failureReason := reason)
    {
      state := Runtime.Failed;
      failureReason := reason;
    }

    method NoteExit(code: int, exit: Option<string>)
      modifies this
      ensures Rec() == CoordinatorSpec.NoteExit(old(Rec()), code, exit)
    {
      exitCode := code;
      if exit.Some? {
        exitError := exit.value;
      }
    }

    method Lose()
      modifies this
      ensures Rec() == Lost(old(Rec()))
    {
      state := Runtime.Failed;
      if failureReason == "" {
        failureReason := EXITED;
      }
    }
  }

  class RequestEntry {
    const id: nat
    var results: Results

    constructor (id: nat, results: Results)
      ensures this.id == id && this.results == results
    {
      this.id, this.results := id, results;
    }
  }

  class Coordinator {
    var workers: map<WorkerKey, WorkerEntry>
    var active: map<string, WorkerKey>
    var requests: map<nat, RequestEntry>

    constructor ()
      ensures Valid() && View() == INIT
    {
      workers, active, requests := map[], map[], map[];
    }

    /** Distinct keys stand for distinct objects. */
    ghost predicate Valid()
      reads this, workers.Values, requests.Values
    {
      && (forall k | k in workers :: workers[k].key == k)
      && (forall id | id in requests :: requests[id].id == id)
    }

    ghost function Workers(): map<WorkerKey, Worker>
      reads `workers, workers.Values
    {
      map k | k in workers :: workers[k].Rec()
    }

    ghost function Requests(): map<nat, Results>
      reads `requests, requests.Values
    {
      map id | id in requests :: requests[id].results
    }

    ghost function View(): State
      reads this, workers.Values, requests.Values
    {
      State(Workers(), active, Requests())
    }

    method FindCandidate(scannerId: string) returns (found: bool)
      requires Valid()
      ensures found == CoordinatorSpec.HasCandidate(View(), scannerId)
    {
      var rest := workers.Keys;
      while rest != {}
        invariant rest <= workers.Keys
        invariant forall k | k in workers && k !in rest :: !(k.scannerId == scannerId && workers[k].Rec().Candidate())
      {
        var k :| k in rest;
        var registered := workers[k];
        if registered.key.scannerId == scannerId && (registered.state == Runtime.Starting || registered.state == Runtime.Healthy) {
          assert k in View().workers && View().workers[k].Candidate();
          return true;
        }
        rest := rest - {k};
      }
      return false;
    }

    lemma WorkerAt(key: WorkerKey)
      requires key in workers
      ensures key in Workers() && Workers()[key] == workers[key].Rec()
    {
    }

    lemma SameKeys()
      ensures Workers().Keys == workers.Keys && Requests().Keys == requests.Keys
    {
    }

    /** Only `worker` was changed. */
    twostate lemma OneRecord(worker: WorkerEntry)
      requires old(Valid()) && workers == old(workers) && worker.key in workers && workers[worker.key] == worker
      requires forall k | k in workers && workers[k] != worker :: workers[k].Rec() == old(workers[k].Rec())
      requires requests == old(requests) && forall id | id in requests :: requests[id].results == old(requests[id].results)
      ensures worker.key in old(Workers()) && old(Workers())[worker.key] == old(worker.Rec())
      ensures Workers() == old(Workers())[worker.key := worker.Rec()] && Requests() == old(Requests())
    {
    }

    /** An entry of its own for a key that has none. */
    method AddWorker(key: WorkerKey, pid: int)
      requires Valid() && key !in workers
      modifies this`workers
      ensures Valid() && fresh(workers.Values - old(workers.Values))
      ensures Workers() == old(Workers())[key := Worker(pid, Runtime.Starting, "", 0, "")] && Requests() == old(Requests())
    {
      var worker := new WorkerEntry(key, pid);
      workers := workers[key := worker];
    }

    method RegisterWorker(key: WorkerKey, child: Option<int>) returns (err: Option<string>)
      requires Valid()
      modifies this
      ensures Valid() && fresh(workers.Values - old(workers.Values)) && requests == old(requests)
      ensures Outcome(View(), err) == DoRegister(old(View()), key, child)
    {
      hide HasCandidate, IsBlank, Workers, Requests;
      SameKeys();
      if IsBlank(key.scannerId) {
        return Some(NO_SCANNER);
      }
      if IsBlank(key.version) {
        return Some(NO_VERSION);
      }
      if child.None? {
        return Some(NO_CHILD);
      }
      if key in workers {
        return Some(ALREADY_REGISTERED);
      }
      var found := FindCandidate(key.scannerId);
      if found {
        return Some(HAS_CANDIDATE);
      }
      AddWorker(key, child.value);
      return None;
    }

    method MarkWorkerHealthy(key: WorkerKey) returns (err: Option<string>)
      requires Valid()
      modifies workers.Values
      ensures Outcome(View(), err) == DoMarkHealthy(old(View()), key)
    {
      if key !in workers {
        return Some(NOT_REGISTERED);
      }
      var worker := workers[key];
      if worker.state != Runtime.Starting {
        return Some(INVALID_TRANSITION);
      }
      ghost var was := Workers();
      worker.state := Runtime.Healthy;
      assert Workers() == was[key := worker.Rec()];
      return None;
    }

    /** markPendingUnavailable */
    method MarkPendingUnavailable(key: WorkerKey)
      requires Valid()
      modifies requests.Values
      ensures Requests() == SweepAll(old(Requests()), key)
    {
      ghost var was := Requests();
      var rest := requests.Keys;
      assert Requests() == SweptBut(was, key, rest);
      while rest != {}
        invariant rest <= requests.Keys
        invariant Requests() == SweptBut(was, key, rest)
      {
        var id :| id in rest;
        var request := requests[id];
        ghost var before := Requests();
        if key in request.results && request.results[key] == NoVerdict {
          request.results := request.results[key := VerdictUnavailable];
        }
        assert Requests() == before[id := Sweep(before[id], key)];
        SweptMore(was, key, rest, id);
        rest := rest - {id};
      }
    }

    method FailCandidate(key: WorkerKey, reason: string, terminated: Option<string>) returns (err: Option<string>)
      requires Valid()
      modifies workers.Values, requests.Values
      ensures Outcome(View(), err) == DoFail(old(View()), key, reason, terminated)
    {
      hide IsBlank, SweepAll, Workers, Requests;
      SameKeys();
      if key !in workers {
        return Some(NOT_REGISTERED);
      }
      var worker := workers[key];
      WorkerAt(key);
      if worker.state != Runtime.Starting && worker.state != Runtime.Healthy {
        return Some(CANNOT_FAIL);
      }
      if IsBlank(reason) {
        return Some(NO_REASON);
      }
      worker.MarkFailed(reason);
      OneRecord(worker);
      MarkPendingUnavailable(key);
      return terminated;
    }

    method ActivateWorker(key: WorkerKey) returns (err: Option<string>)
      requires Valid()
      modifies this`active, workers.Values
      ensures Outcome(View(), err) == DoActivate(old(View()), key)
    {
      hide Displace, RouteBroken, Promote;
      if key !in workers {
        return Some(NOT_REGISTERED);
      }
      var worker := workers[key];
      if worker.state != Runtime.Healthy {
        return Some(INVALID_TRANSITION);
      }
      var broken := CheckRoute(key.scannerId);
      if broken {
        return Some(INVALID_ROUTE);
      }
      DrainPrevious(key.scannerId);
      PromoteWorker(key);
      return None;
    }

    method PromoteWorker(key: WorkerKey)
      requires Valid() && key in workers
      modifies this`active, workers.Values
      ensures View() == Promote(old(View()), key)
    {
      ghost var was := Workers();
      workers[key].state := Runtime.Active;
      assert Workers() == was[key := was[key].(state := Runtime.Active)];
      active := active[key.scannerId := key];
    }

    method CheckRoute(scannerId: string) returns (broken: bool)
      ensures broken == RouteBroken(View(), scannerId)
    {
      if scannerId in active {
        var k := active[scannerId];
        if k !in workers || workers[k].state != Runtime.Active {
          return true;
        }
      }
      return false;
    }

    method DrainPrevious(scannerId: string)
      requires Valid()
      requires !RouteBroken(View(), scannerId)
      modifies workers.Values
      ensures View() == Displace(old(View()), scannerId)
    {
      if scannerId in active {
        ghost var was := Workers();
        workers[active[scannerId]].state := Runtime.Draining;
        assert Workers() == was[active[scannerId] := was[active[scannerId]].(state := Runtime.Draining)];
      }
    }

    method RetireWorker(key: WorkerKey) returns (err: Option<string>)
      requires Valid()
      modifies workers.Values
      ensures Outcome(View(), err) == DoRetire(old(View()), key)
      ensures err.None? <==> CoordinatorOutcomes.TookEffect(old(View()), Retire(key), View())
    {
      CoordinatorOutcomes.RetireExactly(View(), key);
      hide CoordinatorOutcomes.TookEffect, CoordinatorOutcomes.Allowed;
      if key !in workers {
        return Some(NOT_REGISTERED);
      }
      var worker := workers[key];
      if worker.state != Runtime.Draining {
        return Some(INVALID_TRANSITION);
      }
      var rest := requests.Keys;
      while rest != {}
        modifies {}
        invariant rest <= requests.Keys
        invariant forall id | id in requests && id !in rest :: !Owes(View(), id, key)
      {
        var id :| id in rest;
        if key in requests[id].results && requests[id].results[key] == NoVerdict {
          assert Owes(View(), id, key);
          return Some(IN_FLIGHT);
        }
        rest := rest - {id};
      }
      ghost var was := Workers();
      worker.state := Runtime.Retired;
      assert Workers() == was[key := worker.Rec()];
      return None;
    }

    /** The loop of trackRequest. */
    method AssignWorkers(keys: seq<WorkerKey>) returns (r: Result<Results>)
      requires Valid()
      ensures r == Assign(Workers(), keys)
    {
      var results: Results := map[];
      for i := 0 to |keys|
        invariant Assign(Workers(), keys[..i]) == Success(results)
      {
        var k := keys[i];
        assert keys[..i + 1][..i] == keys[..i];
        if k !in workers {
          AssignFails(Workers(), keys, i + 1, NOT_REGISTERED);
          return Failure(NOT_REGISTERED);
        }
        assert Workers()[k].state == workers[k].state;
        if k in results {
          AssignFails(Workers(), keys, i + 1, DUPLICATED);
          return Failure(DUPLICATED);
        }
        match workers[k].state
        case Active => results := results[k := NoVerdict];
        case Failed => results := results[k := VerdictUnavailable];
        case _ =>
          AssignFails(Workers(), keys, i + 1, CANNOT_RECEIVE);
          return Failure(CANNOT_RECEIVE);
      }
      assert keys[..|keys|] == keys;
      return Success(results);
    }

    method AddRequest(id: nat, results: Results)
      requires Valid() && id !in requests
      modifies this`requests
      ensures Valid() && fresh(requests.Values - old(requests.Values))
      ensures Requests() == old(Requests())[id := results] && Workers() == old(Workers())
    {
      var request := new RequestEntry(id, results);
      requests := requests[id := request];
    }

    method TrackRequest(id: nat, keys: seq<WorkerKey>) returns (err: Option<string>)
      requires Valid()
      modifies this`requests
      ensures Valid() && fresh(requests.Values - old(requests.Values)) && workers == old(workers)
      ensures Outcome(View(), err) == DoTrack(old(View()), id, keys)
    {
      hide Assign, Workers, Requests;
      SameKeys();
      if id == 0 {
        return Some(ZERO_ID);
      }
      if id in requests {
        return Some(ALREADY_TRACKED);
      }
      if |keys| == 0 {
        return Some(NO_WORKERS);
      }
      var outcome := AssignWorkers(keys);
      if outcome.Failure? {
        return Some(outcome.error);
      }
      AddRequest(id, outcome.value);
      return None;
    }

    method RecordResult(id: nat, key: WorkerKey, verdict: Verdict) returns (err: Option<string>)
      requires Valid()
      modifies requests.Values
      ensures Outcome(View(), err) == DoRecord(old(View()), id, key, verdict)
    {
      if id !in requests {
        return Some(NOT_TRACKED);
      }
      var request := requests[id];
      if key !in request.results {
        return Some(NOT_ASSIGNED);
      }
      if request.results[key] != NoVerdict {
        return Some(HAS_RESULT);
      }
      if !ValidVerdict(verdict) {
        return Some(INVALID_VERDICT);
      }
      ghost var was := Requests();
      request.results := request.results[key := verdict];
      assert Requests() == was[id := was[id][key := verdict]];
      return None;
    }

    method RecordWorkerExit(key: WorkerKey, pid: int, code: int, exit: Option<string>)
      requires Valid()
      modifies this`active, workers.Values, requests.Values
      ensures View() == DoExit(old(View()), key, pid, code, exit)
    {
      hide CoordinatorSpec.NoteExit, LoseWorker;
      if key !in workers || workers[key].pid != pid {
        return;
      }
      ghost var was := Workers();
      var worker := workers[key];
      worker.NoteExit(code, exit);
      assert Workers() == was[key := worker.Rec()];
      if worker.state == Runtime.Retired {
        return;
      }
      GiveUp(key);
    }

    /** What recordWorkerExit does to a worker that is not RETIRED. */
    method GiveUp(key: WorkerKey)
      requires Valid() && key in workers
      modifies this`active, workers.Values, requests.Values
      ensures View() == LoseWorker(old(View()), key)
    {
      hide SweepAll, Lost, Workers, Requests;
      WorkerAt(key);
      workers[key].Lose();
      OneRecord(workers[key]);
      RemoveRoute(key);
      MarkPendingUnavailable(key);
    }

    method RemoveRoute(key: WorkerKey)
      modifies this`active
      ensures active == Unroute(old(active), key)
    {
      if key.scannerId in active && active[key.scannerId] == key {
        active := active - {key.scannerId};
      }
    }

    /** One turn of the loop in run. */
    method Process(command: Command) returns (err: Option<string>)
      requires Valid()
      modifies this, workers.Values, requests.Values
      ensures Valid() && fresh(workers.Values - old(workers.Values)) && fresh(requests.Values - old(requests.Values))
      ensures Outcome(View(), err) == Do(old(View()), command)
      ensures Inv(old(View())) ==> Inv(View()) && CoordinatorOutcomes.Exact(old(View()), command, Outcome(View(), err))
    {
      hide Inv, CoordinatorOutcomes.Exact;
      if Inv(View()) {
        DoKeeps(View(), command);
        CoordinatorOutcomes.DoExactly(View(), command);
      }
      hide DoRegister, DoMarkHealthy, DoFail, DoActivate, DoRetire, DoTrack, DoRecord, DoExit;
      match command
      case Register(key, child) => err := RegisterWorker(key, child);
      case MarkHealthy(key) => err := MarkWorkerHealthy(key);
      case Fail(key, reason, terminated) => err := FailCandidate(key, reason, terminated);
      case Activate(key) => err := ActivateWorker(key);
      case Retire(key) => err := RetireWorker(key);
      case Track(id, keys) => err := TrackRequest(id, keys);
      case Record(id, key, verdict) => err := RecordResult(id, key, verdict);
      case Exited(key, pid, code, exit) =>
        RecordWorkerExit(key, pid, code, exit);
        err := None;
    }
  }

  /** Swept, except the requests of `rest`. */
  function SweptBut(requests: map<nat, Results>, k: WorkerKey, rest: set<nat>): map<nat, Results> {
    map id | id in requests :: if id in rest then requests[id] else Sweep(requests[id], k)
  }

  lemma SweptMore(requests: map<nat, Results>, k: WorkerKey, rest: set<nat>, id: nat)
    requires id in rest && id in requests
    ensures var some := SweptBut(requests, k, rest);
            id in some && SweptBut(requests, k, rest - {id}) == some[id := Sweep(some[id], k)]
  {
  }

  /** An error met on the way is the error of the whole. */
  lemma {:induction false} AssignFails(workers: map<WorkerKey, Worker>, keys: seq<WorkerKey>, i: nat, error: string)
    requires i <= |keys| && Assign(workers, keys[..i]) == Failure(error)
    ensures Assign(workers, keys) == Failure(error)
    decreases |keys|
  {
    if i < |keys| {
      assert keys[..|keys| - 1][..i] == keys[..i];
      AssignFails(workers, keys[..|keys| - 1], i, error);
    } else {
      assert keys[..i] == keys;
    }
  }
}
