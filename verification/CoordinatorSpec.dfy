/**
 The Coordinator as a command machine (pkg/coordinator/coordinator.go), and what every sequence of commands keeps.

 A command that returns an error leaves the state as it is, with one exception: failWorker has already marked
 the worker when terminating its process fails.
 */
module CoordinatorSpec {
  import opened Wrappers
  import opened Messages
  import opened Text
  import Runtime = RuntimeSpec

  type WorkerKey = Runtime.WorkerKey
  type WorkerState = Runtime.WorkerState

  datatype Worker = Worker(pid: int, state: WorkerState, failureReason: string, exitCode: int, exitError: string) {
    predicate Candidate() { state == Runtime.Starting || state == Runtime.Healthy }
  }

  /** A pending verdict is NoVerdict, the empty string. */
  type Results = map<WorkerKey, Verdict>

  datatype State = State(workers: map<WorkerKey, Worker>, active: map<string, WorkerKey>, requests: map<nat, Results>)

  /** `child` is the process ID, None for a nil child; `terminated` is what terminating the process came to. */
  datatype Command =
    | Register(key: WorkerKey, child: Option<int>)
    | MarkHealthy(key: WorkerKey)
    | Fail(key: WorkerKey, reason: string, terminated: Option<string>)
    | Activate(key: WorkerKey)
    | Retire(key: WorkerKey)
    | Track(id: nat, keys: seq<WorkerKey>)
    | Record(id: nat, key: WorkerKey, verdict: Verdict)
    | Exited(key: WorkerKey, pid: int, code: int, err: Option<string>)

  datatype Outcome = Outcome(state: State, error: Option<string>)

  const NO_SCANNER := "worker scanner ID must not be empty"
  const NO_VERSION := "worker version must not be empty"
  const NO_CHILD := "worker child must not be nil"
  const ALREADY_REGISTERED := "worker is already registered"
  const HAS_CANDIDATE := "scanner already has a candidate"
  const NOT_REGISTERED := "worker is not registered"
  const INVALID_TRANSITION := "worker cannot make this transition"
  const CANNOT_FAIL := "worker cannot fail before activation from its state"
  const NO_REASON := "worker failure reason must not be empty"
  const INVALID_ROUTE := "scanner has an invalid active route"
  const IN_FLIGHT := "worker still has an in-flight request"
  const ZERO_ID := "request ID must be greater than zero"
  const ALREADY_TRACKED := "request is already tracked"
  const NO_WORKERS := "request must include at least one worker"
  const DUPLICATED := "worker is duplicated for the request"
  const CANNOT_RECEIVE := "worker cannot receive a request in its state"
  const NOT_TRACKED := "request is not tracked"
  const NOT_ASSIGNED := "worker is not assigned to the request"
  const HAS_RESULT := "worker already has a result for the request"
  const INVALID_VERDICT := "invalid verdict"
  const EXITED := "worker exited unexpectedly"

  const INIT := State(map[], map[], map[])

  function Done(c: State): Outcome { Outcome(c, None) }

  function Refused(c: State, error: string): Outcome { Outcome(c, Some(error)) }

  function SetWorker(c: State, k: WorkerKey, w: Worker): State { c.(workers := c.workers[k := w]) }

  predicate HasCandidate(c: State, scannerId: string) {
    exists k :: k in c.workers && k.scannerId == scannerId && c.workers[k].Candidate()
  }

  function Sweep(results: Results, k: WorkerKey): Results {
    if k in results && results[k] == NoVerdict then results[k := VerdictUnavailable] else results
  }

  /** markPendingUnavailable */
  function SweepAll(requests: map<nat, Results>, k: WorkerKey): map<nat, Results> {
    map id | id in requests :: Sweep(requests[id], k)
  }

  predicate Owes(c: State, id: nat, k: WorkerKey) {
    id in c.requests && k in c.requests[id] && c.requests[id][k] == NoVerdict
  }

  predicate InFlight(c: State, k: WorkerKey) { exists id :: id in c.requests && Owes(c, id, k) }

  function DoRegister(c: State, k: WorkerKey, child: Option<int>): Outcome {
    if IsBlank(k.scannerId) then Refused(c, NO_SCANNER)
    else if IsBlank(k.version) then Refused(c, NO_VERSION)
    else if child.None? then Refused(c, NO_CHILD)
    else if k in c.workers then Refused(c, ALREADY_REGISTERED)
    else if HasCandidate(c, k.scannerId) then Refused(c, HAS_CANDIDATE)
    else Done(SetWorker(c, k, Worker(child.value, Runtime.Starting, "", 0, "")))
  }

  function DoMarkHealthy(c: State, k: WorkerKey): Outcome {
    if k !in c.workers then Refused(c, NOT_REGISTERED)
    else if c.workers[k].state != Runtime.Starting then Refused(c, INVALID_TRANSITION)
    else Done(SetWorker(c, k, c.workers[k].(state := Runtime.Healthy)))
  }

  function DoFail(c: State, k: WorkerKey, reason: string, terminated: Option<string>): Outcome {
    if k !in c.workers then Refused(c, NOT_REGISTERED)
    else if !c.workers[k].Candidate() then Refused(c, CANNOT_FAIL)
    else if IsBlank(reason) then Refused(c, NO_REASON)
    else
      var failed := SetWorker(c, k, c.workers[k].(state := Runtime.Failed, failureReason := reason));
      Outcome(failed.(requests := SweepAll(c.requests, k)), terminated)
  }

  predicate RouteBroken(c: State, scannerId: string) {
    scannerId in c.active
    && (c.active[scannerId] !in c.workers || c.workers[c.active[scannerId]].state != Runtime.Active)
  }

  function Displace(c: State, scannerId: string): State {
    if scannerId in c.active && c.active[scannerId] in c.workers then
      SetWorker(c, c.active[scannerId], c.workers[c.active[scannerId]].(state := Runtime.Draining))
    else c
  }

  function Promote(c: State, k: WorkerKey): State
    requires k in c.workers
  {
    SetWorker(c, k, c.workers[k].(state := Runtime.Active)).(active := c.active[k.scannerId := k])
  }

  function DoActivate(c: State, k: WorkerKey): Outcome {
    if k !in c.workers then Refused(c, NOT_REGISTERED)
    else if c.workers[k].state != Runtime.Healthy then Refused(c, INVALID_TRANSITION)
    else if RouteBroken(c, k.scannerId) then Refused(c, INVALID_ROUTE)
    else
      Done(Promote(Displace(c, k.scannerId), k))
  }

  function DoRetire(c: State, k: WorkerKey): Outcome {
    if k !in c.workers then Refused(c, NOT_REGISTERED)
    else if c.workers[k].state != Runtime.Draining then Refused(c, INVALID_TRANSITION)
    else if InFlight(c, k) then Refused(c, IN_FLIGHT)
    else Done(SetWorker(c, k, c.workers[k].(state := Runtime.Retired)))
  }

  /** The loop of trackRequest: the first key in trouble decides the error. */
  function Assign(workers: map<WorkerKey, Worker>, keys: seq<WorkerKey>): Result<Results> {
    if keys == [] then Success(map[])
    else
      var n := |keys| - 1;
      var k := keys[n];
      match Assign(workers, keys[..n])
      case Failure(error) => Failure(error)
      case Success(results) =>
        if k !in workers then Failure(NOT_REGISTERED)
        else if k in results then Failure(DUPLICATED)
        else if workers[k].state == Runtime.Active then Success(results[k := NoVerdict])
        else if workers[k].state == Runtime.Failed then Success(results[k := VerdictUnavailable])
        else Failure(CANNOT_RECEIVE)
  }

  function DoTrack(c: State, id: nat, keys: seq<WorkerKey>): Outcome {
    if id == 0 then Refused(c, ZERO_ID)
    else if id in c.requests then Refused(c, ALREADY_TRACKED)
    else if keys == [] then Refused(c, NO_WORKERS)
    else
      match Assign(c.workers, keys)
      case Failure(error) => Refused(c, error)
      case Success(results) => Done(c.(requests := c.requests[id := results]))
  }

  function DoRecord(c: State, id: nat, k: WorkerKey, verdict: Verdict): Outcome {
    if id !in c.requests then Refused(c, NOT_TRACKED)
    else if k !in c.requests[id] then Refused(c, NOT_ASSIGNED)
    else if c.requests[id][k] != NoVerdict then Refused(c, HAS_RESULT)
    else if !ValidVerdict(verdict) then Refused(c, INVALID_VERDICT)
    else Done(c.(requests := c.requests[id := c.requests[id][k := verdict]]))
  }

  function NoteExit(w: Worker, code: int, err: Option<string>): Worker {
    w.(exitCode := code, exitError := if err.Some? then err.value else w.exitError)
  }

  function Lost(w: Worker): Worker {
    w.(state := Runtime.Failed, failureReason := if w.failureReason == "" then EXITED else w.failureReason)
  }

  function Unroute(active: map<string, WorkerKey>, k: WorkerKey): map<string, WorkerKey> {
    if k.scannerId in active && active[k.scannerId] == k then active - {k.scannerId} else active
  }

  /** The worker is FAILED, its route is gone, and what it owes is UNAVAILABLE. */
  function LoseWorker(c: State, k: WorkerKey): State
    requires k in c.workers
  {
    SetWorker(c, k, Lost(c.workers[k])).(active := Unroute(c.active, k), requests := SweepAll(c.requests, k))
  }

  function DoExit(c: State, k: WorkerKey, pid: int, code: int, err: Option<string>): State {
    if k !in c.workers || c.workers[k].pid != pid then c
    else
      var w := NoteExit(c.workers[k], code, err);
      if w.state == Runtime.Retired then SetWorker(c, k, w)
      else LoseWorker(SetWorker(c, k, w), k)
  }

  function Do(c: State, command: Command): Outcome {
    match command
    case Register(k, child) => DoRegister(c, k, child)
    case MarkHealthy(k) => DoMarkHealthy(c, k)
    case Fail(k, reason, terminated) => DoFail(c, k, reason, terminated)
    case Activate(k) => DoActivate(c, k)
    case Retire(k) => DoRetire(c, k)
    case Track(id, keys) => DoTrack(c, id, keys)
    case Record(id, k, verdict) => DoRecord(c, id, k, verdict)
    case Exited(k, pid, code, err) => Done(DoExit(c, k, pid, code, err))
  }

  function Run(commands: seq<Command>): State {
    if commands == [] then INIT else Do(Run(commands[..|commands| - 1]), commands[|commands| - 1]).state
  }

  // ----- invariant

  ghost predicate RoutesOk(c: State) {
    && (forall id | id in c.active ::
          c.active[id] in c.workers && c.active[id].scannerId == id && c.workers[c.active[id]].state == Runtime.Active)
    && (forall k | k in c.workers && c.workers[k].state == Runtime.Active :: k.scannerId in c.active && c.active[k.scannerId] == k)
  }

  predicate Obliged(state: WorkerState) { state == Runtime.Active || state == Runtime.Draining }

  /** What is pending is owed by a worker that is ACTIVE or DRAINING; what is not is a verdict. */
  predicate EntryOk(workers: map<WorkerKey, Worker>, k: WorkerKey, verdict: Verdict) {
    k in workers && if verdict == NoVerdict then Obliged(workers[k].state) else ValidVerdict(verdict)
  }

  ghost predicate DebtsOk(c: State) {
    forall id, k | id in c.requests && k in c.requests[id] :: EntryOk(c.workers, k, c.requests[id][k])
  }

  ghost predicate CandidatesOk(c: State) {
    forall j, k | j in c.workers && k in c.workers && j.scannerId == k.scannerId
                  && c.workers[j].Candidate() && c.workers[k].Candidate() :: j == k
  }

  ghost predicate Inv(c: State) { RoutesOk(c) && DebtsOk(c) && CandidatesOk(c) }

  predicate CanReceive(workers: map<WorkerKey, Worker>, k: WorkerKey) {
    k in workers && (workers[k].state == Runtime.Active || workers[k].state == Runtime.Failed)
  }

  /** Distinct registered workers, each ACTIVE or FAILED. */
  ghost predicate Trackable(workers: map<WorkerKey, Worker>, keys: seq<WorkerKey>) {
    (forall i | 0 <= i < |keys| :: CanReceive(workers, keys[i])) && (forall i, j | 0 <= i < j < |keys| :: keys[i] != keys[j])
  }

  /** The entries of an ACTIVE worker start pending, those of a FAILED one UNAVAILABLE. */
  ghost predicate StartsAs(workers: map<WorkerKey, Worker>, keys: seq<WorkerKey>, r: Results) {
    && (forall k :: k in r <==> k in keys)
    && (forall k | k in r :: k in workers && r[k] == if workers[k].state == Runtime.Active then NoVerdict else VerdictUnavailable)
  }

  lemma TrackableStep(workers: map<WorkerKey, Worker>, keys: seq<WorkerKey>, k: WorkerKey)
    ensures Trackable(workers, keys + [k]) <==> Trackable(workers, keys) && CanReceive(workers, k) && k !in keys
  {
    hide CanReceive;
    var all := keys + [k];
    assert forall i | 0 <= i < |keys| :: all[i] == keys[i];
    if Trackable(workers, all) {
      assert all[|keys|] == k;
    }
  }

  lemma StartsAsStep(workers: map<WorkerKey, Worker>, keys: seq<WorkerKey>, k: WorkerKey, r: Results)
    requires StartsAs(workers, keys, r) && k in workers
    ensures StartsAs(workers, keys + [k], r[k := if workers[k].state == Runtime.Active then NoVerdict else VerdictUnavailable])
  {
  }

  /** Tracking succeeds exactly for distinct registered workers that are ACTIVE or FAILED, whose entries start pending or UNAVAILABLE. */
  lemma {:induction false} AssignExactly(workers: map<WorkerKey, Worker>, keys: seq<WorkerKey>)
    ensures Assign(workers, keys).Success? <==> Trackable(workers, keys)
    ensures Assign(workers, keys).Success? ==> StartsAs(workers, keys, Assign(workers, keys).value)
  {
    if keys != [] {
      var n := |keys| - 1;
      AssignExactly(workers, keys[..n]);
      assert keys == keys[..n] + [keys[n]];
      TrackableStep(workers, keys[..n], keys[n]);
      if Assign(workers, keys[..n]).Success? {
        var r := Assign(workers, keys[..n]).value;
        assert keys[n] in r <==> keys[n] in keys[..n];
        hide Trackable, StartsAs;
        if keys[n] in workers {
          StartsAsStep(workers, keys[..n], keys[n], r);
        }
      }
    }
  }

  lemma SweepSettles(c: State, k: WorkerKey)
    requires DebtsOk(c)
    ensures forall id, j | id in c.requests && j in c.requests[id] ::
              SweepAll(c.requests, k)[id].Keys == c.requests[id].Keys
              && (j != k ==> SweepAll(c.requests, k)[id][j] == c.requests[id][j])
              && (j == k ==> SweepAll(c.requests, k)[id][j] != NoVerdict && ValidVerdict(SweepAll(c.requests, k)[id][j]))
  {
  }

  /** A candidate owes nothing, so failWorker's sweep changes nothing. */
  lemma CandidateOwesNothing(c: State, k: WorkerKey)
    requires Inv(c) && k in c.workers && c.workers[k].Candidate()
    ensures SweepAll(c.requests, k) == c.requests
  {
    hide RoutesOk, CandidatesOk;
    forall id | id in c.requests ensures Sweep(c.requests[id], k) == c.requests[id] {
      if k in c.requests[id] {
        assert c.requests[id][k] != NoVerdict;
      }
    }
  }

  /** The error "invalid active route" cannot occur. */
  lemma RouteNeverBroken(c: State, k: WorkerKey)
    requires Inv(c)
    ensures DoActivate(c, k).error != Some(INVALID_ROUTE)
  {
    hide DebtsOk, CandidatesOk;
  }

  lemma RetiredOwesNothing(c: State, k: WorkerKey, id: nat)
    requires Inv(c) && k in c.workers && c.workers[k].state == Runtime.Retired
    ensures !Owes(c, id, k)
  {
    hide RoutesOk, CandidatesOk;
  }

  // ----- every command keeps it

  /** The requests are the same, and whoever owes a verdict is still at work. */
  lemma DebtsCarry(c: State, t: State)
    requires DebtsOk(c) && t.requests == c.requests && c.workers.Keys <= t.workers.Keys
    requires forall id, k | Owes(c, id, k) && k in t.workers :: Obliged(t.workers[k].state)
    ensures DebtsOk(t)
  {
    forall id, k | id in t.requests && k in t.requests[id] ensures EntryOk(t.workers, k, t.requests[id][k]) {
      assert Owes(c, id, k) <==> c.requests[id][k] == NoVerdict;
      assert EntryOk(c.workers, k, c.requests[id][k]);
    }
  }

  lemma DebtorAtWork(c: State)
    requires DebtsOk(c)
    ensures forall id, k | Owes(c, id, k) :: k in c.workers && Obliged(c.workers[k].state)
  {
  }

  lemma RegisterKeeps(c: State, k: WorkerKey, child: Option<int>)
    requires Inv(c)
    ensures Inv(DoRegister(c, k, child).state)
  {
    hide DebtsOk, Owes, IsBlank, Obliged;
    var t := DoRegister(c, k, child).state;
    RegisterRoutes(c, k, child);
    hide RoutesOk, CandidatesOk;
    DebtorAtWork(c);
    DebtsCarry(c, t);
  }

  lemma RegisterRoutes(c: State, k: WorkerKey, child: Option<int>)
    requires RoutesOk(c) && CandidatesOk(c)
    ensures var t := DoRegister(c, k, child).state; RoutesOk(t) && CandidatesOk(t)
  {
    hide IsBlank;
  }

  lemma MarkHealthyKeeps(c: State, k: WorkerKey)
    requires Inv(c)
    ensures Inv(DoMarkHealthy(c, k).state)
  {
    var t := DoMarkHealthy(c, k).state;
    hide DebtsOk, Owes;
    assert RoutesOk(t) by { hide CandidatesOk; }
    DebtorAtWork(c);
    DebtsCarry(c, t);
    hide RoutesOk;
  }

  lemma FailKeeps(c: State, k: WorkerKey, reason: string, terminated: Option<string>)
    requires Inv(c)
    ensures Inv(DoFail(c, k, reason, terminated).state)
  {
    hide DebtsOk, Owes, SweepAll, IsBlank;
    if k in c.workers && c.workers[k].Candidate() {
      CandidateOwesNothing(c, k);
    }
    var t := DoFail(c, k, reason, terminated).state;
    FailRoutes(c, k, reason, terminated);
    hide RoutesOk, CandidatesOk;
    DebtorAtWork(c);
    DebtsCarry(c, t);
  }

  lemma FailRoutes(c: State, k: WorkerKey, reason: string, terminated: Option<string>)
    requires RoutesOk(c) && CandidatesOk(c)
    ensures var t := DoFail(c, k, reason, terminated).state; RoutesOk(t) && CandidatesOk(t)
  {
    hide SweepAll, IsBlank;
  }

  lemma ActivateShape(c: State, k: WorkerKey)
    requires RoutesOk(c) && k in c.workers && c.workers[k].state == Runtime.Healthy
    ensures var t := DoActivate(c, k).state;
            && t.workers.Keys == c.workers.Keys && t.requests == c.requests && t.active == c.active[k.scannerId := k]
            && forall j | j in c.workers :: t.workers[j].state ==
                 if j == k then Runtime.Active
                 else if k.scannerId in c.active && c.active[k.scannerId] == j then Runtime.Draining
                 else c.workers[j].state
  {
  }

  lemma ActivatedRoutes(c: State, t: State, k: WorkerKey)
    requires RoutesOk(c) && k in c.workers
    requires t.workers.Keys == c.workers.Keys && t.active == c.active[k.scannerId := k]
    requires forall j | j in c.workers :: t.workers[j].state ==
               if j == k then Runtime.Active
               else if k.scannerId in c.active && c.active[k.scannerId] == j then Runtime.Draining
               else c.workers[j].state
    ensures RoutesOk(t)
  {
    forall j | j in t.workers && t.workers[j].state == Runtime.Active ensures j.scannerId in t.active && t.active[j.scannerId] == j {
      if j != k {
        assert c.active[j.scannerId] == j;
      }
    }
  }

  lemma ActivateKeeps(c: State, k: WorkerKey)
    requires Inv(c)
    ensures Inv(DoActivate(c, k).state)
  {
    var t := DoActivate(c, k).state;
    if k in c.workers && c.workers[k].state == Runtime.Healthy {
      hide DebtsOk, CandidatesOk, Owes, DoActivate;
      ActivateShape(c, k);
      ActivatedRoutes(c, t, k);
      RouteActive(c, k.scannerId);
      hide RoutesOk;
      DebtorAtWork(c);
      DebtsCarry(c, t);
      FewerCandidates(c, t);
    }
  }

  lemma RouteActive(c: State, scannerId: string)
    requires RoutesOk(c)
    ensures scannerId in c.active ==> c.active[scannerId] in c.workers && c.workers[c.active[scannerId]].state == Runtime.Active
  {
  }

  lemma FewerCandidates(c: State, t: State)
    requires CandidatesOk(c) && forall k | k in t.workers && t.workers[k].Candidate() :: k in c.workers && c.workers[k].Candidate()
    ensures CandidatesOk(t)
  {
  }

  lemma NotInFlight(c: State, k: WorkerKey)
    requires !InFlight(c, k)
    ensures forall id: nat :: !Owes(c, id, k)
  {
    assert forall id: nat | id in c.requests :: !Owes(c, id, k);
  }

  lemma RetireKeeps(c: State, k: WorkerKey)
    requires Inv(c)
    ensures Inv(DoRetire(c, k).state)
  {
    var t := DoRetire(c, k).state;
    if t != c {
      NotInFlight(c, k);
      hide DebtsOk, Owes, InFlight;
      assert RoutesOk(t) by { hide CandidatesOk; }
      DebtorAtWork(c);
      DebtsCarry(c, t);
      hide RoutesOk;
      FewerCandidates(c, t);
    }
  }

  lemma TrackKeeps(c: State, id: nat, keys: seq<WorkerKey>)
    requires Inv(c)
    ensures Inv(DoTrack(c, id, keys).state)
  {
    AssignExactly(c.workers, keys);
    hide Assign, RoutesOk, CandidatesOk;
    var t := DoTrack(c, id, keys).state;
    SameRecords(c, t);
    if t != c {
      NewDebts(c, id, keys, Assign(c.workers, keys).value);
    }
  }

  lemma NewDebts(c: State, id: nat, keys: seq<WorkerKey>, r: Results)
    requires DebtsOk(c) && StartsAs(c.workers, keys, r) && Trackable(c.workers, keys)
    ensures DebtsOk(c.(requests := c.requests[id := r]))
  {
    forall k | k in r ensures EntryOk(c.workers, k, r[k]) {
      var i :| 0 <= i < |keys| && keys[i] == k;
      assert CanReceive(c.workers, keys[i]);
    }
    hide Trackable, StartsAs, EntryOk;
  }

  lemma SameRecords(c: State, t: State)
    requires t.workers == c.workers && t.active == c.active
    ensures (RoutesOk(c) ==> RoutesOk(t)) && (CandidatesOk(c) ==> CandidatesOk(t))
  {
  }

  lemma RecordKeeps(c: State, id: nat, k: WorkerKey, verdict: Verdict)
    requires Inv(c)
    ensures Inv(DoRecord(c, id, k, verdict).state)
  {
    var t := DoRecord(c, id, k, verdict).state;
    assert RoutesOk(t) && CandidatesOk(t) by { hide DebtsOk; }
  }

  lemma SweptDebts(c: State, t: State, k: WorkerKey)
    requires DebtsOk(c) && t.requests == SweepAll(c.requests, k) && c.workers.Keys <= t.workers.Keys
    requires forall j | j in c.workers && j != k :: t.workers[j] == c.workers[j]
    ensures DebtsOk(t)
  {
    SweepSettles(c, k);
    SweepKeys(c.requests, k);
    hide SweepAll;
  }

  lemma ExitKeeps(c: State, k: WorkerKey, pid: int, code: int, err: Option<string>)
    requires Inv(c)
    ensures Inv(DoExit(c, k, pid, code, err))
  {
    hide DebtsOk, SweepAll, Owes, RoutesOk, CandidatesOk, LoseWorker;
    if k in c.workers && c.workers[k].pid == pid {
      var d := SetWorker(c, k, NoteExit(c.workers[k], code, err));
      NotedKeeps(c, d, k);
      if d.workers[k].state != Runtime.Retired {
        LoseKeeps(d, k);
      }
    }
  }

  lemma NotedKeeps(c: State, d: State, k: WorkerKey)
    requires Inv(c) && k in c.workers && k in d.workers && d == SetWorker(c, k, d.workers[k])
    requires d.workers[k].state == c.workers[k].state
    ensures Inv(d)
  {
    assert RoutesOk(d) by { hide DebtsOk, CandidatesOk; }
    assert CandidatesOk(d) by { hide DebtsOk, RoutesOk; }
    assert DebtsOk(d) by { hide CandidatesOk, RoutesOk; }
  }

  lemma LoseKeeps(c: State, k: WorkerKey)
    requires Inv(c) && k in c.workers
    ensures Inv(LoseWorker(c, k))
  {
    hide DebtsOk, SweepAll, RoutesOk, CandidatesOk;
    var t := LoseWorker(c, k);
    SweptDebts(c, t, k);
    FewerCandidates(c, t);
    LostRoutes(c, t, k);
  }

  lemma LostRoutes(c: State, t: State, k: WorkerKey)
    requires RoutesOk(c) && k in c.workers && k in t.workers && t.workers == c.workers[k := t.workers[k]]
    requires t.workers[k].state == Runtime.Failed && t.active == Unroute(c.active, k)
    ensures RoutesOk(t)
  {
  }

  lemma SweepKeys(requests: map<nat, Results>, k: WorkerKey)
    ensures SweepAll(requests, k).Keys == requests.Keys
  {
  }

  lemma DoKeeps(c: State, command: Command)
    requires Inv(c)
    ensures Inv(Do(c, command).state)
  {
    hide Inv;
    match command
    case Register(k, child) => RegisterKeeps(c, k, child);
    case MarkHealthy(k) => MarkHealthyKeeps(c, k);
    case Fail(k, reason, terminated) => FailKeeps(c, k, reason, terminated);
    case Activate(k) => ActivateKeeps(c, k);
    case Retire(k) => RetireKeeps(c, k);
    case Track(id, keys) => TrackKeeps(c, id, keys);
    case Record(id, k, verdict) => RecordKeeps(c, id, k, verdict);
    case Exited(k, pid, code, err) => ExitKeeps(c, k, pid, code, err);
  }

  /** The invariant holds after every sequence of commands. */
  lemma {:induction false} RunKeeps(commands: seq<Command>)
    ensures Inv(Run(commands))
  {
    if commands != [] {
      RunKeeps(commands[..|commands| - 1]);
      hide Inv, Do;
      DoKeeps(Run(commands[..|commands| - 1]), commands[|commands| - 1]);
    }
  }

  /**
   After every sequence of commands: a pending verdict is owed by an ACTIVE or DRAINING worker, so a RETIRED one
   owes nothing and failing a candidate sweeps nothing; and activation never meets an invalid route.
   */
  lemma PendingDiscipline(commands: seq<Command>, k: WorkerKey)
    ensures var c := Run(commands);
            && (forall id | Owes(c, id, k) :: k in c.workers && Obliged(c.workers[k].state))
            && (k in c.workers && c.workers[k].state == Runtime.Retired ==> forall id: nat :: !Owes(c, id, k))
            && (k in c.workers && c.workers[k].Candidate() ==> SweepAll(c.requests, k) == c.requests)
            && DoActivate(c, k).error != Some(INVALID_ROUTE)
  {
    var c := Run(commands);
    RunKeeps(commands);
    RouteNeverBroken(c, k);
    DebtorAtWork(c);
    hide DoActivate, Run, Inv, Owes, SweepAll;
    if k in c.workers && c.workers[k].Candidate() {
      CandidateOwesNothing(c, k);
    }
    if k in c.workers && c.workers[k].state == Runtime.Retired {
      forall id: nat ensures !Owes(c, id, k) {
        RetiredOwesNothing(c, k, id);
      }
    }
  }

  // ----- what one command may change

  function Rank(state: WorkerState): nat {
    match state
    case Starting => 0
    case Healthy => 1
    case Active => 2
    case Draining => 3
    case Retired => 4
    case Failed => 4
  }

  /** Workers stay and only move forward; requests stay, with the same workers, and a verdict given stays. */
  ghost predicate Moves(c: State, d: State) {
    && (forall k | k in c.workers ::
          k in d.workers && (d.workers[k].state == c.workers[k].state || Rank(c.workers[k].state) < Rank(d.workers[k].state)))
    && (forall id | id in c.requests ::
          id in d.requests && d.requests[id].Keys == c.requests[id].Keys
          && forall k | k in c.requests[id] && c.requests[id][k] != NoVerdict :: d.requests[id][k] == c.requests[id][k])
  }

  /** The workers move and the requests are the same. */
  lemma WorkersMove(c: State, d: State)
    requires d.requests == c.requests
    requires forall k | k in c.workers ::
               k in d.workers && (d.workers[k].state == c.workers[k].state || Rank(c.workers[k].state) < Rank(d.workers[k].state))
    ensures Moves(c, d)
  {
  }

  lemma ExitMoves(c: State, k: WorkerKey, pid: int, code: int, err: Option<string>)
    ensures Moves(c, DoExit(c, k, pid, code, err))
  {
  }

  lemma FailMoves(c: State, k: WorkerKey, reason: string, terminated: Option<string>)
    ensures Moves(c, DoFail(c, k, reason, terminated).state)
  {
    hide IsBlank;
  }

  lemma DoMoves(c: State, command: Command)
    requires Inv(c)
    ensures Moves(c, Do(c, command).state)
  {
    hide DebtsOk, CandidatesOk, Assign, HasCandidate, InFlight, IsBlank, DoExit, DoFail, Moves;
    var d := Do(c, command).state;
    match command
    case Fail(k, reason, terminated) => FailMoves(c, k, reason, terminated);
    case Activate(k) =>
      ActivateMoves(c, k);
    case Track(id, keys) => TrackMoves(c, id, keys);
    case Record(id, k, verdict) => RecordMoves(c, id, k, verdict);
    case Exited(k, pid, code, err) => ExitMoves(c, k, pid, code, err);
    case _ => WorkersMove(c, d);
  }

  lemma ActivateMoves(c: State, k: WorkerKey)
    requires RoutesOk(c)
    ensures Moves(c, DoActivate(c, k).state)
  {
    if k in c.workers && c.workers[k].state == Runtime.Healthy { ActivateShape(c, k); }
    RouteActive(c, k.scannerId);
    hide RoutesOk, DoActivate;
    if k in c.workers && c.workers[k].state == Runtime.Healthy {
      WorkersMove(c, DoActivate(c, k).state);
    } else {
      Unmoved(c, k);
    }
  }

  lemma Unmoved(c: State, k: WorkerKey)
    requires k !in c.workers || c.workers[k].state != Runtime.Healthy
    ensures Moves(c, DoActivate(c, k).state)
  {
  }

  lemma TrackMoves(c: State, id: nat, keys: seq<WorkerKey>)
    ensures Moves(c, DoTrack(c, id, keys).state)
  {
    hide Assign;
  }

  lemma RecordMoves(c: State, id: nat, k: WorkerKey, verdict: Verdict)
    ensures Moves(c, DoRecord(c, id, k, verdict).state)
  {
  }

  lemma MovesTrans(c: State, d: State, e: State)
    requires Moves(c, d) && Moves(d, e)
    ensures Moves(c, e)
  {
  }

  /** Over every continuation: FAILED and RETIRED are final, key sets are fixed, verdicts are written once. */
  lemma {:induction false} RunMoves(past: seq<Command>, future: seq<Command>)
    ensures Moves(Run(past), Run(past + future))
  {
    hide Inv, Moves, Do;
    if future == [] {
      assert past + future == past;
      SameMoves(Run(past));
    } else {
      var n := |future| - 1;
      assert (past + future)[..|past + future| - 1] == past + future[..n];
      RunMoves(past, future[..n]);
      RunKeeps(past + future[..n]);
      DoMoves(Run(past + future[..n]), future[n]);
      MovesTrans(Run(past), Run(past + future[..n]), Run(past + future));
    }
  }

  lemma SameMoves(c: State)
    ensures Moves(c, c)
  {
  }
}
