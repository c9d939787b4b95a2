/** What a caller of the Coordinator is told, and what a command did: no error iff it took effect, in every reachable state. */
module CoordinatorOutcomes {
  import opened Wrappers
  import opened Messages
  import opened Text
  import opened CoordinatorSpec
  import Runtime = RuntimeSpec

  /** Worker k is registered and in this state. */
  predicate Is(c: State, k: WorkerKey, state: WorkerState) { k in c.workers && c.workers[k].state == state }

  /** A STARTING or HEALTHY worker of this scanner is registered. */
  ghost predicate Taken(c: State, scannerId: string) {
    exists k :: k in c.workers && k.scannerId == scannerId && (c.workers[k].state == Runtime.Starting || c.workers[k].state == Runtime.Healthy)
  }

  /** Request id waits for worker k. */
  predicate Pending(c: State, id: nat, k: WorkerKey) { id in c.requests && k in c.requests[id] && c.requests[id][k] == NoVerdict }

  /** From c to d nothing changed but the record of worker k, which is now w. */
  predicate Only(c: State, d: State, k: WorkerKey, w: Worker) {
    d.active == c.active && d.requests == c.requests && d.workers == c.workers[k := w]
  }

  /** The command did what it is for. */
  ghost predicate TookEffect(c: State, command: Command, d: State) {
    match command
    case Register(k, child) =>
      k !in c.workers && child.Some? && Only(c, d, k, Worker(child.value, Runtime.Starting, "", 0, ""))
    case MarkHealthy(k) => Is(c, k, Runtime.Starting) && Only(c, d, k, c.workers[k].(state := Runtime.Healthy))
    case Fail(k, reason, terminated) => terminated.None? && MarkedFailed(c, k, reason, d)
    case Activate(k) =>
      && Is(c, k, Runtime.Healthy) && d.active == c.active[k.scannerId := k] && d.requests == c.requests && d.workers.Keys == c.workers.Keys
      && forall j | j in c.workers ::
           d.workers[j] == if j == k then c.workers[j].(state := Runtime.Active)
                           else if j.scannerId == k.scannerId && c.workers[j].state == Runtime.Active then c.workers[j].(state := Runtime.Draining)
                           else c.workers[j]
    case Retire(k) => Is(c, k, Runtime.Draining) && Only(c, d, k, c.workers[k].(state := Runtime.Retired))
    case Track(id, keys) =>
      && id !in c.requests && id in d.requests && d == c.(requests := c.requests[id := d.requests[id]])
      && (forall k :: k in d.requests[id] <==> k in keys)
      && (forall k | k in keys :: (Is(c, k, Runtime.Active) && d.requests[id][k] == NoVerdict)
                                  || (Is(c, k, Runtime.Failed) && d.requests[id][k] == VerdictUnavailable))
    case Record(id, k, verdict) =>
      Pending(c, id, k) && verdict != NoVerdict && d == c.(requests := c.requests[id := c.requests[id][k := verdict]])
    case Exited(k, pid, code, err) => ExitNoted(c, k, pid, code, err, d)
  }

  /** A candidate is FAILED for this reason. */
  predicate MarkedFailed(c: State, k: WorkerKey, reason: string, d: State) {
    (Is(c, k, Runtime.Starting) || Is(c, k, Runtime.Healthy)) && Only(c, d, k, c.workers[k].(state := Runtime.Failed, failureReason := reason))
  }

  /**
   An exit of a process that is the worker's is noted; unless the worker is RETIRED it is FAILED, for the reason it had or because
   of the exit, it has no route, and what it owed is UNAVAILABLE.
   */
  ghost predicate ExitNoted(c: State, k: WorkerKey, pid: int, code: int, err: Option<string>, d: State) {
    if k !in c.workers || c.workers[k].pid != pid then d == c
    else
      var w := c.workers[k];
      var noted := w.(exitCode := code, exitError := if err.Some? then err.value else w.exitError);
      if w.state == Runtime.Retired then Only(c, d, k, noted)
      else
        && d.workers == c.workers[k := noted.(state := Runtime.Failed,
                                              failureReason := if w.failureReason == "" then "worker exited unexpectedly" else w.failureReason)]
        && d.active.Keys == (if w.state == Runtime.Active then c.active.Keys - {k.scannerId} else c.active.Keys)
        && (forall id | id in d.active :: d.active[id] == c.active[id])
        && d.requests.Keys == c.requests.Keys
        && forall id | id in c.requests ::
             d.requests[id].Keys == c.requests[id].Keys
             && forall j | j in c.requests[id] ::
                  d.requests[id][j] == if j == k && c.requests[id][j] == NoVerdict then VerdictUnavailable else c.requests[id][j]
  }

  /** When a command can take effect. */
  ghost predicate Allowed(c: State, command: Command) {
    match command
    case Register(k, child) =>
      !IsBlank(k.scannerId) && !IsBlank(k.version) && child.Some? && k !in c.workers && !Taken(c, k.scannerId)
    case MarkHealthy(k) => Is(c, k, Runtime.Starting)
    case Fail(k, reason, terminated) =>
      (Is(c, k, Runtime.Starting) || Is(c, k, Runtime.Healthy)) && !IsBlank(reason) && terminated.None?
    case Activate(k) => Is(c, k, Runtime.Healthy)
    case Retire(k) => Is(c, k, Runtime.Draining) && forall id: nat :: !Pending(c, id, k)
    case Track(id, keys) =>
      && id != 0 && id !in c.requests && |keys| > 0
      && (forall k | k in keys :: Is(c, k, Runtime.Active) || Is(c, k, Runtime.Failed))
      && (forall i, j | 0 <= i < j < |keys| :: keys[i] != keys[j])
    case Record(id, k, verdict) =>
      && Pending(c, id, k)
      && (|| verdict == VerdictClean || verdict == VerdictMalware || verdict == VerdictError || verdict == VerdictTimeout
          || verdict == VerdictUnavailable)
    case Exited(_, _, _, _) => true
  }

  lemma TakenIs(c: State, scannerId: string)
    ensures HasCandidate(c, scannerId) <==> Taken(c, scannerId)
  {
  }

  lemma RegisterExactly(c: State, k: WorkerKey, child: Option<int>)
    ensures var o := DoRegister(c, k, child); var command := Register(k, child);
            && (o.error.None? <==> TookEffect(c, command, o.state)) && (o.error.None? <==> Allowed(c, command))
            && (o.error.Some? ==> o.state == c)
  {
    hide HasCandidate, Taken, IsBlank;
    TakenIs(c, k.scannerId);
  }

  lemma FailExactly(c: State, k: WorkerKey, reason: string, terminated: Option<string>)
    requires Inv(c)
    ensures var o := DoFail(c, k, reason, terminated); var command := Fail(k, reason, terminated);
            && (o.error.None? <==> TookEffect(c, command, o.state)) && (o.error.None? <==> Allowed(c, command))
            && (o.error.Some? ==> o.state == c || (o.error == terminated && MarkedFailed(c, k, reason, o.state)))
  {
    if k in c.workers && c.workers[k].Candidate() { CandidateOwesNothing(c, k); }
    hide Inv, SweepAll, IsBlank;
  }

  lemma ActivateExactly(c: State, k: WorkerKey)
    requires Inv(c)
    ensures var o := DoActivate(c, k); var command := Activate(k);
            && (o.error.None? <==> TookEffect(c, command, o.state)) && (o.error.None? <==> Allowed(c, command))
            && (o.error.Some? ==> o.state == c)
  {
    RouteNeverBroken(c, k);
    hide DebtsOk, CandidatesOk;
    if k in c.workers && c.workers[k].state == Runtime.Healthy { ActivatedRecords(c, k); }
    hide RoutesOk, Displace, Promote;
  }

  lemma ActivatedRecords(c: State, k: WorkerKey)
    requires RoutesOk(c) && k in c.workers && c.workers[k].state == Runtime.Healthy
    ensures DoActivate(c, k).error.None? && TookEffect(c, Activate(k), DoActivate(c, k).state)
  {
    assert k.scannerId in c.active ==> c.active[k.scannerId] in c.workers && c.workers[c.active[k.scannerId]].state == Runtime.Active;
    forall j | j in c.workers
      ensures j.scannerId == k.scannerId && c.workers[j].state == Runtime.Active <==>
              k.scannerId in c.active && c.active[k.scannerId] == j {
    }
    hide RoutesOk;
  }

  lemma RetireExactly(c: State, k: WorkerKey)
    ensures var o := DoRetire(c, k); var command := Retire(k);
            && (o.error.None? <==> TookEffect(c, command, o.state)) && (o.error.None? <==> Allowed(c, command))
            && (o.error.Some? ==> o.state == c)
  {
    assert InFlight(c, k) <==> exists id :: id in c.requests && Owes(c, id, k);
    forall id: nat ensures Owes(c, id, k) <==> Pending(c, id, k) {
    }
    hide Owes, Pending;
    if InFlight(c, k) {
      var id :| id in c.requests && Owes(c, id, k);
      assert Pending(c, id, k);
    } else {
      NotInFlight(c, k);
    }
  }

  lemma TrackableIs(c: State, keys: seq<WorkerKey>)
    ensures Trackable(c.workers, keys) <==>
            && (forall k | k in keys :: Is(c, k, Runtime.Active) || Is(c, k, Runtime.Failed))
            && (forall i, j | 0 <= i < j < |keys| :: keys[i] != keys[j])
  {
    if forall k | k in keys :: Is(c, k, Runtime.Active) || Is(c, k, Runtime.Failed) {
      forall i | 0 <= i < |keys| ensures CanReceive(c.workers, keys[i]) {
        assert keys[i] in keys;
      }
    }
  }

  lemma TrackExactly(c: State, id: nat, keys: seq<WorkerKey>)
    ensures var o := DoTrack(c, id, keys); var command := Track(id, keys);
            && (o.error.None? <==> TookEffect(c, command, o.state)) && (o.error.None? <==> Allowed(c, command))
            && (o.error.Some? ==> o.state == c)
  {
    hide Assign, Trackable;
    AssignExactly(c.workers, keys);
    TrackableIs(c, keys);
  }

  lemma RecordExactly(c: State, id: nat, k: WorkerKey, verdict: Verdict)
    ensures var o := DoRecord(c, id, k, verdict); var command := Record(id, k, verdict);
            && (o.error.None? <==> TookEffect(c, command, o.state)) && (o.error.None? <==> Allowed(c, command))
            && (o.error.Some? ==> o.state == c)
  {
  }

  lemma ExitExactly(c: State, k: WorkerKey, pid: int, code: int, err: Option<string>)
    requires Inv(c)
    ensures ExitNoted(c, k, pid, code, err, DoExit(c, k, pid, code, err))
  {
    hide DebtsOk, CandidatesOk, SweepAll;
    assert k in c.workers ==> (c.workers[k].state == Runtime.Active <==> k.scannerId in c.active && c.active[k.scannerId] == k);
    hide RoutesOk;
    SweptIs(c.requests, k);
  }

  lemma SweptIs(requests: map<nat, Results>, k: WorkerKey)
    ensures var swept := SweepAll(requests, k);
            swept.Keys == requests.Keys
            && forall id | id in requests ::
                 swept[id].Keys == requests[id].Keys
                 && forall j | j in requests[id] ::
                      swept[id][j] == if j == k && requests[id][j] == NoVerdict then VerdictUnavailable else requests[id][j]
  {
  }

  /** The three questions at once. */
  ghost predicate Exact(c: State, command: Command, o: Outcome) {
    && (o.error.None? <==> TookEffect(c, command, o.state))
    && (o.error.None? <==> Allowed(c, command))
    && (o.error.Some? ==>
          || o.state == c
          || (command.Fail? && command.terminated.Some? && o.error == command.terminated
              && MarkedFailed(c, command.key, command.reason, o.state)))
  }

  lemma DoExactly(c: State, command: Command)
    requires Inv(c)
    ensures Exact(c, command, Do(c, command))
  {
    hide Inv, DoRegister, DoFail, DoActivate, DoRetire, DoTrack, DoRecord, DoExit, ExitNoted, MarkedFailed;
    match command
    case Register(k, child) => RegisterExactly(c, k, child);
    case MarkHealthy(k) =>
    case Fail(k, reason, terminated) => FailExactly(c, k, reason, terminated);
    case Activate(k) => ActivateExactly(c, k);
    case Retire(k) => RetireExactly(c, k);
    case Track(id, keys) => TrackExactly(c, id, keys);
    case Record(id, k, verdict) => RecordExactly(c, id, k, verdict);
    case Exited(k, pid, code, err) => ExitExactly(c, k, pid, code, err);
  }

  /**
   In every reachable state a command reports no error if and only if it took effect, and that is if and only if the state allows
   it; a command that reports an error changed nothing, but for a candidate that was marked FAILED when its termination failed.
   */
  lemma CommandExactly(commands: seq<Command>, command: Command)
    ensures var c := Run(commands); var o := Do(c, command);
            && (o.error.None? <==> TookEffect(c, command, o.state))
            && (o.error.None? <==> Allowed(c, command))
            && (o.error.Some? ==>
                  || o.state == c
                  || (command.Fail? && command.terminated.Some? && o.error == command.terminated
                      && MarkedFailed(c, command.key, command.reason, o.state)))
  {
    hide Inv, Run, Do, TookEffect, Allowed, MarkedFailed;
    RunKeeps(commands);
    DoExactly(Run(commands), command);
  }

  // ----- which error

  /** The first key in trouble decides the error of Track. */
  lemma {:induction false} AssignFails(workers: map<WorkerKey, Worker>, keys: seq<WorkerKey>) returns (i: nat)
    requires Assign(workers, keys).Failure?
    ensures i < |keys| && Trackable(workers, keys[..i]) && !Trackable(workers, keys[..i + 1])
    ensures Assign(workers, keys).error ==
            if keys[i] !in workers then "worker is not registered"
            else if keys[i] in keys[..i] then "worker is duplicated for the request"
            else "worker cannot receive a request in its state"
  {
    var n := |keys| - 1;
    if Assign(workers, keys[..n]).Failure? {
      i := AssignFails(workers, keys[..n]);
      assert keys[..n][..i] == keys[..i] && keys[..n][..i + 1] == keys[..i + 1];
    } else {
      i := n;
      assert keys[..n + 1] == keys;
      AssignExactly(workers, keys[..n]);
      AssignExactly(workers, keys);
      hide Trackable;
    }
  }

  /** Each error is reported for its own reason, in the order in which the reasons are looked for. */
  lemma ErrorExactly(c: State, command: Command) returns (i: nat)
    requires Inv(c) && Do(c, command).error.Some?
    ensures var error := Do(c, command).error.value;
            match command
            case Register(k, child) =>
              error == if IsBlank(k.scannerId) then "worker scanner ID must not be empty"
                       else if IsBlank(k.version) then "worker version must not be empty"
                       else if child.None? then "worker child must not be nil"
                       else if k in c.workers then "worker is already registered"
                       else "scanner already has a candidate"
            case MarkHealthy(k) =>
              error == if k !in c.workers then "worker is not registered" else "worker cannot make this transition"
            case Fail(k, reason, terminated) =>
              if k !in c.workers then error == "worker is not registered"
              else if c.workers[k].state != Runtime.Starting && c.workers[k].state != Runtime.Healthy then
                error == "worker cannot fail before activation from its state"
              else if IsBlank(reason) then error == "worker failure reason must not be empty"
              else terminated == Some(error)
            case Activate(k) => error == if k !in c.workers then "worker is not registered" else "worker cannot make this transition"
            case Retire(k) =>
              error == if k !in c.workers then "worker is not registered"
                       else if c.workers[k].state != Runtime.Draining then "worker cannot make this transition"
                       else "worker still has an in-flight request"
            case Track(id, keys) =>
              if id == 0 then error == "request ID must be greater than zero"
              else if id in c.requests then error == "request is already tracked"
              else if |keys| == 0 then error == "request must include at least one worker"
              else
                i < |keys| && Trackable(c.workers, keys[..i]) && !Trackable(c.workers, keys[..i + 1])
                && error == if keys[i] !in c.workers then "worker is not registered"
                            else if keys[i] in keys[..i] then "worker is duplicated for the request"
                            else "worker cannot receive a request in its state"
            case Record(id, k, verdict) =>
              error == if id !in c.requests then "request is not tracked"
                       else if k !in c.requests[id] then "worker is not assigned to the request"
                       else if c.requests[id][k] != NoVerdict then "worker already has a result for the request"
                       else "invalid verdict"
            case Exited(_, _, _, _) => true
  {
    i := 0;
    if command.Activate? { RouteNeverBroken(c, command.key); }
    hide Inv, HasCandidate, InFlight, IsBlank, Assign, Trackable;
    if command.Track? && command.id != 0 && command.id !in c.requests && command.keys != [] {
      i := AssignFails(c.workers, command.keys);
    }
  }
}
