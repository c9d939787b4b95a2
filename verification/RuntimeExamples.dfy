/** Concrete runs that show which plausible claims about the Runtime loop are false. */
module RuntimeExamples {
  import opened Wrappers
  import opened Messages
  import opened RuntimeSpec
  import opened RuntimeSafety
  import opened RuntimeMoves
  import RuntimeLifecycle
  import RuntimeOrder

  const WORKER_A := WorkerKey("a", "1")
  const WORKER_B := WorkerKey("a", "2")

  const HEALTHY_ANSWER := Command(TypeHealthResult).(status := "ok")

  /** One more event at the end of a run. */
  lemma Extend(capacity: nat, events: seq<Event>, e: Event)
    ensures Run(capacity, events + [e]) == Step(Run(capacity, events), e)
  {
    assert (events + [e])[..|events|] == events;
  }

  lemma Checking(capacity: nat)
    requires capacity > 0
    ensures var s := Run(capacity, [Register(WORKER_A, "", 0), BeginHealth(WORKER_A, 1)]);
            && s.workers.Keys == {WORKER_A} && s.phase == Running && s.stopReply == None && s.requests == map[]
            && s.workers[WORKER_A] == Push(NewWorker("").(healthReply := Some(1)), Command(TypeHealthCheck))
  {
    var s1 := Tell(SetWorker(Init(capacity), WORKER_A, NewWorker("")), 0, Ok);
    Extend(capacity, [], Register(WORKER_A, "", 0));
    assert Run(capacity, []) == Init(capacity);
    assert [] + [Register(WORKER_A, "", 0)] == [Register(WORKER_A, "", 0)];
    assert Step(Init(capacity), Register(WORKER_A, "", 0)) == s1;
    Extend(capacity, [Register(WORKER_A, "", 0)], BeginHealth(WORKER_A, 1));
    assert [Register(WORKER_A, "", 0)] + [BeginHealth(WORKER_A, 1)] == [Register(WORKER_A, "", 0), BeginHealth(WORKER_A, 1)];
    hide Run, FailWorker;
    assert Step(s1, BeginHealth(WORKER_A, 1)).workers[WORKER_A].state == Starting;
  }

  lemma ShutdownStep(s: State, c: Chan)
    requires s.phase == Running && s.stopReply.None? && !AllExited(HandleShutdown(s, c))
    ensures Step(s, Shutdown(c)) == HandleShutdown(s, c)
  {
    hide HandleShutdown, Close;
  }

  const STOPPED: seq<Event> := [Register(WORKER_A, "", 0), BeginHealth(WORKER_A, 1), Shutdown(2)]

  /** Health is still being checked when shutdown begins. */
  lemma Stopped(capacity: nat)
    requires capacity > 0
    ensures var s := Run(capacity, STOPPED);
            && s.phase == Running && s.stopReply.Some? && s.workers.Keys == {WORKER_A}
            && s.workers[WORKER_A].state == Draining && s.workers[WORKER_A].healthReply.Some?
  {
    var before := [Register(WORKER_A, "", 0), BeginHealth(WORKER_A, 1)];
    assert STOPPED == before + [Shutdown(2)];
    var r := Run(capacity, before);
    Checking(capacity);
    Extend(capacity, before, Shutdown(2));
    Stopping(r, 2, WORKER_A);
    hide Run, HandleShutdown, Handle;
    ShutdownStep(r, 2);
  }

  /** The late HEALTH_RESULT takes the worker from DRAINING back to HEALTHY. */
  lemma Regression(capacity: nat)
    requires capacity > 0
    ensures var s := Run(capacity, STOPPED); var t := Run(capacity, STOPPED + [WorkerMessage(WORKER_A, HEALTHY_ANSWER)]);
            && WORKER_A in s.workers && s.workers[WORKER_A].state == Draining
            && WORKER_A in t.workers && t.workers[WORKER_A].state == Healthy
  {
    hide Run, Step;
    Stopped(capacity);
    Extend(capacity, STOPPED, WorkerMessage(WORKER_A, HEALTHY_ANSWER));
    RuntimeLifecycle.SlipIs(Run(capacity, STOPPED), WorkerMessage(WORKER_A, HEALTHY_ANSWER));
  }

  /** If another version is registered before it arrives, the scanner then has two candidates. */
  lemma SecondCandidate(capacity: nat)
    requires capacity > 0
    ensures var events := STOPPED + [Register(WORKER_B, "", 3)] + [WorkerMessage(WORKER_A, HEALTHY_ANSWER)];
            var t := Run(capacity, events);
            && EventsOk(events)
            && WORKER_A in t.workers && t.workers[WORKER_A].state == Healthy
            && WORKER_B in t.workers && t.workers[WORKER_B].state == Starting
  {
    hide Run, Step, EventsOk;
    var s := Run(capacity, STOPPED);
    var more := STOPPED + [Register(WORKER_B, "", 3)];
    assert EventsOk(STOPPED) by { StoppedOk(); }
    OneMore(STOPPED, Register(WORKER_B, "", 3));
    OneMore(more, WorkerMessage(WORKER_A, HEALTHY_ANSWER));
    Extend(capacity, STOPPED, Register(WORKER_B, "", 3));
    Extend(capacity, more, WorkerMessage(WORKER_A, HEALTHY_ANSWER));
    Stopped(capacity);
    assert !HasCandidate(s, "a");
    hide HasCandidate;
    RegisterAlone(s, WORKER_B, 3);
    RuntimeLifecycle.SlipIs(Run(capacity, more), WorkerMessage(WORKER_A, HEALTHY_ANSWER));
  }

  lemma StoppedOk()
    ensures EventsOk(STOPPED)
  {
  }

  lemma RegisterAlone(s: State, k: WorkerKey, c: Chan)
    requires s.phase == Running && k !in s.workers && !HasCandidate(s, k.scannerId)
    ensures Step(s, Register(k, "", c)) == Tell(SetWorker(s, k, NewWorker("")), c, Ok)
  {
    var t := Tell(SetWorker(s, k, NewWorker("")), c, Ok);
    assert !t.workers[k].exited;
    hide HasCandidate, Close;
  }

  lemma Stopping(s: State, c: Chan, k: WorkerKey)
    requires k in s.workers && !s.workers[k].Terminal() && !s.workers[k].exited && s.requests == map[]
    ensures var t := HandleShutdown(s, c);
            k in t.workers && t.workers[k].state == Draining && t.workers[k].healthReply == s.workers[k].healthReply
            && !t.workers[k].exited && t.phase == s.phase
  {
    var h := s.(stopReply := Some(c));
    var a := AbandonAll(h);
    assert Using(Fill(h, {}, h.workers.Keys, Unavailable(SHUTTING_DOWN)).requests, {}, k) == {};
    assert a.workers[k] == h.workers[k];
  }

  // ----- an acknowledgement before SHUTDOWN strands a request

  /** A state in which one route, or none, and no reply slot of worker k is in play. */
  ghost predicate Quiet(s: State) { s.phase == Running && s.stopReply.None? && s.capacity > 1 }

  /** Registering, checking and activating a worker that no other candidate keeps out. */
  lemma Launch(s: State, k: WorkerKey, a: Chan, b: Chan, c: Chan)
    requires Quiet(s) && k !in s.workers && !HasCandidate(s, k.scannerId)
    ensures var u := Step(Step(Step(s, Register(k, "", a)), BeginHealth(k, b)), WorkerMessage(k, HEALTHY_ANSWER));
            && Quiet(u) && u.active == s.active && u.requests == s.requests && u.nextRequestID == s.nextRequestID
            && u.workers == s.workers[k := u.workers[k]]
            && u.workers[k].state == Healthy && u.workers[k].inFlight == 0 && |u.workers[k].queue| == 1
            && !u.workers[k].shutdownSent && !u.workers[k].shutdownAck && u.capacity == s.capacity
            && k in u.workers
  {
    hide AllExited, FailWorker, HasCandidate;
    var s1 := Tell(SetWorker(s, k, NewWorker("")), a, Ok);
    assert Step(s, Register(k, "", a)) == s1;
    var w2 := Push(NewWorker("").(healthReply := Some(b)), Command(TypeHealthCheck));
    var s2 := SetWorker(s1, k, w2);
    assert Step(s1, BeginHealth(k, b)) == s2;
    var s3 := Tell(SetWorker(s2, k, w2.(state := Healthy, healthReply := None)), b, Ok);
    assert Step(s2, WorkerMessage(k, HEALTHY_ANSWER)) == s3;
  }

  lemma AllHaveRoom(s: State, c: Chan)
    requires forall k | k in s.active.Values && k in s.workers :: |s.workers[k].queue| < s.capacity
    ensures Full(Admit(s, "", c), s.active.Values) == {}
  {
    forall k | k in s.active.Values && k in s.workers ensures HasRoom(Admit(s, "", c).workers[k], s.capacity) {
    }
  }

  lemma DispatchIs(a: State, keys: set<WorkerKey>, m: Message)
    requires Full(a, keys) == {}
    ensures Dispatch(a, keys, m) == PushAll(a, keys, m)
  {
    hide PushAll, Full, FailAll;
    assert keys - {} == keys;
    RuntimeOrder.FailNothing(PushAll(a, keys, m), QUEUE_FULL);
  }

  /** The new request is tracked and SCAN is queued to every routed worker. */
  function Scanned(s: State, c: Chan): State {
    PushAll(Admit(s, "", c), s.active.Values, ScanCommand(s.nextRequestID + 1, ""))
  }

  lemma ScanHandled(s: State, c: Chan)
    requires s.stopReply.None? && s.active != map[] && Full(Admit(s, "", c), s.active.Values) == {}
    ensures HandleScan(s, "", c) == Scanned(s, c)
  {
    hide Admit, Full, PushAll, Dispatch;
    DispatchIs(Admit(s, "", c), s.active.Values, ScanCommand(s.nextRequestID + 1, ""));
  }

  lemma ScanIs(s: State, c: Chan)
    requires Quiet(s) && s.active != map[]
    requires forall k | k in s.active.Values && k in s.workers :: |s.workers[k].queue| < s.capacity
    ensures Step(s, ScanRequest("", c)) == Scanned(s, c)
  {
    AllHaveRoom(s, c);
    PushedBooks(s, c);
    hide Scanned, Handle, Step, HandleScan, Full;
    ScanHandled(s, c);
    ScanStep(s, "", c);
  }

  lemma PushedBooks(s: State, c: Chan)
    ensures Scanned(s, c).stopReply == s.stopReply
  {
  }

  lemma ScanStep(s: State, path: string, c: Chan)
    requires s.phase == Running
    ensures HandleScan(s, path, c).stopReply.None? ==> Step(s, ScanRequest(path, c)) == HandleScan(s, path, c)
  {
    hide HandleScan, Close;
  }

  lemma ScanOne(s: State, k: WorkerKey, c: Chan)
    requires Quiet(s) && s.active == map[k.scannerId := k] && k in s.workers && |s.workers[k].queue| == 1 && s.requests == map[]
    ensures var u := Step(s, ScanRequest("", c));
            && Quiet(u) && u.active == s.active && u.workers.Keys == s.workers.Keys
            && Waits(u.requests, s.nextRequestID + 1, k)
            && u.workers[k].inFlight == s.workers[k].inFlight + 1 && u.workers[k].state == s.workers[k].state
            && u.workers[k].shutdownSent == s.workers[k].shutdownSent && u.workers[k].shutdownAck == s.workers[k].shutdownAck
  {
    assert s.active.Values == {k} by {
      assert k.scannerId in s.active;
    }
    ScanIs(s, c);
    hide Step;
    ScannedFields(s, k, c);
    hide Scanned;
  }

  lemma ScannedFields(s: State, k: WorkerKey, c: Chan)
    requires k in s.active.Values && k in s.workers
    ensures var u := Scanned(s, c);
            && u.active == s.active && u.workers.Keys == s.workers.Keys && u.capacity == s.capacity
            && u.phase == s.phase && u.stopReply == s.stopReply && Waits(u.requests, s.nextRequestID + 1, k)
            && u.workers[k].inFlight == s.workers[k].inFlight + 1 && u.workers[k].state == s.workers[k].state
            && u.workers[k].shutdownSent == s.workers[k].shutdownSent && u.workers[k].shutdownAck == s.workers[k].shutdownAck
  {
  }

  lemma ActivateOne(s: State, k: WorkerKey, c: Chan)
    requires Quiet(s) && k in s.workers && s.workers[k].state == Healthy
    requires s.active == map[] || (k.scannerId in s.active && s.active[k.scannerId] in s.workers && s.active[k.scannerId] != k
                                   && s.workers[s.active[k.scannerId]].inFlight > 0 && s.active.Keys == {k.scannerId})
    ensures var u := Step(s, Activate(k, c));
            && Quiet(u) && u.active == map[k.scannerId := k] && u.requests == s.requests && u.workers.Keys == s.workers.Keys
            && u.workers[k] == s.workers[k].(state := Active) && u.nextRequestID == s.nextRequestID
            && (s.active != map[] ==>
                  u.workers[s.active[k.scannerId]] == s.workers[s.active[k.scannerId]].(state := Draining))
  {
    hide AllExited;
    var u := Promote(Displace(s, k.scannerId), k);
    assert Step(s, Activate(k, c)) == Tell(u, c, Ok);
  }

  /** WORKER_A routes and has a request to answer. */
  ghost predicate Scanning(s: State) {
    && Quiet(s) && s.active == map["a" := WORKER_A] && s.workers.Keys == {WORKER_A} && Waits(s.requests, 1, WORKER_A)
    && s.workers[WORKER_A].state == Active && s.workers[WORKER_A].inFlight == 1
  }

  lemma Launched(capacity: nat) returns (events: seq<Event>)
    requires capacity > 1
    ensures EventsOk(events)
    ensures var s := Run(capacity, events);
            && Quiet(s) && s.active == map[] && s.requests == map[] && s.nextRequestID == 0 && s.workers.Keys == {WORKER_A}
            && s.workers[WORKER_A].state == Healthy && s.workers[WORKER_A].inFlight == 0 && |s.workers[WORKER_A].queue| == 1
  {
    hide Step;
    events := [Register(WORKER_A, "", 0), BeginHealth(WORKER_A, 1), WorkerMessage(WORKER_A, HEALTHY_ANSWER)];
    Launch(Init(capacity), WORKER_A, 0, 1, 2);
    Extend3(capacity, [], events);
    assert [] + events == events && Run(capacity, []) == Init(capacity);
    hide Run;
  }

  lemma OneMore(events: seq<Event>, e: Event)
    requires EventsOk(events) && EventOk(e)
    ensures EventsOk(events + [e])
  {
  }

  lemma ScanStarted(capacity: nat) returns (events: seq<Event>)
    requires capacity > 1
    ensures EventsOk(events) && Scanning(Run(capacity, events))
  {
    hide Step, Run, Waits, EventsOk;
    var before := Launched(capacity);
    events := before + [Activate(WORKER_A, 2)] + [ScanRequest("", 3)];
    Extend(capacity, before, Activate(WORKER_A, 2));
    Extend(capacity, before + [Activate(WORKER_A, 2)], ScanRequest("", 3));
    OneMore(before, Activate(WORKER_A, 2));
    OneMore(before + [Activate(WORKER_A, 2)], ScanRequest("", 3));
    ActivateOne(Run(capacity, before), WORKER_A, 2);
    ScanOne(Run(capacity, before + [Activate(WORKER_A, 2)]), WORKER_A, 3);
  }

  /** WORKER_B took the route over; WORKER_A still has its request to answer. */
  ghost predicate Replaced(s: State) {
    && Quiet(s) && WORKER_A in s.workers && Waits(s.requests, 1, WORKER_A)
    && s.workers[WORKER_A].state == Draining && s.workers[WORKER_A].inFlight == 1
  }

  lemma RouteTaken(capacity: nat) returns (events: seq<Event>)
    requires capacity > 1
    ensures EventsOk(events) && Replaced(Run(capacity, events))
  {
    hide Step, Run, Waits, EventsOk;
    var before := ScanStarted(capacity);
    var launch := [Register(WORKER_B, "", 4), BeginHealth(WORKER_B, 5), WorkerMessage(WORKER_B, HEALTHY_ANSWER)];
    var launched := before + launch;
    events := launched + [Activate(WORKER_B, 6)];
    var s := Run(capacity, before);
    Extend3(capacity, before, launch);
    assert launched == before + [launch[0]] + [launch[1]] + [launch[2]];
    OneMore(before, launch[0]);
    OneMore(before + [launch[0]], launch[1]);
    OneMore(before + [launch[0]] + [launch[1]], launch[2]);
    OneMore(launched, Activate(WORKER_B, 6));
    Extend(capacity, launched, Activate(WORKER_B, 6));
    assert !HasCandidate(s, "a");
    hide HasCandidate;
    Launch(s, WORKER_B, 4, 5, 6);
    ActivateOne(Run(capacity, launched), WORKER_B, 6);
    assert "a" in s.active;
    assert Run(capacity, launched).workers[WORKER_A] == s.workers[WORKER_A];
    assert Run(capacity, events).workers[WORKER_A] == s.workers[WORKER_A].(state := Draining);
  }

  lemma AckAndExit(s: State)
    requires Replaced(s)
    ensures var u := Step(Step(s, WorkerMessage(WORKER_A, Command(TypeShutdownAck))), WorkerExit(WORKER_A, 0, None));
            WORKER_A in u.workers && u.workers[WORKER_A].state == Retired && u.requests == s.requests
  {
    hide FailWorker, AllExited, Waits;
    var w := s.workers[WORKER_A].(shutdownAck := true, terminated := true);
    assert Step(s, WorkerMessage(WORKER_A, Command(TypeShutdownAck))) == SetWorker(s, WORKER_A, w);
  }

  /** A run after which a request waits for a RETIRED worker: the worker acknowledged before SHUTDOWN was sent to it. */
  lemma EarlyAckStrands(capacity: nat) returns (events: seq<Event>)
    requires capacity > 1
    ensures EventsOk(events)
    ensures var s := Run(capacity, events);
            WORKER_A in s.workers && s.workers[WORKER_A].state == Retired && Waits(s.requests, 1, WORKER_A)
  {
    var before := RouteTaken(capacity);
    var ack := WorkerMessage(WORKER_A, Command(TypeShutdownAck));
    events := before + [ack] + [WorkerExit(WORKER_A, 0, None)];
    Extend(capacity, before, ack);
    Extend(capacity, before + [ack], WorkerExit(WORKER_A, 0, None));
    hide Step, Run;
    AckAndExit(Run(capacity, before));
  }

  lemma Extend3(capacity: nat, events: seq<Event>, more: seq<Event>)
    requires |more| == 3
    ensures Run(capacity, events + more) == Step(Step(Step(Run(capacity, events), more[0]), more[1]), more[2])
  {
    hide Step, Run;
    Extend(capacity, events, more[0]);
    Extend(capacity, events + [more[0]], more[1]);
    Extend(capacity, events + [more[0]] + [more[1]], more[2]);
    assert events + [more[0]] + [more[1]] + [more[2]] == events + more;
  }
}
