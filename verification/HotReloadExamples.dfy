/** Concrete executions of the composed system in which Core records a path that the worker does not scan with. */
module HotReloadExamples {
  import opened Wrappers
  import opened Messages
  import opened RuntimeSpec
  import WorkerSession
  import opened HotSwap
  import opened HotReload

  const WORKER := WorkerKey("a", "1")
  const CONFIG := WorkerSession.Config("a", "1", "old", false, false)
  const LUCK := WorkerSession.Luck(Success(1), true, true)

  /** A worker is started with one path, activated, and told to reload another. */
  const RELOADING: seq<Action> := [
    CoreEvent(Register(WORKER, "old", 0), CONFIG), CoreEvent(BeginHealth(WORKER, 1), CONFIG), CoreEvent(Dequeue(WORKER), CONFIG),
    Receive(WORKER, LUCK), Deliver(WORKER), CoreEvent(Activate(WORKER, 2), CONFIG),
    CoreEvent(ReloadRequest("a", "new", 3), CONFIG), CoreEvent(Dequeue(WORKER), CONFIG)]

  /** The only worker is w, and its session has received and sent so much. */
  ghost predicate Alone(n: Net, w: Worker, active: map<string, WorkerKey>, l: Link) {
    && Core(n).phase == Running && Core(n).stopReply.None? && Core(n).capacity > 0 && Core(n).active == active
    && Core(n).workers == map[WORKER := w] && n.links == map[WORKER := l]
  }

  /** What one event makes of the only worker. */
  ghost predicate Becomes(s: State, w: Worker, active: map<string, WorkerKey>) {
    && s.phase == Running && s.stopReply.None? && s.capacity > 0 && s.active == active && s.workers == map[WORKER := w]
  }

  lemma AloneEvent(n: Net, e: Event, w: Worker, w': Worker, a: map<string, WorkerKey>, a': map<string, WorkerKey>, l: Link)
    requires Alone(n, w, a, l) && !e.WorkerMessage? && Becomes(Step(Core(n), e), w', a')
    ensures Alone(Act(n, CoreEvent(e, CONFIG)), w', a', l)
  {
    hide Run, Step;
    RunMore(n.capacity, n.trace, e);
    var t := Act(n, CoreEvent(e, CONFIG));
    assert Core(t) == Step(Core(n), e);
    assert t.links == n.links;
  }

  lemma RegisterStep(capacity: nat)
    requires capacity > 0
    ensures Becomes(Step(Init(capacity), Register(WORKER, "old", 0)), NewWorker("old"), map[])
  {
  }

  lemma FirstStep(capacity: nat)
    requires capacity > 0
    ensures Alone(Execute(capacity, RELOADING[..1]), NewWorker("old"), map[], Launched(CONFIG, "old"))
  {
    hide Step;
    var e := Register(WORKER, "old", 0);
    assert RELOADING[..1] == [] + [CoreEvent(e, CONFIG)];
    ExecuteMore(capacity, [], CoreEvent(e, CONFIG));
    RunMore(capacity, [], e);
    assert [] + [e] == [e] && Run(capacity, []) == Init(capacity) && Execute(capacity, []) == Net(capacity, [], map[]);
    RegisterStep(capacity);
    hide Run, Execute;
  }

  const GIVE_UP := CoreEvent(ReloadTimeout(WORKER), CONFIG)
  const RECEIVE := Receive(WORKER, LUCK)
  const AGAIN := CoreEvent(ReloadRequest("a", "newer", 4), CONFIG)

  const ROUTES: map<string, WorkerKey> := map["a" := WORKER]
  const CHECKED := NewWorker("old").(healthReply := Some(1), written := [Command(TypeHealthCheck)])
  const HEALTHY := CHECKED.(state := Healthy, healthReply := None)
  const ACTIVE := HEALTHY.(state := Active)
  const ASKED := ACTIVE.(reloadReply := Some(3), pendingSignaturePath := "new", reloadTimer := true,
                         written := [Command(TypeHealthCheck), ReloadCommand("new")])
  const GIVEN_UP := ASKED.(reloadReply := None, pendingSignaturePath := "")
  const ANSWERED := Launched(CONFIG, "old").(
    session := WorkerSession.Say(WorkerSession.Started(CONFIG), WorkerSession.HealthAnswer(CONFIG)), consumed := 1)

  /** The session after it received the RELOAD, with its result still to be delivered. */
  const RELOADED := ANSWERED.(
    session := WorkerSession.Hear(ANSWERED.session, ReloadCommand("new"), LUCK), consumed := 2, delivered := 1)

  lemma CheckStep(s: State)
    requires Becomes(s, NewWorker("old"), map[])
    ensures Becomes(Step(s, BeginHealth(WORKER, 1)), Push(NewWorker("old").(healthReply := Some(1)), Command(TypeHealthCheck)), map[])
  {
    hide FailWorker;
  }

  lemma WriteStep(s: State, w: Worker, active: map<string, WorkerKey>, m: Message)
    requires Becomes(s, w, active) && w.queue == [m]
    ensures Becomes(Step(s, Dequeue(WORKER)), w.(queue := [], written := w.written + [m]), active)
  {
    assert w.queue[1..] == [];
  }

  lemma HealthyStep(s: State)
    requires Becomes(s, CHECKED, map[])
    ensures Becomes(Step(s, WorkerMessage(WORKER, WorkerSession.HealthAnswer(CONFIG))), HEALTHY, map[])
  {
    hide FailWorker;
  }

  lemma ActivateStep(s: State)
    requires Becomes(s, HEALTHY, map[])
    ensures Becomes(Step(s, Activate(WORKER, 2)), ACTIVE, ROUTES)
  {
    hide Retreat;
  }

  lemma ReloadStep(s: State, w: Worker, path: string, c: Chan)
    requires Becomes(s, w, ROUTES) && w.reloadReply.None? && w.queue == []
    ensures var w' := w.(reloadReply := Some(c), pendingSignaturePath := path, reloadTimer := true);
            Becomes(Step(s, ReloadRequest("a", path, c)), Push(w', ReloadCommand(path)), ROUTES)
  {
    hide FailWorker;
  }

  lemma TimeoutStep(s: State)
    requires Becomes(s, ASKED, ROUTES)
    ensures Becomes(Step(s, ReloadTimeout(WORKER)), GIVEN_UP, ROUTES)
  {
  }

  lemma ResultStep(s: State, w: Worker, m: Message)
    requires Becomes(s, w, ROUTES) && w.reloadReply.Some? && !w.Terminal() && m.kind == TypeReloadResult && m.success
    ensures var w' := w.(reloadReply := None, reloadTimer := false, pendingSignaturePath := "", signaturePath := w.pendingSignaturePath);
            Becomes(Step(s, WorkerMessage(WORKER, m)), w', ROUTES)
  {
    hide FailWorker;
  }

  lemma Checking(n: Net)
    requires Alone(n, NewWorker("old"), map[], Launched(CONFIG, "old"))
    ensures var t := Act(Act(n, CoreEvent(BeginHealth(WORKER, 1), CONFIG)), CoreEvent(Dequeue(WORKER), CONFIG));
            Alone(t, CHECKED, map[], Launched(CONFIG, "old"))
  {
    hide Run, Step, Act;
    var w := Push(NewWorker("old").(healthReply := Some(1)), Command(TypeHealthCheck));
    CheckStep(Core(n));
    AloneEvent(n, BeginHealth(WORKER, 1), NewWorker("old"), w, map[], map[], Launched(CONFIG, "old"));
    var u := Act(n, CoreEvent(BeginHealth(WORKER, 1), CONFIG));
    WriteStep(Core(u), w, map[], Command(TypeHealthCheck));
    AloneEvent(u, Dequeue(WORKER), w, CHECKED, map[], map[], Launched(CONFIG, "old"));
  }

  /** The session receives what was written to it next. */
  lemma AloneReceive(n: Net, w: Worker, a: map<string, WorkerKey>, l: Link)
    requires Alone(n, w, a, l) && l.session.stage == WorkerSession.Open && l.consumed < |w.written|
    ensures Alone(Act(n, RECEIVE), w, a,
                  l.(session := WorkerSession.Hear(l.session, w.written[l.consumed], LUCK), consumed := l.consumed + 1))
  {
    hide Run, WorkerSession.Hear;
    assert Core(Act(n, RECEIVE)) == Core(n);
  }

  /** Core is handed what the session sent next. */
  lemma AloneDeliver(n: Net, w: Worker, w': Worker, a: map<string, WorkerKey>, l: Link)
    requires Alone(n, w, a, l) && l.delivered < |l.session.out|
    requires Becomes(Step(Core(n), WorkerMessage(WORKER, l.session.out[l.delivered])), w', a)
    ensures Alone(Act(n, Deliver(WORKER)), w', a, l.(delivered := l.delivered + 1))
  {
    hide Run, Step;
    DeliverIs(n, WORKER);
    RunMore(n.capacity, n.trace, WorkerMessage(WORKER, l.session.out[l.delivered]));
  }

  lemma Answering(n: Net)
    requires Alone(n, CHECKED, map[], Launched(CONFIG, "old"))
    ensures Alone(Act(Act(n, RECEIVE), Deliver(WORKER)), HEALTHY, map[], ANSWERED.(delivered := 1))
  {
    hide Run, Step, Act;
    AloneReceive(n, CHECKED, map[], Launched(CONFIG, "old"));
    assert WorkerSession.Hear(WorkerSession.Started(CONFIG), Command(TypeHealthCheck), LUCK) == ANSWERED.session;
    HealthyStep(Core(Act(n, RECEIVE)));
    AloneDeliver(Act(n, RECEIVE), CHECKED, HEALTHY, map[], ANSWERED);
  }

  lemma Asking(n: Net)
    requires Alone(n, HEALTHY, map[], ANSWERED.(delivered := 1))
    ensures var u := Act(n, CoreEvent(Activate(WORKER, 2), CONFIG));
            var t := Act(Act(u, CoreEvent(ReloadRequest("a", "new", 3), CONFIG)), CoreEvent(Dequeue(WORKER), CONFIG));
            Alone(t, ASKED, ROUTES, ANSWERED.(delivered := 1))
  {
    hide Run, Step, Act;
    var l := ANSWERED.(delivered := 1);
    ActivateStep(Core(n));
    AloneEvent(n, Activate(WORKER, 2), HEALTHY, ACTIVE, map[], ROUTES, l);
    var u := Act(n, CoreEvent(Activate(WORKER, 2), CONFIG));
    var w := ACTIVE.(reloadReply := Some(3), pendingSignaturePath := "new", reloadTimer := true);
    ReloadStep(Core(u), ACTIVE, "new", 3);
    AloneEvent(u, ReloadRequest("a", "new", 3), ACTIVE, Push(w, ReloadCommand("new")), ROUTES, ROUTES, l);
    var v := Act(u, CoreEvent(ReloadRequest("a", "new", 3), CONFIG));
    WriteStep(Core(v), Push(w, ReloadCommand("new")), ROUTES, ReloadCommand("new"));
    assert w.written + [ReloadCommand("new")] == ASKED.written;
    AloneEvent(v, Dequeue(WORKER), Push(w, ReloadCommand("new")), ASKED, ROUTES, ROUTES, l);
  }

  lemma ActAll(capacity: nat, i: nat)
    requires i < |RELOADING|
    ensures Execute(capacity, RELOADING[..i + 1]) == Act(Execute(capacity, RELOADING[..i]), RELOADING[i])
  {
    hide Act, Execute;
    assert RELOADING[..i + 1] == RELOADING[..i] + [RELOADING[i]];
    ExecuteMore(capacity, RELOADING[..i], RELOADING[i]);
  }

  lemma UnderWay(capacity: nat)
    requires capacity > 0
    ensures Alone(Execute(capacity, RELOADING), ASKED, ROUTES, ANSWERED.(delivered := 1))
  {
    hide Run, Execute, Act, Alone;
    FirstStep(capacity);
    ActAll(capacity, 1);
    ActAll(capacity, 2);
    Checking(Execute(capacity, RELOADING[..1]));
    ActAll(capacity, 3);
    ActAll(capacity, 4);
    Answering(Execute(capacity, RELOADING[..3]));
    ActAll(capacity, 5);
    ActAll(capacity, 6);
    ActAll(capacity, 7);
    Asking(Execute(capacity, RELOADING[..5]));
    assert RELOADING[..8] == RELOADING;
  }

  /** No reload is under way, Core records one path and the worker scans with the other. */
  ghost predicate Records(n: Net, path: string, inUse: string) {
    && WORKER in n.links && WORKER in Core(n).workers && Core(n).workers[WORKER].reloadReply.None?
    && Core(n).workers[WORKER].signaturePath == path && n.links[WORKER].session.loaded == inUse
  }

  lemma RecordsAre(n: Net, w: Worker, l: Link)
    requires Alone(n, w, ROUTES, l) && w.reloadReply.None?
    ensures Records(n, w.signaturePath, l.session.loaded)
  {
    hide Run;
  }

  /** The RELOAD is received after its timeout. */
  lemma StalePath(capacity: nat)
    requires capacity > 0
    ensures Records(Execute(capacity, RELOADING + [GIVE_UP] + [RECEIVE]), "old", "new")
  {
    hide Run, Execute, Act, Step;
    var n := Execute(capacity, RELOADING);
    UnderWay(capacity);
    ExecuteMore(capacity, RELOADING, GIVE_UP);
    ExecuteMore(capacity, RELOADING + [GIVE_UP], RECEIVE);
    TimeoutStep(Core(n));
    AloneEvent(n, ReloadTimeout(WORKER), ASKED, GIVEN_UP, ROUTES, ROUTES, ANSWERED.(delivered := 1));
    AloneReceive(Act(n, GIVE_UP), GIVEN_UP, ROUTES, ANSWERED.(delivered := 1));
    RecordsAre(Act(Act(n, GIVE_UP), RECEIVE), GIVEN_UP, RELOADED);
  }

  /** The timeout comes while the result is on its way. */
  lemma LatePath(capacity: nat)
    requires capacity > 0
    ensures Alone(Execute(capacity, RELOADING + [RECEIVE] + [GIVE_UP]), GIVEN_UP, ROUTES, RELOADED)
    ensures Records(Execute(capacity, RELOADING + [RECEIVE] + [GIVE_UP]), "old", "new")
  {
    hide Run, Execute, Act, Step;
    var n := Execute(capacity, RELOADING);
    UnderWay(capacity);
    ExecuteMore(capacity, RELOADING, RECEIVE);
    ExecuteMore(capacity, RELOADING + [RECEIVE], GIVE_UP);
    AloneReceive(n, ASKED, ROUTES, ANSWERED.(delivered := 1));
    TimeoutStep(Core(Act(n, RECEIVE)));
    AloneEvent(Act(n, RECEIVE), ReloadTimeout(WORKER), ASKED, GIVEN_UP, ROUTES, ROUTES, RELOADED);
    RecordsAre(Act(Act(n, RECEIVE), GIVE_UP), GIVEN_UP, RELOADED);
  }

  /** And the next reload begins before it arrives: Core takes it for the result of that one. */
  lemma WrongReload(capacity: nat)
    requires capacity > 0
    ensures Records(Execute(capacity, RELOADING + [RECEIVE] + [GIVE_UP] + [AGAIN] + [Deliver(WORKER)]), "newer", "new")
  {
    hide Run, Execute, Act, Step;
    var late := RELOADING + [RECEIVE] + [GIVE_UP];
    var n := Execute(capacity, late);
    LatePath(capacity);
    ExecuteMore(capacity, late, AGAIN);
    ExecuteMore(capacity, late + [AGAIN], Deliver(WORKER));
    var w := GIVEN_UP.(reloadReply := Some(4), pendingSignaturePath := "newer", reloadTimer := true);
    ReloadStep(Core(n), GIVEN_UP, "newer", 4);
    AloneEvent(n, ReloadRequest("a", "newer", 4), GIVEN_UP, Push(w, ReloadCommand("newer")), ROUTES, ROUTES, RELOADED);
    ResultStep(Core(Act(n, AGAIN)), Push(w, ReloadCommand("newer")), RELOADED.session.out[1]);
    var w' := Push(w, ReloadCommand("newer")).(reloadReply := None, reloadTimer := false, pendingSignaturePath := "", signaturePath := "newer");
    AloneDeliver(Act(n, AGAIN), Push(w, ReloadCommand("newer")), w', ROUTES, RELOADED);
    RecordsAre(Act(Act(n, AGAIN), Deliver(WORKER)), w', RELOADED.(delivered := 2));
  }
}
