/** How workers change over whole runs: which event gives a worker each state, what it takes to be routed, what each is sent. */
module RuntimeChanges {
  import opened Wrappers
  import opened Messages
  import opened RuntimeSpec
  import opened RuntimeInvariants
  import opened RuntimeSafety
  import opened RuntimeReplies
  import opened RuntimeMoves
  import opened RuntimeProvenance
  import opened RuntimeRecords
  import opened RuntimeSays
  import opened RuntimeAnswers

  // ----- states

  lemma ToldState(w: Worker, m: Message)
    ensures Told(w, m).state == if m.kind == TypeHealthResult && m.status == "ok" then Healthy else w.state
  {
  }

  lemma FailedState(w: Worker, e: Event, reason: string)
    ensures AsFailed(w, e, reason).state == Failed && AsFailed(w, e, reason).failureReason == reason
    ensures AsExited(w, e).state == w.state
  {
  }

  lemma AskedState(w: Worker, n: nat, capacity: nat, phase: Phase)
    ensures var w' := Ended(Asked(w.(inFlight := n), capacity), phase); w'.state == w.state && w'.failureReason == w.failureReason
  {
  }

  /** The state that event e gives worker k. */
  ghost function NextState(s: State, e: Event, k: WorkerKey): WorkerState
    requires k in s.workers
  {
    var w := s.workers[k];
    if Reason(s, e, k).Some? then Failed
    else
      match e
      case Activate(j, _) =>
        if j == k && w.state == Healthy then Active
        else if j in s.workers && s.workers[j].state == Healthy && j.scannerId == k.scannerId && w.state == Active then Draining
        else w.state
      case WorkerMessage(j, m) =>
        if j == k && !Over(w) && m.kind == TypeHealthResult && m.status == "ok" then Healthy else w.state
      case WorkerExit(j, _, _) => if j == k && w.state == Draining then Retired else w.state
      case Shutdown(_) => if s.stopReply.None? && !Over(w) then Draining else w.state
      case _ => w.state
  }

  lemma ChangedState(s: State, e: Event, k: WorkerKey)
    requires k in s.workers
    ensures Changed(s, e, k).state == NextState(s, e, k)
    ensures Reason(s, e, k).Some? ==> Changed(s, e, k).failureReason == Reason(s, e, k).value
  {
    hide Reason, Unexpected, Admitted, AsFailed, AsExited, Told, Note;
    var w := s.workers[k];
    if Reason(s, e, k).Some? { FailedState(w, e, Reason(s, e, k).value); }
    FailedState(w, e, "");
    if e.WorkerMessage? { ToldState(w, e.message); }
  }

  lemma StepState(s: State, e: Event, k: WorkerKey)
    requires CoreInv(s) && EventOk(e) && s.phase == Running && k in s.workers
    ensures var t := Step(s, e);
            && k in t.workers && t.workers[k].state == NextState(s, e, k)
            && (Reason(s, e, k).Some? ==> t.workers[k].failureReason == Reason(s, e, k).value)
  {
    hide CoreInv, Step, Changed, EventOk, Asked, Ended, Entrusted, NextState, Reason;
    OneWorkerView(s, e, k);
    ChangedState(s, e, k);
    AskedState(Changed(s, e, k), |Entrusted(Step(s, e), k)|, s.capacity, Step(s, e).phase);
  }

  /** Why a worker in this state fails, if it does. */
  lemma ReasonWhen(s: State, e: Event, k: WorkerKey)
    requires k in s.workers
    ensures Reason(s, e, k).Some? ==> !Over(s.workers[k])
    ensures e.WorkerMessage? && e.key == k ==> (Reason(s, e, k).Some? <==> !Over(s.workers[k]) && Unexpected(s.workers[k], e.message))
    ensures e.WorkerExit? && e.key == k ==>
              (Reason(s, e, k).Some? <==> !Over(s.workers[k]) && !(s.workers[k].state == Draining && s.workers[k].shutdownAck))
    ensures e.Activate? || e.Shutdown? ==> Reason(s, e, k).None?
  {
    hide Unexpected;
  }

  lemma HealthyIsIdle(s: State, k: WorkerKey)
    requires CoreInv(s) && k in s.workers && s.workers[k].healthReply.Some?
    ensures s.workers[k].state != Healthy && s.workers[k].state != Active
  {
    hide RoutesOk, CountsOk, RequestsOk, CandidatesOk, HistoryOk, QueuesOk;
    assert WorkerOk(s.workers[k], s.stopReply.Some?);
  }

  /**
   What gives a registered worker each state: HEALTHY its HEALTH_RESULT with status "ok" while a health check is pending; ACTIVE
   its activation when HEALTHY; DRAINING the activation of a HEALTHY worker of its scanner when ACTIVE, or the first Shutdown when
   live; RETIRED its exit when DRAINING and acknowledged; and FAILED leaves the reason that its failure has.
   */
  lemma StateChanges(capacity: nat, events: seq<Event>, i: nat, k: WorkerKey)
    requires EventsOk(events) && i < |events| && Before(capacity, events, i).phase == Running && k in Before(capacity, events, i).workers
    ensures var s, t, e := Before(capacity, events, i), Before(capacity, events, i + 1), events[i];
            && k in t.workers
            && var w, w' := s.workers[k], t.workers[k];
               && (w'.state == Healthy && w.state != Healthy <==>
                     Hears(s, e, k, TypeHealthResult) && e.message.status == "ok" && w.healthReply.Some?)
               && (w'.state == Active && w.state != Active <==> e.Activate? && e.key == k && w.state == Healthy)
               && (w'.state == Draining && w.state != Draining <==>
                     || (w.state == Active && e.Activate? && e.key.scannerId == k.scannerId && e.key in s.workers
                         && s.workers[e.key].state == Healthy)
                     || (e.Shutdown? && s.stopReply.None? && w.state != Draining && w.state != Failed && w.state != Retired))
               && (w'.state == Retired && w.state != Retired <==>
                     e.WorkerExit? && e.key == k && w.state == Draining && w.shutdownAck)
               && (w'.state == Failed && w.state != Failed <==> Reason(s, e, k).Some?)
               && (w'.state == Failed && w.state != Failed ==> w'.failureReason == Reason(s, e, k).value)
               && (w'.state == Starting ==> w.state == Starting)
  {
    hide CoreInv, Run, EventOk, EventsOk, Step, Reason;
    var s, e := Before(capacity, events, i), events[i];
    StepAt(capacity, events, i);
    StepState(s, e, k);
    ReasonWhen(s, e, k);
    if s.workers[k].healthReply.Some? { HealthyIsIdle(s, k); }
  }

  /** Event e is worker k's HEALTH_RESULT with status "ok", and a health check of it is pending. */
  predicate ReportsHealthy(s: State, e: Event, k: WorkerKey) {
    Hears(s, e, k, TypeHealthResult) && e.message.status == "ok" && s.workers[k].healthReply.Some?
  }

  predicate Proven(s: State, k: WorkerKey) { k in s.workers && (s.workers[k].state == Healthy || s.workers[k].state == Active) }

  lemma BecomesProven(s: State, e: Event, k: WorkerKey)
    requires CoreInv(s) && EventOk(e) && Proven(Step(s, e), k) && !Proven(s, k)
    ensures ReportsHealthy(s, e, k)
  {
    hide CoreInv, Step, EventOk, Reason, Unexpected;
    if s.phase != Running {
      StaysOut(s, e);
    } else if k in s.workers {
      StepState(s, e, k);
      ReasonWhen(s, e, k);
      UnexpectedHealth(s.workers[k]);
    } else {
      NewWorkerView(s, e, k);
    }
  }

  lemma UnexpectedHealth(w: Worker)
    ensures forall m: Message | m.kind == TypeHealthResult && !Unexpected(w, m) :: w.healthReply.Some?
  {
  }

  /** A worker that is HEALTHY or ACTIVE sent a HEALTH_RESULT with status "ok" while a health check of it was pending. */
  lemma {:induction false} WasHealthy(capacity: nat, events: seq<Event>, k: WorkerKey) returns (j: nat)
    requires EventsOk(events) && k in Run(capacity, events).workers
    requires Run(capacity, events).workers[k].state == Healthy || Run(capacity, events).workers[k].state == Active
    ensures j < |events| && Hears(Before(capacity, events, j), events[j], k, TypeHealthResult)
    ensures events[j].message.status == "ok" && Before(capacity, events, j).workers[k].healthReply.Some?
  {
    assert events != [];
    var last := |events| - 1;
    LastStep(capacity, events);
    RunKeeps(capacity, events[..last]);
    hide CoreInv, Run, EventOk, Step, Hears;
    if Proven(Run(capacity, events[..last]), k) {
      j := WasHealthy(capacity, events[..last], k);
      assert events[..last][..j] == events[..j];
    } else {
      j := last;
      BecomesProven(Run(capacity, events[..last]), events[last], k);
    }
  }

  /** Only workers that reported healthy are ever sent a scan. */
  lemma ScannedWasHealthy(capacity: nat, events: seq<Event>, id: nat, k: WorkerKey) returns (i: nat, j: nat)
    requires EventsOk(events) && Known(Run(capacity, events), id) && k in Book(Run(capacity, events), id).results
    ensures j < i < |events| && events[i] == ScanRequest(Book(Run(capacity, events), id).path, Book(Run(capacity, events), id).reply)
    ensures Hears(Before(capacity, events, j), events[j], k, TypeHealthResult)
    ensures events[j].message.status == "ok" && Before(capacity, events, j).workers[k].healthReply.Some?
  {
    hide CoreInv, Run, EventOk, Step, Hears, Known, Book;
    i := Admission(capacity, events, id);
    var s := Before(capacity, events, i);
    RunKeeps(capacity, events[..i]);
    RoutedProven(s, k);
    j := WasHealthy(capacity, events[..i], k);
    assert events[..i][..j] == events[..j];
  }

  lemma RoutedProven(s: State, k: WorkerKey)
    requires CoreInv(s) && k in s.active.Values
    ensures k in s.workers && s.workers[k].state == Active
  {
    hide CountsOk, RequestsOk, CandidatesOk, HistoryOk, QueuesOk, WorkersOk;
  }

  // ----- failures and commands

  /** Whoever waits for a check or a reload of a worker that fails is told why it failed. */
  lemma FailureTold(capacity: nat, events: seq<Event>, i: nat, k: WorkerKey, c: Chan)
    requires EventsOk(events) && i < |events| && Before(capacity, events, i).phase == Running && k in Before(capacity, events, i).workers
    requires var w := Before(capacity, events, i).workers[k];
             w.state != Failed && (w.helloReply == Some(c) || w.healthReply == Some(c) || w.reloadReply == Some(c))
    requires k in Before(capacity, events, i + 1).workers && Before(capacity, events, i + 1).workers[k].state == Failed
    ensures Send(c, Err(Before(capacity, events, i + 1).workers[k].failureReason)) in Run(capacity, events).sends
  {
    hide CoreInv, Run, EventOk, EventsOk, Step, Reason;
    StateChanges(capacity, events, i, k);
    var s, e := Before(capacity, events, i), events[i];
    assert WorkerSays(s, e, k, Send(c, Err(Reason(s, e, k).value)));
    Saying(capacity, events, i, Send(c, Err(Reason(s, e, k).value)));
  }

  /** A loop that ended with a shutdown has said so to whoever asked for it, and to nobody who asked later. */
  lemma {:induction false} EndTold(capacity: nat, events: seq<Event>, i: nat)
    requires EventsOk(events) && i < |events| && events[i].Shutdown?
    requires Before(capacity, events, i).phase == Running && Before(capacity, events, i).stopReply.None?
    ensures var t := Run(capacity, events);
            EndSaid(t, events[i].reply)
  {
    var last := |events| - 1;
    LastStep(capacity, events);
    RunKeeps(capacity, events[..last]);
    hide CoreInv, Run, EventOk, Step, EndSaid;
    if i < last {
      assert events[..last][..i] == events[..i];
      EndTold(capacity, events[..last], i);
    }
    EndStep(Run(capacity, events[..last]), events[last], events[i].reply);
  }

  predicate EndSaid(s: State, c: Chan) { s.stopReply == Some(c) && (s.phase == ShutDown ==> Send(c, Ok) in s.sends) }

  lemma EndStep(s: State, e: Event, c: Chan)
    requires CoreInv(s) && EventOk(e)
    requires EndSaid(s, c) || (s.phase == Running && s.stopReply.None? && e == Shutdown(c))
    ensures EndSaid(Step(s, e), c)
  {
    hide CoreInv, Step, EventOk, Says;
    if s.phase == Running {
      LoopView(s, e);
      CallersView(s, e);
    } else {
      StaysOut(s, e);
    }
  }

  /** An answer given at once is given. */
  lemma AtOnceTold(capacity: nat, events: seq<Event>, i: nat)
    requires EventsOk(events) && i < |events| && Before(capacity, events, i).phase == Running && EventChan(events[i]).Some?
    ensures var now := AtOnce(Before(capacity, events, i), events[i]);
            now.Some? ==> Send(EventChan(events[i]).value, now.value) in Run(capacity, events).sends
  {
    hide Run, EventOk, EventsOk, AtOnce, EventChan;
    var now := AtOnce(Before(capacity, events, i), events[i]);
    if now.Some? {
      var n := Send(EventChan(events[i]).value, now.value);
      assert CommandSays(Before(capacity, events, i), events[i], n);
      Saying(capacity, events, i, n);
    }
  }

  /** A command that neither checks, nor scans, nor reloads, nor stops the loop is answered at once or never. */
  lemma OnlyAtOnce(capacity: nat, events: seq<Event>, i: nat, r: Reply)
    requires EventsOk(events) && OwnChans(events) && i < |events| && Before(capacity, events, i).phase == Running
    requires events[i].Register? || events[i].Activate? || events[i].FailCommand? || events[i].QueryActive?
    ensures Send(EventChan(events[i]).value, r) in Run(capacity, events).sends <==> AtOnce(Before(capacity, events, i), events[i]) == Some(r)
  {
    hide Run, EventOk, EventsOk, AtOnce, OwnChans;
    AtOnceTold(capacity, events, i);
    if Send(EventChan(events[i]).value, r) in Run(capacity, events).sends {
      hide EventChan;
      OriginAtOnce(capacity, events, i, Send(EventChan(events[i]).value, r));
    }
  }

  lemma OriginAtOnce(capacity: nat, events: seq<Event>, i: nat, n: Send)
    requires EventsOk(events) && OwnChans(events) && i < |events|
    requires events[i].Register? || events[i].Activate? || events[i].FailCommand? || events[i].QueryActive?
    requires EventChan(events[i]) == Some(n.to) && n in Run(capacity, events).sends
    ensures AtOnce(Before(capacity, events, i), events[i]) == Some(n.reply)
  {
    hide Run, EventOk, EventsOk, AtOnce, OwnChans, EventChan, WorkerSays, CoreInv;
    var j, k := Origin(capacity, events, i, n);
  }

  /**
   No command reports a success it did not have, and none that succeeded is refused: a registration is answered Ok iff it adds
   the worker, an activation iff the worker goes from HEALTHY to ACTIVE, a failure iff a candidate becomes FAILED for that reason;
   a query names the ACTIVE worker of the scanner and its path; everything else these commands are answered is an error.
   */
  lemma CommandTold(capacity: nat, events: seq<Event>, i: nat)
    requires EventsOk(events) && OwnChans(events) && i < |events| && Before(capacity, events, i).phase == Running
    ensures var s, t, sends := Before(capacity, events, i), Before(capacity, events, i + 1), Run(capacity, events).sends;
            match events[i]
            case Register(k, _, c) =>
              && (Send(c, Ok) in sends <==> k !in s.workers && k in t.workers)
              && (forall r | Send(c, r) in sends :: r == Ok || r.Err?)
            case Activate(k, c) =>
              && (Send(c, Ok) in sends <==> k in s.workers && s.workers[k].state == Healthy && k in t.workers && t.workers[k].state == Active)
              && (forall r | Send(c, r) in sends :: r == Ok || r.Err?)
            case FailCommand(k, reason, c) =>
              && (Send(c, Ok) in sends <==>
                    && k in s.workers && (s.workers[k].state == Starting || s.workers[k].state == Healthy)
                    && k in t.workers && t.workers[k].state == Failed && t.workers[k].failureReason == reason)
              && (forall r | Send(c, r) in sends :: r == Ok || r.Err?)
            case QueryActive(id, c) =>
              && (forall k, path :: Send(c, WorkerReply(k, path)) in sends <==>
                    k in s.workers && k.scannerId == id && s.workers[k].state == Active && s.workers[k].signaturePath == path)
              && (forall r | Send(c, r) in sends :: r.WorkerReply? || r.Err?)
            case _ => true
  {
    hide CoreInv, Run, EventOk, EventsOk, Step, OwnChans, AtOnce;
    var s, e := Before(capacity, events, i), events[i];
    StepAt(capacity, events, i);
    if e.Register? || e.Activate? || e.FailCommand? || e.QueryActive? {
      forall r ensures Send(EventChan(e).value, r) in Run(capacity, events).sends <==> AtOnce(s, e) == Some(r) {
        OnlyAtOnce(capacity, events, i, r);
      }
      AtOnceEffect(s, e);
    }
  }

  lemma AtOnceEffect(s: State, e: Event)
    requires CoreInv(s) && EventOk(e) && s.phase == Running
    ensures var t := Step(s, e);
            match e
            case Register(k, _, c) => AtOnce(s, e).Some? && var r := AtOnce(s, e).value; (r == Ok <==> k !in s.workers && k in t.workers) && (r == Ok || r.Err?)
            case Activate(k, c) =>
              AtOnce(s, e).Some? && var r := AtOnce(s, e).value;
              (r == Ok <==> k in s.workers && s.workers[k].state == Healthy && k in t.workers && t.workers[k].state == Active) && (r == Ok || r.Err?)
            case FailCommand(k, reason, c) =>
              AtOnce(s, e).Some? && var r := AtOnce(s, e).value;
              && (r == Ok <==> k in s.workers && (s.workers[k].state == Starting || s.workers[k].state == Healthy)
                               && k in t.workers && t.workers[k].state == Failed && t.workers[k].failureReason == reason)
              && (r == Ok || r.Err?)
            case QueryActive(id, c) =>
              AtOnce(s, e).Some? && var r := AtOnce(s, e).value;
              && (forall k, path :: r == WorkerReply(k, path) <==>
                    k in s.workers && k.scannerId == id && s.workers[k].state == Active && s.workers[k].signaturePath == path)
              && (r.WorkerReply? || r.Err?)
            case _ => true
  {
    hide CoreInv, EventOk, Step, Reason, Taken;
    match e
    case Register(k, _, c) => if k !in s.workers { NewWorkerView(s, e, k); }
    case Activate(k, c) => if k in s.workers { StepState(s, e, k); ReasonWhen(s, e, k); }
    case FailCommand(k, reason, c) => if k in s.workers { StepState(s, e, k); FailReason(s, k, reason, c); }
    case QueryActive(id, c) => RoutedOne(s);
    case _ =>
  }

  lemma FailReason(s: State, k: WorkerKey, reason: string, c: Chan)
    requires k in s.workers
    ensures Reason(s, FailCommand(k, reason, c), k)
            == if s.workers[k].state == Starting || s.workers[k].state == Healthy then Some(reason) else None
  {
  }

  lemma RoutedOne(s: State)
    requires CoreInv(s)
    ensures forall id | id in s.active :: s.active[id] in s.workers && s.active[id].scannerId == id
    ensures forall k :: k in s.workers && s.workers[k].state == Active <==> k.scannerId in s.active && s.active[k.scannerId] == k
  {
    assert RoutesOk(s);
    hide CoreInv;
    RoutesIff(s);
  }

  /** The first Shutdown is answered Ok iff the loop has ended with it; any other is refused. */
  lemma ShutdownTold(capacity: nat, events: seq<Event>, i: nat)
    requires EventsOk(events) && OwnChans(events) && i < |events| && events[i].Shutdown? && Before(capacity, events, i).phase == Running
    ensures var s, t, c := Before(capacity, events, i), Run(capacity, events), events[i].reply;
            && (Send(c, Ok) in t.sends <==> s.stopReply.None? && t.phase == ShutDown)
            && (s.stopReply.Some? ==> Send(c, Err("shutdown is already in progress")) in t.sends)
            && (forall r | Send(c, r) in t.sends :: r == Ok || r.Err?)
  {
    hide CoreInv, Run, EventOk, EventsOk, Step, OwnChans, WorkerSays, RepliesOk;
    var s, c := Before(capacity, events, i), events[i].reply;
    if s.stopReply.None? { EndTold(capacity, events, i); }
    if s.stopReply.Some? { AtOnceTold(capacity, events, i); }
    ReplyDiscipline(capacity, events);
    forall r | Send(c, r) in Run(capacity, events).sends
      ensures r == Ok || r.Err?
      ensures r == Ok ==> s.stopReply.None? && Run(capacity, events).phase == ShutDown
    {
      var j, k := Origin(capacity, events, i, Send(c, r));
      OneReply(Run(capacity, events), Send(c, r));
      if j != i || s.stopReply.None? { EndStays(capacity, events, j + 1); }
    }
  }

  /** The end is the end. */
  lemma {:induction false} EndStays(capacity: nat, events: seq<Event>, j: nat)
    requires j <= |events| && Before(capacity, events, j).phase != Running
    ensures Run(capacity, events) == Before(capacity, events, j)
  {
    hide Step;
    if j == |events| {
      assert events[..j] == events;
    } else {
      var last := |events| - 1;
      LastStep(capacity, events);
      hide Run;
      assert events[..last][..j] == events[..j];
      EndStays(capacity, events[..last], j);
      StaysOut(Run(capacity, events[..last]), events[last]);
    }
  }
}
