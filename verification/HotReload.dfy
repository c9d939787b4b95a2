/**
 Signature reloads in the composed system: when the path Core records for a worker is the one the worker scans with.
 The record is what an upgrade launches the next version with.

 A session answers its RELOADs in order, but a result says neither which reload it answers nor is it asked: Core
 credits it to whatever reload is under way. Reloads of one worker are numbered from one, in the order queued.
 */
module HotReload {
  import opened Wrappers
  import opened Messages
  import opened ReloadHistory
  import opened RuntimeSpec
  import opened RuntimeReloads
  import RuntimeInvariants
  import RuntimeLifecycle
  import RuntimeMoves
  import RuntimeProvenance
  import opened RuntimeSafety
  import WorkerSession
  import opened HotSwap

  // ----- what the theorems are about

  /** The RELOADs ever queued to worker k. */
  function Asked(n: Net, k: WorkerKey): seq<Message> {
    if k in Core(n).workers then Reloads(Core(n).workers[k].Log()) else []
  }

  /** Core records the path that worker k scans with. */
  predicate Agrees(n: Net, k: WorkerKey) {
    k in n.links && k in Core(n).workers && Core(n).workers[k].signaturePath == n.links[k].session.loaded
  }

  /** How many results of reloads Core was handed. */
  function ResultsHeard(l: Link): nat
    requires l.delivered <= |l.session.out|
  {
    |Results(l.session.out[..l.delivered])|
  }

  /** The next message that Core is handed is the result of a reload. */
  predicate ResultNext(l: Link) {
    l.delivered < |l.session.out| && l.session.out[l.delivered].kind == TypeReloadResult
  }

  /** Core can still be told about a reload of worker k. */
  predicate Running(n: Net, k: WorkerKey) {
    k in n.links && k in Core(n).workers && Core(n).phase == RuntimeSpec.Running && !Core(n).workers[k].Terminal()
  }

  /** And one is under way. */
  predicate Reloading(n: Net, k: WorkerKey) {
    Running(n, k) && Core(n).workers[k].reloadReply.Some?
  }

  // ----- executions only add

  predicate Grows(l: Link, l': Link) {
    && l'.session.config == l.session.config && l.session.loads <= l'.session.loads
    && l.session.out <= l'.session.out && l.delivered <= l'.delivered
  }

  lemma SessionGrows(x: WorkerSession.Session, m: Message, luck: WorkerSession.Luck)
    ensures var y := WorkerSession.Hear(x, m, luck); y.config == x.config && x.loads <= y.loads && x.out <= y.out
  {
  }

  lemma EventGrows(n: Net, e: Event, config: WorkerSession.Config, k: WorkerKey)
    requires EventsOk(n.trace) && LinksOk(n) && k in n.links
    ensures var t := Act(n, CoreEvent(e, config)); k in t.links && t.links[k] == n.links[k] && n.trace <= t.trace
  {
    hide Run, EventsOk, LinkOk, Received;
    if !e.WorkerMessage? {
      assert EventsOk(n.trace + [e]) by { OneMoreOk(n.trace, e); }
      WrittenGrows(n, e, k);
    }
  }

  lemma OneMoreOk(trace: seq<Event>, e: Event)
    requires EventsOk(trace) && EventOk(e)
    ensures EventsOk(trace + [e])
  {
  }

  lemma ReceiveGrows(n: Net, j: WorkerKey, luck: WorkerSession.Luck, k: WorkerKey)
    requires k in n.links
    ensures var t := Act(n, Receive(j, luck));
            k in t.links && Grows(n.links[k], t.links[k]) && t.trace == n.trace && t.links[k].delivered == n.links[k].delivered
  {
    hide Run, WorkerSession.Hear;
    if k == j && k in Core(n).workers && n.links[k].consumed < |Core(n).workers[k].written| {
      SessionGrows(n.links[k].session, Core(n).workers[k].written[n.links[k].consumed], luck);
    }
  }

  lemma ActGrows(n: Net, a: Action, k: WorkerKey)
    requires NetOk(n) && k in n.links
    ensures k in Act(n, a).links && Grows(n.links[k], Act(n, a).links[k]) && n.trace <= Act(n, a).trace
    ensures !a.Deliver? ==> Act(n, a).links[k].delivered == n.links[k].delivered
  {
    hide Core, EventsOk, RuntimeLifecycle.AcksFollow, AckHeard, Silent, LinksOk;
    match a
    case CoreEvent(e, config) =>
      hide Act;
      EventGrows(n, e, config, k);
    case Receive(j, luck) =>
      hide Act;
      ReceiveGrows(n, j, luck, k);
    case _ =>
  }

  lemma ExecuteMore(capacity: nat, actions: seq<Action>, a: Action)
    ensures Execute(capacity, actions + [a]) == Act(Execute(capacity, actions), a)
  {
    hide Act;
    assert (actions + [a])[..|actions|] == actions;
  }

  lemma {:induction false} ExecuteGrows(capacity: nat, past: seq<Action>, more: seq<Action>, k: WorkerKey)
    requires k in Execute(capacity, past).links
    ensures var n, t := Execute(capacity, past), Execute(capacity, past + more);
            k in t.links && Grows(n.links[k], t.links[k]) && n.trace <= t.trace
    decreases |more|
  {
    if more == [] {
      assert past + more == past;
      hide Execute, Run;
    } else {
      var rest := more[..|more| - 1];
      assert past + more == (past + rest) + [more[|more| - 1]];
      hide NetOk, Act, Execute, Run, Grows;
      ExecuteGrows(capacity, past, rest, k);
      ExecuteKeeps(capacity, past + rest);
      ExecuteMore(capacity, past + rest, more[|more| - 1]);
      ActGrows(Execute(capacity, past + rest), more[|more| - 1], k);
      GrowsTrans(Execute(capacity, past).links[k], Execute(capacity, past + rest).links[k], Execute(capacity, past + more).links[k]);
    }
  }

  lemma GrowsTrans(l: Link, m: Link, n: Link)
    requires Grows(l, m) && Grows(m, n)
    ensures Grows(l, n)
  {
  }

  /** What Core did between two points of an execution. */
  lemma Between(capacity: nat, past: seq<Action>, more: seq<Action>, k: WorkerKey)
    requires k in Core(Execute(capacity, past)).workers
    ensures var n, t := Execute(capacity, past), Execute(capacity, past + more);
            && k in n.links && k in t.links && Grows(n.links[k], t.links[k])
            && k in Core(t).workers
            && var w, w' := Core(n).workers[k], Core(t).workers[k];
               && Asked(n, k) <= Asked(t, k) && Ended(w) <= Ended(w')
               && (w'.signaturePath != w.signaturePath ==> Ended(w) < Ended(w'))
  {
    hide Run, Execute, Reloads, RuntimeLifecycle.AcksFollow, AckHeard, Silent, LinkOk, EventsOk, Ended;
    ExecuteKeeps(capacity, past);
    ExecuteKeeps(capacity, past + more);
    ExecuteGrows(capacity, past, more, k);
    var n, t := Execute(capacity, past), Execute(capacity, past + more);
    var future := t.trace[|n.trace|..];
    assert n.trace + future == t.trace;
    SignaturePath(capacity, n.trace, future, k);
    AskedGrows(Core(n).workers[k].Log(), Core(t).workers[k].Log());
  }

  lemma AskedGrows(a: seq<Message>, b: seq<Message>)
    requires a <= b
    ensures Reloads(a) <= Reloads(b)
  {
    OfKindPrefix(a, b, TypeReload);
  }

  // ----- every execution

  lemma FirstSame(capacity: nat, trace: seq<Event>, e: Event, k: WorkerKey)
    requires k in Run(capacity, trace).workers
    ensures FirstPath(capacity, trace + [e], k) == FirstPath(capacity, trace, k)
  {
    hide Run;
    assert (trace + [e])[..|trace|] == trace;
  }

  lemma FirstIs(capacity: nat, trace: seq<Event>, e: Event, k: WorkerKey)
    requires k !in Run(capacity, trace).workers && k in Run(capacity, trace + [e]).workers
    ensures FirstPath(capacity, trace + [e], k) == Run(capacity, trace + [e]).workers[k].signaturePath
  {
    hide Run;
    assert (trace + [e])[..|trace|] == trace;
  }

  /** A session was started with the path its worker was registered with. */
  ghost predicate FirstsOk(n: Net) {
    forall k | k in n.links :: n.links[k].session.config.signaturePath == FirstPath(n.capacity, n.trace, k)
  }

  lemma EventFirsts(n: Net, e: Event, config: WorkerSession.Config)
    requires n.links.Keys == Core(n).workers.Keys && FirstsOk(n)
    ensures FirstsOk(Act(n, CoreEvent(e, config)))
  {
    hide Run, FirstPath;
    if !e.WorkerMessage? {
      var t := Act(n, CoreEvent(e, config));
      forall k | k in t.links ensures t.links[k].session.config.signaturePath == FirstPath(t.capacity, t.trace, k) {
        if k in n.links {
          FirstSame(n.capacity, n.trace, e, k);
        } else {
          FirstIs(n.capacity, n.trace, e, k);
        }
      }
    }
  }

  lemma DeliverFirsts(n: Net, k: WorkerKey)
    requires n.links.Keys == Core(n).workers.Keys && FirstsOk(n)
    ensures FirstsOk(Act(n, Deliver(k)))
  {
    hide Run, FirstPath, Act;
    if ResultsToCome(n, k) {
      DeliverIs(n, k);
      forall j | j in n.links ensures FirstPath(n.capacity, Act(n, Deliver(k)).trace, j) == FirstPath(n.capacity, n.trace, j) {
        FirstSame(n.capacity, n.trace, WorkerMessage(k, n.links[k].session.out[n.links[k].delivered]), j);
      }
    } else {
      DeliverNothing(n, k);
    }
  }

  predicate ResultsToCome(n: Net, k: WorkerKey) { k in n.links && n.links[k].delivered < |n.links[k].session.out| }

  lemma DeliverNothing(n: Net, k: WorkerKey)
    requires !ResultsToCome(n, k)
    ensures Act(n, Deliver(k)) == n
  {
  }

  /** A step of a session leaves Core and the other sessions as they are. */
  lemma SessionAct(n: Net, a: Action)
    requires !a.CoreEvent? && !a.Deliver?
    ensures var t := Act(n, a); t.trace == n.trace && t.capacity == n.capacity && t.links.Keys == n.links.Keys
  {
    hide Run, WorkerSession.Hear;
  }

  lemma ActFirsts(n: Net, a: Action)
    requires NetOk(n) && FirstsOk(n)
    ensures FirstsOk(Act(n, a))
  {
    hide EventsOk, RuntimeLifecycle.AcksFollow, AckHeard, Silent, FirstPath, LinkOk, Run, Received;
    assert n.links.Keys == Core(n).workers.Keys;
    match a
    case CoreEvent(e, config) =>
      hide Act, FirstsOk, LinksOk;
      EventFirsts(n, e, config);
    case Deliver(k) =>
      hide Act, FirstsOk, LinksOk;
      DeliverFirsts(n, k);
    case _ =>
      hide Act, LinksOk;
      SessionAct(n, a);
      forall k | k in n.links ensures Act(n, a).links[k].session.config == n.links[k].session.config {
        ActGrows(n, a, k);
      }
  }

  lemma {:induction false} ExecuteFirsts(capacity: nat, actions: seq<Action>)
    ensures FirstsOk(Execute(capacity, actions))
  {
    if actions != [] {
      var n := |actions| - 1;
      ExecuteFirsts(capacity, actions[..n]);
      ExecuteKeeps(capacity, actions[..n]);
      hide FirstsOk, NetOk, Act;
      ActFirsts(Execute(capacity, actions[..n]), actions[n]);
    }
  }

  lemma PathOfMore(first: string, a: seq<Message>, b: seq<Message>, n: nat)
    requires a <= b && n <= |a|
    ensures PathOf(first, a, n) == PathOf(first, b, n)
  {
  }

  /** The session's loads bear out its results, and there are no more of them than reloads that were asked for. */
  ghost predicate LoadsFit(w: Worker, l: Link) {
    && |Results(l.session.out)| <= |l.session.loads| <= |Reloads(w.Log())|
    && forall i | 0 <= i < |Results(l.session.out)| :: Results(l.session.out)[i].success == l.session.loads[i].Success?
  }

  /** What the session knows of its reloads, in Core's numbering. */
  lemma SessionLoads(n: Net, k: WorkerKey)
    requires NetOk(n) && k in n.links
    ensures k in Core(n).workers
    ensures var l := n.links[k]; var x := l.session;
            && LoadsFit(Core(n).workers[k], l) && l.delivered <= |x.out|
            && x.loaded == PathOf(x.config.signaturePath, Asked(n, k), Latest(x.loads))
  {
    hide EventsOk, RuntimeLifecycle.AcksFollow, AckHeard, Silent, Run, Received, Reloads, Results, Latest, PathOf, WorkerSession.Balanced, WorkerSession.InStep,
         WorkerSession.Honest;
    var l := n.links[k];
    var w := Core(n).workers[k];
    assert LinkOk(w.written, Received(n.trace, k), l);
    var heard := w.written[..l.consumed];
    assert heard <= w.Log();
    AskedGrows(heard, w.Log());
    PathOfMore(l.session.config.signaturePath, Reloads(heard), Reloads(w.Log()), Latest(l.session.loads));
  }

  /**
   In every execution Core's path for a worker is that of the reload it last credited with a good result, and the
   path in use is that of the reload that last loaded: they agree if and only if these two reloads have the same path.
   */
  lemma AgreesExactly(capacity: nat, actions: seq<Action>, k: WorkerKey)
    requires k in Core(Execute(capacity, actions)).workers
    ensures var n := Execute(capacity, actions);
            && k in n.links
            && var x, credited := n.links[k].session, Credited(capacity, n.trace, k);
               && credited <= |Asked(n, k)| && |x.loads| <= |Asked(n, k)|
               && Core(n).workers[k].signaturePath == PathOf(x.config.signaturePath, Asked(n, k), credited)
               && x.loaded == PathOf(x.config.signaturePath, Asked(n, k), Latest(x.loads))
               && (Agrees(n, k) <==> PathOf(x.config.signaturePath, Asked(n, k), credited)
                                     == PathOf(x.config.signaturePath, Asked(n, k), Latest(x.loads)))
  {
    hide Run, Execute, Reloads, Results, Latest, PathOf, RuntimeLifecycle.AcksFollow, AckHeard, Silent, LinkOk, EventsOk, Credited, FirstPath;
    ExecuteKeeps(capacity, actions);
    ExecuteFirsts(capacity, actions);
    var n := Execute(capacity, actions);
    CreditedPath(capacity, n.trace, k);
    SessionLoads(n, k);
  }

  // ----- as long as no reload is given up

  /** Every timeout of worker k's reloads came when none was under way. */
  ghost predicate NeverGivenUp(capacity: nat, trace: seq<Event>, k: WorkerKey) {
    forall i | 0 <= i < |trace| && trace[i] == ReloadTimeout(k) :: Idle(RuntimeProvenance.Before(capacity, trace, i), k)
  }

  predicate Idle(s: State, k: WorkerKey) { k in s.workers ==> s.workers[k].reloadReply.None? }

  lemma NeverBefore(capacity: nat, trace: seq<Event>, e: Event, k: WorkerKey)
    requires NeverGivenUp(capacity, trace + [e], k)
    ensures NeverGivenUp(capacity, trace, k)
    ensures e == ReloadTimeout(k) ==> Idle(Run(capacity, trace), k)
  {
    hide Run, Idle;
    var all := trace + [e];
    assert all[..|trace|] == trace && all[|trace|] == e;
    forall i | 0 <= i < |trace| && trace[i] == ReloadTimeout(k) ensures Idle(RuntimeProvenance.Before(capacity, trace, i), k) {
      assert all[..i] == trace[..i] && all[i] == trace[i];
    }
  }

  /** Core can still be told about a reload of worker k, and never gave one up. */
  ghost predicate Live(n: Net, k: WorkerKey) { Running(n, k) && NeverGivenUp(n.capacity, n.trace, k) }

  /** Core heard a result of each reload that is over, and believed it. */
  ghost predicate Clean(w: Worker, l: Link) {
    && l.delivered <= |l.session.out| && ResultsHeard(l) == Ended(w) <= |l.session.loads|
    && w.signaturePath == PathOf(l.session.config.signaturePath, Reloads(w.Log()), Latest(l.session.loads[..Ended(w)]))
  }

  lemma LaunchedClean(w: Worker, config: WorkerSession.Config)
    requires IsNew(w)
    ensures Clean(w, Launched(config, w.signaturePath))
  {
  }

  /** An event that ends no reload of the worker. */
  lemma MovesClean(w: Worker, w': Worker, l: Link)
    requires Clean(w, l) && (PathStays(w, w') || Begins(w, w')) && w'.state != Failed
    ensures Clean(w', l)
  {
    hide Latest;
    assert Ended(w') == Ended(w) by { hide Reloads, Results; }
    hide Reloads, Results;
  }

  lemma GrownClean(w: Worker, l: Link, l': Link)
    requires Clean(w, l) && Grows(l, l') && l'.delivered == l.delivered
    ensures Clean(w, l')
  {
    hide Latest, Reloads, Results;
    assert l'.session.out[..l.delivered] == l.session.out[..l.delivered];
    assert l'.session.loads[..Ended(w)] == l.session.loads[..Ended(w)];
  }

  lemma NextResult(l: Link)
    requires l.delivered < |l.session.out|
    ensures var l' := l.(delivered := l.delivered + 1);
            if ResultNext(l) then
              && ResultsHeard(l') == ResultsHeard(l) + 1 <= |Results(l.session.out)|
              && Results(l.session.out)[ResultsHeard(l)] == l.session.out[l.delivered]
            else ResultsHeard(l') == ResultsHeard(l)
  {
    var m := l.session.out[l.delivered];
    assert l.session.out[..l.delivered + 1] == l.session.out[..l.delivered] + [m];
    ResultsMore(l.session.out[..l.delivered], m);
    OfKindPrefix(l.session.out[..l.delivered + 1], l.session.out, TypeReloadResult);
    hide OfKind;
  }

  /** The result that Core is handed is the one of the reload under way. */
  lemma ResultClean(w: Worker, w': Worker, l: Link)
    requires Clean(w, l) && LoadsFit(w, l) && LastAsked(w) && ResultNext(l)
    requires w.reloadReply.Some? ==> Ends(w, w', l.session.out[l.delivered].success)
    ensures Clean(w', l.(delivered := l.delivered + 1))
  {
    hide Reloads, Results, Latest;
    NextResult(l);
    var d := Ended(w);
    var loads := l.session.loads;
    assert w.reloadReply.Some? && d + 1 == |loads| == |Reloads(w.Log())|;
    assert loads[..d + 1] == loads;
    LatestAt(loads, d);
  }

  /** One event, as one live worker sees it. */
  lemma EventMoves(n: Net, e: Event, k: WorkerKey)
    requires EventsOk(n.trace) && EventOk(e) && k in n.links && k in Core(n).workers && Live(Handled(n, e), k)
    ensures Live(n, k) && LastAsked(Core(n).workers[k]) && (e == ReloadTimeout(k) ==> Core(n).workers[k].reloadReply.None?)
    ensures var w, w' := Core(n).workers[k], Core(Handled(n, e)).workers[k]; w'.state != Failed && PathMoves(w, w', e, k)
  {
    hide PathMoves, Run, Step, NeverGivenUp, Reloads, EventsOk;
    var s := Core(n);
    NeverBefore(n.capacity, n.trace, e, k);
    RunMore(n.capacity, n.trace, e);
    StepStands(s, e);
    RunKeeps(n.capacity, n.trace);
    RunReloads(n.capacity, n.trace);
    hide RuntimeInvariants.CoreInv;
    WorkerStep(s, e, k);
    RuntimeMoves.StepMoves(s, e);
    hide RuntimeMoves.Moves;
    RuntimeLifecycle.MovesAt(s, Step(s, e), k, RuntimeMoves.Slips(s, e));
  }

  lemma LiveRuns(n: Net, k: WorkerKey)
    requires Live(n, k)
    ensures k in Core(n).workers && !Core(n).workers[k].Terminal()
  {
    hide Run, NeverGivenUp;
  }

  ghost predicate CleanNet(n: Net) {
    forall k | Live(n, k) :: Clean(Core(n).workers[k], n.links[k])
  }

  /** An event that brings worker k no result. */
  lemma QuietClean(n: Net, e: Event, k: WorkerKey)
    requires EventsOk(n.trace) && EventOk(e) && k in n.links && k in Core(n).workers && Live(Handled(n, e), k)
    requires CleanNet(n) && !IsResult(e, k)
    ensures Clean(Core(Handled(n, e)).workers[k], n.links[k])
  {
    hide Run, Clean, Live, PathStays, Begins, EventsOk;
    EventMoves(n, e, k);
    LiveRuns(Handled(n, e), k);
    MovesClean(Core(n).workers[k], Core(Handled(n, e)).workers[k], n.links[k]);
  }

  lemma NewClean(n: Net, e: Event, k: WorkerKey, config: WorkerSession.Config)
    requires EventsOk(n.trace) && k !in Core(n).workers && k in Core(Handled(n, e)).workers
    ensures var w := Core(Handled(n, e)).workers[k]; Clean(w, Launched(config, w.signaturePath))
  {
    hide Run, Step, Clean, EventsOk;
    RunMore(n.capacity, n.trace, e);
    RunKeeps(n.capacity, n.trace);
    hide RuntimeInvariants.CoreInv;
    NewRecord(Core(n), e, k);
    LaunchedClean(Core(Handled(n, e)).workers[k], config);
  }

  lemma EventClean(n: Net, e: Event, config: WorkerSession.Config)
    requires NetOk(n) && CleanNet(n)
    ensures CleanNet(Act(n, CoreEvent(e, config)))
  {
    hide Run, Clean, NeverGivenUp, EventsOk, RuntimeLifecycle.AcksFollow, AckHeard, Silent, LinkOk, Received;
    if !e.WorkerMessage? {
      var t := Act(n, CoreEvent(e, config));
      assert Core(t) == Core(Handled(n, e));
      forall k | Live(t, k) ensures Clean(Core(t).workers[k], t.links[k]) {
        if k in n.links {
          assert Live(Handled(n, e), k);
          QuietClean(n, e, k);
        } else {
          NewClean(n, e, k, config);
        }
      }
    }
  }

  lemma DeliveryClean(n: Net, k: WorkerKey, e: Event, j: WorkerKey)
    requires NetOk(n) && CleanNet(n) && ResultsToCome(n, k) && e == WorkerMessage(k, n.links[k].session.out[n.links[k].delivered])
    requires j in n.links && Live(Handled(n, e), j)
    ensures var l := n.links[j];
            Clean(Core(Handled(n, e)).workers[j], if j == k then l.(delivered := l.delivered + 1) else l)
  {
    hide Run, Clean, Live, EventsOk, RuntimeLifecycle.AcksFollow, AckHeard, Silent, LinkOk, Received, PathStays, Begins, Ends, EventOk, LoadsFit,
         RuntimeLifecycle.AckFollows, Results, Reloads;
    DeliveredOk(n, k);
    EventMoves(n, e, j);
    SessionLoads(n, j);
    LiveRuns(Handled(n, e), j);
    var w, w' := Core(n).workers[j], Core(Handled(n, e)).workers[j];
    if j == k && ResultNext(n.links[k]) {
      LiveRuns(n, k);
      ResultClean(w, w', n.links[k]);
    } else {
      QuietClean(n, e, j);
      if j == k { OtherDelivered(w', n.links[k]); }
    }
  }

  /** The next message that Core is handed, when it is no result. */
  lemma OtherDelivered(w: Worker, l: Link)
    requires Clean(w, l) && l.delivered < |l.session.out| && !ResultNext(l)
    ensures Clean(w, l.(delivered := l.delivered + 1))
  {
    hide Reloads, Results, Latest;
    NextResult(l);
  }

  lemma DeliverClean(n: Net, k: WorkerKey)
    requires NetOk(n) && CleanNet(n)
    ensures CleanNet(Act(n, Deliver(k)))
  {
    hide Run, Clean, NeverGivenUp, NetOk, Act, Received;
    if ResultsToCome(n, k) {
      var e := WorkerMessage(k, n.links[k].session.out[n.links[k].delivered]);
      DeliverIs(n, k);
      var t := Act(n, Deliver(k));
      assert Core(t) == Core(Handled(n, e));
      forall j | Live(t, j) ensures Clean(Core(t).workers[j], t.links[j]) {
        assert Live(Handled(n, e), j);
        DeliveryClean(n, k, e, j);
      }
    } else {
      DeliverNothing(n, k);
    }
  }

  lemma SessionClean(n: Net, a: Action)
    requires NetOk(n) && CleanNet(n) && !a.CoreEvent? && !a.Deliver?
    ensures CleanNet(Act(n, a))
  {
    hide Run, Clean, NeverGivenUp, NetOk, Act, Received, Grows;
    SessionAct(n, a);
    var t := Act(n, a);
    forall k | Live(t, k) ensures Clean(Core(t).workers[k], t.links[k]) {
      assert Live(n, k) && Core(t) == Core(n);
      ActGrows(n, a, k);
      GrownClean(Core(n).workers[k], n.links[k], t.links[k]);
    }
  }

  lemma {:induction false} ExecuteClean(capacity: nat, actions: seq<Action>)
    ensures CleanNet(Execute(capacity, actions))
  {
    if actions != [] {
      var n := |actions| - 1;
      ExecuteClean(capacity, actions[..n]);
      ExecuteKeeps(capacity, actions[..n]);
      hide CleanNet, NetOk, Act;
      match actions[n]
      case CoreEvent(e, config) => EventClean(Execute(capacity, actions[..n]), e, config);
      case Deliver(k) => DeliverClean(Execute(capacity, actions[..n]), k);
      case _ => SessionClean(Execute(capacity, actions[..n]), actions[n]);
    }
  }

  /**
   As long as no reload of a worker is given up, the path Core records for it is the one it scans with whenever no
   reload is under way.
   */
  lemma PathInUse(capacity: nat, actions: seq<Action>, k: WorkerKey)
    requires k in Core(Execute(capacity, actions)).workers && Core(Execute(capacity, actions)).phase == RuntimeSpec.Running
    requires !Core(Execute(capacity, actions)).workers[k].Terminal()
    requires NeverGivenUp(capacity, Execute(capacity, actions).trace, k)
    requires Core(Execute(capacity, actions)).workers[k].reloadReply.None?
    ensures Agrees(Execute(capacity, actions), k)
  {
    hide Run, Execute, RuntimeLifecycle.AcksFollow, EventsOk, AckHeard, Silent, Reloads, Results, Latest, LinkOk, Received;
    ExecuteKeeps(capacity, actions);
    ExecuteClean(capacity, actions);
    var n := Execute(capacity, actions);
    assert Live(n, k);
    hide NeverGivenUp;
    SessionLoads(n, k);
    assert n.links[k].session.loads[..|Asked(n, k)|] == n.links[k].session.loads;
  }

  // ----- when a reload ends

  /** The path in use, when all loads but the last reload's are accounted for by `before`. */
  lemma LastCounts(first: string, asked: seq<Message>, loads: seq<Result<nat>>, before: string, d: nat)
    requires d < |asked| && d <= |loads| <= d + 1 && before == PathOf(first, asked, Latest(loads[..d]))
    ensures PathOf(first, asked, Latest(loads)) == if Took(loads, d + 1) then asked[d].signaturePath else before
  {
    hide Latest;
    if |loads| == d {
      assert loads[..d] == loads;
    } else {
      LatestAt(loads, d);
    }
  }

  /** After an event that ends the reload of worker k, as long as no other begins. */
  lemma EndsAfter(capacity: nat, past: seq<Action>, a: Action, more: seq<Action>, k: WorkerKey, good: bool)
    requires var n, u, t := Execute(capacity, past), Execute(capacity, past + [a]), Execute(capacity, past + [a] + more);
             && k in Core(n).workers && k in Core(u).workers && Ends(Core(n).workers[k], Core(u).workers[k], good)
             && |Asked(t, k)| == |Asked(n, k)|
    ensures var n, t := Execute(capacity, past), Execute(capacity, past + [a] + more);
            && k in Core(t).workers && k in n.links && k in t.links && Grows(n.links[k], t.links[k])
            && Core(t).workers[k].reloadReply.None? && Asked(t, k) == Asked(n, k)
            && Core(t).workers[k].signaturePath ==
               if good then Core(n).workers[k].pendingSignaturePath else Core(n).workers[k].signaturePath
  {
    hide Run, Execute, Reloads;
    Between(capacity, past, [a], k);
    Between(capacity, past + [a], more, k);
    GrowsTrans(Execute(capacity, past).links[k], Execute(capacity, past + [a]).links[k], Execute(capacity, past + [a] + more).links[k]);
  }

  /** What the results of worker k say of its loads. */
  lemma ResultTells(n: Net, k: WorkerKey)
    requires NetOk(n) && k in n.links && ResultNext(n.links[k])
    ensures ResultsHeard(n.links[k]) < |n.links[k].session.loads| <= |Asked(n, k)|
    ensures n.links[k].session.out[n.links[k].delivered].success == n.links[k].session.loads[ResultsHeard(n.links[k])].Success?
  {
    hide Run, NetOk, Reloads, Results, Latest;
    SessionLoads(n, k);
    NextResult(n.links[k]);
  }

  lemma DeliveryEnds(n: Net, k: WorkerKey)
    requires NetOk(n) && Reloading(n, k) && ResultNext(n.links[k])
    ensures var u := Act(n, Deliver(k));
            k in Core(u).workers && Ends(Core(n).workers[k], Core(u).workers[k], n.links[k].session.out[n.links[k].delivered].success)
  {
    hide Run, Step, Ends, Begins, PathStays, LinkOk, Received, RuntimeLifecycle.AcksFollow, AckHeard, Silent, Act;
    var e := WorkerMessage(k, n.links[k].session.out[n.links[k].delivered]);
    DeliverIs(n, k);
    RunMore(n.capacity, n.trace, e);
    RunKeeps(n.capacity, n.trace);
    hide RuntimeInvariants.CoreInv, EventsOk;
    WorkerStep(Core(n), e, k);
  }

  /**
   In every execution: when a result ends the reload of a worker, Core believes it, whichever reload it answers. Until
   another begins, Core and the worker agree exactly when the reload that last loaded has the path Core then records; if
   no other result was owed, exactly when it was good or they agreed before.
   */
  lemma EndsExactly(capacity: nat, past: seq<Action>, more: seq<Action>, k: WorkerKey)
    requires var n, t := Execute(capacity, past), Execute(capacity, past + [Deliver(k)] + more);
             Reloading(n, k) && ResultNext(n.links[k]) && |Asked(t, k)| == |Asked(n, k)|
    ensures var n, t := Execute(capacity, past), Execute(capacity, past + [Deliver(k)] + more);
            && k in Core(t).workers && k in t.links && Core(t).workers[k].reloadReply.None?
            && var w, x, number := Core(n).workers[k], t.links[k].session, ResultsHeard(n.links[k]) + 1;
               && number <= |x.loads|
               && Core(t).workers[k].signaturePath == (if Took(x.loads, number) then w.pendingSignaturePath else w.signaturePath)
               && (Agrees(t, k) <==> Core(t).workers[k].signaturePath == PathOf(x.config.signaturePath, Asked(n, k), Latest(x.loads)))
               && (number == |Asked(n, k)| ==> (Agrees(t, k) <==> Took(x.loads, number) || Agrees(n, k)))
  {
    hide Run, Execute, Reloads, Results, Latest, NetOk, Act, Ends, PathOf;
    var n, t := Execute(capacity, past), Execute(capacity, past + [Deliver(k)] + more);
    ExecuteKeeps(capacity, past);
    ExecuteKeeps(capacity, past + [Deliver(k)] + more);
    ResultTells(n, k);
    DeliveryEnds(n, k);
    ExecuteMore(capacity, past, Deliver(k));
    EndsAfter(capacity, past, Deliver(k), more, k, n.links[k].session.out[n.links[k].delivered].success);
    SessionLoads(n, k);
    SessionLoads(t, k);
    if ResultsHeard(n.links[k]) + 1 == |Asked(n, k)| {
      assert t.links[k].session.loads == n.links[k].session.loads;
      if Took(t.links[k].session.loads, |Asked(n, k)|) {
        PendingPath(capacity, past, k);
        LatestIsLast(n.links[k].session.loads);
      }
    }
  }

  lemma LatestIsLast(loads: seq<Result<nat>>)
    requires Took(loads, |loads|)
    ensures Latest(loads) == |loads|
  {
  }

  /** A reload under way is the last asked for. */
  lemma PendingPath(capacity: nat, past: seq<Action>, k: WorkerKey)
    requires Reloading(Execute(capacity, past), k)
    ensures var n := Execute(capacity, past);
            |Asked(n, k)| > 0
            && forall first :: PathOf(first, Asked(n, k), |Asked(n, k)|) == Core(n).workers[k].pendingSignaturePath
  {
    hide Run, Execute, Reloads, LinksOk, RuntimeLifecycle.AcksFollow, AckHeard, Silent, EventsOk;
    ExecuteKeeps(capacity, past);
    RunReloads(capacity, Execute(capacity, past).trace);
  }

  // ----- a reload that is given up

  lemma GiveUp(n: Net, k: WorkerKey, config: WorkerSession.Config)
    requires NetOk(n) && Reloading(n, k)
    ensures var u := Act(n, CoreEvent(ReloadTimeout(k), config));
            k in Core(u).workers && Ends(Core(n).workers[k], Core(u).workers[k], false)
  {
    hide Run, Step, Ends, Begins, PathStays, LinksOk, RuntimeLifecycle.AcksFollow, AckHeard, Silent;
    var e := ReloadTimeout(k);
    RunMore(n.capacity, n.trace, e);
    RunKeeps(n.capacity, n.trace);
    assert Core(Act(n, CoreEvent(e, config))) == Core(Handled(n, e));
    hide RuntimeInvariants.CoreInv, EventsOk, Act;
    WorkerStep(Core(n), e, k);
  }

  /** Before a reload that is the first to be given up, Core's path is what the loads of the others left. */
  lemma BeforeGivenUp(capacity: nat, past: seq<Action>, k: WorkerKey)
    requires Live(Execute(capacity, past), k) && Reloading(Execute(capacity, past), k)
    ensures var n := Execute(capacity, past);
            && 0 < |Asked(n, k)| <= |n.links[k].session.loads| + 1
            && Core(n).workers[k].signaturePath
               == PathOf(n.links[k].session.config.signaturePath, Asked(n, k), Latest(n.links[k].session.loads[..|Asked(n, k)| - 1]))
  {
    hide Run, Execute, NeverGivenUp, Reloads, Results, Latest, PathOf;
    ExecuteClean(capacity, past);
    PendingPath(capacity, past, k);
  }

  /**
   Giving a reload up does not call it back. Whenever the first reload of a worker to be given up is, and whatever happens
   until another begins, Core and the worker agree exactly when the RELOAD was not received, or loading failed, or the
   paths are the same.
   */
  lemma GivenUp(capacity: nat, past: seq<Action>, config: WorkerSession.Config, more: seq<Action>, k: WorkerKey)
    requires var n, t := Execute(capacity, past), Execute(capacity, past + [CoreEvent(ReloadTimeout(k), config)] + more);
             Live(n, k) && Reloading(n, k) && |Asked(t, k)| == |Asked(n, k)|
    ensures var n, t := Execute(capacity, past), Execute(capacity, past + [CoreEvent(ReloadTimeout(k), config)] + more);
            && k in Core(t).workers && k in t.links && Core(t).workers[k].reloadReply.None?
            && Core(t).workers[k].signaturePath == Core(n).workers[k].signaturePath
            && (Agrees(t, k) <==>
                || !Took(t.links[k].session.loads, |Asked(n, k)|)
                || Core(n).workers[k].pendingSignaturePath == Core(n).workers[k].signaturePath)
  {
    hide Run, Execute, Reloads, Results, Latest, NetOk, Act, Ends, PathOf, Live;
    var a := CoreEvent(ReloadTimeout(k), config);
    var n, t := Execute(capacity, past), Execute(capacity, past + [a] + more);
    ExecuteKeeps(capacity, past);
    ExecuteKeeps(capacity, past + [a] + more);
    GiveUp(n, k, config);
    ExecuteMore(capacity, past, a);
    EndsAfter(capacity, past, a, more, k, false);
    BeforeGivenUp(capacity, past, k);
    PendingPath(capacity, past, k);
    SessionLoads(t, k);
    var x, d := t.links[k].session, |Asked(n, k)| - 1;
    assert x.loads[..d] == n.links[k].session.loads[..d];
    LastCounts(x.config.signaturePath, Asked(n, k), x.loads, Core(n).workers[k].signaturePath, d);
    assert PathOf(x.config.signaturePath, Asked(n, k), d + 1) == Asked(n, k)[d].signaturePath by { NumberIs(x.config.signaturePath, Asked(n, k), d); }
  }

  lemma NumberIs(first: string, asked: seq<Message>, d: nat)
    requires d < |asked|
    ensures PathOf(first, asked, d + 1) == asked[d].signaturePath
  {
  }

  /** A reload begins after the first was given up, with no other between; it is still pending, so Core's path is the same. */
  lemma BeganSince(capacity: nat, past: seq<Action>, config: WorkerSession.Config, mid: seq<Action>, k: WorkerKey)
    requires var n, u := Execute(capacity, past), Execute(capacity, past + [CoreEvent(ReloadTimeout(k), config)] + mid);
             Reloading(n, k) && Reloading(u, k) && |Asked(u, k)| == |Asked(n, k)| + 1
    ensures var n, u := Execute(capacity, past), Execute(capacity, past + [CoreEvent(ReloadTimeout(k), config)] + mid);
            && Core(u).workers[k].signaturePath == Core(n).workers[k].signaturePath
            && Asked(n, k) <= Asked(u, k) && Grows(n.links[k], u.links[k])
  {
    hide Run, Execute, Reloads, NetOk, Act;
    var a := CoreEvent(ReloadTimeout(k), config);
    ExecuteKeeps(capacity, past);
    GiveUp(Execute(capacity, past), k, config);
    ExecuteMore(capacity, past, a);
    Between(capacity, past, [a], k);
    Between(capacity, past + [a], mid, k);
    GrowsTrans(Execute(capacity, past).links[k], Execute(capacity, past + [a]).links[k], Execute(capacity, past + [a] + mid).links[k]);
  }

  /**
   A reload that begins while the result of the one given up is still owed is ended by that result. Until another
   begins, Core and the worker then agree exactly when both loaded or neither did, or the new path is the one that was
   in use before its RELOAD was received.
   */
  lemma EndedByTheOther(capacity: nat, past: seq<Action>, config: WorkerSession.Config, mid: seq<Action>, more: seq<Action>, k: WorkerKey)
    requires var n := Execute(capacity, past);
             var u := Execute(capacity, past + [CoreEvent(ReloadTimeout(k), config)] + mid);
             var t := Execute(capacity, past + [CoreEvent(ReloadTimeout(k), config)] + mid + [Deliver(k)] + more);
             && Live(n, k) && Reloading(n, k)
             && Reloading(u, k) && |Asked(u, k)| == |Asked(n, k)| + 1
             && ResultNext(u.links[k]) && ResultsHeard(u.links[k]) + 1 == |Asked(n, k)|
             && |Asked(t, k)| == |Asked(u, k)|
    ensures var n := Execute(capacity, past);
            var u := Execute(capacity, past + [CoreEvent(ReloadTimeout(k), config)] + mid);
            var t := Execute(capacity, past + [CoreEvent(ReloadTimeout(k), config)] + mid + [Deliver(k)] + more);
            && k in Core(t).workers && k in t.links && Core(t).workers[k].reloadReply.None?
            && var w, path, loads := Core(n).workers[k], Core(u).workers[k].pendingSignaturePath, t.links[k].session.loads;
               var first, second := Took(loads, |Asked(n, k)|), Took(loads, |Asked(n, k)| + 1);
               && Core(t).workers[k].signaturePath == (if first then path else w.signaturePath)
               && (Agrees(t, k) <==> first == second || path == if first then w.pendingSignaturePath else w.signaturePath)
  {
    hide Run, Execute, Reloads, Results, Latest, NetOk, Act, PathOf, Live;
    var middle := past + [CoreEvent(ReloadTimeout(k), config)] + mid;
    var n, u, t := Execute(capacity, past), Execute(capacity, middle), Execute(capacity, middle + [Deliver(k)] + more);
    BeganSince(capacity, past, config, mid, k);
    EndsExactly(capacity, middle, more, k);
    ExecuteKeeps(capacity, middle + [Deliver(k)] + more);
    assert Grows(u.links[k], t.links[k]) && Asked(t, k) == Asked(u, k) by {
      assert middle + [Deliver(k)] + more == middle + ([Deliver(k)] + more);
      Between(capacity, middle, [Deliver(k)] + more, k);
    }
    GrowsTrans(n.links[k], u.links[k], t.links[k]);
    BeforeGivenUp(capacity, past, k);
    PendingPath(capacity, past, k);
    PendingPath(capacity, middle, k);
    SessionLoads(t, k);
    var x, d := t.links[k].session, |Asked(n, k)| - 1;
    TwoCount(x.config.signaturePath, Asked(n, k), Asked(t, k), x.loads, n.links[k].session.loads, Core(n).workers[k].signaturePath, d);
    NumberIs(x.config.signaturePath, Asked(n, k), d);
    NumberIs(x.config.signaturePath, Asked(t, k), d + 1);
  }

  /** The path in use, when all loads but those of the last two reloads are accounted for by `before`. */
  lemma TwoCount(first: string, a: seq<Message>, asked: seq<Message>, loads: seq<Result<nat>>, earlier: seq<Result<nat>>, before: string, d: nat)
    requires |a| == d + 1 && |asked| == d + 2 && a <= asked && d + 1 <= |loads| <= d + 2 && d <= |earlier| && earlier <= loads
    requires before == PathOf(first, a, Latest(earlier[..d]))
    ensures PathOf(first, asked, Latest(loads))
            == if Took(loads, d + 2) then asked[d + 1].signaturePath else if Took(loads, d + 1) then a[d].signaturePath else before
  {
    hide Latest, PathOf;
    var most := loads[..d + 1];
    assert most[..d] == earlier[..d];
    PathOfMore(first, a, asked, Latest(most[..d]));
    LastCounts(first, a, most, before, d);
    PathOfMore(first, a, asked, Latest(most));
    LastCounts(first, asked, loads, PathOf(first, asked, Latest(most)), d + 1);
    assert Took(most, d + 1) == Took(loads, d + 1);
  }
}
