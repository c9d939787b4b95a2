/**
 The Runtime loop and its worker sessions, joined by FIFO connections.

 A session reads the messages that Core's writer took from the worker's queue, in order; Core's loop is handed
 the messages the session sent, in order. Everything else that can happen to Core stays arbitrary: commands,
 timers, failures, exits, at any time.
 */
module HotSwap {
  import opened Wrappers
  import opened Messages
  import opened RuntimeSpec
  import opened RuntimeInvariants
  import opened RuntimeSafety
  import opened RuntimeReplies
  import opened RuntimeMoves
  import opened RuntimeLifecycle
  import RuntimePending
  import opened RuntimeProvenance
  import opened RuntimeWorkers
  import WorkerSession
  import Refinement
  import C = CoordinatorSpec

  // ----- the composed system

  /** `consumed` messages were received by the session, `delivered` of its messages were handed to Core's loop. */
  datatype Link = Link(session: WorkerSession.Session, consumed: nat, delivered: nat)

  /** `trace` is everything Core's loop has handled. */
  datatype Net = Net(capacity: nat, trace: seq<Event>, links: map<WorkerKey, Link>)

  datatype Action =
    | CoreEvent(event: Event, config: WorkerSession.Config)
    | Deliver(key: WorkerKey)
    | Receive(key: WorkerKey, luck: WorkerSession.Luck)
    | FinishScan(key: WorkerKey, index: nat, response: Message, sent: bool)
    | WaitForScans(key: WorkerKey, sent: bool)
    | HangUp(key: WorkerKey)
    | Die(key: WorkerKey)

  function Core(n: Net): State { Run(n.capacity, n.trace) }

  function Handled(n: Net, e: Event): Net { n.(trace := n.trace + [e]) }

  function SetSession(n: Net, k: WorkerKey, x: WorkerSession.Session): Net
    requires k in n.links
  {
    n.(links := n.links[k := n.links[k].(session := x)])
  }

  /** A worker is launched with the signature path it is registered with. */
  function Launched(config: WorkerSession.Config, path: string): Link {
    Link(WorkerSession.Started(config.(signaturePath := path)), 0, 0)
  }

  /** A registered worker gets a connection to a session of its own. */
  function Connected(links: map<WorkerKey, Link>, workers: map<WorkerKey, Worker>, config: WorkerSession.Config): map<WorkerKey, Link> {
    map k | k in workers :: if k in links then links[k] else Launched(config, workers[k].signaturePath)
  }

  /** An action that is not enabled leaves the system as it is. */
  function Act(n: Net, a: Action): Net {
    match a
    case CoreEvent(e, config) =>
      if e.WorkerMessage? then n
      else
        var n' := Handled(n, e);
        n'.(links := Connected(n.links, Core(n').workers, config))
    case Deliver(k) =>
      if k in n.links && n.links[k].delivered < |n.links[k].session.out| then
        var l := n.links[k];
        Handled(n, WorkerMessage(k, l.session.out[l.delivered])).(links := n.links[k := l.(delivered := l.delivered + 1)])
      else n
    case Receive(k, luck) =>
      if k in n.links && k in Core(n).workers && n.links[k].session.stage == WorkerSession.Open
         && n.links[k].consumed < |Core(n).workers[k].written| then
        var l := n.links[k];
        var m := Core(n).workers[k].written[l.consumed];
        n.(links := n.links[k := l.(session := WorkerSession.Hear(l.session, m, luck), consumed := l.consumed + 1)])
      else n
    case FinishScan(k, i, response, sent) =>
      if k in n.links && i < |n.links[k].session.running|
         && WorkerSession.Answers(n.links[k].session.running[i], response) then
        SetSession(n, k, WorkerSession.Finished(n.links[k].session, i, response, sent))
      else n
    case WaitForScans(k, sent) => if k in n.links then SetSession(n, k, WorkerSession.Waited(n.links[k].session, sent)) else n
    case HangUp(k) => if k in n.links then SetSession(n, k, WorkerSession.HungUp(n.links[k].session)) else n
    case Die(k) => if k in n.links then SetSession(n, k, WorkerSession.Gone(n.links[k].session)) else n
  }

  function Execute(capacity: nat, actions: seq<Action>): Net {
    if actions == [] then Net(capacity, [], map[])
    else Act(Execute(capacity, actions[..|actions| - 1]), actions[|actions| - 1])
  }

  // ----- what Core heard from one worker

  function Received(trace: seq<Event>, k: WorkerKey): seq<Message> {
    if trace == [] then []
    else
      var n := |trace| - 1;
      Received(trace[..n], k) + if trace[n].WorkerMessage? && trace[n].key == k then [trace[n].message] else []
  }

  lemma ReceivedMore(trace: seq<Event>, e: Event, k: WorkerKey)
    ensures Received(trace + [e], k) ==
            if e.WorkerMessage? && e.key == k then Received(trace, k) + [e.message] else Received(trace, k)
  {
    assert (trace + [e])[..|trace|] == trace;
    assert Received(trace, k) + [] == Received(trace, k);
  }

  lemma RunMore(capacity: nat, trace: seq<Event>, e: Event)
    ensures Run(capacity, trace + [e]) == Step(Run(capacity, trace), e)
  {
    assert (trace + [e])[..|trace|] == trace;
    hide Step;
  }

  // ----- the invariant

  ghost predicate LinkOk(written: seq<Message>, received: seq<Message>, l: Link) {
    && l.consumed <= |written| && l.delivered <= |l.session.out|
    && received == l.session.out[..l.delivered]
    && WorkerSession.SessionOk(l.session, written[..l.consumed])
  }

  ghost predicate LinksOk(n: Net) {
    && n.links.Keys == Core(n).workers.Keys
    && forall k | k in n.links :: LinkOk(Core(n).workers[k].written, Received(n.trace, k), n.links[k])
  }

  ghost predicate AckHeard(s: State, trace: seq<Event>) {
    forall k | k in s.workers && s.workers[k].shutdownAck :: WorkerSession.Heard(Received(trace, k), TypeShutdownAck)
  }

  /** Messages from workers without a record were never handled. */
  ghost predicate Silent(n: Net) {
    forall k: WorkerKey :: k !in n.links ==> Received(n.trace, k) == []
  }

  ghost predicate NetOk(n: Net) {
    EventsOk(n.trace) && AcksFollow(n.capacity, n.trace) && LinksOk(n) && AckHeard(Core(n), n.trace) && Silent(n)
  }

  // ----- one Core event

  lemma TraceMore(capacity: nat, trace: seq<Event>, e: Event)
    requires EventsOk(trace) && EventOk(e) && AcksFollow(capacity, trace) && AckFollows(Run(capacity, trace), e)
    ensures EventsOk(trace + [e]) && AcksFollow(capacity, trace + [e])
  {
    hide EventOk, AckFollows, Run;
    var all := trace + [e];
    forall i | 0 <= i < |all| ensures AckFollows(Run(capacity, all[..i]), all[i]) {
      if i < |trace| {
        assert all[..i] == trace[..i];
      } else {
        assert all[..i] == trace;
      }
    }
  }

  lemma StepAckHeard(s: State, e: Event, trace: seq<Event>)
    requires AckHeard(s, trace)
    ensures AckHeard(Step(s, e), trace + [e])
  {
    var t := Step(s, e);
    if s.phase == Running {
      CloseAfter(s, e);
    }
    hide Step, HandleMessage;
    forall k | k in t.workers && t.workers[k].shutdownAck ensures WorkerSession.Heard(Received(trace + [e], k), TypeShutdownAck) {
      ReceivedMore(trace, e, k);
      if s.phase != Running {
        StaysOut(s, e);
        HeardMore(Received(trace, k), Received(trace + [e], k));
      } else if IsAck(e, k) {
        assert Received(trace + [e], k)[|Received(trace, k)|].kind == TypeShutdownAck;
      } else {
        if e.WorkerMessage? && e.message.kind == TypeShutdownAck {
          AckAcks(s, e.key, e.message);
        } else {
          HandleAcks(s, e);
          hide Handle;
        }
        HeardMore(Received(trace, k), Received(trace + [e], k));
      }
    }
  }

  lemma HeardMore(a: seq<Message>, b: seq<Message>)
    requires a <= b
    ensures WorkerSession.Heard(a, TypeShutdownAck) ==> WorkerSession.Heard(b, TypeShutdownAck)
  {
    if WorkerSession.Heard(a, TypeShutdownAck) {
      var i :| 0 <= i < |a| && a[i].kind == TypeShutdownAck;
      assert b[i].kind == TypeShutdownAck;
    }
  }

  // ----- the invariant is kept

  lemma WrittenGrows(n: Net, e: Event, k: WorkerKey)
    requires EventsOk(n.trace + [e]) && k in Core(n).workers
    ensures k in Core(Handled(n, e)).workers && Core(n).workers[k].written <= Core(Handled(n, e)).workers[k].written
  {
    var s := Core(n);
    RunMoves(n.capacity, n.trace, [e]);
    hide Moves, Run;
    MovesAt(s, Core(Handled(n, e)), k, Core(Handled(n, e)).stopReply.Some?);
  }

  lemma LinkStays(written: seq<Message>, written': seq<Message>, received: seq<Message>, l: Link)
    requires LinkOk(written, received, l) && written <= written'
    ensures LinkOk(written', received, l)
  {
    assert written'[..l.consumed] == written[..l.consumed];
  }

  /** What one event leaves of the old links. */
  lemma OldLink(n: Net, e: Event, k: WorkerKey)
    requires EventsOk(n.trace + [e]) && LinksOk(n) && k in n.links && !(e.WorkerMessage? && e.key == k)
    ensures var t := Handled(n, e);
            k in Core(t).workers && LinkOk(Core(t).workers[k].written, Received(t.trace, k), n.links[k])
  {
    hide Run, LinkOk, EventsOk;
    ReceivedMore(n.trace, e, k);
    WrittenGrows(n, e, k);
    LinkStays(Core(n).workers[k].written, Core(Handled(n, e)).workers[k].written, Received(n.trace, k), n.links[k]);
  }

  lemma NewLink(n: Net, e: Event, k: WorkerKey, config: WorkerSession.Config)
    requires LinksOk(n) && Silent(n) && k !in n.links && k in Core(Handled(n, e)).workers && !e.WorkerMessage?
    ensures var t := Handled(n, e);
            LinkOk(Core(t).workers[k].written, Received(t.trace, k), Launched(config, Core(t).workers[k].signaturePath))
  {
    hide Run, LinkOk;
    ReceivedMore(n.trace, e, k);
    RunMore(n.capacity, n.trace, e);
    StepKeys(Core(n), e);
    hide Step;
    FreshLink(config, Core(Handled(n, e)).workers[k].signaturePath);
  }

  lemma CoreLinks(n: Net, e: Event, config: WorkerSession.Config)
    requires EventsOk(n.trace + [e]) && LinksOk(n) && Silent(n) && !e.WorkerMessage?
    ensures LinksOk(Act(n, CoreEvent(e, config))) && Silent(Act(n, CoreEvent(e, config)))
  {
    hide Run, LinkOk, EventsOk;
    var t := Act(n, CoreEvent(e, config));
    assert Core(t) == Core(Handled(n, e));
    forall k | k in t.links ensures LinkOk(Core(t).workers[k].written, Received(t.trace, k), t.links[k]) {
      if k in n.links {
        OldLink(n, e, k);
      } else {
        NewLink(n, e, k, config);
      }
    }
    forall k: WorkerKey | k !in t.links ensures Received(t.trace, k) == [] {
      ReceivedMore(n.trace, e, k);
      if k in n.links { WrittenGrows(n, e, k); }
    }
  }

  lemma CoreEventKeeps(n: Net, e: Event, config: WorkerSession.Config)
    requires NetOk(n) && !e.WorkerMessage?
    ensures NetOk(Act(n, CoreEvent(e, config)))
  {
    hide AckHeard, AcksFollow, EventsOk, Run, LinksOk, Silent, Step, Connected;
    TraceMore(n.capacity, n.trace, e);
    RunMore(n.capacity, n.trace, e);
    StepAckHeard(Core(n), e, n.trace);
    CoreLinks(n, e, config);
  }

  lemma FreshLink(config: WorkerSession.Config, path: string)
    ensures LinkOk([], [], Launched(config, path))
  {
    WorkerSession.StartedOk(config.(signaturePath := path));
  }

  lemma HonestInbound(config: WorkerSession.Config, m: Message)
    requires WorkerSession.Honest(config, m)
    ensures ValidInbound(m)
  {
  }

  /** What a session has to say is fit to be handled, and an acknowledgement means that SHUTDOWN was received. */
  lemma NextMessage(written: seq<Message>, received: seq<Message>, l: Link)
    requires LinkOk(written, received, l) && l.delivered < |l.session.out|
    ensures ValidInbound(l.session.out[l.delivered])
    ensures l.session.out[l.delivered].kind == TypeShutdownAck ==> HasShutdown(written)
  {
    hide WorkerSession.LoadsOk, WorkerSession.Balanced, WorkerSession.InStep, WorkerSession.Honest, ValidInbound;
    HonestInbound(l.session.config, l.session.out[l.delivered]);
    if l.session.out[l.delivered].kind == TypeShutdownAck {
      assert WorkerSession.Acknowledged(l.session);
      var i :| 0 <= i < |written[..l.consumed]| && written[..l.consumed][i].kind == TypeShutdown;
      assert written[i].kind == TypeShutdown;
    }
  }

  /** A session acknowledges only what it received, so the acknowledgement follows SHUTDOWN on its connection. */
  lemma DeliveredOk(n: Net, k: WorkerKey)
    requires LinksOk(n) && k in n.links && n.links[k].delivered < |n.links[k].session.out|
    ensures var e := WorkerMessage(k, n.links[k].session.out[n.links[k].delivered]);
            EventOk(e) && AckFollows(Core(n), e)
  {
    hide Run, Received, LinkOk, HasShutdown, ValidInbound;
    NextMessage(Core(n).workers[k].written, Received(n.trace, k), n.links[k]);
  }

  lemma DeliverIs(n: Net, k: WorkerKey)
    requires k in n.links && n.links[k].delivered < |n.links[k].session.out|
    ensures var l := n.links[k];
            Act(n, Deliver(k)) == Handled(n, WorkerMessage(k, l.session.out[l.delivered]))
                                  .(links := n.links[k := l.(delivered := l.delivered + 1)])
  {
  }

  lemma DeliverLinks(n: Net, k: WorkerKey, e: Event)
    requires LinksOk(n) && Silent(n) && k in n.links && n.links[k].delivered < |n.links[k].session.out|
    requires e == WorkerMessage(k, n.links[k].session.out[n.links[k].delivered]) && EventsOk(n.trace + [e])
    ensures LinksOk(Act(n, Deliver(k))) && Silent(Act(n, Deliver(k)))
  {
    hide Run, LinkOk, EventsOk, Step, Act;
    var l := n.links[k];
    var t := Act(n, Deliver(k));
    DeliverIs(n, k);
    RunMore(n.capacity, n.trace, e);
    StepKeys(Core(n), e);
    forall j | j in t.links ensures LinkOk(Core(t).workers[j].written, Received(t.trace, j), t.links[j]) {
      if j != k {
        OldLink(n, e, j);
      } else {
        ReceivedMore(n.trace, e, k);
        WrittenGrows(n, e, k);
        LinkStays(Core(n).workers[k].written, Core(t).workers[k].written, Received(n.trace, k), l);
        DeliveredMore(Core(t).workers[k].written, Received(n.trace, k), l);
      }
    }
    forall j: WorkerKey | j !in t.links ensures Received(t.trace, j) == [] {
      ReceivedMore(n.trace, e, j);
    }
  }

  lemma DeliverKeeps(n: Net, k: WorkerKey)
    requires NetOk(n)
    ensures NetOk(Act(n, Deliver(k)))
  {
    hide AckHeard, AcksFollow, EventsOk, EventOk, AckFollows, Run, LinksOk, Silent, Step;
    if k in n.links && n.links[k].delivered < |n.links[k].session.out| {
      DeliveredOk(n, k);
      var e := WorkerMessage(k, n.links[k].session.out[n.links[k].delivered]);
      TraceMore(n.capacity, n.trace, e);
      RunMore(n.capacity, n.trace, e);
      StepAckHeard(Core(n), e, n.trace);
      DeliverLinks(n, k, e);
    }
  }

  lemma DeliveredMore(written: seq<Message>, received: seq<Message>, l: Link)
    requires LinkOk(written, received, l) && l.delivered < |l.session.out|
    ensures LinkOk(written, received + [l.session.out[l.delivered]], l.(delivered := l.delivered + 1))
  {
  }

  /** A step of one session. */
  lemma SessionStepKeeps(n: Net, k: WorkerKey, l: Link)
    requires NetOk(n) && k in n.links && LinkOk(Core(n).workers[k].written, Received(n.trace, k), l)
    ensures NetOk(n.(links := n.links[k := l]))
  {
    hide AckHeard, AcksFollow, EventsOk, Run, LinkOk, Received;
    var t := n.(links := n.links[k := l]);
    assert Core(t) == Core(n);
  }

  lemma ReceiveLink(written: seq<Message>, received: seq<Message>, l: Link, luck: WorkerSession.Luck)
    requires LinkOk(written, received, l) && l.session.stage == WorkerSession.Open && l.consumed < |written|
    ensures LinkOk(written, received,
                   l.(session := WorkerSession.Hear(l.session, written[l.consumed], luck), consumed := l.consumed + 1))
  {
    hide WorkerSession.SessionOk, WorkerSession.Hear;
    WorkerSession.HearKeeps(l.session, written[..l.consumed], written[l.consumed], luck);
    assert written[..l.consumed + 1] == written[..l.consumed] + [written[l.consumed]];
    HearOut(l.session, written[l.consumed], luck);
  }

  lemma ReceiveKeeps(n: Net, k: WorkerKey, luck: WorkerSession.Luck)
    requires NetOk(n)
    ensures NetOk(Act(n, Receive(k, luck)))
  {
    hide AckHeard, AcksFollow, EventsOk, Run, Received, LinkOk, WorkerSession.Hear;
    if k in n.links && n.links[k].session.stage == WorkerSession.Open && n.links[k].consumed < |Core(n).workers[k].written| {
      var l := n.links[k];
      var m := Core(n).workers[k].written[l.consumed];
      ReceiveLink(Core(n).workers[k].written, Received(n.trace, k), l, luck);
      SessionStepKeeps(n, k, l.(session := WorkerSession.Hear(l.session, m, luck), consumed := l.consumed + 1));
    }
  }

  lemma HearOut(x: WorkerSession.Session, m: Message, luck: WorkerSession.Luck)
    ensures x.out <= WorkerSession.Hear(x, m, luck).out
  {
  }

  lemma LocalLink(written: seq<Message>, received: seq<Message>, l: Link, x: WorkerSession.Session)
    requires LinkOk(written, received, l) && WorkerSession.SessionOk(x, written[..l.consumed]) && l.session.out <= x.out
    ensures LinkOk(written, received, l.(session := x))
  {
  }

  lemma LocalKeeps(n: Net, k: WorkerKey, x: WorkerSession.Session)
    requires NetOk(n) && k in n.links && n.links[k].session.out <= x.out
    requires WorkerSession.SessionOk(x, Core(n).workers[k].written[..n.links[k].consumed])
    ensures NetOk(SetSession(n, k, x))
  {
    hide AckHeard, AcksFollow, EventsOk, Run, LinkOk, Received, WorkerSession.SessionOk;
    LocalLink(Core(n).workers[k].written, Received(n.trace, k), n.links[k], x);
    SessionStepKeeps(n, k, n.links[k].(session := x));
  }

  lemma HeardSoFar(n: Net, k: WorkerKey)
    requires NetOk(n) && k in n.links
    ensures k in Core(n).workers && n.links[k].consumed <= |Core(n).workers[k].written|
    ensures WorkerSession.SessionOk(n.links[k].session, Core(n).workers[k].written[..n.links[k].consumed])
  {
    hide AckHeard, AcksFollow, EventsOk, Run, Received, WorkerSession.SessionOk;
  }

  lemma SessionActKeeps(n: Net, a: Action)
    requires NetOk(n) && (a.FinishScan? || a.WaitForScans? || a.HangUp? || a.Die?)
    ensures NetOk(Act(n, a))
  {
    hide NetOk, Run, Received, WorkerSession.SessionOk;
    if a.key in n.links {
      HeardSoFar(n, a.key);
      var x := n.links[a.key].session;
      var heard := Core(n).workers[a.key].written[..n.links[a.key].consumed];
      hide Core;
      match a
      case FinishScan(k, i, response, sent) =>
        if i < |x.running| && WorkerSession.Answers(x.running[i], response) {
          WorkerSession.FinishedKeeps(x, heard, i, response, sent);
          LocalKeeps(n, k, WorkerSession.Finished(x, i, response, sent));
        }
      case WaitForScans(k, sent) =>
        WorkerSession.WaitedKeeps(x, heard, sent);
        LocalKeeps(n, k, WorkerSession.Waited(x, sent));
      case HangUp(k) =>
        WorkerSession.GoneKeeps(x, heard);
        LocalKeeps(n, k, WorkerSession.HungUp(x));
      case Die(k) =>
        WorkerSession.GoneKeeps(x, heard);
        LocalKeeps(n, k, WorkerSession.Gone(x));
    }
  }

  lemma ActKeeps(n: Net, a: Action)
    requires NetOk(n)
    ensures NetOk(Act(n, a)) && Act(n, a).capacity == n.capacity
  {
    hide NetOk, Run, Received;
    match a
    case CoreEvent(e, config) => if !e.WorkerMessage? { CoreEventKeeps(n, e, config); }
    case Deliver(k) => DeliverKeeps(n, k);
    case Receive(k, luck) => ReceiveKeeps(n, k, luck);
    case _ => SessionActKeeps(n, a);
  }

  lemma {:induction false} ExecuteKeeps(capacity: nat, actions: seq<Action>)
    ensures NetOk(Execute(capacity, actions)) && Execute(capacity, actions).capacity == capacity
  {
    if actions != [] {
      var n := |actions| - 1;
      ExecuteKeeps(capacity, actions[..n]);
      hide NetOk, Act;
      ActKeeps(Execute(capacity, actions[..n]), actions[n]);
    }
  }

  // ----- what was queued

  predicate Queued(log: seq<Message>, id: nat, path: string) { ScanCommand(id, path) in log }

  lemma DispatchedQueued(s: State, path: string, c: Chan, k: WorkerKey)
    requires k in s.active.Values && k in s.workers && k !in Full(Admit(s, path, c), s.active.Values)
    ensures var d := Dispatched(s, path, c, s.active.Values);
            k in d.workers && Queued(d.workers[k].Log(), s.nextRequestID + 1, path)
  {
    var d := Dispatched(s, path, c, s.active.Values);
    var m := ScanCommand(s.nextRequestID + 1, path);
    assert d.workers[k].queue[|d.workers[k].queue| - 1] == m;
    assert d.workers[k].Log()[|d.workers[k].Log()| - 1] == m;
  }

  lemma FullFails(s: State, keys: set<WorkerKey>, reason: string, k: WorkerKey)
    requires k in keys && k in s.workers
    ensures k in FailAll(s, keys, reason).workers && FailAll(s, keys, reason).workers[k].state == Failed
  {
    var m := Mark(s, keys, reason);
    var done := Ready(m.requests, m.requests.Keys, keys);
    assert k in m.workers && m.workers[k].state == Failed && done <= m.requests.Keys;
    hide Mark, Ready, FillFinish, FailAll;
    FailAllIs(s, keys, reason);
    FilledStates(m, m.requests.Keys, keys, Unavailable(reason), done);
  }

  lemma DispatchQueues(s: State, path: string, c: Chan, k: WorkerKey, full: set<WorkerKey>)
    requires k in s.active.Values && k in s.workers && full == Full(Admit(s, path, c), s.active.Values)
    requires var d := Dispatched(s, path, c, s.active.Values);
             forall j | j in full && j in d.workers :: !d.workers[j].Terminal()
    ensures var t := FailAll(Dispatched(s, path, c, s.active.Values), full, QUEUE_FULL);
            k in t.workers && (t.workers[k].state == Failed || Queued(t.workers[k].Log(), s.nextRequestID + 1, path))
  {
    DispatchedWorker(s, path, c, k);
    if k !in full {
      DispatchedQueued(s, path, c, k);
    }
    hide FailAll, Dispatched, Moves, Queued, Full;
    var d := Dispatched(s, path, c, s.active.Values);
    if k in full {
      FullFails(d, full, QUEUE_FULL, k);
    } else {
      FailAllMoves(d, full, QUEUE_FULL);
      MovesAt(d, FailAll(d, full, QUEUE_FULL), k, false);
      QueuedMore(d.workers[k].Log(), FailAll(d, full, QUEUE_FULL).workers[k].Log(), s.nextRequestID + 1, path);
    }
  }

  /** A worker routed at admission is sent the SCAN, or fails at once. */
  lemma ScanQueues(s: State, path: string, c: Chan, k: WorkerKey)
    requires CoreInv(s) && s.stopReply.None? && k in s.active.Values
    ensures var t := HandleScan(s, path, c);
            k in t.workers && (t.workers[k].state == Failed || Queued(t.workers[k].Log(), s.nextRequestID + 1, path))
  {
    hide RoutesOk, CountsOk, RequestsOk, CandidatesOk, HistoryOk, WorkersOk, QueuesOk, FailAll, Admit, Full, Queued;
    FullIsLive(s, path, c);
    RoutedUnsent(s, k);
    DispatchQueues(s, path, c, k, Full(Admit(s, path, c), s.active.Values));
    hide CoreInv;
    var id :| id in s.active && s.active[id] == k;
  }

  lemma DispatchedWorker(s: State, path: string, c: Chan, k: WorkerKey)
    requires k in s.workers
    ensures k in Dispatched(s, path, c, s.active.Values).workers
  {
  }

  lemma QueuedMore(a: seq<Message>, b: seq<Message>, id: nat, path: string)
    requires Queued(a, id, path) && a <= b
    ensures Queued(b, id, path)
  {
    var i :| 0 <= i < |a| && a[i] == ScanCommand(id, path);
    assert b[i] == ScanCommand(id, path);
  }

  lemma ScanStepQueues(s: State, e: Event, k: WorkerKey)
    requires CoreInv(s) && s.phase == Running && s.stopReply.None? && e.ScanRequest? && k in s.active.Values
    ensures var t := Step(s, e);
            k in t.workers && (t.workers[k].state == Failed || Queued(t.workers[k].Log(), s.nextRequestID + 1, e.path))
  {
    hide CoreInv, HandleScan, Queued, AllExited;
    ScanQueues(s, e.path, e.reply, k);
  }

  /** Every worker with an entry in a request was sent the SCAN for it, or has failed. */
  lemma {:induction false} ScanWasQueued(capacity: nat, events: seq<Event>, id: nat, k: WorkerKey)
    requires EventsOk(events) && Known(Run(capacity, events), id) && k in Book(Run(capacity, events), id).results
    ensures var s := Run(capacity, events);
            k in s.workers && (s.workers[k].state == Failed || Queued(s.workers[k].Log(), id, Book(s, id).path))
  {
    assert events != [];
    var n := |events| - 1;
    var e := events[n];
    var s := Run(capacity, events[..n]);
    var t := Run(capacity, events);
    LastStep(capacity, events);
    RunKeeps(capacity, events[..n]);
    hide Run, Queued, Book, Known, BooksMove, WorkersMove, Admits;
    StepMoves(s, e);
    StepWroteIn(s, e, id);
    if Known(s, id) {
      hide Step, CoreInv;
      BookKept(s, t, id, Slips(s, e));
      ScanWasQueued(capacity, events[..n], id, k);
      MovesAt(s, t, k, Slips(s, e));
      if s.workers[k].state != Failed {
        QueuedMore(s.workers[k].Log(), t.workers[k].Log(), id, Book(s, id).path);
      }
    } else {
      hide Step, CoreInv;
      AdmittedScan(s, e, id, Book(t, id), k);
    }
  }

  lemma AdmittedScan(s: State, e: Event, id: nat, r: Request, k: WorkerKey)
    requires CoreInv(s) && Admits(s, e, id, r) && k in r.results
    ensures var t := Step(s, e); k in t.workers && (t.workers[k].state == Failed || Queued(t.workers[k].Log(), id, r.path))
  {
    hide CoreInv, Step, Queued;
    ScanStepQueues(s, e, k);
  }

  lemma StepWroteIn(s: State, e: Event, id: nat)
    requires CoreInv(s) && Known(Step(s, e), id)
    ensures Known(s, id) || Admits(s, e, id, Book(Step(s, e), id))
  {
    hide CountsOk, RequestsOk, CandidatesOk, HistoryOk, WorkersOk, QueuesOk, RoutesOk, Step;
    StepWrote(s, e);
  }

  lemma BookKept(s: State, t: State, id: nat, loose: bool)
    requires Moves(s, t, loose) && Known(s, id)
    ensures Known(t, id) && Book(t, id).path == Book(s, id).path && Book(t, id).results.Keys == Book(s, id).results.Keys
  {
    hide WorkersMove;
    assert WrittenOnce(Book(s, id), Book(t, id));
  }

  // ----- the guarantee

  /** A SCAN occurs once in a log whose SCAN IDs increase. */
  lemma {:induction false} CountOne(log: seq<Message>, last: nat, sent: bool, i: nat, n: nat)
    requires LogOk(log, last, sent) && i < |log| && log[i].kind == TypeScan && n <= |log|
    ensures WorkerSession.Count(log[..n], TypeScan, log[i].requestId) == if i < n then 1 else 0
  {
    if n > 0 {
      CountOne(log, last, sent, i, n - 1);
      assert log[..n][..n - 1] == log[..n - 1];
    }
  }

  /** The acknowledgement is the last thing the session ever sends. */
  lemma AckIsLast(written: seq<Message>, received: seq<Message>, l: Link) returns (a: nat)
    requires LinkOk(written, received, l) && WorkerSession.Heard(received, TypeShutdownAck)
    ensures a < |received| && received[a].kind == TypeShutdownAck
    ensures WorkerSession.Acknowledged(l.session) && received[..a] == l.session.out[..|l.session.out| - 1]
  {
    a :| 0 <= a < |received| && received[a].kind == TypeShutdownAck;
    assert l.session.out[a].kind == TypeShutdownAck;
  }

  /** Every SCAN of the log stands before the SHUTDOWN that the session received. */
  lemma ScansConsumed(w: Worker, capacity: nat, last: nat, consumed: nat, i: nat)
    requires QueueOk(w, capacity, last) && consumed <= |w.written| && WorkerSession.Heard(w.written[..consumed], TypeShutdown)
    requires i < |w.Log()| && w.Log()[i].kind == TypeScan
    ensures i < consumed && w.Log()[..consumed] == w.written[..consumed]
    ensures WorkerSession.Count(w.written[..consumed], TypeScan, w.Log()[i].requestId) == 1
  {
    var p :| 0 <= p < consumed && w.written[..consumed][p].kind == TypeShutdown;
    assert w.Log()[p].kind == TypeShutdown;
    assert w.Log()[..consumed] == w.written[..consumed];
    CountOne(w.Log(), last, w.shutdownSent, i, consumed);
  }

  lemma RetiredAcked(s: State, k: WorkerKey)
    requires CoreInv(s) && k in s.workers && s.workers[k].state == Retired
    ensures s.workers[k].shutdownAck && QueueOk(s.workers[k], s.capacity, s.nextRequestID)
  {
    hide RoutesOk, CountsOk, RequestsOk, CandidatesOk, HistoryOk, WorkerOk, QueueOk;
    RecordOk(s, k);
    assert s.workers[k].shutdownAck by { RetiredRecord(s.workers[k], s.stopReply.Some?); }
  }

  lemma RetiredRecord(w: Worker, stopping: bool)
    requires WorkerOk(w, stopping) && w.state == Retired
    ensures w.shutdownAck
  {
  }

  lemma CapacityKept(capacity: nat, events: seq<Event>, k: WorkerKey)
    requires EventsOk(events) && k in Run(capacity, events).workers && Run(capacity, events).workers[k].state == Retired
    ensures var s := Run(capacity, events);
            s.workers[k].shutdownAck && QueueOk(s.workers[k], s.capacity, s.nextRequestID)
  {
    RunKeeps(capacity, events);
    hide CoreInv, Run;
    RetiredAcked(Run(capacity, events), k);
  }

  /** Was the answer to this SCAN lost, because writing it failed? */
  predicate Lost(l: Link, id: nat) { WorkerSession.Count(l.session.lost, TypeScan, id) > 0 }

  /**
   When a worker is RETIRED, Core was handed its SHUTDOWN_ACK; every SCAN ever queued to it was consumed, and
   exactly one SCAN_RESULT with the same ID was handed to Core before that, if and only if writing it did not fail;
   and every request with an entry for the worker is among those.
   */
  lemma NothingLost(capacity: nat, actions: seq<Action>, k: WorkerKey) returns (a: nat)
    requires k in Core(Execute(capacity, actions)).workers
    requires Core(Execute(capacity, actions)).workers[k].state == Retired
    ensures var n := Execute(capacity, actions); var s := Core(n); var heard := Received(n.trace, k);
            && a < |heard| && heard[a].kind == TypeShutdownAck && k in n.links
            && (forall i | 0 <= i < |s.workers[k].Log()| && s.workers[k].Log()[i].kind == TypeScan ::
                  i < n.links[k].consumed && AnsweredUnlessLost(heard[..a], n.links[k], s.workers[k].Log()[i].requestId))
            && (forall id | Known(s, id) && k in Book(s, id).results :: AnsweredUnlessLost(heard[..a], n.links[k], id))
  {
    var n := Execute(capacity, actions);
    var s := Core(n);
    ExecuteKeeps(capacity, actions);
    hide Run, Execute, Received, LinkOk, QueueOk, AcksFollow, EventsOk;
    CapacityKept(capacity, n.trace, k);
    var heard := Received(n.trace, k);
    var l := n.links[k];
    assert LinkOk(s.workers[k].written, heard, l);
    a := AckIsLast(s.workers[k].written, heard, l);
    var log := s.workers[k].Log();
    forall i | 0 <= i < |log| && log[i].kind == TypeScan
      ensures i < l.consumed && AnsweredUnlessLost(heard[..a], l, log[i].requestId)
    {
      AnsweredInTime(s.workers[k], s.capacity, s.nextRequestID, heard, l, i);
    }
    forall id | Known(s, id) && k in Book(s, id).results ensures AnsweredUnlessLost(heard[..a], l, id) {
      ScanWasQueued(capacity, n.trace, id, k);
      var i :| 0 <= i < |log| && log[i] == ScanCommand(id, Book(s, id).path);
    }
  }

  /** Exactly one answer, or none because it was lost. */
  predicate AnsweredUnlessLost(heard: seq<Message>, l: Link, id: nat) {
    WorkerSession.Count(heard, TypeScanResult, id) == if Lost(l, id) then 0 else 1
  }

  lemma AnsweredInTime(w: Worker, capacity: nat, last: nat, heard: seq<Message>, l: Link, i: nat)
    requires QueueOk(w, capacity, last) && LinkOk(w.written, heard, l) && WorkerSession.Acknowledged(l.session)
    requires i < |w.Log()| && w.Log()[i].kind == TypeScan
    ensures i < l.consumed
    ensures AnsweredUnlessLost(l.session.out[..|l.session.out| - 1], l, w.Log()[i].requestId)
  {
    hide QueueOk, WorkerSession.Balanced;
    ScansConsumed(w, capacity, last, l.consumed, i);
    WorkerSession.AcknowledgedAnswered(l.session, w.written[..l.consumed], w.Log()[i].requestId);
  }

  /** No entry of a RETIRED worker is pending, and none says that the worker failed: each is its own answer, a timeout, or shutdown. */
  lemma RetiredEntry(capacity: nat, actions: seq<Action>, id: nat, k: WorkerKey) returns (i: nat)
    requires k in Core(Execute(capacity, actions)).workers
    requires Core(Execute(capacity, actions)).workers[k].state == Retired
    requires Known(Core(Execute(capacity, actions)), id) && k in Book(Core(Execute(capacity, actions)), id).results
    ensures var n := Execute(capacity, actions); var m := Book(Core(n), id).results[k];
            && !Pending(m) && i < |n.trace|
            && (|| (Takes(Before(capacity, n.trace, i), n.trace[i], id, k) && n.trace[i].message == m)
                || (n.trace[i] == ScanTimeout(id) && m == Entry(Timeout, id))
                || (n.trace[i].Shutdown? && m == Entry(Unavailable(SHUTTING_DOWN), id)))
  {
    hide Execute, AcksFollow, EventsOk, Takes, Run, LinksOk, AckHeard, Silent, CoreInv;
    var n := Execute(capacity, actions);
    var s := Core(n);
    ExecuteKeeps(capacity, actions);
    assert !Pending(Book(s, id).results[k]) by {
      if Waits(s.requests, id, k) { RuntimePending.NoStranded(capacity, n.trace, id); }
      RunKeeps(capacity, n.trace);
      AnsweredOtherwise(s, id, k);
    }
    i := Provenance(capacity, n.trace, id, k);
    NeverFailed(capacity, n.trace, i + 1, k);
  }

  lemma AnsweredOtherwise(s: State, id: nat, k: WorkerKey)
    requires CoreInv(s) && Known(s, id) && k in Book(s, id).results && !Waits(s.requests, id, k)
    ensures !Pending(Book(s, id).results[k])
  {
    if id !in s.requests {
      CompletedIs(s, id);
      hide CoreInv, AnswersOk, Answered;
    }
  }

  lemma NeverFailed(capacity: nat, events: seq<Event>, i: nat, k: WorkerKey)
    requires EventsOk(events) && i <= |events|
    requires k in Run(capacity, events).workers && Run(capacity, events).workers[k].state == Retired
    ensures k in Before(capacity, events, i).workers ==> Before(capacity, events, i).workers[k].state != Failed
  {
    var past, future := events[..i], events[i..];
    assert past + future == events;
    RunMoves(capacity, past, future);
    hide Run, Moves;
    if k in Before(capacity, events, i).workers {
      MovesAt(Run(capacity, past), Run(capacity, events), k, Run(capacity, events).stopReply.Some?);
    }
  }

  // ----- what no longer needs assuming

  /** Sessions acknowledge only after SHUTDOWN, so in the composed system no request ever waits for a worker that cannot answer. */
  lemma NoneStranded(capacity: nat, actions: seq<Action>, id: nat)
    requires id in Core(Execute(capacity, actions)).requests
    ensures var s := Core(Execute(capacity, actions));
            && s.requests[id].timer && (exists k :: Waits(s.requests, id, k))
            && forall k | Waits(s.requests, id, k) ::
                 k in s.workers && !s.workers[k].shutdownSent && (s.workers[k].state == Active || s.workers[k].state == Draining)
  {
    hide Execute, AcksFollow, EventsOk, Run, LinksOk, AckHeard, Silent;
    ExecuteKeeps(capacity, actions);
    RuntimePending.NoStranded(capacity, Execute(capacity, actions).trace, id);
  }

  /** And, until shutdown begins, what Core does is what the Coordinator allows. */
  lemma ComposedRefines(capacity: nat, actions: seq<Action>) returns (blocks: seq<seq<C.Command>>)
    requires forall i | 0 <= i < |Execute(capacity, actions).trace| :: Refinement.Named(Execute(capacity, actions).trace[i])
    requires Core(Execute(capacity, actions)).stopReply.None?
    ensures Refinement.Simulates(capacity, Execute(capacity, actions).trace, blocks)
  {
    hide Execute, AcksFollow, EventsOk, Run, LinksOk, AckHeard, Silent, Refinement.Simulates, Refinement.Named;
    ExecuteKeeps(capacity, actions);
    blocks := Refinement.RuntimeRefinesCoordinator(capacity, Execute(capacity, actions).trace);
  }
}
