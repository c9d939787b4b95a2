/** What callers are told over whole runs: every answer of the loop, the event that gives it, and what it says. */
module RuntimeAnswers {
  import opened Wrappers
  import opened Messages
  import opened Aggregator
  import opened RuntimeSpec
  import opened RuntimeInvariants
  import opened RuntimeSafety
  import opened RuntimeReplies
  import opened RuntimeMoves
  import opened RuntimeProvenance
  import opened RuntimeRecords
  import opened RuntimeBooks
  import opened RuntimeSays

  // ----- runs

  lemma StepAt(capacity: nat, events: seq<Event>, i: nat)
    requires EventsOk(events) && i < |events|
    ensures CoreInv(Before(capacity, events, i)) && EventOk(events[i])
    ensures Before(capacity, events, i + 1) == Step(Before(capacity, events, i), events[i])
  {
    hide CoreInv, Step, Run, EventOk;
    RunKeeps(capacity, events[..i]);
    BeforePrefix(capacity, events, i);
  }

  /** What was sent stays sent. */
  lemma Later(capacity: nat, events: seq<Event>, i: nat)
    requires EventsOk(events) && i <= |events|
    ensures Before(capacity, events, i).sends <= Run(capacity, events).sends
    ensures forall id | id in Before(capacity, events, i).completed && id !in Before(capacity, events, i).requests ::
              id in Run(capacity, events).completed && Run(capacity, events).completed[id] == Before(capacity, events, i).completed[id]
  {
    hide Run, WorkersMove;
    assert events[..i] + events[i..] == events;
    RunMoves(capacity, events[..i], events[i..]);
  }

  /** The loop ends, and says so to whoever asked it to. */
  ghost predicate Finale(t: State, n: Send) { t.phase == ShutDown && t.stopReply == Some(n.to) && n.reply == Ok }

  /** Event j sends n. */
  ghost predicate SaidAt(capacity: nat, events: seq<Event>, j: nat, n: Send) {
    && j < |events| && Before(capacity, events, j).phase == Running
    && (Says(Before(capacity, events, j), events[j], n) || Finale(Before(capacity, events, j + 1), n))
  }

  lemma Saying(capacity: nat, events: seq<Event>, j: nat, n: Send)
    requires EventsOk(events) && SaidAt(capacity, events, j, n)
    ensures n in Run(capacity, events).sends
  {
    hide CoreInv, Step, Run, Says, EventOk, EventsOk;
    StepAt(capacity, events, j);
    CallersView(Before(capacity, events, j), events[j]);
    Later(capacity, events, j + 1);
  }

  lemma EarlierSaid(capacity: nat, events: seq<Event>, j: nat, n: Send)
    requires events != [] && SaidAt(capacity, events[..|events| - 1], j, n)
    ensures SaidAt(capacity, events, j, n)
  {
    hide Run, Says, Finale;
    var past := events[..|events| - 1];
    assert past[..j] == events[..j] && past[..j + 1] == events[..j + 1] && past[j] == events[j];
  }

  lemma LastSaid(capacity: nat, events: seq<Event>, n: Send)
    requires EventsOk(events) && events != []
    requires n in Run(capacity, events).sends && n !in Run(capacity, events[..|events| - 1]).sends
    ensures SaidAt(capacity, events, |events| - 1, n)
  {
    var last := |events| - 1;
    LastStep(capacity, events);
    RunKeeps(capacity, events[..last]);
    hide CoreInv, Step, Run, Says, EventOk;
    var s := Run(capacity, events[..last]);
    StaysOut(s, events[last]);
    CallersView(s, events[last]);
  }

  lemma {:induction false} SaidBy(capacity: nat, events: seq<Event>, n: Send) returns (j: nat)
    requires EventsOk(events) && n in Run(capacity, events).sends
    ensures SaidAt(capacity, events, j, n)
  {
    assert events != [];
    hide CoreInv, Step, Run, SaidAt, EventOk;
    if n in Run(capacity, events[..|events| - 1]).sends {
      j := SaidBy(capacity, events[..|events| - 1], n);
      EarlierSaid(capacity, events, j, n);
    } else {
      j := |events| - 1;
      LastSaid(capacity, events, n);
    }
  }

  // ----- scans

  /** Only a completed scan is answered with verdicts. */
  lemma NoOtherScan(s: State, e: Event, n: Send)
    requires n.reply.ScanReply?
    ensures !CommandSays(s, e, n) && forall k :: !WorkerSays(s, e, k, n)
  {
    hide Admitted, Taken, Reason;
  }

  /** A scan that is answered is completed by the same event. */
  lemma CompletedScan(s: State, e: Event, t: State, n: Send)
    requires n.reply.ScanReply? && Kept(s, e, t, n.reply.id) && exists id :: ScanSays(s, e, id, n)
    ensures var id := n.reply.id;
            && id in t.completed && id !in t.requests && t.completed[id].reply == n.to && t.completed[id].results == n.reply.results
            && n.reply.verdict == Policy(set k | k in t.completed[id].results :: t.completed[id].results[k].verdict)
  {
    hide Opened, EntriesAfter, Complete, Policy;
  }

  /** What one step sends as the answer of a scan. */
  lemma ScanSaid(s: State, e: Event, n: Send)
    requires CoreInv(s) && s.phase == Running && n.reply.ScanReply? && (Says(s, e, n) || Finale(Step(s, e), n))
    ensures var t, id := Step(s, e), n.reply.id;
            && id in t.completed && id !in t.requests && t.completed[id].reply == n.to && t.completed[id].results == n.reply.results
            && n.reply.verdict == Policy(set k | k in t.completed[id].results :: t.completed[id].results[k].verdict)
  {
    hide CoreInv, Step, CommandSays, WorkerSays, ScanSays, Policy, Kept;
    OneRequestView(s, e, n.reply.id);
    NoOtherScan(s, e, n);
    CompletedScan(s, e, Step(s, e), n);
  }

  /**
   Over every run a caller is given the answer of a scan if and only if the scan was completed, with that caller's channel and
   those entries, and the verdict is MALWARE iff one of its workers answered MALWARE in time, CLEAN iff all answered CLEAN.
   */
  lemma ScanReplied(capacity: nat, events: seq<Event>, c: Chan, id: nat, verdict: Result<Overall>, results: map<WorkerKey, Message>)
    requires EventsOk(events)
    ensures var s := Run(capacity, events);
            Send(c, ScanReply(id, verdict, results)) in s.sends <==>
            && id in s.completed && s.completed[id].reply == c && s.completed[id].results == results
            && verdict.Success?
            && (verdict.value == Malware <==> exists k :: k in results && OwnAnswer(capacity, events, id, k, VerdictMalware))
            && (verdict.value == Clean <==> forall k | k in results :: OwnAnswer(capacity, events, id, k, VerdictClean))
  {
    hide Run, OwnAnswer, EventOk, EventsOk;
    if Send(c, ScanReply(id, verdict, results)) in Run(capacity, events).sends {
      CompletedReply(capacity, events, Send(c, ScanReply(id, verdict, results)));
    }
    if id in Run(capacity, events).completed {
      var v := Decided(capacity, events, id);
    }
  }

  /** The answer of a scan is that of its completed request. */
  lemma CompletedReply(capacity: nat, events: seq<Event>, n: Send)
    requires EventsOk(events) && n in Run(capacity, events).sends && n.reply.ScanReply?
    ensures var s, id := Run(capacity, events), n.reply.id;
            && id in s.completed && s.completed[id].reply == n.to && s.completed[id].results == n.reply.results
            && n.reply.verdict == Policy(set k | k in s.completed[id].results :: s.completed[id].results[k].verdict)
  {
    hide CoreInv, Run, Says, Step, Policy, EventOk, EventsOk, Finale;
    var j := SaidBy(capacity, events, n);
    StepAt(capacity, events, j);
    ScanSaid(Before(capacity, events, j), events[j], n);
    Later(capacity, events, j + 1);
  }

  /** The verdict of a completed scan. */
  lemma Decided(capacity: nat, events: seq<Event>, id: nat) returns (v: Overall)
    requires EventsOk(events) && id in Run(capacity, events).completed
    ensures var s := Run(capacity, events); var r := s.completed[id];
            && Send(r.reply, ScanReply(id, Success(v), r.results)) in s.sends
            && Policy(set k | k in r.results :: r.results[k].verdict) == Success(v)
            && (v == Malware <==> exists k :: k in r.results && OwnAnswer(capacity, events, id, k, VerdictMalware))
            && (v == Clean <==> forall k | k in r.results :: OwnAnswer(capacity, events, id, k, VerdictClean))
  {
    var s := Run(capacity, events);
    var r := s.completed[id];
    RunKeeps(capacity, events);
    CompletedIs(s, id);
    hide CoreInv, Run, OwnAnswer, AnswersOk, Policy;
    v := Aggregated(id, r);
    forall k | k in r.results
      ensures OwnAnswer(capacity, events, id, k, VerdictMalware) <==> r.results[k].verdict == VerdictMalware
      ensures OwnAnswer(capacity, events, id, k, VerdictClean) <==> r.results[k].verdict == VerdictClean
    {
      OwnVerdict(capacity, events, id, k, VerdictMalware);
      OwnVerdict(capacity, events, id, k, VerdictClean);
    }
  }

  // ----- who waits for what

  /** Channel c waits in slot x; who asked for the shutdown stays known after the end. */
  predicate Holds(s: State, x: Slot, c: Chan) { if x.StopSlot? then s.stopReply == Some(c) else RuntimeReplies.At(s, x) == Some(c) }

  /** Event e is the command whose caller a slot keeps. */
  predicate Asks(e: Event, x: Slot, c: Chan) {
    match x
    case HelloSlot(k) => e == Event.BeginHello(k, c)
    case HealthSlot(k) => e == Event.BeginHealth(k, c)
    case ReloadSlot(k) => e.ReloadRequest? && e.scannerId == k.scannerId && e.reply == c
    case ScanSlot(id) => e.ScanRequest? && e.reply == c
    case StopSlot => e == Shutdown(c)
  }

  lemma FailedSlots(w: Worker, e: Event, reason: string)
    ensures var w' := AsFailed(w, e, reason); w'.helloReply.None? && w'.healthReply.None? && w'.reloadReply.None?
  {
    hide AsExited;
  }

  lemma ExitedSlots(w: Worker, e: Event)
    ensures var w' := AsExited(w, e);
            w'.helloReply == w.helloReply && w'.healthReply == w.healthReply && w'.reloadReply == w.reloadReply
  {
  }

  lemma ToldSlots(w: Worker, m: Message)
    ensures var w' := Told(w, m);
            && w'.helloReply == (if m.kind == TypeHelloAck then None else w.helloReply)
            && w'.healthReply == (if m.kind == TypeHealthResult then None else w.healthReply)
            && w'.reloadReply == (if m.kind == TypeReloadResult then None else w.reloadReply)
  {
  }

  lemma ChangedHello(s: State, e: Event, k: WorkerKey)
    requires k in s.workers
    ensures var w, w' := s.workers[k], Changed(s, e, k);
            w'.helloReply == w.helloReply || w'.helloReply.None? || e == Event.BeginHello(k, w'.helloReply.value)
  {
    hide Reason, Unexpected, Admitted, AsFailed, AsExited, Told, Note, Over;
    var w := s.workers[k];
    if Reason(s, e, k).Some? { FailedSlots(w, e, Reason(s, e, k).value); }
    ExitedSlots(w, e);
    if e.WorkerMessage? { ToldSlots(w, e.message); }
  }

  lemma ChangedHealth(s: State, e: Event, k: WorkerKey)
    requires k in s.workers
    ensures var w, w' := s.workers[k], Changed(s, e, k);
            w'.healthReply == w.healthReply || w'.healthReply.None? || e == Event.BeginHealth(k, w'.healthReply.value)
  {
    hide Reason, Unexpected, Admitted, AsFailed, AsExited, Told, Note, Over;
    var w := s.workers[k];
    if Reason(s, e, k).Some? { FailedSlots(w, e, Reason(s, e, k).value); }
    ExitedSlots(w, e);
    if e.WorkerMessage? { ToldSlots(w, e.message); }
  }

  lemma ChangedReload(s: State, e: Event, k: WorkerKey)
    requires k in s.workers
    ensures var w, w' := s.workers[k], Changed(s, e, k);
            w'.reloadReply == w.reloadReply || w'.reloadReply.None?
            || (e.ReloadRequest? && e.scannerId == k.scannerId && w'.reloadReply == Some(e.reply))
  {
    hide Reason, Unexpected, Admitted, AsFailed, AsExited, Told, Note, Over;
    var w := s.workers[k];
    if Reason(s, e, k).Some? { FailedSlots(w, e, Reason(s, e, k).value); }
    ExitedSlots(w, e);
    if e.WorkerMessage? { ToldSlots(w, e.message); }
  }

  /** Counting, being asked to stop and the end of the loop touch no reply channel. */
  lemma AskedSlots(w: Worker, n: nat, capacity: nat, phase: Phase)
    ensures var w' := Ended(Asked(w.(inFlight := n), capacity), phase);
            w'.helloReply == w.helloReply && w'.healthReply == w.healthReply && w'.reloadReply == w.reloadReply
  {
  }

  lemma WorkerSlots(s: State, e: Event, k: WorkerKey)
    requires CoreInv(s) && EventOk(e) && s.phase == Running && k in s.workers
    ensures var t := Step(s, e);
            k in t.workers
            && var w, w' := s.workers[k], t.workers[k];
               && (w'.helloReply == w.helloReply || w'.helloReply.None? || e == Event.BeginHello(k, w'.helloReply.value))
               && (w'.healthReply == w.healthReply || w'.healthReply.None? || e == Event.BeginHealth(k, w'.healthReply.value))
               && (w'.reloadReply == w.reloadReply || w'.reloadReply.None?
                   || (e.ReloadRequest? && e.scannerId == k.scannerId && w'.reloadReply == Some(e.reply)))
  {
    hide CoreInv, Step, Changed, EventOk, Asked, Ended, Entrusted;
    var t := Step(s, e);
    OneWorkerView(s, e, k);
    ChangedHello(s, e, k);
    ChangedHealth(s, e, k);
    ChangedReload(s, e, k);
    AskedSlots(Changed(s, e, k), |Entrusted(t, k)|, s.capacity, t.phase);
  }

  lemma ScanSlots(s: State, e: Event, id: nat)
    requires CoreInv(s) && s.phase == Running && id in Step(s, e).requests
    ensures (id in s.requests && Step(s, e).requests[id].reply == s.requests[id].reply)
            || (e.ScanRequest? && Step(s, e).requests[id].reply == e.reply)
  {
    hide CoreInv, Step, EntriesAfter, Complete;
    OneRequestView(s, e, id);
  }

  lemma StepSlots(s: State, e: Event, x: Slot, c: Chan)
    requires CoreInv(s) && EventOk(e) && Holds(Step(s, e), x, c)
    ensures Holds(s, x, c) || Asks(e, x, c)
  {
    hide CoreInv, Step, EventOk;
    if s.phase != Running {
      StaysOut(s, e);
    } else {
      match x
      case ScanSlot(id) => ScanSlots(s, e, id);
      case StopSlot => LoopView(s, e);
      case _ => if x.key in s.workers { WorkerSlots(s, e, x.key); } else { NewWorkerView(s, e, x.key); }
    }
  }

  /** Whoever is kept waiting sent the command that belongs there. */
  lemma {:induction false} KeptFrom(capacity: nat, events: seq<Event>, x: Slot, c: Chan) returns (i: nat)
    requires EventsOk(events) && Holds(Run(capacity, events), x, c)
    ensures i < |events| && Asks(events[i], x, c)
  {
    assert events != [];
    var last := |events| - 1;
    LastStep(capacity, events);
    RunKeeps(capacity, events[..last]);
    hide CoreInv, Step, Run, EventOk, Holds, Asks;
    StepSlots(Run(capacity, events[..last]), events[last], x, c);
    if Asks(events[last], x, c) {
      i := last;
    } else {
      i := KeptFrom(capacity, events[..last], x, c);
    }
  }

  lemma SameCommand(events: seq<Event>, i: nat, j: nat)
    requires OwnChans(events) && i < |events| && j < |events| && EventChan(events[i]).Some? && EventChan(events[i]) == EventChan(events[j])
    ensures i == j
  {
    hide EventChan;
  }

  lemma AsksOn(e: Event, x: Slot, c: Chan)
    requires Asks(e, x, c)
    ensures EventChan(e) == Some(c)
  {
  }

  /** A channel that is kept stands where its own command put it. */
  lemma SlotIs(capacity: nat, events: seq<Event>, i: nat, j: nat, x: Slot, c: Chan)
    requires EventsOk(events) && OwnChans(events) && i < |events| && j <= |events|
    requires EventChan(events[i]) == Some(c) && Holds(Before(capacity, events, j), x, c)
    ensures i < j && Asks(events[i], x, c)
  {
    hide EventChan, Holds, OwnChans, Asks, Run, EventOk;
    var i' := KeptFrom(capacity, events[..j], x, c);
    AsksOn(events[i'], x, c);
    SameCommand(events, i, i');
  }

  /** Who is answered for worker k waits for it. */
  lemma WaitsFor(capacity: nat, events: seq<Event>, i: nat, j: nat, k: WorkerKey, n: Send)
    requires EventsOk(events) && OwnChans(events) && i < |events| && j < |events|
    requires EventChan(events[i]) == Some(n.to) && WorkerSays(Before(capacity, events, j), events[j], k, n)
    ensures i < j
    ensures || events[i] == Event.BeginHello(k, n.to) || events[i] == Event.BeginHealth(k, n.to)
            || (events[i].ReloadRequest? && events[i].scannerId == k.scannerId)
  {
    var s := Before(capacity, events, j);
    Waiting(s, events[j], k, n);
    hide EventChan, OwnChans, Run, EventOk, EventsOk, WorkerSays;
    if Holds(s, HelloSlot(k), n.to) {
      SlotIs(capacity, events, i, j, HelloSlot(k), n.to);
    } else if Holds(s, HealthSlot(k), n.to) {
      SlotIs(capacity, events, i, j, HealthSlot(k), n.to);
    } else {
      SlotIs(capacity, events, i, j, ReloadSlot(k), n.to);
    }
  }

  lemma Waiting(s: State, e: Event, k: WorkerKey, n: Send)
    requires WorkerSays(s, e, k, n)
    ensures Holds(s, HelloSlot(k), n.to) || Holds(s, HealthSlot(k), n.to) || Holds(s, ReloadSlot(k), n.to)
  {
    hide Reason, Over;
  }

  lemma ScanWaits(s: State, e: Event, id: nat, n: Send)
    requires ScanSays(s, e, id, n)
    ensures n.reply.ScanReply? && (Holds(s, ScanSlot(id), n.to) || (e.ScanRequest? && e.reply == n.to))
  {
    hide EntriesAfter, Complete, Policy;
  }

  /** A scan is answered to the caller who asked for it. */
  lemma ScanCaller(capacity: nat, events: seq<Event>, i: nat, j: nat, n: Send)
    requires EventsOk(events) && OwnChans(events) && i < |events| && j < |events| && CoreInv(Before(capacity, events, j))
    requires EventChan(events[i]) == Some(n.to) && exists id :: ScanSays(Before(capacity, events, j), events[j], id, n)
    ensures events[i].ScanRequest? && n.reply.ScanReply?
  {
    hide OwnChans, Run, EventOk, EventsOk, CoreInv, ScanSays, Holds;
    var s, e := Before(capacity, events, j), events[j];
    var id :| ScanSays(s, e, id, n);
    ScanWaits(s, e, id, n);
    if Holds(s, ScanSlot(id), n.to) {
      SlotIs(capacity, events, i, j, ScanSlot(id), n.to);
    } else {
      SameCommand(events, i, j);
    }
  }

  /** The event j that answers the command of event i, and how: at once, for its worker k, as a scan, or as the end of the loop. */
  lemma Origin(capacity: nat, events: seq<Event>, i: nat, n: Send) returns (j: nat, k: WorkerKey)
    requires EventsOk(events) && OwnChans(events) && i < |events|
    requires EventChan(events[i]) == Some(n.to) && n in Run(capacity, events).sends
    ensures j < |events| && Before(capacity, events, j).phase == Running && CoreInv(Before(capacity, events, j))
    ensures var s, e := Before(capacity, events, j), events[j];
            || (j == i && AtOnce(s, e) == Some(n.reply))
            || (WorkerSays(s, e, k, n)
                && (|| events[i] == Event.BeginHello(k, n.to) || events[i] == Event.BeginHealth(k, n.to)
                    || (events[i].ReloadRequest? && events[i].scannerId == k.scannerId)))
            || (events[i].ScanRequest? && n.reply.ScanReply?)
            || (events[i].Shutdown? && n.reply == Ok && Before(capacity, events, j + 1).phase == ShutDown)
  {
    j := SaidBy(capacity, events, n);
    k := WorkerKey("", "");
    StepAt(capacity, events, j);
    hide CoreInv, Run, EventChan, OwnChans, EventOk, EventsOk, Step, AtOnce, WorkerSays, ScanSays;
    var s, e := Before(capacity, events, j), events[j];
    if CommandSays(s, e, n) {
      SameCommand(events, i, j);
    } else if k' :| WorkerSays(s, e, k', n) {
      k := k';
      WaitsFor(capacity, events, i, j, k, n);
    } else if Finale(Before(capacity, events, j + 1), n) {
      SlotIs(capacity, events, i, j + 1, StopSlot, n.to);
    } else {
      ScanCaller(capacity, events, i, j, n);
    }
  }

  // ----- checks

  /** Event e hands the loop a message of worker k, which is live. */
  predicate Hears(s: State, e: Event, k: WorkerKey, kind: MessageType) {
    && s.phase == Running && e.WorkerMessage? && e.key == k && e.message.kind == kind
    && k in s.workers && s.workers[k].state != Failed && s.workers[k].state != Retired
  }

  /** A kept caller is told what the awaited message says. */
  lemma HeardSays(s: State, e: Event, k: WorkerKey, n: Send)
    requires e.WorkerMessage? && Hears(s, e, k, e.message.kind)
    requires MessageSays(s.workers[k], k, e.message, n)
    ensures WorkerSays(s, e, k, n)
  {
  }

  lemma HeardTold(capacity: nat, events: seq<Event>, j: nat, k: WorkerKey, n: Send)
    requires EventsOk(events) && j < |events| && events[j].WorkerMessage?
    requires Hears(Before(capacity, events, j), events[j], k, events[j].message.kind)
    requires MessageSays(Before(capacity, events, j).workers[k], k, events[j].message, n)
    ensures n in Run(capacity, events).sends
  {
    hide Run, EventOk, EventsOk, WorkerSays, MessageSays;
    HeardSays(Before(capacity, events, j), events[j], k, n);
    Saying(capacity, events, j, n);
  }

  /** What a worker's callers can be told: an error, or what its message says. */
  lemma WorkerTold(s: State, e: Event, k: WorkerKey, n: Send)
    requires s.phase == Running && WorkerSays(s, e, k, n)
    ensures n.reply.Err? || (e.WorkerMessage? && Hears(s, e, k, e.message.kind) && MessageSays(s.workers[k], k, e.message, n))
  {
    hide Reason, MessageSays;
  }

  /**
   BeginHello is answered Ok if and only if its worker's HELLO_ACK arrives while the check is pending and names the worker's
   own scanner ID and version; every such HELLO_ACK that names others answers the mismatch, and nothing answers anything but Ok
   or an error.
   */
  lemma HelloTold(capacity: nat, events: seq<Event>, i: nat, k: WorkerKey, c: Chan)
    requires EventsOk(events) && OwnChans(events) && i < |events| && events[i] == Event.BeginHello(k, c)
    ensures var t := Run(capacity, events);
            && (Send(c, Ok) in t.sends <==>
                exists j | 0 <= j < |events| ::
                  && Hears(Before(capacity, events, j), events[j], k, TypeHelloAck)
                  && Before(capacity, events, j).workers[k].helloReply == Some(c)
                  && events[j].message.scannerId == k.scannerId && events[j].message.workerVersion == k.version)
            && (forall j | 0 <= j < |events| && Hears(Before(capacity, events, j), events[j], k, TypeHelloAck)
                           && Before(capacity, events, j).workers[k].helloReply == Some(c)
                           && !(events[j].message.scannerId == k.scannerId && events[j].message.workerVersion == k.version) ::
                  Send(c, Err("identity mismatch")) in t.sends)
            && (forall r | Send(c, r) in t.sends :: r == Ok || r.Err?)
  {
    hide Run, EventOk, EventsOk, OwnChans, WorkerSays, AtOnce;
    forall r | Send(c, r) in Run(capacity, events).sends
      ensures r == Ok || r.Err?
      ensures r == Ok ==> exists j | 0 <= j < |events| ::
                && Hears(Before(capacity, events, j), events[j], k, TypeHelloAck)
                && Before(capacity, events, j).workers[k].helloReply == Some(c)
                && events[j].message.scannerId == k.scannerId && events[j].message.workerVersion == k.version
    {
      var j, k' := Origin(capacity, events, i, Send(c, r));
      HelloAtOnce(Before(capacity, events, j), k, c);
      if j != i || AtOnce(Before(capacity, events, j), events[j]) != Some(r) {
        WorkerTold(Before(capacity, events, j), events[j], k, Send(c, r));
        OneSlot(capacity, events, i, j, k, c);
      }
    }
    forall j | 0 <= j < |events| && Hears(Before(capacity, events, j), events[j], k, TypeHelloAck)
               && Before(capacity, events, j).workers[k].helloReply == Some(c)
      ensures Send(c, if events[j].message.scannerId == k.scannerId && events[j].message.workerVersion == k.version then Ok
                      else Err("identity mismatch")) in Run(capacity, events).sends
    {
      HeardTold(capacity, events, j, k,
                Send(c, if events[j].message.scannerId == k.scannerId && events[j].message.workerVersion == k.version then Ok
                        else Err("identity mismatch")));
    }
  }

  lemma HelloAtOnce(s: State, k: WorkerKey, c: Chan)
    ensures AtOnce(s, Event.BeginHello(k, c)).Some? ==> AtOnce(s, Event.BeginHello(k, c)).value.Err?
    ensures AtOnce(s, Event.BeginHealth(k, c)).Some? ==> AtOnce(s, Event.BeginHealth(k, c)).value.Err?
  {
  }

  /** The command of event i says in which of its worker's slots the channel can be. */
  lemma OneSlot(capacity: nat, events: seq<Event>, i: nat, j: nat, k: WorkerKey, c: Chan)
    requires EventsOk(events) && OwnChans(events) && i < |events| && j <= |events| && EventChan(events[i]) == Some(c)
    ensures var s := Before(capacity, events, j);
            k in s.workers ==>
              && (s.workers[k].helloReply == Some(c) ==> events[i] == Event.BeginHello(k, c))
              && (s.workers[k].healthReply == Some(c) ==> events[i] == Event.BeginHealth(k, c))
              && (s.workers[k].reloadReply == Some(c) ==> events[i].ReloadRequest? && events[i].scannerId == k.scannerId)
  {
    hide Run, EventOk, EventsOk, OwnChans, EventChan;
    var s := Before(capacity, events, j);
    if k in s.workers {
      if s.workers[k].helloReply == Some(c) { SlotIs(capacity, events, i, j, HelloSlot(k), c); }
      if s.workers[k].healthReply == Some(c) { SlotIs(capacity, events, i, j, HealthSlot(k), c); }
      if s.workers[k].reloadReply == Some(c) { SlotIs(capacity, events, i, j, ReloadSlot(k), c); }
    }
  }

  /** BeginHealth is answered Ok if and only if its worker's HEALTH_RESULT with status "ok" arrives while the check is pending. */
  lemma HealthTold(capacity: nat, events: seq<Event>, i: nat, k: WorkerKey, c: Chan)
    requires EventsOk(events) && OwnChans(events) && i < |events| && events[i] == Event.BeginHealth(k, c)
    ensures var t := Run(capacity, events);
            && (Send(c, Ok) in t.sends <==>
                exists j | 0 <= j < |events| ::
                  && Hears(Before(capacity, events, j), events[j], k, TypeHealthResult)
                  && Before(capacity, events, j).workers[k].healthReply == Some(c) && events[j].message.status == "ok")
            && (forall j | 0 <= j < |events| && Hears(Before(capacity, events, j), events[j], k, TypeHealthResult)
                           && Before(capacity, events, j).workers[k].healthReply == Some(c) && events[j].message.status != "ok" ::
                  Send(c, Err("worker reported unhealthy")) in t.sends)
            && (forall r | Send(c, r) in t.sends :: r == Ok || r.Err?)
  {
    hide Run, EventOk, EventsOk, OwnChans, WorkerSays, AtOnce;
    forall r | Send(c, r) in Run(capacity, events).sends
      ensures r == Ok || r.Err?
      ensures r == Ok ==> exists j | 0 <= j < |events| ::
                && Hears(Before(capacity, events, j), events[j], k, TypeHealthResult)
                && Before(capacity, events, j).workers[k].healthReply == Some(c) && events[j].message.status == "ok"
    {
      var j, k' := Origin(capacity, events, i, Send(c, r));
      HelloAtOnce(Before(capacity, events, j), k, c);
      if j != i || AtOnce(Before(capacity, events, j), events[j]) != Some(r) {
        WorkerTold(Before(capacity, events, j), events[j], k, Send(c, r));
        OneSlot(capacity, events, i, j, k, c);
      }
    }
    forall j | 0 <= j < |events| && Hears(Before(capacity, events, j), events[j], k, TypeHealthResult)
               && Before(capacity, events, j).workers[k].healthReply == Some(c)
      ensures Send(c, if events[j].message.status == "ok" then Ok else Err("worker reported unhealthy")) in Run(capacity, events).sends
    {
      HeardTold(capacity, events, j, k, Send(c, if events[j].message.status == "ok" then Ok else Err("worker reported unhealthy")));
    }
  }

  /**
   A reload is answered with a result if and only if a RELOAD_RESULT of the worker that holds its channel arrives, with that
   message's count, and with no error iff the message says success; a timeout answers an error, and nothing else is answered
   but errors.
   */
  lemma ReloadTold(capacity: nat, events: seq<Event>, i: nat, c: Chan)
    requires EventsOk(events) && OwnChans(events) && i < |events| && events[i].ReloadRequest? && events[i].reply == c
    ensures var t := Run(capacity, events);
            && (forall k, count, err :: Send(c, ReloadReply(k, count, err)) in t.sends <==>
                 exists j | 0 <= j < |events| ::
                  && Hears(Before(capacity, events, j), events[j], k, TypeReloadResult) && k.scannerId == events[i].scannerId
                  && Before(capacity, events, j).workers[k].reloadReply == Some(c)
                  && count == events[j].message.signatureCount
                  && err == if events[j].message.success then None else Some(events[j].message.error))
            && (forall j, k | 0 <= j < |events| && Expires(Before(capacity, events, j), events[j], k, c) ::
                  Send(c, Err("signature reload timed out")) in t.sends)
            && (forall r | Send(c, r) in t.sends :: r.ReloadReply? || r.Err?)
  {
    hide Run, EventOk, EventsOk, OwnChans, WorkerSays, AtOnce;
    forall r | Send(c, r) in Run(capacity, events).sends
      ensures r.ReloadReply? || r.Err?
      ensures r.ReloadReply? ==> exists j | 0 <= j < |events| ::
                && Hears(Before(capacity, events, j), events[j], r.key, TypeReloadResult) && r.key.scannerId == events[i].scannerId
                && Before(capacity, events, j).workers[r.key].reloadReply == Some(c)
                && r.count == events[j].message.signatureCount
                && r.err == if events[j].message.success then None else Some(events[j].message.error)
    {
      var j, k := Origin(capacity, events, i, Send(c, r));
      ReloadAtOnce(Before(capacity, events, j), events[i]);
      if j != i || AtOnce(Before(capacity, events, j), events[j]) != Some(r) {
        WorkerTold(Before(capacity, events, j), events[j], k, Send(c, r));
        OneSlot(capacity, events, i, j, k, c);
      }
    }
    forall j, k | 0 <= j < |events| && Hears(Before(capacity, events, j), events[j], k, TypeReloadResult)
                  && Before(capacity, events, j).workers[k].reloadReply == Some(c)
      ensures Send(c, ReloadReply(k, events[j].message.signatureCount,
                                  if events[j].message.success then None else Some(events[j].message.error))) in Run(capacity, events).sends
    {
      HeardTold(capacity, events, j, k, Send(c, ReloadReply(k, events[j].message.signatureCount,
                                                            if events[j].message.success then None else Some(events[j].message.error))));
    }
    forall j, k | 0 <= j < |events| && Expires(Before(capacity, events, j), events[j], k, c)
      ensures Send(c, Err("signature reload timed out")) in Run(capacity, events).sends
    {
      ExpirySays(Before(capacity, events, j), events[j], k, c);
      Saying(capacity, events, j, Send(c, Err(RELOAD_TIMED_OUT)));
    }
  }

  /** Event e is the timeout of worker k's reload, whose caller still waits. */
  predicate Expires(s: State, e: Event, k: WorkerKey, c: Chan) {
    s.phase == Running && e == ReloadTimeout(k) && k in s.workers && s.workers[k].reloadReply == Some(c)
  }

  lemma ExpirySays(s: State, e: Event, k: WorkerKey, c: Chan)
    requires Expires(s, e, k, c)
    ensures WorkerSays(s, e, k, Send(c, Err(RELOAD_TIMED_OUT)))
  {
  }

  lemma ReloadAtOnce(s: State, e: Event)
    requires e.ReloadRequest?
    ensures AtOnce(s, e).Some? ==> AtOnce(s, e).value.Err?
  {
  }

  // ----- admission

  /**
   A scan that the loop takes is admitted, with one entry for each ACTIVE worker, if and only if no shutdown was asked for and
   some worker has a route; otherwise its caller is told which of the two is missing, and a caller whose scan was admitted is
   told nothing but its verdict.
   */
  lemma ScanAdmitted(capacity: nat, events: seq<Event>, i: nat)
    requires EventsOk(events) && i < |events| && events[i].ScanRequest? && Before(capacity, events, i).phase == Running
    ensures var s, t, c := Before(capacity, events, i), Before(capacity, events, i + 1), events[i].reply;
            var id := s.nextRequestID + 1;
            && (id in t.requests || id in t.completed <==> s.stopReply.None? && s.active != map[])
            && (id in t.requests || id in t.completed ==>
                  && t.nextRequestID == id && Book(t, id).path == events[i].path && Book(t, id).reply == c
                  && (forall k :: k in Book(t, id).results <==> k in s.workers && s.workers[k].state == Active)
                  && (OwnChans(events) ==> forall r | Send(c, r) in Run(capacity, events).sends :: r.ScanReply?))
            && (s.stopReply.Some? ==> Send(c, Err("core is shutting down")) in Run(capacity, events).sends)
            && (s.stopReply.None? && s.active == map[] ==> Send(c, Err("no active workers")) in Run(capacity, events).sends)
  {
    hide CoreInv, Run, EventOk, EventsOk, OwnChans, Step, Kept, Says, Admitted;
    var s, e := Before(capacity, events, i), events[i];
    StepAt(capacity, events, i);
    OneRequestView(s, e, s.nextRequestID + 1);
    LoopView(s, e);
    AdmittedWhen(s, e);
    NewBook(s, e, Step(s, e));
    if !Admitted(s, e) {
      RefusalSays(s, e);
      Saying(capacity, events, i, Send(e.reply, Err(if s.stopReply.Some? then SHUTTING_DOWN else NO_ACTIVE)));
    } else if OwnChans(events) {
      forall r | Send(e.reply, r) in Run(capacity, events).sends ensures r.ScanReply? {
        var j, k := Origin(capacity, events, i, Send(e.reply, r));
        NoRefusal(s, e);
      }
    }
  }

  lemma AdmittedWhen(s: State, e: Event)
    requires CoreInv(s) && e.ScanRequest?
    ensures Admitted(s, e) <==> s.stopReply.None? && s.active != map[]
    ensures s.nextRequestID + 1 !in s.requests && s.nextRequestID + 1 !in s.completed
  {
    assert RoutesOk(s) && RequestsOk(s) && HistoryOk(s);
    hide CoreInv;
    RoutesIff(s);
    hide RoutesOk, CompletedOk, RequestOk;
  }

  lemma NewBook(s: State, e: Event, t: State)
    requires e.ScanRequest? && Kept(s, e, t, s.nextRequestID + 1)
    requires s.nextRequestID + 1 !in s.requests && s.nextRequestID + 1 !in s.completed
    ensures var id := s.nextRequestID + 1;
            && (id in t.requests || id in t.completed <==> Admitted(s, e))
            && (Admitted(s, e) ==> Book(t, id).path == e.path && Book(t, id).reply == e.reply
                                   && forall k :: k in Book(t, id).results <==> k in s.workers && s.workers[k].state == Active)
  {
    hide Complete, Final, Admitted;
  }

  lemma RefusalSays(s: State, e: Event)
    requires e.ScanRequest? && !Admitted(s, e)
    ensures Says(s, e, Send(e.reply, Err(if s.stopReply.Some? then SHUTTING_DOWN else NO_ACTIVE)))
  {
    hide Admitted, WorkerSays, ScanSays;
  }

  lemma NoRefusal(s: State, e: Event)
    requires e.ScanRequest? && Admitted(s, e)
    ensures AtOnce(s, e).None?
  {
  }
}
