/**
 What the two ends say to each other in the composed system: every message is valid for both codecs, a handshake succeeds iff the
 worker is who Core takes it for, only workers that report healthy are routed, and Core passes on what the worker loaded.
 */
module HotAnswers {
  import opened Wrappers
  import opened Messages
  import opened Text
  import opened Protocol
  import opened ReloadHistory
  import opened RuntimeSpec
  import RuntimeBooks
  import RuntimeInvariants
  import RuntimeRecords
  import opened RuntimeReplies
  import opened RuntimeMoves
  import opened RuntimeProvenance
  import opened RuntimeAnswers
  import RuntimeChanges
  import RuntimeLogs
  import RuntimeLifecycle
  import RuntimeSafety
  import RuntimeSays
  import opened WorkerSession
  import opened HotSwap

  // ----- validity

  lemma CapabilitiesSaySomething()
    ensures !IsBlank("file_scan") && !IsBlank("reload")
  {
    assert !IsSpace('f') && !IsSpace('r');
    assert "file_scan"[0] == 'f' && "reload"[0] == 'r';
    hide IsSpace;
  }

  /** When a message that a session sends is valid. */
  lemma HonestValid(config: Config, m: Message)
    requires Honest(config, m)
    ensures Valid(m) <==>
            match m.kind
            case TypeHelloAck => !IsBlank(config.scannerId) && !IsBlank(config.version)
            case TypeScanResult => m.requestId != 0
            case TypeReloadResult => m.signatureCount >= 0 && (m.success || !IsBlank(m.error))
            case _ => true
  {
    hide Valid, IsBlank;
    ValidExactly(m);
    CapabilitiesSaySomething();
  }

  /** When a command in a worker's log is valid. */
  lemma CommandValid(s: State, events: seq<Event>, k: WorkerKey, m: Message)
    requires RuntimeLogs.Written(s, events, k, m)
    ensures Valid(m) <==> (m.kind == TypeScan ==> !IsBlank(m.filePath)) && (m.kind == TypeReload ==> !IsBlank(m.signaturePath))
  {
    hide Valid, IsBlank, Known, Book, RuntimeLogs.ReloadAsked;
    ValidExactly(m);
  }

  /**
   Every message that either end sends is valid: the commands for a path that says something, a verdict for a request ID, MALWARE
   with its signature included, the identity of a configuration that is not blank, both health results and both reload results.
   */
  lemma SentIsValid(id: nat, path: string, config: Config, count: nat, error: string, scan: Message, response: Message)
    requires WorkerSession.Answers(scan, response)
    ensures Valid(Command(TypeHello)) && Valid(Command(TypeHealthCheck)) && Valid(Command(TypeShutdown)) && Valid(Command(TypeShutdownAck))
    ensures Valid(ScanCommand(id, path)) <==> id != 0 && !IsBlank(path)
    ensures Valid(ReloadCommand(path)) <==> !IsBlank(path)
    ensures Valid(response) <==> scan.requestId != 0
    ensures Valid(HelloAnswer(config)) <==> !IsBlank(config.scannerId) && !IsBlank(config.version)
    ensures Valid(HealthAnswer(config)) && Valid(ReloadAnswer(Success(count)))
    ensures Valid(ReloadAnswer(Failure(error))) <==> !IsBlank(error)
  {
    hide Valid, IsBlank;
    ValidExactly(Command(TypeHello));
    ValidExactly(Command(TypeHealthCheck));
    ValidExactly(Command(TypeShutdown));
    ValidExactly(Command(TypeShutdownAck));
    ValidExactly(ScanCommand(id, path));
    ValidExactly(ReloadCommand(path));
    HonestValid(config, response);
    HonestValid(config, HelloAnswer(config));
    HonestValid(config, HealthAnswer(config));
    HonestValid(config, ReloadAnswer(Success(count)));
    HonestValid(config, ReloadAnswer(Failure(error)));
  }

  // ----- what Core was handed

  lemma {:induction false} InReceived(trace: seq<Event>, k: WorkerKey, j: nat)
    requires j < |trace| && trace[j].WorkerMessage? && trace[j].key == k
    ensures trace[j].message in Received(trace, k)
  {
    var n := |trace| - 1;
    if j < n {
      InReceived(trace[..n], k, j);
    }
  }

  /** Whatever Core is handed in the name of a worker, the worker's session sent. */
  lemma HandedOver(capacity: nat, actions: seq<Action>, j: nat, k: WorkerKey)
    requires j < |Execute(capacity, actions).trace|
    requires Execute(capacity, actions).trace[j].WorkerMessage? && Execute(capacity, actions).trace[j].key == k
    ensures var n := Execute(capacity, actions);
            && k in n.links && n.trace[j].message in n.links[k].session.out
            && Honest(n.links[k].session.config, n.trace[j].message)
  {
    hide Execute, RuntimeLifecycle.AcksFollow, RuntimeSafety.EventsOk, Run, Received, AckHeard, Honest, LoadsOk, Balanced, InStep, FromHeard;
    var n := Execute(capacity, actions);
    ExecuteKeeps(capacity, actions);
    InReceived(n.trace, k, j);
    assert LinkOk(Core(n).workers[k].written, Received(n.trace, k), n.links[k]);
  }

  // ----- the handshake and the health check

  /**
   A HELLO_ACK that Core waits for is answered Ok if the worker's session runs under the scanner ID and version that Core registered,
   and as a mismatch if it does not; so a worker that is who Core takes it for is never refused, and no other is let in.
   */
  lemma IdentityAnswered(capacity: nat, actions: seq<Action>, j: nat, k: WorkerKey, c: Chan)
    requires var trace := Execute(capacity, actions).trace;
             && j < |trace| && Hears(Before(capacity, trace, j), trace[j], k, TypeHelloAck)
             && Before(capacity, trace, j).workers[k].helloReply == Some(c)
    ensures var n := Execute(capacity, actions);
            && k in n.links
            && var config := n.links[k].session.config;
               var answer := if config.scannerId == k.scannerId && config.version == k.version then Ok else Err("identity mismatch");
               && Send(c, answer) in Core(n).sends
               && (OwnChans(n.trace) ==> forall r | Send(c, r) in Core(n).sends :: r == answer)
  {
    hide Execute, RuntimeLifecycle.AcksFollow, RuntimeSafety.EventsOk, Run, AckHeard, LinksOk, Silent, RuntimeReplies.RepliesOk, OwnChans;
    var n := Execute(capacity, actions);
    ExecuteKeeps(capacity, actions);
    HandedOver(capacity, actions, j, k);
    var config := n.links[k].session.config;
    var answer := if config.scannerId == k.scannerId && config.version == k.version then Ok else Err("identity mismatch");
    HeardTold(capacity, n.trace, j, k, Send(c, answer));
    if OwnChans(n.trace) {
      ReplyDiscipline(capacity, n.trace);
      OneReply(Core(n), Send(c, answer));
    }
  }

  /** A worker whose session reports itself unhealthy is never HEALTHY or ACTIVE. */
  lemma RoutedReportsHealthy(capacity: nat, actions: seq<Action>, k: WorkerKey)
    requires k in Core(Execute(capacity, actions)).workers
    requires var state := Core(Execute(capacity, actions)).workers[k].state; state == Healthy || state == Active
    ensures var n := Execute(capacity, actions); k in n.links && !n.links[k].session.config.failHealth
  {
    hide Execute, RuntimeLifecycle.AcksFollow, RuntimeSafety.EventsOk, Run, AckHeard, LinksOk, Silent;
    ExecuteKeeps(capacity, actions);
    var j := RuntimeChanges.WasHealthy(capacity, Execute(capacity, actions).trace, k);
    HandedOver(capacity, actions, j, k);
  }

  /** And no scan is ever entrusted to it. */
  lemma ScannedReportsHealthy(capacity: nat, actions: seq<Action>, id: nat, k: WorkerKey)
    requires Known(Core(Execute(capacity, actions)), id) && k in Book(Core(Execute(capacity, actions)), id).results
    ensures var n := Execute(capacity, actions); k in n.links && !n.links[k].session.config.failHealth
  {
    hide Execute, RuntimeLifecycle.AcksFollow, RuntimeSafety.EventsOk, Run, AckHeard, LinksOk, Silent, Known, Book;
    ExecuteKeeps(capacity, actions);
    var i, j := RuntimeChanges.ScannedWasHealthy(capacity, Execute(capacity, actions).trace, id, k);
    HandedOver(capacity, actions, j, k);
  }

  // ----- reloads

  lemma {:induction false} ResultIn(messages: seq<Message>, m: Message) returns (i: nat)
    requires m in messages && m.kind == TypeReloadResult
    ensures i < |Results(messages)| && Results(messages)[i] == m
  {
    var n := |messages| - 1;
    if m in messages[..n] {
      i := ResultIn(messages[..n], m);
    } else {
      i := |Results(messages[..n])|;
    }
  }

  lemma ReloadSaid(s: State, e: Event, n: Send)
    requires s.phase == Running && n.reply.ReloadReply? && (RuntimeSays.Says(s, e, n) || Finale(Step(s, e), n))
    ensures Hears(s, e, n.reply.key, TypeReloadResult) && s.workers[n.reply.key].reloadReply == Some(n.to)
    ensures n.reply.count == e.message.signatureCount && n.reply.err == if e.message.success then None else Some(e.message.error)
  {
    hide Step, RuntimeSays.WorkerSays, RuntimeRecords.Admitted, RuntimeRecords.Taken, RuntimeBooks.EntriesAfter, RuntimeBooks.Opened,
         RuntimeBooks.Complete;
    assert exists k :: RuntimeSays.WorkerSays(s, e, k, n);
    var k :| RuntimeSays.WorkerSays(s, e, k, n);
    WorkerTold(s, e, k, n);
  }

  lemma LoadOf(x: Session, heard: seq<Message>, m: Message)
    requires SessionOk(x, heard) && m in x.out && m.kind == TypeReloadResult
    ensures exists load :: load in x.loads && Reports(m, load)
  {
    hide Honest, Results, Balanced, InStep, Reloads, FromHeard, Reports;
    var i := ResultIn(x.out, m);
    assert Reports(m, x.loads[i]);
  }

  /** Where Core got the result of a reload from that it passes on. */
  lemma ReloadHanded(capacity: nat, actions: seq<Action>, n: Send) returns (m: Message)
    requires n.reply.ReloadReply? && n in Core(Execute(capacity, actions)).sends
    ensures n.reply.key in Execute(capacity, actions).links && m in Execute(capacity, actions).links[n.reply.key].session.out
    ensures m.kind == TypeReloadResult && n.reply.count == m.signatureCount && n.reply.err == if m.success then None else Some(m.error)
  {
    hide Execute, RuntimeLifecycle.AcksFollow, RuntimeSafety.EventsOk, Run, AckHeard, Silent, LinksOk, RuntimeSays.Says, Step, Honest,
         RuntimeInvariants.CoreInv;
    ExecuteKeeps(capacity, actions);
    var trace := Execute(capacity, actions).trace;
    var j := SaidBy(capacity, trace, n);
    RuntimeAnswers.StepAt(capacity, trace, j);
    ReloadSaid(Before(capacity, trace, j), trace[j], n);
    HandedOver(capacity, actions, j, n.reply.key);
    m := trace[j].message;
  }

  /** Every result of a reload that Core passes on is what a load of that worker's session came to, with the count that it loaded. */
  lemma ReloadPassedOn(capacity: nat, actions: seq<Action>, c: Chan, k: WorkerKey, count: int, err: Option<string>)
    requires Send(c, ReloadReply(k, count, err)) in Core(Execute(capacity, actions)).sends
    ensures var n := Execute(capacity, actions);
            && k in n.links
            && exists load :: load in n.links[k].session.loads
                              && match load case Success(loaded) => count == loaded && err.None? case Failure(error) => count == 0 && err == Some(error)
  {
    hide Execute, RuntimeLifecycle.AcksFollow, RuntimeSafety.EventsOk, Run, AckHeard, Silent, Received, SessionOk;
    var n := Execute(capacity, actions);
    ExecuteKeeps(capacity, actions);
    var m := ReloadHanded(capacity, actions, Send(c, ReloadReply(k, count, err)));
    assert LinkOk(Core(n).workers[k].written, Received(n.trace, k), n.links[k]);
    LoadOf(n.links[k].session, Core(n).workers[k].written[..n.links[k].consumed], m);
    var load :| load in n.links[k].session.loads && Reports(m, load);
  }

  // ----- every message

  lemma SessionValid(x: Session, heard: seq<Message>, m: Message)
    requires SessionOk(x, heard) && m in x.out
    requires !IsBlank(x.config.scannerId) && !IsBlank(x.config.version)
    requires forall load | load in x.loads && load.Failure? :: !IsBlank(load.error)
    requires forall id: nat | Scanned(heard, id) :: id != 0
    ensures Valid(m)
  {
    hide IsBlank, Valid, Honest, Results, Balanced, InStep, Scanned, Reloads;
    HonestValid(x.config, m);
    if m.kind == TypeReloadResult {
      var i := ResultIn(x.out, m);
      assert Reports(m, x.loads[i]);
    }
  }

  /**
   In every execution, every message of a session whose configuration names it and whose loads say why they fail is valid, and every
   command ever queued to a worker is valid unless the path that a caller gave for it is blank. So both codecs carry all of them.
   */
  lemma TrafficIsValid(capacity: nat, actions: seq<Action>, k: WorkerKey)
    requires k in Core(Execute(capacity, actions)).workers
    ensures var n := Execute(capacity, actions);
            && k in n.links
            && (forall m | m in Core(n).workers[k].Log() ::
                  Valid(m) <==> (m.kind == TypeScan ==> !IsBlank(m.filePath)) && (m.kind == TypeReload ==> !IsBlank(m.signaturePath)))
            && var x := n.links[k].session;
               (!IsBlank(x.config.scannerId) && !IsBlank(x.config.version)
                && (forall load | load in x.loads && load.Failure? :: !IsBlank(load.error)) ==>
                  forall m | m in x.out :: Valid(m))
  {
    hide Execute, RuntimeLifecycle.AcksFollow, RuntimeSafety.EventsOk, Run, AckHeard, Silent, Valid, IsBlank, Received,
         RuntimeLogs.Written, SessionOk;
    var n := Execute(capacity, actions);
    ExecuteKeeps(capacity, actions);
    RuntimeLogs.LogsWritten(capacity, n.trace, k);
    forall m | m in Core(n).workers[k].Log()
      ensures Valid(m) <==> (m.kind == TypeScan ==> !IsBlank(m.filePath)) && (m.kind == TypeReload ==> !IsBlank(m.signaturePath))
    {
      CommandValid(Core(n), n.trace, k, m);
    }
    assert LinkOk(Core(n).workers[k].written, Received(n.trace, k), n.links[k]);
    var x, heard := n.links[k].session, Core(n).workers[k].written[..n.links[k].consumed];
    forall id: nat | Scanned(heard, id) ensures id != 0 {
      ScanIds(Core(n), n.trace, k, heard, id);
    }
    if !IsBlank(x.config.scannerId) && !IsBlank(x.config.version) && forall load | load in x.loads && load.Failure? :: !IsBlank(load.error) {
      forall m | m in x.out ensures Valid(m) {
        SessionValid(x, heard, m);
      }
    }
  }

  lemma ScanIds(s: State, events: seq<Event>, k: WorkerKey, heard: seq<Message>, id: nat)
    requires k in s.workers && heard <= s.workers[k].written && Scanned(heard, id)
    requires forall m | m in s.workers[k].Log() :: RuntimeLogs.Written(s, events, k, m)
    ensures id != 0
  {
    var i :| 0 <= i < |heard| && heard[i].kind == TypeScan && heard[i].requestId == id;
    assert s.workers[k].Log()[i] == heard[i];
    assert RuntimeLogs.Written(s, events, k, heard[i]);
  }
}
