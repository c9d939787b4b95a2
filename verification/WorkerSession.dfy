/**
 The worker end of one connection (pkg/worker/worker.go).

 RunSession receives one message at a time; every SCAN runs in a goroutine of its own, so scans finish in any
 order, between any two receives. Each atomic step is a method below, proved to make the step of the
 specification. Any write may fail, and then nothing of it arrives: in the loop that ends the session, while a
 scan whose answer is lost is only logged and the session goes on.
 */
module WorkerSession {
  import opened Wrappers
  import opened Messages
  import opened ReloadHistory
  import opened Text

  datatype Config = Config(scannerId: string, version: string, signaturePath: string, crashOnScan: bool, failHealth: bool)

  /**
   Open: in the receive loop. Closing: SHUTDOWN was received and the session waits for its scans. Failing: it
   waits for its scans after anything else that ends the loop. Closed: it returned, or the process is gone;
   scans that were not waited for may still answer.
   */
  datatype Stage = Open | Closing | Failing | Closed

  /**
   `loaded` is the file the signatures in use came from, `loads` is what the reloads came to, in order, and `lost`
   holds the scans whose answers could not be sent.
   */
  datatype Session = Session(
    config: Config, loaded: string, loads: seq<Result<nat>>, running: seq<Message>, lost: seq<Message>, out: seq<Message>, stage: Stage)

  /** A session starts only under a configuration that says who it is and where its signatures are. */
  method ValidateConfig(config: Config) returns (err: Option<string>)
    ensures err.None? <==> !IsBlank(config.scannerId) && !IsBlank(config.version) && !IsBlank(config.signaturePath)
    ensures IsBlank(config.scannerId) ==> err == Some("scanner ID must not be empty")
    ensures !IsBlank(config.scannerId) && IsBlank(config.version) ==> err == Some("worker version must not be empty")
    ensures !IsBlank(config.scannerId) && !IsBlank(config.version) && IsBlank(config.signaturePath) ==>
              err == Some("signature path must not be empty")
  {
    if IsBlank(config.scannerId) {
      return Some("scanner ID must not be empty");
    }
    if IsBlank(config.version) {
      return Some("worker version must not be empty");
    }
    if IsBlank(config.signaturePath) {
      return Some("signature path must not be empty");
    }
    return None;
  }

  /** What opening, reading and closing the file to scan came to. */
  datatype FileAccess = FileAccess(
    openError: Option<string>,
    statError: Option<string>,
    regular: bool,
    matched: Matched,
    closeError: Option<string>)

  /** What matching the content came to. */
  datatype Matched = Match(signature: string) | NoMatch | MatchError(error: string)

  const UNHEALTHY_ERROR := "health check failed by fault injection"
  const NOT_REGULAR := "scan path is not a regular file"

  function Started(config: Config): Session { Session(config, config.signaturePath, [], [], [], [], Open) }

  function Say(x: Session, m: Message): Session { x.(out := x.out + [m]) }

  /** The loop sends a message, or ends because it cannot. */
  function Written(x: Session, m: Message, sent: bool): Session { if sent then Say(x, m) else x.(stage := Failing) }

  /** How things turned out around one message: what loading came to, whether the answer was sent, whether a crash function returned. */
  datatype Luck = Luck(reload: Result<nat>, sent: bool, survived: bool)

  function HelloAnswer(config: Config): Message {
    Command(TypeHelloAck).(scannerId := config.scannerId, workerVersion := config.version,
                           capabilities := Some(["file_scan", "reload"]))
  }

  function HealthAnswer(config: Config): Message {
    if config.failHealth then Command(TypeHealthResult).(status := "error", error := UNHEALTHY_ERROR)
    else Command(TypeHealthResult).(status := "ok")
  }

  function ReloadAnswer(reload: Result<nat>): Message {
    match reload
    case Success(count) => Command(TypeReloadResult).(success := true, signatureCount := count)
    case Failure(error) => Command(TypeReloadResult).(error := error)
  }

  /** One message of the receive loop. */
  function Hear(x: Session, m: Message, luck: Luck): Session {
    if x.stage != Open then x
    else
      match m.kind
      case TypeHello => Written(x, HelloAnswer(x.config), luck.sent)
      case TypeHealthCheck => Written(x, HealthAnswer(x.config), luck.sent)
      case TypeScan =>
        if !x.config.crashOnScan then x.(running := x.running + [m])
        else if luck.survived then x.(stage := Closed)
        else Gone(x)
      case TypeReload =>
        var y := x.(loaded := if luck.reload.Success? then m.signaturePath else x.loaded, loads := x.loads + [luck.reload]);
        Written(y, ReloadAnswer(luck.reload), luck.sent)
      case TypeShutdown => x.(stage := Closing)
      case _ => x.(stage := Failing)
  }

  /** Scan i of those running ends, with its answer sent or lost. */
  function Finished(x: Session, i: nat, response: Message, sent: bool): Session
    requires i < |x.running|
  {
    var y := x.(running := x.running[..i] + x.running[i + 1..]);
    if sent then Say(y, response) else y.(lost := y.lost + [x.running[i]])
  }

  /** The wait group is empty: acknowledge if SHUTDOWN was received, and return. */
  function Waited(x: Session, sent: bool): Session {
    if x.running != [] then x
    else if x.stage == Closing then (if sent then Say(x, Command(TypeShutdownAck)) else x).(stage := Closed)
    else if x.stage == Failing then x.(stage := Closed)
    else x
  }

  /** End of stream, a receive error or a cancelled context. */
  function HungUp(x: Session): Session { if x.stage == Open then x.(stage := Failing) else x }

  /** The process is gone, and its scans with it. */
  function Gone(x: Session): Session { x.(running := [], stage := Closed) }

  /** A response of handleScan: nothing but these fields, and a signature or an error only with the verdict it belongs to. */
  predicate Answers(scan: Message, response: Message) {
    && response == Message(1, TypeScanResult, scan.requestId, "", "", None, "", "", "", response.verdict, response.signature,
                           response.durationMs, false, 0, response.error)
    && (response.verdict == VerdictClean || response.verdict == VerdictMalware || response.verdict == VerdictError)
    && (response.signature != "" ==> response.verdict == VerdictMalware) && (response.error != "" ==> response.verdict == VerdictError)
    && response.durationMs >= 0
  }

  class WorkerLoop {
    const config: Config
    var loaded: string
    var running: seq<Message>
    var out: seq<Message>
    var stage: Stage
    ghost var loads: seq<Result<nat>>
    ghost var lost: seq<Message>

    constructor (config: Config)
      ensures View() == Started(config)
    {
      this.config := config;
      loaded, running, out, stage, loads, lost := config.signaturePath, [], [], Open, [], [];
    }

    ghost function View(): Session
      reads this
    {
      Session(config, loaded, loads, running, lost, out, stage)
    }

    method Write(m: Message, sent: bool)
      modifies this`out
      ensures out == if sent then old(out) + [m] else old(out)
    {
      if sent {
        out := out + [m];
      }
    }

    /** One turn of the loop of RunSession. */
    method Receive(m: Message, luck: Luck)
      requires stage == Open
      modifies this
      ensures View() == Hear(old(View()), m, luck)
    {
      var written := true;
      match m.kind {
        case TypeHello =>
          Write(Command(TypeHelloAck).(scannerId := config.scannerId, workerVersion := config.version,
                                       capabilities := Some(["file_scan", "reload"])), luck.sent);
          written := luck.sent;
        case TypeHealthCheck =>
          var status, errorMessage := "ok", "";
          if config.failHealth {
            status, errorMessage := "error", UNHEALTHY_ERROR;
          }
          Write(Command(TypeHealthResult).(status := status, error := errorMessage), luck.sent);
          written := luck.sent;
        case TypeScan =>
          if config.crashOnScan {
            if !luck.survived {
              running := [];
            }
            stage := Closed;
          } else {
            running := running + [m];
          }
        case TypeReload =>
          var response := Command(TypeReloadResult).(success := luck.reload.Success?);
          match luck.reload {
            case Success(count) =>
              loaded := m.signaturePath;
              response := response.(signatureCount := count);
            case Failure(error) => response := response.(error := error);
          }
          loads := loads + [luck.reload];
          Write(response, luck.sent);
          written := luck.sent;
        case TypeShutdown =>
          stage := Closing;
        case _ =>
          stage := Failing;
      }
      if !written {
        stage := Failing;
      }
    }

    /** handleScan of one running scan, to its end. */
    method FinishScan(i: nat, file: FileAccess, durationMs: nat, sent: bool) returns (response: Message)
      requires i < |running|
      modifies this
      ensures View() == Finished(old(View()), i, response, sent) && Answers(old(running[i]), response)
    {
      response := HandleScan(running[i], file, durationMs);
      Write(response, sent);
      if !sent {
        lost := lost + [running[i]];
      }
      running := running[..i] + running[i + 1..];
    }

    method WaitForScans(sent: bool)
      modifies this
      ensures View() == Waited(old(View()), sent)
    {
      if running == [] {
        if stage == Closing {
          Write(Command(TypeShutdownAck), sent);
          stage := Closed;
        } else if stage == Failing {
          stage := Closed;
        }
      }
    }

    method HangUp()
      modifies this
      ensures View() == HungUp(old(View()))
    {
      if stage == Open {
        stage := Failing;
      }
    }

    method Die()
      modifies this
      ensures View() == Gone(old(View()))
    {
      running, stage := [], Closed;
    }
  }

  /**
   The response is ERROR iff opening, reading, matching or closing went wrong or the path is no regular file, with the first thing
   that did; a late close error beats a match.
   */
  method HandleScan(message: Message, file: FileAccess, durationMs: nat) returns (response: Message)
    ensures Answers(message, response)
    ensures var failed := file.openError.Some? || file.statError.Some? || !file.regular || file.matched.MatchError? || file.closeError.Some?;
            && (response.verdict == VerdictError <==> failed)
            && (response.verdict == VerdictMalware <==> !failed && file.matched.Match?)
            && (response.verdict == VerdictClean <==> !failed && file.matched.NoMatch?)
            && response.signature == if !failed && file.matched.Match? then file.matched.signature else ""
    ensures response.error == if file.openError.Some? then file.openError.value
                              else if file.statError.Some? then file.statError.value
                              else if !file.regular then "scan path is not a regular file"
                              else if file.matched.MatchError? then file.matched.error
                              else if file.closeError.Some? then file.closeError.value
                              else ""
    ensures response == Message(1, TypeScanResult, message.requestId, "", "", None, "", "", "", response.verdict, response.signature,
                                durationMs, false, 0, response.error)
  {
    response := BLANK.(version := PROTOCOL_VERSION, kind := TypeScanResult, requestId := message.requestId);
    var err := file.openError;
    if err.None? {
      err := file.statError;
      if err.None? && !file.regular {
        err := Some(NOT_REGULAR);
      }
    }
    if err.None? {
      match file.matched {
        case Match(signature) => response := response.(signature := signature, verdict := VerdictMalware);
        case NoMatch => response := response.(verdict := VerdictClean);
        case MatchError(error) =>
          response := response.(verdict := VerdictClean);
          err := Some(error);
      }
    }
    if file.openError.None? {
      if err.None? && file.closeError.Some? {
        err := file.closeError;
      }
    }
    if err.Some? {
      response := response.(verdict := VerdictError, signature := "", error := err.value);
    }
    response := response.(durationMs := durationMs);
  }

  // ----- one step

  /**
   One message of the receive loop, field by field: what is sent for it if sending works, what it loads or starts, and
   which messages end the loop.
   */
  lemma HearExactly(x: Session, m: Message, luck: Luck)
    requires x.stage == Open
    ensures var y := Hear(x, m, luck);
            match m.kind
            case TypeHello =>
              y == if !luck.sent then x.(stage := Failing)
                   else x.(out := x.out + [Message(1, TypeHelloAck, 0, x.config.scannerId, x.config.version, Some(["file_scan", "reload"]),
                                                   "", "", "", NoVerdict, "", 0, false, 0, "")])
            case TypeHealthCheck =>
              y == if !luck.sent then x.(stage := Failing)
                   else if x.config.failHealth then
                     x.(out := x.out + [Message(1, TypeHealthResult, 0, "", "", None, "", "", "error", NoVerdict, "", 0, false, 0,
                                                "health check failed by fault injection")])
                   else x.(out := x.out + [Message(1, TypeHealthResult, 0, "", "", None, "", "", "ok", NoVerdict, "", 0, false, 0, "")])
            case TypeScan =>
              y == if !x.config.crashOnScan then x.(running := x.running + [m])
                   else x.(stage := Closed, running := if luck.survived then x.running else [])
            case TypeReload =>
              && y.loads == x.loads + [luck.reload] && y.loaded == (if luck.reload.Success? then m.signaturePath else x.loaded)
              && y.running == x.running && y.lost == x.lost && y.config == x.config
              && (if !luck.sent then y.out == x.out && y.stage == Failing
                  else
                    y.stage == Open
                    && y.out == x.out + [Message(1, TypeReloadResult, 0, "", "", None, "", "", "", NoVerdict, "", 0, luck.reload.Success?,
                                                 if luck.reload.Success? then luck.reload.value else 0,
                                                 if luck.reload.Success? then "" else luck.reload.error)])
            case TypeShutdown => y == x.(stage := Closing)
            case _ => y == x.(stage := Failing)
  {
  }

  /** The end of a scan, of the loop, of the wait for the scans, and of the process. */
  lemma StopsExactly(x: Session, i: nat, response: Message, sent: bool)
    ensures i < |x.running| ==>
              Finished(x, i, response, sent)
              == x.(running := x.running[..i] + x.running[i + 1..],
                    out := if sent then x.out + [response] else x.out,
                    lost := if sent then x.lost else x.lost + [x.running[i]])
    ensures HungUp(x) == if x.stage == Open then x.(stage := Failing) else x
    ensures Gone(x) == x.(running := [], stage := Closed)
    ensures Waited(x, sent)
            == if x.running != [] || (x.stage != Closing && x.stage != Failing) then x
               else if x.stage == Closing && sent then
                 x.(out := x.out + [Message(1, TypeShutdownAck, 0, "", "", None, "", "", "", NoVerdict, "", 0, false, 0, "")], stage := Closed)
               else x.(stage := Closed)
  {
  }

  // ----- what a session keeps

  /** How many messages of one kind carry this request ID. */
  function Count(messages: seq<Message>, kind: MessageType, id: nat): nat {
    if messages == [] then 0
    else
      var n := |messages| - 1;
      Count(messages[..n], kind, id) + if messages[n].kind == kind && messages[n].requestId == id then 1 else 0
  }

  lemma CountMore(messages: seq<Message>, m: Message, kind: MessageType, id: nat)
    ensures Count(messages + [m], kind, id) ==
            Count(messages, kind, id) + if m.kind == kind && m.requestId == id then 1 else 0
  {
    assert (messages + [m])[..|messages|] == messages;
  }

  lemma {:induction false} CountSplit(a: seq<Message>, b: seq<Message>, kind: MessageType, id: nat)
    ensures Count(a + b, kind, id) == Count(a, kind, id) + Count(b, kind, id)
  {
    if b == [] {
      assert a + b == a;
    } else {
      var n := |b| - 1;
      CountSplit(a, b[..n], kind, id);
      assert a + b == (a + b[..n]) + [b[n]];
      CountMore(a + b[..n], b[n], kind, id);
    }
  }

  lemma CountRemoved(messages: seq<Message>, i: nat, kind: MessageType, id: nat)
    requires i < |messages|
    ensures Count(messages, kind, id) == Count(messages[..i] + messages[i + 1..], kind, id)
                                         + if messages[i].kind == kind && messages[i].requestId == id then 1 else 0
  {
    assert messages == messages[..i] + [messages[i]] + messages[i + 1..];
    CountSplit(messages[..i] + [messages[i]], messages[i + 1..], kind, id);
    CountMore(messages[..i], messages[i], kind, id);
    CountSplit(messages[..i], messages[i + 1..], kind, id);
  }

  predicate Acknowledged(x: Session) { |x.out| > 0 && x.out[|x.out| - 1].kind == TypeShutdownAck }

  ghost predicate Heard(messages: seq<Message>, kind: MessageType) {
    exists i :: 0 <= i < |messages| && messages[i].kind == kind
  }

  /** Every SCAN heard has exactly one fate: answered, its answer lost, or still running. */
  ghost predicate Balanced(x: Session, heard: seq<Message>) {
    forall id: nat :: Count(heard, TypeScan, id) ==
                      Count(x.out, TypeScanResult, id) + Count(x.lost, TypeScan, id) + Count(x.running, TypeScan, id)
  }

  /**
   What a session of this configuration sends, field by field: its own identity and the two capabilities, its health, verdicts of
   its own, what its loads came to, and an acknowledgement.
   */
  predicate Honest(config: Config, m: Message) {
    match m.kind
    case TypeHelloAck =>
      m == Message(1, TypeHelloAck, 0, config.scannerId, config.version, Some(["file_scan", "reload"]), "", "", "", NoVerdict, "", 0,
                   false, 0, "")
    case TypeHealthResult =>
      m == Message(1, TypeHealthResult, 0, "", "", None, "", "", if config.failHealth then "error" else "ok", NoVerdict, "", 0, false, 0,
                   if config.failHealth then "health check failed by fault injection" else "")
    case TypeScanResult => Answers(m, m)
    case TypeReloadResult =>
      m == Message(1, TypeReloadResult, 0, "", "", None, "", "", "", NoVerdict, "", 0, m.success, m.signatureCount, m.error)
    case TypeShutdownAck => m == Message(1, TypeShutdownAck, 0, "", "", None, "", "", "", NoVerdict, "", 0, false, 0, "")
    case _ => false
  }

  /** The result of a reload tells what its load came to: success with the count that was loaded, or the error. */
  predicate Reports(m: Message, load: Result<nat>) {
    match load
    case Success(count) => m.success && m.signatureCount == count && m.error == ""
    case Failure(error) => !m.success && m.signatureCount == 0 && m.error == error
  }

  /** A message that does not end the receive loop. */
  predicate GoesOn(config: Config, m: Message) {
    m.kind == TypeHello || m.kind == TypeHealthCheck || m.kind == TypeReload || (m.kind == TypeScan && !config.crashOnScan)
  }

  /**
   Every HELLO and every HEALTH_CHECK is answered at most once, and once while the loop goes on; it goes on for commands only,
   and waits to acknowledge after SHUTDOWN only.
   */
  ghost predicate InStep(x: Session, heard: seq<Message>) {
    && |OfKind(x.out, TypeHelloAck)| <= |OfKind(heard, TypeHello)| && |OfKind(x.out, TypeHealthResult)| <= |OfKind(heard, TypeHealthCheck)|
    && (x.stage == Open ==>
          && |OfKind(x.out, TypeHelloAck)| == |OfKind(heard, TypeHello)|
          && |OfKind(x.out, TypeHealthResult)| == |OfKind(heard, TypeHealthCheck)|
          && forall i | 0 <= i < |heard| :: GoesOn(x.config, heard[i]))
    && (x.stage == Closing ==>
          && |heard| > 0 && heard[|heard| - 1].kind == TypeShutdown
          && forall i | 0 <= i < |heard| - 1 :: GoesOn(x.config, heard[i]))
  }

  /** A SCAN with this request ID was heard. */
  ghost predicate Scanned(heard: seq<Message>, id: nat) {
    exists i :: 0 <= i < |heard| && heard[i].kind == TypeScan && heard[i].requestId == id
  }

  /** Only what was heard is run and answered. */
  ghost predicate FromHeard(x: Session, heard: seq<Message>) {
    && (forall i | 0 <= i < |x.running| :: Scanned(heard, x.running[i].requestId))
    && (forall i | 0 <= i < |x.out| && x.out[i].kind == TypeScanResult :: Scanned(heard, x.out[i].requestId))
  }

  lemma ScannedMore(heard: seq<Message>, m: Message, id: nat)
    ensures Scanned(heard + [m], id) <==> Scanned(heard, id) || (m.kind == TypeScan && m.requestId == id)
  {
    if Scanned(heard, id) {
      var i :| 0 <= i < |heard| && heard[i].kind == TypeScan && heard[i].requestId == id;
      assert (heard + [m])[i] == heard[i];
    }
    assert (heard + [m])[|heard|] == m;
  }

  lemma FromHeardHear(x: Session, heard: seq<Message>, m: Message, luck: Luck)
    requires FromHeard(x, heard) && x.stage == Open
    ensures FromHeard(Hear(x, m, luck), heard + [m])
  {
    hide Hear, Scanned;
    HearIs(x, m, luck);
    forall id: nat ensures Scanned(heard + [m], id) <==> Scanned(heard, id) || (m.kind == TypeScan && m.requestId == id) {
      ScannedMore(heard, m, id);
    }
  }

  /** A step that starts no scan and answers none. */
  lemma FromHeardStay(x: Session, y: Session, heard: seq<Message>)
    requires FromHeard(x, heard) && (y.running == x.running || y.running == [])
    requires y.out == x.out || (|y.out| == |x.out| + 1 && y.out == x.out + [y.out[|x.out|]] && y.out[|x.out|].kind != TypeScanResult)
    ensures FromHeard(y, heard)
  {
    hide Scanned;
  }

  ghost predicate SessionOk(x: Session, heard: seq<Message>) {
    && (forall i | 0 <= i < |x.running| :: x.running[i].kind == TypeScan)
    && (forall i | 0 <= i < |x.out| :: Honest(x.config, x.out[i]))
    && (forall i | 0 <= i < |x.out| - 1 :: x.out[i].kind != TypeShutdownAck)
    && (x.stage == Open || x.stage == Closing || Acknowledged(x) ==> Balanced(x, heard))
    && (x.stage == Closing || Acknowledged(x) ==> Heard(heard, TypeShutdown))
    && (Acknowledged(x) ==> x.stage == Closed && x.running == [])
    && LoadsOk(x, heard) && InStep(x, heard) && FromHeard(x, heard)
  }

  /** One load for each RELOAD heard; the results sent tell the first of them, all while the loop goes on; the last success is in use. */
  ghost predicate LoadsOk(x: Session, heard: seq<Message>) {
    && |x.loads| == |Reloads(heard)| && |Results(x.out)| <= |x.loads|
    && (x.stage == Open ==> |Results(x.out)| == |x.loads|)
    && (forall i | 0 <= i < |Results(x.out)| :: Reports(Results(x.out)[i], x.loads[i]))
    && x.loaded == PathOf(x.config.signaturePath, Reloads(heard), Latest(x.loads))
  }

  lemma LoadsHear(x: Session, heard: seq<Message>, m: Message, luck: Luck)
    requires LoadsOk(x, heard) && x.stage == Open
    ensures LoadsOk(Hear(x, m, luck), heard + [m])
  {
    hide Reloads, Results, Latest;
    var y := Hear(x, m, luck);
    ReloadsMore(heard, m);
    LatestMore(x.loads, luck.reload);
    if |y.out| > |x.out| {
      assert y.out == x.out + [y.out[|x.out|]];
      ResultsMore(x.out, y.out[|x.out|]);
    }
  }

  /** A step that neither receives nor sends anything about reloads. */
  lemma LoadsStay(x: Session, y: Session, heard: seq<Message>)
    requires LoadsOk(x, heard) && y.loads == x.loads && y.loaded == x.loaded && y.config == x.config && (y.stage == Open ==> x.stage == Open)
    requires y.out == x.out || (|y.out| == |x.out| + 1 && y.out == x.out + [y.out[|x.out|]] && y.out[|x.out|].kind != TypeReloadResult)
    ensures LoadsOk(y, heard)
  {
    hide Reloads, Results, Latest;
    if y.out != x.out {
      ResultsMore(x.out, y.out[|x.out|]);
    }
  }

  lemma InStepHear(x: Session, heard: seq<Message>, m: Message, luck: Luck)
    requires InStep(x, heard) && x.stage == Open
    ensures InStep(Hear(x, m, luck), heard + [m])
  {
    hide OfKind;
    var y := Hear(x, m, luck);
    OfKindMore(heard, m, TypeHello);
    OfKindMore(heard, m, TypeHealthCheck);
    if |y.out| > |x.out| {
      assert y.out == x.out + [y.out[|x.out|]];
      OfKindMore(x.out, y.out[|x.out|], TypeHelloAck);
      OfKindMore(x.out, y.out[|x.out|], TypeHealthResult);
    }
  }

  /** A step that receives nothing and answers neither HELLO nor HEALTH_CHECK. */
  lemma InStepStay(x: Session, y: Session, heard: seq<Message>)
    requires InStep(x, heard) && y.config == x.config && (y.stage == Open || y.stage == Closing ==> x.stage == y.stage)
    requires y.out == x.out || (|y.out| == |x.out| + 1 && y.out == x.out + [y.out[|x.out|]]
                                && y.out[|x.out|].kind != TypeHelloAck && y.out[|x.out|].kind != TypeHealthResult)
    ensures InStep(y, heard)
  {
    hide OfKind;
    if y.out != x.out {
      OfKindMore(x.out, y.out[|x.out|], TypeHelloAck);
      OfKindMore(x.out, y.out[|x.out|], TypeHealthResult);
    }
  }

  lemma StartedOk(config: Config)
    ensures SessionOk(Started(config), [])
  {
  }

  /** From x to y one message of another kind may have been sent. */
  predicate Quiet(x: Session, y: Session) {
    && y.running == x.running && y.lost == x.lost
    && (y.out == x.out || (|y.out| == |x.out| + 1 && y.out == x.out + [y.out[|x.out|]] && y.out[|x.out|].kind != TypeScanResult))
  }

  lemma BalancedHear(x: Session, heard: seq<Message>, m: Message, y: Session)
    requires Balanced(x, heard)
    requires m.kind == TypeScan ==> y.out == x.out && y.lost == x.lost && y.running == x.running + [m]
    requires m.kind != TypeScan ==> Quiet(x, y)
    ensures Balanced(y, heard + [m])
  {
    forall id: nat
      ensures Count(heard + [m], TypeScan, id) ==
              Count(y.out, TypeScanResult, id) + Count(y.lost, TypeScan, id) + Count(y.running, TypeScan, id)
    {
      CountMore(heard, m, TypeScan, id);
      CountMore(x.running, m, TypeScan, id);
      if y.out != x.out {
        CountMore(x.out, y.out[|x.out|], TypeScanResult, id);
      }
    }
  }

  lemma HearKeeps(x: Session, heard: seq<Message>, m: Message, luck: Luck)
    requires SessionOk(x, heard) && x.stage == Open
    ensures SessionOk(Hear(x, m, luck), heard + [m])
  {
    hide Balanced, Hear, LoadsOk, InStep, Honest, FromHeard;
    FromHeardHear(x, heard, m, luck);
    var y := Hear(x, m, luck);
    assert !Acknowledged(x);
    LoadsHear(x, heard, m, luck);
    InStepHear(x, heard, m, luck);
    HearIs(x, m, luck);
    if y.stage == Open || y.stage == Closing {
      BalancedHear(x, heard, m, y);
    }
    if y.stage == Closing {
      assert (heard + [m])[|heard|].kind == TypeShutdown;
    }
  }

  /** Neither a verdict nor an acknowledgement. */
  predicate Minor(m: Message) { m.kind != TypeScanResult && m.kind != TypeShutdownAck }

  /** What one message of the loop can do to a session. */
  lemma HearIs(x: Session, m: Message, luck: Luck)
    requires x.stage == Open
    ensures var y := Hear(x, m, luck);
            && (y.stage == Closing ==> m.kind == TypeShutdown)
            && (y.stage == Open || y.stage == Closing ==>
                  if m.kind == TypeScan then y.out == x.out && y.lost == x.lost && y.running == x.running + [m] else Quiet(x, y))
            && y.config == x.config
            && (y.out == x.out || (y.out == x.out + [y.out[|x.out|]] && Minor(y.out[|x.out|]) && Honest(x.config, y.out[|x.out|])))
            && (y.running == x.running || y.running == [] || (m.kind == TypeScan && y.running == x.running + [m]))
  {
  }

  lemma FinishedBalanced(x: Session, heard: seq<Message>, i: nat, response: Message, sent: bool)
    requires Balanced(x, heard) && i < |x.running| && x.running[i].kind == TypeScan
    requires response.kind == TypeScanResult && response.requestId == x.running[i].requestId
    ensures Balanced(Finished(x, i, response, sent), heard)
  {
    hide Count;
    var y := Finished(x, i, response, sent);
    forall id: nat
      ensures Count(heard, TypeScan, id) ==
              Count(y.out, TypeScanResult, id) + Count(y.lost, TypeScan, id) + Count(y.running, TypeScan, id)
    {
      CountRemoved(x.running, i, TypeScan, id);
      CountMore(x.out, response, TypeScanResult, id);
      CountMore(x.lost, x.running[i], TypeScan, id);
    }
  }

  lemma AnswerIsHonest(config: Config, scan: Message, response: Message)
    requires Answers(scan, response)
    ensures Honest(config, response) && response.kind == TypeScanResult && response.requestId == scan.requestId
  {
  }

  lemma FinishedKeeps(x: Session, heard: seq<Message>, i: nat, response: Message, sent: bool)
    requires SessionOk(x, heard) && i < |x.running| && Answers(x.running[i], response)
    ensures SessionOk(Finished(x, i, response, sent), heard)
  {
    hide LoadsOk, InStep, Balanced, Honest, Scanned;
    var y := Finished(x, i, response, sent);
    assert !Acknowledged(x);
    LoadsStay(x, y, heard);
    InStepStay(x, y, heard);
    AnswerIsHonest(x.config, x.running[i], response);
    hide Answers;
    if x.stage == Open || x.stage == Closing {
      FinishedBalanced(x, heard, i, response, sent);
    }
  }

  /** The acknowledgement closes a session that waited for its scans. */
  lemma AckKeeps(x: Session, heard: seq<Message>)
    requires SessionOk(x, heard) && x.running == [] && x.stage == Closing
    ensures SessionOk(Say(x, Command(TypeShutdownAck)).(stage := Closed), heard)
  {
    hide LoadsOk, Balanced, Count, InStep, FromHeard, Honest, Heard;
    var y := Say(x, Command(TypeShutdownAck)).(stage := Closed);
    assert !Acknowledged(x);
    assert y.running == x.running;
    FromHeardStay(x, y, heard);
    LoadsStay(x, y, heard);
    InStepStay(x, y, heard);
    AckBalanced(x, heard, y);
    AckIsHonest(x.config);
  }

  lemma AckIsHonest(config: Config)
    ensures Honest(config, Command(TypeShutdownAck))
  {
  }

  /** A session that closes without a word. */
  lemma ClosedKeeps(x: Session, heard: seq<Message>)
    requires SessionOk(x, heard)
    ensures SessionOk(x.(stage := Closed), heard)
  {
    hide LoadsOk, Balanced, InStep, FromHeard, Honest;
    var y := x.(stage := Closed);
    FromHeardStay(x, y, heard);
    LoadsStay(x, y, heard);
    InStepStay(x, y, heard);
    SameBalance(x, y, heard);
  }

  lemma SameBalance(x: Session, y: Session, heard: seq<Message>)
    requires y.out == x.out && y.lost == x.lost && y.running == x.running
    ensures Balanced(x, heard) ==> Balanced(y, heard)
  {
  }

  lemma WaitedKeeps(x: Session, heard: seq<Message>, sent: bool)
    requires SessionOk(x, heard)
    ensures SessionOk(Waited(x, sent), heard)
  {
    hide SessionOk;
    if x.running == [] && x.stage == Closing && sent {
      AckKeeps(x, heard);
    } else {
      ClosedKeeps(x, heard);
    }
  }

  lemma AckBalanced(x: Session, heard: seq<Message>, y: Session)
    requires Balanced(x, heard) && y.out == x.out + [Command(TypeShutdownAck)] && y.lost == x.lost && y.running == x.running
    ensures Balanced(y, heard)
  {
    hide Count;
    forall id: nat
      ensures Count(heard, TypeScan, id) ==
              Count(y.out, TypeScanResult, id) + Count(y.lost, TypeScan, id) + Count(y.running, TypeScan, id)
    {
      CountMore(x.out, Command(TypeShutdownAck), TypeScanResult, id);
    }
  }

  lemma GoneKeeps(x: Session, heard: seq<Message>)
    requires SessionOk(x, heard)
    ensures SessionOk(Gone(x), heard) && SessionOk(HungUp(x), heard)
  {
    LoadsStay(x, Gone(x), heard);
    LoadsStay(x, HungUp(x), heard);
    InStepStay(x, Gone(x), heard);
    InStepStay(x, HungUp(x), heard);
    FromHeardStay(x, Gone(x), heard);
    FromHeardStay(x, HungUp(x), heard);
    hide LoadsOk, Balanced, InStep, FromHeard;
  }

  /** A session that acknowledged SHUTDOWN had, before that, answered each SCAN it ever received once, but for those whose answers were lost. */
  lemma AcknowledgedAnswered(x: Session, heard: seq<Message>, id: nat)
    requires SessionOk(x, heard) && Acknowledged(x)
    ensures Count(x.out[..|x.out| - 1], TypeScanResult, id) + Count(x.lost, TypeScan, id) == Count(heard, TypeScan, id)
  {
    assert Count([], TypeScan, id) == 0;
  }

  /** A session whose one answer is lost and which acknowledges all the same. */
  lemma LostThenAcknowledged(config: Config, path: string, response: Message, luck: Luck)
    requires !config.crashOnScan
    ensures var scan := ScanCommand(1, path);
            var x := Finished(Hear(Started(config), scan, luck), 0, response, false);
            var y := Waited(Hear(x, Command(TypeShutdown), luck), true);
            y.out == [Command(TypeShutdownAck)] && y.lost == [scan]
  {
  }
}
