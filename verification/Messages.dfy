/** Scanner Protocol v1 messages as records (pkg/protocol/protocol.go). */
module Messages {
  import opened Wrappers

  /** The `type` string: empty, one of the ten known names, or any other name. */
  datatype MessageType =
    | NoType
    | TypeHello | TypeHealthCheck | TypeScan | TypeReload | TypeShutdown
    | TypeHelloAck | TypeHealthResult | TypeScanResult | TypeReloadResult | TypeShutdownAck
    | UnknownType(name: string)

  /** The `verdict` string: empty, one of the five known names, or any other name. */
  datatype Verdict =
    | NoVerdict
    | VerdictClean | VerdictMalware | VerdictError | VerdictTimeout | VerdictUnavailable
    | UnknownVerdict(name: string)

  /** `capabilities` is None for a nil slice, which the source tells apart from an empty one. */
  datatype Message = Message(
    version: int,
    kind: MessageType,
    requestId: nat,
    scannerId: string,
    workerVersion: string,
    capabilities: Option<seq<string>>,
    filePath: string,
    signaturePath: string,
    status: string,
    verdict: Verdict,
    signature: string,
    durationMs: int,
    success: bool,
    signatureCount: int,
    error: string)

  const PROTOCOL_VERSION: int := 1

  /** The zero value of the source's Message struct. */
  const BLANK: Message :=
    Message(0, NoType, 0, "", "", None, "", "", "", NoVerdict, "", 0, false, 0, "")

  function Command(kind: MessageType): Message {
    BLANK.(version := PROTOCOL_VERSION, kind := kind)
  }

  function ScanCommand(id: nat, path: string): Message {
    Command(TypeScan).(requestId := id, filePath := path)
  }

  function ReloadCommand(path: string): Message {
    Command(TypeReload).(signaturePath := path)
  }

  /** A SCAN_RESULT that Core writes itself in place of a missing answer. */
  function Substitute(id: nat, verdict: Verdict, error: string): Message {
    Command(TypeScanResult).(requestId := id, verdict := verdict, error := error)
  }

  predicate ValidVerdict(v: Verdict) {
    v.VerdictClean? || v.VerdictMalware? || v.VerdictError? || v.VerdictTimeout? || v.VerdictUnavailable?
  }
}
