/** Validation and the JSON wire form of protocol messages (pkg/protocol/protocol.go), at the level of records. */
module Protocol {
  import opened Wrappers
  import opened Messages
  import opened Text

  // ----- fields

  datatype Field =
    | RequestId | ScannerId | WorkerVersion | Capabilities | FilePath | SignaturePath | Status
    | VerdictField | Signature | DurationMs | SuccessField | SignatureCount | ErrorField

  predicate FieldAllowed(kind: MessageType, field: Field) {
    match kind
    case TypeScan => field == RequestId || field == FilePath
    case TypeReload => field == SignaturePath
    case TypeHelloAck => field == ScannerId || field == WorkerVersion || field == Capabilities
    case TypeHealthResult => field == Status || field == ErrorField
    case TypeScanResult =>
      field == RequestId || field == VerdictField || field == Signature || field == DurationMs || field == ErrorField
    case TypeReloadResult => field == SuccessField || field == SignatureCount || field == ErrorField
    case _ => false
  }

  predicate IsSet(m: Message, field: Field) {
    match field
    case RequestId => m.requestId != 0
    case ScannerId => m.scannerId != ""
    case WorkerVersion => m.workerVersion != ""
    case Capabilities => m.capabilities.Some?
    case FilePath => m.filePath != ""
    case SignaturePath => m.signaturePath != ""
    case Status => m.status != ""
    case VerdictField => m.verdict != NoVerdict
    case Signature => m.signature != ""
    case DurationMs => m.durationMs != 0
    case SuccessField => m.success
    case SignatureCount => m.signatureCount != 0
    case ErrorField => m.error != ""
  }

  // ----- validity

  /** Every capability says something, and none twice. */
  predicate CapabilitiesOk(capabilities: seq<string>) {
    && (forall i | 0 <= i < |capabilities| :: !IsBlank(capabilities[i]))
    && (forall i, j | 0 <= i < j < |capabilities| :: capabilities[i] != capabilities[j])
  }

  /** What each type requires of its own fields. */
  predicate Complete(m: Message) {
    match m.kind
    case TypeHello => true
    case TypeHealthCheck => true
    case TypeShutdown => true
    case TypeShutdownAck => true
    case TypeScan => m.requestId != 0 && !IsBlank(m.filePath)
    case TypeReload => !IsBlank(m.signaturePath)
    case TypeHelloAck =>
      !IsBlank(m.scannerId) && !IsBlank(m.workerVersion) && m.capabilities.Some? && CapabilitiesOk(m.capabilities.value)
    case TypeHealthResult => m.status == "ok" || m.status == "error"
    case TypeScanResult => m.requestId != 0 && ValidVerdict(m.verdict) && m.durationMs >= 0
    case TypeReloadResult => m.signatureCount >= 0 && (m.success || !IsBlank(m.error))
    case _ => false
  }

  /** The version is right, the fields the type requires are there, and no others. */
  ghost predicate Valid(m: Message) {
    m.version == PROTOCOL_VERSION && Complete(m) && forall field: Field :: IsSet(m, field) ==> FieldAllowed(m.kind, field)
  }

  /**
   Validity type by type, in the message's own fields: everything a type does not list is empty, and what it lists is as the
   protocol asks. A signature, a verdict or a duration, say, makes a message valid only as a SCAN_RESULT.
   */
  lemma ValidExactly(m: Message)
    ensures Valid(m) <==>
            match m.kind
            case TypeHello => m == Message(1, TypeHello, 0, "", "", None, "", "", "", NoVerdict, "", 0, false, 0, "")
            case TypeHealthCheck => m == Message(1, TypeHealthCheck, 0, "", "", None, "", "", "", NoVerdict, "", 0, false, 0, "")
            case TypeShutdown => m == Message(1, TypeShutdown, 0, "", "", None, "", "", "", NoVerdict, "", 0, false, 0, "")
            case TypeShutdownAck => m == Message(1, TypeShutdownAck, 0, "", "", None, "", "", "", NoVerdict, "", 0, false, 0, "")
            case TypeScan =>
              && m == Message(1, TypeScan, m.requestId, "", "", None, m.filePath, "", "", NoVerdict, "", 0, false, 0, "")
              && m.requestId != 0 && !IsBlank(m.filePath)
            case TypeReload =>
              && m == Message(1, TypeReload, 0, "", "", None, "", m.signaturePath, "", NoVerdict, "", 0, false, 0, "")
              && !IsBlank(m.signaturePath)
            case TypeHelloAck =>
              && m == Message(1, TypeHelloAck, 0, m.scannerId, m.workerVersion, m.capabilities, "", "", "", NoVerdict, "", 0, false, 0, "")
              && !IsBlank(m.scannerId) && !IsBlank(m.workerVersion) && m.capabilities.Some?
              && (forall c | c in m.capabilities.value :: !IsBlank(c))
              && (forall i, j | 0 <= i < j < |m.capabilities.value| :: m.capabilities.value[i] != m.capabilities.value[j])
            case TypeHealthResult =>
              && m == Message(1, TypeHealthResult, 0, "", "", None, "", "", m.status, NoVerdict, "", 0, false, 0, m.error)
              && (m.status == "ok" || m.status == "error")
            case TypeScanResult =>
              && m == Message(1, TypeScanResult, m.requestId, "", "", None, "", "", "", m.verdict, m.signature, m.durationMs, false, 0,
                              m.error)
              && m.requestId != 0 && m.durationMs >= 0
              && (|| m.verdict == VerdictClean || m.verdict == VerdictMalware || m.verdict == VerdictError
                  || m.verdict == VerdictTimeout || m.verdict == VerdictUnavailable)
            case TypeReloadResult =>
              && m == Message(1, TypeReloadResult, 0, "", "", None, "", "", "", NoVerdict, "", 0, m.success, m.signatureCount, m.error)
              && m.signatureCount >= 0 && (m.success || !IsBlank(m.error))
            case _ => false
  {
    hide IsBlank, IsSet, FieldAllowed, CapabilitiesOk, OnlyAllowed;
    AllFields(m);
    OwnFields(m);
    CapabilitiesIn(m);
  }

  /** A message is empty but for the fields that its type allows. */
  lemma OwnFields(m: Message)
    ensures m.version == 1 && OnlyAllowed(m) <==>
            m == match m.kind
                 case TypeScan => Message(1, TypeScan, m.requestId, "", "", None, m.filePath, "", "", NoVerdict, "", 0, false, 0, "")
                 case TypeReload => Message(1, TypeReload, 0, "", "", None, "", m.signaturePath, "", NoVerdict, "", 0, false, 0, "")
                 case TypeHelloAck =>
                   Message(1, TypeHelloAck, 0, m.scannerId, m.workerVersion, m.capabilities, "", "", "", NoVerdict, "", 0, false, 0, "")
                 case TypeHealthResult =>
                   Message(1, TypeHealthResult, 0, "", "", None, "", "", m.status, NoVerdict, "", 0, false, 0, m.error)
                 case TypeScanResult =>
                   Message(1, TypeScanResult, m.requestId, "", "", None, "", "", "", m.verdict, m.signature, m.durationMs, false, 0, m.error)
                 case TypeReloadResult =>
                   Message(1, TypeReloadResult, 0, "", "", None, "", "", "", NoVerdict, "", 0, m.success, m.signatureCount, m.error)
                 case _ => Message(1, m.kind, 0, "", "", None, "", "", "", NoVerdict, "", 0, false, 0, "")
  {
  }

  lemma CapabilitiesIn(m: Message)
    ensures m.capabilities.Some? ==>
              (CapabilitiesOk(m.capabilities.value) <==>
               && (forall c | c in m.capabilities.value :: !IsBlank(c))
               && (forall i, j | 0 <= i < j < |m.capabilities.value| :: m.capabilities.value[i] != m.capabilities.value[j]))
  {
    hide IsBlank;
  }

  /** Every field that is set is one that the type allows. */
  predicate OnlyAllowed(m: Message) {
    && (m.requestId != 0 ==> FieldAllowed(m.kind, RequestId)) && (m.scannerId != "" ==> FieldAllowed(m.kind, ScannerId))
    && (m.workerVersion != "" ==> FieldAllowed(m.kind, WorkerVersion))
    && (m.capabilities.Some? ==> FieldAllowed(m.kind, Capabilities)) && (m.filePath != "" ==> FieldAllowed(m.kind, FilePath))
    && (m.signaturePath != "" ==> FieldAllowed(m.kind, SignaturePath)) && (m.status != "" ==> FieldAllowed(m.kind, Status))
    && (m.verdict != NoVerdict ==> FieldAllowed(m.kind, VerdictField)) && (m.signature != "" ==> FieldAllowed(m.kind, Signature))
    && (m.durationMs != 0 ==> FieldAllowed(m.kind, DurationMs)) && (m.success ==> FieldAllowed(m.kind, SuccessField))
    && (m.signatureCount != 0 ==> FieldAllowed(m.kind, SignatureCount)) && (m.error != "" ==> FieldAllowed(m.kind, ErrorField))
  }

  lemma SetMeans(m: Message)
    ensures IsSet(m, RequestId) == (m.requestId != 0) && IsSet(m, ScannerId) == (m.scannerId != "")
    ensures IsSet(m, WorkerVersion) == (m.workerVersion != "") && IsSet(m, Capabilities) == m.capabilities.Some?
    ensures IsSet(m, FilePath) == (m.filePath != "") && IsSet(m, SignaturePath) == (m.signaturePath != "")
    ensures IsSet(m, Status) == (m.status != "") && IsSet(m, VerdictField) == (m.verdict != NoVerdict)
    ensures IsSet(m, Signature) == (m.signature != "") && IsSet(m, DurationMs) == (m.durationMs != 0)
    ensures IsSet(m, SuccessField) == m.success && IsSet(m, SignatureCount) == (m.signatureCount != 0)
    ensures IsSet(m, ErrorField) == (m.error != "")
  {
  }

  lemma AllowedAt(m: Message, field: Field)
    requires OnlyAllowed(m) && IsSet(m, field)
    ensures FieldAllowed(m.kind, field)
  {
    hide FieldAllowed;
  }

  lemma AllFields(m: Message)
    ensures (forall field: Field :: IsSet(m, field) ==> FieldAllowed(m.kind, field)) <==> OnlyAllowed(m)
  {
    SetMeans(m);
    hide FieldAllowed, IsSet;
    if OnlyAllowed(m) {
      hide OnlyAllowed;
      forall field: Field | IsSet(m, field) ensures FieldAllowed(m.kind, field) {
        AllowedAt(m, field);
      }
    }
  }

  const BAD_VERSION := "protocol version is wrong"
  const BAD_REQUEST_ID := "message requires a non-zero request_id"
  const BAD_PATH := "message requires a non-empty path"
  const BAD_IDENTITY := "HELLO_ACK requires a non-empty identity"
  const NO_CAPABILITIES := "HELLO_ACK requires capabilities"
  const EMPTY_CAPABILITY := "HELLO_ACK capabilities must not contain empty values"
  const DUPLICATE_CAPABILITY := "HELLO_ACK capability is duplicated"
  const BAD_STATUS := "HEALTH_RESULT status must be ok or error"
  const BAD_VERDICT := "SCAN_RESULT verdict is not one of the five"
  const BAD_DURATION := "SCAN_RESULT duration_ms must not be negative"
  const BAD_COUNT := "RELOAD_RESULT signature_count must not be negative"
  const NO_ERROR := "failed RELOAD_RESULT requires a non-empty error"
  const BAD_TYPE := "message type is missing or unknown"
  const MISPLACED_FIELD := "message type does not allow a field that is set"
  const MISSING_FIELD := "message type requires a field that is absent"

  method CheckCapabilities(capabilities: seq<string>) returns (err: Option<string>)
    ensures err.None? <==> CapabilitiesOk(capabilities)
    ensures err.None? || err == Some(EMPTY_CAPABILITY) || err == Some(DUPLICATE_CAPABILITY)
    ensures err == Some(EMPTY_CAPABILITY) ==> exists c :: c in capabilities && IsBlank(c)
    ensures err == Some(DUPLICATE_CAPABILITY) ==> exists i, j :: 0 <= i < j < |capabilities| && capabilities[i] == capabilities[j]
  {
    var seen: set<string> := {};
    for i := 0 to |capabilities|
      invariant forall j | 0 <= j < i :: !IsBlank(capabilities[j])
      invariant forall c :: c in seen <==> exists j :: 0 <= j < i && capabilities[j] == c
      invariant forall j, k | 0 <= j < k < i :: capabilities[j] != capabilities[k]
    {
      if IsBlank(capabilities[i]) {
        return Some(EMPTY_CAPABILITY);
      }
      if capabilities[i] in seen {
        return Some(DUPLICATE_CAPABILITY);
      }
      seen := seen + {capabilities[i]};
    }
    return None;
  }

  /** The table of a check of field placement. */
  method CheckFields(kind: MessageType, fields: seq<(Field, bool)>) returns (err: Option<string>)
    ensures err.None? <==> forall i | 0 <= i < |fields| :: fields[i].1 ==> FieldAllowed(kind, fields[i].0)
    ensures err.None? || err == Some(MISPLACED_FIELD)
  {
    for i := 0 to |fields|
      invariant forall j | 0 <= j < i :: fields[j].1 ==> FieldAllowed(kind, fields[j].0)
    {
      if fields[i].1 && !FieldAllowed(kind, fields[i].0) {
        return Some(MISPLACED_FIELD);
      }
    }
    return None;
  }

  /** The table for a message: every field, and whether it is set. */
  function FieldsOf(m: Message): seq<(Field, bool)> {
    [(RequestId, m.requestId != 0), (ScannerId, m.scannerId != ""), (WorkerVersion, m.workerVersion != ""),
     (Capabilities, m.capabilities.Some?), (FilePath, m.filePath != ""), (SignaturePath, m.signaturePath != ""),
     (Status, m.status != ""), (VerdictField, m.verdict != NoVerdict), (Signature, m.signature != ""),
     (DurationMs, m.durationMs != 0), (SuccessField, m.success), (SignatureCount, m.signatureCount != 0),
     (ErrorField, m.error != "")]
  }

  lemma FieldsHold(m: Message, field: Field)
    ensures (field, IsSet(m, field)) in FieldsOf(m)
  {
    var fields := FieldsOf(m);
    match field
    case RequestId => assert fields[0].0 == field;
    case ScannerId => assert fields[1].0 == field;
    case WorkerVersion => assert fields[2].0 == field;
    case Capabilities => assert fields[3].0 == field;
    case FilePath => assert fields[4].0 == field;
    case SignaturePath => assert fields[5].0 == field;
    case Status => assert fields[6].0 == field;
    case VerdictField => assert fields[7].0 == field;
    case Signature => assert fields[8].0 == field;
    case DurationMs => assert fields[9].0 == field;
    case SuccessField => assert fields[10].0 == field;
    case SignatureCount => assert fields[11].0 == field;
    case ErrorField => assert fields[12].0 == field;
  }

  lemma FieldsTell(m: Message, i: nat)
    requires i < |FieldsOf(m)|
    ensures FieldsOf(m)[i].1 == IsSet(m, FieldsOf(m)[i].0)
  {
  }

  method ValidateAllowedFields(m: Message) returns (err: Option<string>)
    ensures err.None? <==> forall field: Field :: IsSet(m, field) ==> FieldAllowed(m.kind, field)
    ensures err.None? || err == Some(MISPLACED_FIELD)
  {
    hide FieldAllowed, FieldsOf, IsSet;
    err := CheckFields(m.kind, FieldsOf(m));
    forall field: Field ensures (field, IsSet(m, field)) in FieldsOf(m) {
      FieldsHold(m, field);
    }
    forall i | 0 <= i < |FieldsOf(m)| ensures FieldsOf(m)[i].1 == IsSet(m, FieldsOf(m)[i].0) {
      FieldsTell(m, i);
    }
  }

  /** The checks in order: the version, what the type requires of its own fields, and then the fields of other types. */
  method Validate(m: Message) returns (err: Option<string>)
    ensures err.None? <==> Valid(m)
    ensures err == Some(BAD_VERSION) <==> m.version != 1
    ensures m.version == 1 ==>
              match m.kind
              case TypeScan =>
                && (err == Some(BAD_REQUEST_ID) <==> m.requestId == 0) && (err == Some(BAD_PATH) <==> m.requestId != 0 && IsBlank(m.filePath))
              case TypeReload => err == Some(BAD_PATH) <==> IsBlank(m.signaturePath)
              case TypeHelloAck =>
                && (err == Some(BAD_IDENTITY) <==> IsBlank(m.scannerId) || IsBlank(m.workerVersion))
                && (err == Some(NO_CAPABILITIES) <==> !IsBlank(m.scannerId) && !IsBlank(m.workerVersion) && m.capabilities.None?)
                && (err == Some(EMPTY_CAPABILITY) ==> m.capabilities.Some? && exists c :: c in m.capabilities.value && IsBlank(c))
                && (err == Some(DUPLICATE_CAPABILITY) ==>
                      m.capabilities.Some?
                      && exists i, j :: 0 <= i < j < |m.capabilities.value| && m.capabilities.value[i] == m.capabilities.value[j])
              case TypeHealthResult => err == Some(BAD_STATUS) <==> m.status != "ok" && m.status != "error"
              case TypeScanResult =>
                && (err == Some(BAD_REQUEST_ID) <==> m.requestId == 0)
                && (err == Some(BAD_VERDICT) <==> m.requestId != 0 && !ValidVerdict(m.verdict))
                && (err == Some(BAD_DURATION) <==> m.requestId != 0 && ValidVerdict(m.verdict) && m.durationMs < 0)
              case TypeReloadResult =>
                && (err == Some(BAD_COUNT) <==> m.signatureCount < 0)
                && (err == Some(NO_ERROR) <==> m.signatureCount >= 0 && !m.success && IsBlank(m.error))
              case _ => true
    ensures m.kind == NoType || m.kind.UnknownType? ==> (err == Some(BAD_TYPE) <==> m.version == 1)
    ensures m.version == 1 && Complete(m) ==> err.None? || err == Some(MISPLACED_FIELD)
  {
    hide IsBlank, CapabilitiesOk, FieldAllowed, IsSet;
    if m.version != PROTOCOL_VERSION {
      return Some(BAD_VERSION);
    }
    match m.kind {
      case TypeHello =>
      case TypeHealthCheck =>
      case TypeShutdown =>
      case TypeShutdownAck =>
      case TypeScan =>
        if m.requestId == 0 {
          return Some(BAD_REQUEST_ID);
        }
        if IsBlank(m.filePath) {
          return Some(BAD_PATH);
        }
      case TypeReload =>
        if IsBlank(m.signaturePath) {
          return Some(BAD_PATH);
        }
      case TypeHelloAck =>
        if IsBlank(m.scannerId) || IsBlank(m.workerVersion) {
          return Some(BAD_IDENTITY);
        }
        if m.capabilities.None? {
          return Some(NO_CAPABILITIES);
        }
        err := CheckCapabilities(m.capabilities.value);
        if err.Some? {
          return;
        }
      case TypeHealthResult =>
        if m.status != "ok" && m.status != "error" {
          return Some(BAD_STATUS);
        }
      case TypeScanResult =>
        if m.requestId == 0 {
          return Some(BAD_REQUEST_ID);
        }
        if !ValidVerdict(m.verdict) {
          return Some(BAD_VERDICT);
        }
        if m.durationMs < 0 {
          return Some(BAD_DURATION);
        }
      case TypeReloadResult =>
        if m.signatureCount < 0 {
          return Some(BAD_COUNT);
        }
        if !m.success && IsBlank(m.error) {
          return Some(NO_ERROR);
        }
      case _ =>
        return Some(BAD_TYPE);
    }
    err := ValidateAllowedFields(m);
  }

  // ----- the wire record

  /** Fields that the wire form can leave out even where they are zero. */
  datatype Wire = Wire(
    version: int,
    kind: MessageType,
    requestId: Option<nat>,
    scannerId: string,
    workerVersion: string,
    capabilities: Option<seq<string>>,
    filePath: string,
    signaturePath: string,
    status: string,
    verdict: Verdict,
    signature: string,
    durationMs: Option<int>,
    success: Option<bool>,
    signatureCount: Option<int>,
    error: string)

  function ToWire(m: Message): Wire {
    Wire(m.version, m.kind,
         if m.kind == TypeScan || m.kind == TypeScanResult then Some(m.requestId) else None,
         m.scannerId, m.workerVersion, m.capabilities, m.filePath, m.signaturePath, m.status, m.verdict, m.signature,
         if m.kind == TypeScanResult then Some(m.durationMs) else None,
         if m.kind == TypeReloadResult then Some(m.success) else None,
         if m.kind == TypeReloadResult && (m.success || m.signatureCount != 0) then Some(m.signatureCount) else None,
         m.error)
  }

  function OrElse<T>(value: Option<T>, zero: T): T { if value.Some? then value.value else zero }

  function FromWire(w: Wire): Message {
    Message(w.version, w.kind, OrElse(w.requestId, 0), w.scannerId, w.workerVersion, w.capabilities, w.filePath,
            w.signaturePath, w.status, w.verdict, w.signature, OrElse(w.durationMs, 0), OrElse(w.success, false),
            OrElse(w.signatureCount, 0), w.error)
  }

  /** What `omitempty` does to the record on its way through JSON: an empty slice is left out and comes back as nil. */
  function OmitEmpty(w: Wire): Wire { w.(capabilities := if w.capabilities == Some([]) then None else w.capabilities) }

  /** Present fields are allowed, whatever their value. */
  predicate Placed(w: Wire) {
    && (w.requestId.Some? ==> FieldAllowed(w.kind, RequestId))
    && (w.durationMs.Some? ==> FieldAllowed(w.kind, DurationMs))
    && (w.success.Some? ==> FieldAllowed(w.kind, SuccessField))
    && (w.signatureCount.Some? ==> FieldAllowed(w.kind, SignatureCount))
  }

  /** Required fields are present, whatever their value. */
  predicate Present(w: Wire) {
    && (w.kind == TypeScan || w.kind == TypeScanResult ==> w.requestId.Some?)
    && (w.kind == TypeScanResult ==> w.durationMs.Some?)
    && (w.kind == TypeReloadResult ==> w.success.Some? && (w.success.value ==> w.signatureCount.Some?))
  }

  /** Marshal, with JSON as `omitempty` on the record. */
  method Marshal(m: Message) returns (r: Result<Wire>)
    ensures r.Success? <==> Valid(m)
    ensures r.Success? ==> r.value == OmitEmpty(ToWire(m))
  {
    var err := Validate(m);
    if err.Some? {
      return Failure(err.value);
    }
    return Success(OmitEmpty(ToWire(m)));
  }

  method ValidateWireFieldPlacement(w: Wire) returns (err: Option<string>)
    ensures err.None? <==> Placed(w)
  {
    hide FieldAllowed;
    var fields := [(RequestId, w.requestId.Some?), (DurationMs, w.durationMs.Some?), (SuccessField, w.success.Some?),
                   (SignatureCount, w.signatureCount.Some?)];
    err := CheckFields(w.kind, fields);
    assert fields[0].0 == RequestId && fields[1].0 == DurationMs && fields[2].0 == SuccessField && fields[3].0 == SignatureCount;
  }

  method ValidateRequiredWireFields(w: Wire) returns (err: Option<string>)
    ensures err.None? <==> Present(w)
  {
    match w.kind {
      case TypeScan | TypeScanResult =>
        if w.requestId.None? {
          return Some(MISSING_FIELD);
        }
      case _ =>
    }
    match w.kind {
      case TypeScanResult =>
        if w.durationMs.None? {
          return Some(MISSING_FIELD);
        }
      case TypeReloadResult =>
        if w.success.None? {
          return Some(MISSING_FIELD);
        }
        if w.success.value && w.signatureCount.None? {
          return Some(MISSING_FIELD);
        }
      case _ =>
    }
    return None;
  }

  /** A wire record is accepted as m. */
  ghost predicate Accepted(w: Wire, m: Message) { Placed(w) && Present(w) && m == FromWire(w) && Valid(m) }

  /**
   Acceptance field by field: a request ID, a duration, a success flag and a count stand on the wire for the types they belong to,
   zero or not, and for no others; a count may be left out of a failed reload.
   */
  lemma AcceptedExactly(w: Wire, m: Message)
    ensures Accepted(w, m) <==>
            && Valid(m)
            && (w.requestId.Some? <==> w.kind == TypeScan || w.kind == TypeScanResult)
            && (w.durationMs.Some? <==> w.kind == TypeScanResult)
            && (w.success.Some? <==> w.kind == TypeReloadResult)
            && (w.signatureCount.Some? ==> w.kind == TypeReloadResult)
            && (w.success == Some(true) ==> w.signatureCount.Some?)
            && m == Message(w.version, w.kind, if w.requestId.Some? then w.requestId.value else 0, w.scannerId, w.workerVersion,
                            w.capabilities, w.filePath, w.signaturePath, w.status, w.verdict, w.signature,
                            if w.durationMs.Some? then w.durationMs.value else 0, w.success == Some(true),
                            if w.signatureCount.Some? then w.signatureCount.value else 0, w.error)
  {
    hide Valid;
  }

  /** The record of a message: a count is left out of a failed reload that loaded nothing, an empty list of capabilities always. */
  lemma WireExactly(m: Message)
    ensures OmitEmpty(ToWire(m))
            == Wire(m.version, m.kind, if m.kind == TypeScan || m.kind == TypeScanResult then Some(m.requestId) else None, m.scannerId,
                    m.workerVersion, if m.capabilities == Some([]) then None else m.capabilities, m.filePath, m.signaturePath, m.status,
                    m.verdict, m.signature, if m.kind == TypeScanResult then Some(m.durationMs) else None,
                    if m.kind == TypeReloadResult then Some(m.success) else None,
                    if m.kind != TypeReloadResult || (!m.success && m.signatureCount == 0) then None else Some(m.signatureCount), m.error)
  {
  }

  method Unmarshal(w: Wire) returns (r: Result<Message>)
    ensures r.Success? <==> exists m :: Accepted(w, m)
    ensures r.Success? ==> Accepted(w, r.value)
  {
    hide Valid, Placed, Present;
    var err := ValidateWireFieldPlacement(w);
    if err.Some? {
      return Failure(err.value);
    }
    err := ValidateRequiredWireFields(w);
    if err.Some? {
      return Failure(err.value);
    }
    var m := FromWire(w);
    err := Validate(m);
    if err.Some? {
      return Failure(err.value);
    }
    assert Accepted(w, m);
    return Success(m);
  }

  // ----- round trip

  /** Fields that are not allowed are zero, so leaving them out loses nothing. */
  lemma UnsetIsZero(m: Message)
    requires Valid(m)
    ensures m.kind != TypeScan && m.kind != TypeScanResult ==> m.requestId == 0
    ensures m.kind != TypeScanResult ==> m.durationMs == 0
    ensures m.kind != TypeReloadResult ==> !m.success && m.signatureCount == 0
    ensures m.kind != TypeHelloAck ==> m.capabilities.None?
  {
    assert IsSet(m, RequestId) ==> FieldAllowed(m.kind, RequestId);
    assert IsSet(m, DurationMs) ==> FieldAllowed(m.kind, DurationMs);
    assert IsSet(m, SuccessField) ==> FieldAllowed(m.kind, SuccessField);
    assert IsSet(m, SignatureCount) ==> FieldAllowed(m.kind, SignatureCount);
    assert IsSet(m, Capabilities) ==> FieldAllowed(m.kind, Capabilities);
  }

  lemma WireIsPlaced(m: Message)
    ensures Placed(OmitEmpty(ToWire(m))) && Present(OmitEmpty(ToWire(m)))
  {
  }

  /**
   What a valid message becomes on the wire is accepted, and as that message, exactly when its capabilities are
   not an empty list; otherwise it is not accepted at all.
   */
  lemma WireRoundTrip(m: Message)
    requires Valid(m)
    ensures var w := OmitEmpty(ToWire(m));
            && (m.capabilities != Some([]) ==> Accepted(w, m))
            && (m.capabilities == Some([]) ==> forall x :: !Accepted(w, x))
  {
    UnsetIsZero(m);
    WireIsPlaced(m);
    var w := OmitEmpty(ToWire(m));
    if m.capabilities != Some([]) {
      assert FromWire(w) == m;
      hide Valid;
    } else {
      assert m.kind == TypeHelloAck && FromWire(w).capabilities.None?;
      hide IsSet, FieldAllowed, IsBlank;
    }
  }

  const EMPTY_ACK: Message := Command(TypeHelloAck).(scannerId := "a", workerVersion := "1", capabilities := Some([]))

  lemma EmptyAckIsValid()
    ensures Valid(EMPTY_ACK)
  {
    hide IsSpace;
    assert !IsSpace('a') && !IsSpace('1') by { LettersAreNotSpace(); }
    assert EMPTY_ACK.scannerId[0] == 'a' && EMPTY_ACK.workerVersion[0] == '1';
  }

  lemma LettersAreNotSpace()
    ensures !IsSpace('a') && !IsSpace('1')
  {
  }

  /** The message the source can send but not receive. */
  lemma EmptyCapabilities()
    ensures Valid(EMPTY_ACK) && forall x :: !Accepted(OmitEmpty(ToWire(EMPTY_ACK)), x)
  {
    hide OmitEmpty, ToWire, Accepted, Valid;
    EmptyAckIsValid();
    WireRoundTrip(EMPTY_ACK);
  }
}
