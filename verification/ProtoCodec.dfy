/** The protobuf form of protocol messages (pkg/workertransport/protobuf.go), at the level of records. */
module ProtoCodec {
  import opened Wrappers
  import opened Messages
  import opened Text
  import opened Protocol

  datatype ProtoVerdict =
    | Unspecified | ProtoClean | ProtoMalware | ProtoError | ProtoTimeout | ProtoUnavailable | UnknownNumber(number: int)

  /** A repeated field has no nil: an absent one is an empty one. */
  datatype Payload = Payload(
    version: int,
    kind: MessageType,
    requestId: nat,
    scannerId: string,
    workerVersion: string,
    capabilities: seq<string>,
    filePath: string,
    signaturePath: string,
    status: string,
    verdict: ProtoVerdict,
    signature: string,
    durationMs: Option<int>,
    success: Option<bool>,
    signatureCount: Option<int>,
    error: string)

  const MAX_INT32: int := 0x7FFF_FFFF
  const COUNT_TOO_LARGE := "RELOAD_RESULT signature_count exceeds protobuf int32"
  const NIL_PAYLOAD := "gRPC message must not be nil"
  const UNKNOWN_VERDICT := "unknown protobuf verdict"

  function VerdictToProto(v: Verdict): ProtoVerdict {
    match v
    case VerdictClean => ProtoClean
    case VerdictMalware => ProtoMalware
    case VerdictError => ProtoError
    case VerdictTimeout => ProtoTimeout
    case VerdictUnavailable => ProtoUnavailable
    case _ => Unspecified
  }

  function VerdictFromProto(v: ProtoVerdict): Result<Verdict> {
    match v
    case Unspecified => Success(NoVerdict)
    case ProtoClean => Success(VerdictClean)
    case ProtoMalware => Success(VerdictMalware)
    case ProtoError => Success(VerdictError)
    case ProtoTimeout => Success(VerdictTimeout)
    case ProtoUnavailable => Success(VerdictUnavailable)
    case UnknownNumber(_) => Failure(UNKNOWN_VERDICT)
  }

  /** The payload of a message that passes the checks of ToProto. */
  function Packed(m: Message): Payload {
    Payload(m.version, m.kind, m.requestId, m.scannerId, m.workerVersion, OrElse(m.capabilities, []), m.filePath,
            m.signaturePath, m.status, VerdictToProto(m.verdict), m.signature,
            if m.kind == TypeScanResult then Some(m.durationMs) else None,
            if m.kind == TypeReloadResult then Some(m.success) else None,
            if m.kind == TypeReloadResult && (m.success || m.signatureCount != 0) then Some(m.signatureCount) else None,
            m.error)
  }

  predicate Fits(m: Message) { m.kind == TypeReloadResult ==> m.signatureCount <= MAX_INT32 }

  method ToProto(m: Message) returns (r: Result<Payload>)
    ensures r.Success? <==> Valid(m) && Fits(m)
    ensures r.Success? ==> r.value == Packed(m)
    ensures Valid(m) && !Fits(m) ==> r == Failure("RELOAD_RESULT signature_count exceeds protobuf int32")
  {
    hide Valid;
    var err := Validate(m);
    if err.Some? {
      return Failure(err.value);
    }
    var capabilities: seq<string> := [];
    if m.capabilities.Some? {
      capabilities := capabilities + m.capabilities.value;
    }
    var payload := Payload(m.version, m.kind, m.requestId, m.scannerId, m.workerVersion, capabilities, m.filePath, m.signaturePath,
                           m.status, VerdictToProto(m.verdict), m.signature, None, None, None, m.error);
    if m.kind == TypeScanResult {
      payload := payload.(durationMs := Some(m.durationMs));
    }
    if m.kind == TypeReloadResult {
      if m.signatureCount > MAX_INT32 {
        return Failure(COUNT_TOO_LARGE);
      }
      payload := payload.(success := Some(m.success));
      if m.success || m.signatureCount != 0 {
        payload := payload.(signatureCount := Some(m.signatureCount));
      }
    }
    return Success(payload);
  }

  predicate PresenceOk(p: Payload) {
    && (p.kind == TypeScanResult <==> p.durationMs.Some?)
    && (p.kind == TypeReloadResult <==> p.success.Some?)
    && (p.signatureCount.Some? ==> p.kind == TypeReloadResult)
    && (p.success == Some(true) ==> p.signatureCount.Some?)
  }

  method ValidateProtoPresence(p: Payload) returns (err: Option<string>)
    ensures err.None? <==> PresenceOk(p)
  {
    if p.kind == TypeScanResult && p.durationMs.None? {
      return Some(MISSING_FIELD);
    }
    if p.kind == TypeReloadResult {
      if p.success.None? {
        return Some(MISSING_FIELD);
      }
      if p.success.value && p.signatureCount.None? {
        return Some(MISSING_FIELD);
      }
    }
    if p.kind != TypeScanResult && p.durationMs.Some? {
      return Some(MISPLACED_FIELD);
    }
    if p.kind != TypeReloadResult && (p.success.Some? || p.signatureCount.Some?) {
      return Some(MISPLACED_FIELD);
    }
    return None;
  }

  function Unpacked(p: Payload, verdict: Verdict): Message {
    Message(p.version, p.kind, p.requestId, p.scannerId, p.workerVersion,
            if p.capabilities == [] then None else Some(p.capabilities), p.filePath, p.signaturePath, p.status, verdict,
            p.signature, OrElse(p.durationMs, 0), OrElse(p.success, false), OrElse(p.signatureCount, 0), p.error)
  }

  /** A payload is accepted as m. */
  ghost predicate ProtoAccepted(p: Payload, m: Message) {
    PresenceOk(p) && VerdictFromProto(p.verdict).Success? && m == Unpacked(p, VerdictFromProto(p.verdict).value) && Valid(m)
  }

  /** Each of the five verdicts has a number of its own, and no verdict has the number 0 that stands for none. */
  lemma VerdictNumbers(v: Verdict)
    ensures VerdictToProto(v) == ProtoClean <==> v == VerdictClean
    ensures VerdictToProto(v) == ProtoMalware <==> v == VerdictMalware
    ensures VerdictToProto(v) == ProtoError <==> v == VerdictError
    ensures VerdictToProto(v) == ProtoTimeout <==> v == VerdictTimeout
    ensures VerdictToProto(v) == ProtoUnavailable <==> v == VerdictUnavailable
    ensures VerdictToProto(v) == Unspecified <==> v == NoVerdict || v.UnknownVerdict?
  {
  }

  /** What a payload's number says, if it says anything. */
  predicate Means(p: ProtoVerdict, v: Verdict) {
    match v
    case NoVerdict => p == Unspecified
    case VerdictClean => p == ProtoClean
    case VerdictMalware => p == ProtoMalware
    case VerdictError => p == ProtoError
    case VerdictTimeout => p == ProtoTimeout
    case VerdictUnavailable => p == ProtoUnavailable
    case UnknownVerdict(_) => false
  }

  /**
   Acceptance field by field: a duration, a success flag and a count are present for the types they belong to, zero or not, and for
   no others, the verdict is the one its number stands for, and an empty list of capabilities is none at all.
   */
  lemma ProtoAcceptedExactly(p: Payload, m: Message)
    ensures ProtoAccepted(p, m) <==>
            && Valid(m) && Means(p.verdict, m.verdict)
            && (p.durationMs.Some? <==> p.kind == TypeScanResult)
            && (p.success.Some? <==> p.kind == TypeReloadResult)
            && (p.signatureCount.Some? ==> p.kind == TypeReloadResult)
            && (p.success == Some(true) ==> p.signatureCount.Some?)
            && m == Message(p.version, p.kind, p.requestId, p.scannerId, p.workerVersion,
                            if |p.capabilities| == 0 then None else Some(p.capabilities), p.filePath, p.signaturePath, p.status, m.verdict,
                            p.signature, if p.durationMs.Some? then p.durationMs.value else 0, p.success == Some(true),
                            if p.signatureCount.Some? then p.signatureCount.value else 0, p.error)
  {
    hide Valid;
  }

  /** The payload of a message, and when it is too large for one. */
  lemma PackedExactly(m: Message)
    ensures Fits(m) <==> !(m.kind == TypeReloadResult && m.signatureCount > 2147483647)
    ensures Packed(m)
            == Payload(m.version, m.kind, m.requestId, m.scannerId, m.workerVersion,
                       if m.capabilities.Some? then m.capabilities.value else [], m.filePath, m.signaturePath, m.status,
                       VerdictToProto(m.verdict), m.signature, if m.kind == TypeScanResult then Some(m.durationMs) else None,
                       if m.kind == TypeReloadResult then Some(m.success) else None,
                       if m.kind != TypeReloadResult || (!m.success && m.signatureCount == 0) then None else Some(m.signatureCount), m.error)
  {
  }

  method FromProto(payload: Option<Payload>) returns (r: Result<Message>)
    ensures r.Success? <==> payload.Some? && exists m :: ProtoAccepted(payload.value, m)
    ensures r.Success? ==> ProtoAccepted(payload.value, r.value)
    ensures payload.None? ==> r == Failure("gRPC message must not be nil")
  {
    hide Valid, PresenceOk;
    if payload.None? {
      return Failure(NIL_PAYLOAD);
    }
    var p := payload.value;
    var err := ValidateProtoPresence(p);
    if err.Some? {
      return Failure(err.value);
    }
    var verdict := VerdictFromProto(p.verdict);
    if verdict.Failure? {
      return Failure(verdict.error);
    }
    var m := Message(p.version, p.kind, p.requestId, p.scannerId, p.workerVersion, None, p.filePath, p.signaturePath, p.status,
                     verdict.value, p.signature, 0, false, 0, p.error);
    if p.capabilities != [] {
      m := m.(capabilities := Some(p.capabilities));
    }
    if p.durationMs.Some? {
      m := m.(durationMs := p.durationMs.value);
    }
    if p.success.Some? {
      m := m.(success := p.success.value);
    }
    if p.signatureCount.Some? {
      m := m.(signatureCount := p.signatureCount.value);
    }
    err := Validate(m);
    if err.Some? {
      return Failure(err.value);
    }
    assert ProtoAccepted(p, m);
    return Success(m);
  }

  lemma VerdictRoundTrip(m: Message)
    requires Valid(m)
    ensures VerdictFromProto(VerdictToProto(m.verdict)) == Success(m.verdict)
  {
    assert IsSet(m, VerdictField) ==> FieldAllowed(m.kind, VerdictField);
  }

  /** What ToProto makes of a valid message is accepted, and as that message, exactly when its capabilities are not an empty list. */
  lemma ProtoRoundTrip(m: Message)
    requires Valid(m)
    ensures (m.capabilities != Some([]) ==> ProtoAccepted(Packed(m), m))
    ensures (m.capabilities == Some([]) ==> forall x :: !ProtoAccepted(Packed(m), x))
  {
    UnsetIsZero(m);
    VerdictRoundTrip(m);
    if m.capabilities != Some([]) {
      assert Unpacked(Packed(m), m.verdict) == m;
      hide Valid, VerdictToProto, VerdictFromProto;
    } else {
      assert m.kind == TypeHelloAck;
      hide IsSet, FieldAllowed, IsBlank;
    }
  }

  /** Whatever one form delivers, the other form carries too: the two codecs accept a valid message as the same message. */
  lemma CodecsCommute(m: Message, x: Message)
    requires Valid(m) && Fits(m)
    ensures Accepted(OmitEmpty(ToWire(m)), x) <==> ProtoAccepted(Packed(m), x)
    ensures m.capabilities != Some([]) ==> (Accepted(OmitEmpty(ToWire(m)), x) <==> x == m)
  {
    WireRoundTrip(m);
    ProtoRoundTrip(m);
    hide Valid, Packed, ToWire, Placed, Present, PresenceOk;
  }
}
