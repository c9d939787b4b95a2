/** Newline framing over a byte stream (pkg/ipc/ipc.go), for any payload codec. */
module Framing {
  import opened Wrappers
  import opened ByteData

  const MAX_FRAME_SIZE: nat := 64 * 1024

  /** The size of the decoder's read buffer. */
  const BUFFER_SIZE: nat := MAX_FRAME_SIZE + 1

  const SHORT_WRITE := "short write"
  const FRAME_TOO_LARGE := "protocol frame exceeds size limit"

  // ----- the buffered reader

  function IndexOfNewline(data: Bytes): (i: nat)
    ensures i <= |data| && (i < |data| ==> data[i] == NEWLINE) && NEWLINE !in data[..i]
  {
    if data == [] then 0
    else if data[0] == NEWLINE then 0
    else
      var i := IndexOfNewline(data[1..]);
      assert data[..i + 1] == [data[0]] + data[1..][..i];
      i + 1
  }

  /** What the underlying reader says after its last byte. */
  datatype StreamEnd = Eof | Broken(error: string)

  datatype SliceResult = Slice(frame: Bytes) | BufferFull | Ended(partial: Bytes)

  /** ReadSlice of bufio.Reader: through the next newline if the buffer can hold that much. */
  function ReadSlice(rest: Bytes): (r: SliceResult) {
    var i := IndexOfNewline(rest);
    if i < |rest| && i < BUFFER_SIZE then Slice(rest[..i + 1])
    else if |rest| >= BUFFER_SIZE then BufferFull
    else Ended(rest)
  }

  function AfterSlice(rest: Bytes): Bytes {
    match ReadSlice(rest)
    case Slice(frame) => rest[IndexOfNewline(rest) + 1..]
    case BufferFull => rest[BUFFER_SIZE..]
    case Ended(_) => []
  }

  // ----- decoding

  datatype Decoded<M> =
    | Delivered(message: M)
    | BadPayload(error: string)
    | EndOfStream
    | TooLarge
    | Unterminated
    | ReadFailed(error: string)

  /** The unread bytes and the sticky failure. */
  datatype Input = Input(rest: Bytes, end: StreamEnd, tooLarge: bool, unterminated: bool)

  function Fresh(data: Bytes, end: StreamEnd): Input { Input(data, end, false, false) }

  function Opened<M>(unmarshal: Bytes -> Result<M>, payload: Bytes): Decoded<M> {
    match unmarshal(payload)
    case Success(m) => Delivered(m)
    case Failure(error) => BadPayload(error)
  }

  function Answer<M>(input: Input, unmarshal: Bytes -> Result<M>): Decoded<M> {
    if input.tooLarge then TooLarge
    else if input.unterminated then Unterminated
    else
      match ReadSlice(input.rest)
      case Slice(frame) => Opened(unmarshal, input.rest[..IndexOfNewline(input.rest)])
      case BufferFull => TooLarge
      case Ended(partial) =>
        if input.end.Broken? then ReadFailed(input.end.error) else if partial == [] then EndOfStream else Unterminated
  }

  function Next(input: Input): Input {
    if input.tooLarge || input.unterminated then input
    else
      match ReadSlice(input.rest)
      case Slice(_) => input.(rest := AfterSlice(input.rest))
      case BufferFull => input.(rest := AfterSlice(input.rest), tooLarge := true)
      case Ended(partial) => input.(rest := [], unterminated := input.end.Eof? && partial != [])
  }

  class Decoder<M> {
    const unmarshal: Bytes -> Result<M>
    const end: StreamEnd
    var rest: Bytes
    var failed: Option<Decoded<M>>

    constructor (data: Bytes, end: StreamEnd, unmarshal: Bytes -> Result<M>)
      ensures Valid() && View() == Fresh(data, end) && this.unmarshal == unmarshal
    {
      this.unmarshal, this.end := unmarshal, end;
      rest, failed := data, None;
    }

    ghost predicate Valid()
      reads this
    {
      failed == None || failed == Some(TooLarge) || failed == Some(Unterminated)
    }

    function View(): Input
      reads this
    {
      Input(rest, end, failed == Some(TooLarge), failed == Some(Unterminated))
    }

    method Decode() returns (r: Decoded<M>)
      requires Valid()
      modifies this
      ensures Valid() && View() == Next(old(View())) && r == Answer(old(View()), unmarshal)
    {
      if failed.Some? {
        return failed.value;
      }
      var read := ReadSlice(rest);
      rest := AfterSlice(rest);
      match read
      case BufferFull =>
        failed := Some(TooLarge);
        return failed.value;
      case Ended(partial) =>
        match end {
          case Broken(error) => return ReadFailed(error);
          case Eof =>
            if |partial| == 0 {
              return EndOfStream;
            }
            failed := Some(Unterminated);
            return failed.value;
        }
      case Slice(frame) =>
        SliceIsPayload(old(rest));
        var payload := frame[..|frame| - 1];
        assert |payload| <= MAX_FRAME_SIZE;
        var m := unmarshal(payload);
        match m {
          case Failure(error) => return BadPayload(error);
          case Success(message) => return Delivered(message);
        }
    }
  }

  /** A frame read whole is its payload and a newline, and within the limit: a second size check has nothing to catch. */
  lemma SliceIsPayload(rest: Bytes)
    requires ReadSlice(rest).Slice?
    ensures var frame := ReadSlice(rest).frame;
            && |frame| > 0 && frame[..|frame| - 1] == rest[..IndexOfNewline(rest)] && frame[|frame| - 1] == NEWLINE
            && |frame| - 1 <= MAX_FRAME_SIZE && NEWLINE !in frame[..|frame| - 1]
            && rest == frame + AfterSlice(rest)
  {
    var i := IndexOfNewline(rest);
    assert rest[..i + 1][..i] == rest[..i];
    assert rest == rest[..i + 1] + rest[i + 1..];
  }

  /** The answers to n calls of Decode. */
  function Answers<M>(input: Input, unmarshal: Bytes -> Result<M>, n: nat): seq<Decoded<M>>
    decreases n
  {
    if n == 0 then [] else [Answer(input, unmarshal)] + Answers(Next(input), unmarshal, n - 1)
  }

  // ----- encoding

  /** One result of Write: how much was taken, and an error. */
  datatype WriteResult = WriteResult(written: nat, error: Option<string>)

  /** Every write takes something and none fails. */
  predicate Steady(script: seq<WriteResult>) { forall i | 0 <= i < |script| :: script[i].error.None? && script[i].written > 0 }

  class Writer {
    var script: seq<WriteResult>
    var data: Bytes

    constructor (script: seq<WriteResult>)
      ensures this.script == script && data == []
    {
      this.script, data := script, [];
    }

    /** Takes as much of `more` as the script says; everything once the script is over. */
    method Write(more: Bytes) returns (r: WriteResult)
      modifies this
      ensures r.written <= |more| && data == old(data) + more[..r.written]
      ensures script == if old(script) == [] then [] else old(script)[1..]
      ensures old(script) == [] ==> r == WriteResult(|more|, None)
      ensures old(script) != [] ==> r.error == old(script)[0].error
                                    && r.written == if old(script)[0].written < |more| then old(script)[0].written else |more|
    {
      if script == [] {
        r := WriteResult(|more|, None);
      } else {
        r := WriteResult(if script[0].written < |more| then script[0].written else |more|, script[0].error);
        script := script[1..];
      }
      data := data + more[..r.written];
    }
  }

  /** How writing this much ends. */
  function WriteEnd(script: seq<WriteResult>, size: nat): Option<string> {
    if size == 0 || script == [] then None
    else if script[0].error.Some? then script[0].error
    else if script[0].written == 0 then Some(SHORT_WRITE)
    else WriteEnd(script[1..], if script[0].written < size then size - script[0].written else 0)
  }

  /** Everything is written, or an error says that only part of it may have been. */
  method WriteAll(writer: Writer, data: Bytes) returns (err: Option<string>)
    modifies writer
    ensures err == WriteEnd(old(writer.script), |data|)
    ensures err.None? ==> writer.data == old(writer.data) + data
    ensures exists n :: 0 <= n <= |data| && writer.data == old(writer.data) + data[..n]
    ensures Steady(old(writer.script)) ==> err.None? && Steady(writer.script)
  {
    var left := data;
    ghost var n: nat := 0;
    ghost var before := writer.data;
    ghost var script := writer.script;
    ghost var calls := 0;
    assert data[..0] == [];
    while |left| > 0
      invariant 0 <= n <= |data| && left == data[n..] && writer.data == before + data[..n]
      invariant WriteEnd(writer.script, |left|) == WriteEnd(script, |data|)
      invariant calls <= |script| ==> writer.script == script[calls..]
      invariant calls > |script| ==> writer.script == []
      decreases |left|
    {
      ghost var was := writer.data;
      var r := writer.Write(left);
      calls := calls + 1;
      assert data[..n] + left[..r.written] == data[..n + r.written];
      assert writer.data == before + data[..n + r.written];
      n := n + r.written;
      if r.error.Some? {
        return r.error;
      }
      if r.written == 0 {
        return Some(SHORT_WRITE);
      }
      left := left[r.written..];
    }
    assert data[..n] == data;
    return None;
  }

  /** How much the first n writes can take. */
  function Room(script: seq<WriteResult>, n: nat): nat
    requires n <= |script|
  {
    if n == 0 then 0 else Room(script, n - 1) + script[n - 1].written
  }

  predicate Fine(r: WriteResult) { r.error.None? && r.written > 0 }

  /** Write i is made: those before it were fine and left something to write. */
  ghost predicate Made(script: seq<WriteResult>, size: nat, i: nat) {
    i < |script| && Room(script, i) < size && forall j | 0 <= j < i :: Fine(script[j])
  }

  lemma {:induction false} RoomOff(script: seq<WriteResult>, n: nat)
    requires 0 < n <= |script|
    ensures Room(script, n) == script[0].written + Room(script[1..], n - 1)
  {
    if n > 1 { RoomOff(script, n - 1); }
  }

  lemma MadeOff(script: seq<WriteResult>, size: nat, i: nat)
    requires script != [] && size > 0
    ensures Made(script, size, 0)
    ensures Made(script, size, i + 1) <==>
            Fine(script[0]) && script[0].written < size && Made(script[1..], size - script[0].written, i)
  {
    if i < |script| - 1 {
      RoomOff(script, i + 1);
      if forall j | 0 <= j < i :: Fine(script[1..][j]) {
        forall j | 0 < j < i + 1 ensures Fine(script[j]) { assert script[1..][j - 1] == script[j]; }
      }
      if forall j | 0 <= j < i + 1 :: Fine(script[j]) {
        forall j | 0 <= j < i ensures Fine(script[1..][j]) { assert script[1..][j] == script[j + 1]; }
      }
    }
  }

  /**
   Writing everything succeeds iff every write that is made takes something and reports no error; otherwise it ends with the error
   of the first write that is not fine, a short write if that one took nothing.
   */
  lemma {:induction false} WriteEndExactly(script: seq<WriteResult>, size: nat)
    ensures WriteEnd(script, size).None? <==> forall i: nat :: Made(script, size, i) ==> Fine(script[i])
    ensures forall i: nat | Made(script, size, i) && !Fine(script[i]) ::
              WriteEnd(script, size) == if script[i].error.Some? then script[i].error else Some("short write")
  {
    hide Made;
    if size == 0 || script == [] {
      NoneMade(script, size);
    } else {
      var left: nat := if script[0].written < size then size - script[0].written else 0;
      WriteEndExactly(script[1..], left);
      MadeOff(script, size, 0);
      if left == 0 { NoneMade(script[1..], left); }
      forall i: nat ensures Made(script, size, i + 1) <==> Fine(script[0]) && left > 0 && Made(script[1..], left, i) {
        MadeOff(script, size, i);
      }
      forall i: nat | Made(script, size, i) && i > 0
        ensures i < |script| && script[i] == script[1..][i - 1] && Fine(script[0]) && Made(script[1..], left, i - 1)
      {
        MadeOff(script, size, i - 1);
        MadeIn(script[1..], left, i - 1);
      }
      forall i: nat | Made(script[1..], left, i) && Fine(script[0]) && left > 0
        ensures i + 1 < |script| && script[i + 1] == script[1..][i] && Made(script, size, i + 1)
      {
        MadeIn(script[1..], left, i);
      }
    }
  }

  lemma MadeIn(script: seq<WriteResult>, size: nat, i: nat)
    requires Made(script, size, i)
    ensures i < |script|
  {
  }

  lemma NoneMade(script: seq<WriteResult>, size: nat)
    requires size == 0 || script == []
    ensures forall i: nat :: !Made(script, size, i)
  {
  }

  /** The stream of some payloads. */
  function Frames(payloads: seq<Bytes>): Bytes {
    if payloads == [] then [] else Frames(payloads[..|payloads| - 1]) + payloads[|payloads| - 1] + [NEWLINE]
  }

  method Encode<M>(writer: Writer, marshal: M -> Result<Bytes>, message: M) returns (err: Option<string>)
    modifies writer
    ensures err.None? ==>
              marshal(message).Success? && |marshal(message).value| <= 65536
              && writer.data == old(writer.data) + marshal(message).value + [10]
    ensures marshal(message).Failure? ==> err == Some(marshal(message).error) && writer.data == old(writer.data)
    ensures marshal(message).Success? && |marshal(message).value| > 65536 ==>
              err == Some("protocol frame exceeds size limit") && writer.data == old(writer.data)
    ensures marshal(message).Success? && |marshal(message).value| <= 65536 ==>
              err == WriteEnd(old(writer.script), |marshal(message).value| + 1)
    ensures marshal(message).Success? && |marshal(message).value| <= 65536 && Steady(old(writer.script)) ==>
              err.None? && Steady(writer.script)
  {
    var payload := marshal(message);
    match payload
    case Failure(error) => return Some(error);
    case Success(bytes) =>
      if |bytes| > MAX_FRAME_SIZE {
        return Some(FRAME_TOO_LARGE);
      }
      err := WriteAll(writer, bytes + [NEWLINE]);
      assert old(writer.data) + (bytes + [NEWLINE]) == old(writer.data) + bytes + [NEWLINE];
  }

  predicate Encodes<M>(marshal: M -> Result<Bytes>, message: M) {
    marshal(message).Success? && |marshal(message).value| <= MAX_FRAME_SIZE
  }

  function Marshalled<M>(marshal: M -> Result<Bytes>, messages: seq<M>): seq<Bytes>
    requires forall i | 0 <= i < |messages| :: Encodes(marshal, messages[i])
  {
    seq(|messages|, i requires 0 <= i < |messages| && Encodes(marshal, messages[i]) => marshal(messages[i]).value)
  }

  lemma FramesMore<M>(marshal: M -> Result<Bytes>, messages: seq<M>, i: nat)
    requires i < |messages| && forall j | 0 <= j <= i :: Encodes(marshal, messages[j])
    ensures Frames(Marshalled(marshal, messages[..i + 1])) ==
            Frames(Marshalled(marshal, messages[..i])) + marshal(messages[i]).value + [NEWLINE]
  {
    var payloads := Marshalled(marshal, messages[..i + 1]);
    assert payloads[..i] == Marshalled(marshal, messages[..i]);
  }

  /** Encode for one message after the other, until one fails. */
  method EncodeAll<M>(writer: Writer, marshal: M -> Result<Bytes>, messages: seq<M>) returns (err: Option<string>)
    modifies writer
    ensures err.None? ==>
              (forall i | 0 <= i < |messages| :: Encodes(marshal, messages[i]))
              && writer.data == old(writer.data) + Frames(Marshalled(marshal, messages))
    ensures Steady(old(writer.script)) && (forall i | 0 <= i < |messages| :: Encodes(marshal, messages[i])) ==> err.None?
  {
    ghost var before := writer.data;
    ghost var steady := Steady(writer.script);
    hide Steady;
    assert before + [] == before;
    for i := 0 to |messages|
      invariant forall j | 0 <= j < i :: Encodes(marshal, messages[j])
      invariant writer.data == before + Frames(Marshalled(marshal, messages[..i]))
      invariant steady ==> Steady(writer.script)
    {
      err := Encode(writer, marshal, messages[i]);
      if err.Some? {
        return;
      }
      FramesMore(marshal, messages, i);
      ghost var sofar := Frames(Marshalled(marshal, messages[..i]));
      assert before + sofar + marshal(messages[i]).value + [NEWLINE] == before + (sofar + marshal(messages[i]).value + [NEWLINE]);
    }
    assert messages[..|messages|] == messages;
    return None;
  }

  // ----- round trip

  predicate Payload(p: Bytes) { NEWLINE !in p && |p| <= MAX_FRAME_SIZE }

  /** The stream, cut at its first frame. */
  lemma {:induction false} FramesFront(payloads: seq<Bytes>)
    requires payloads != []
    ensures Frames(payloads) == payloads[0] + [NEWLINE] + Frames(payloads[1..])
  {
    var n := |payloads| - 1;
    if n > 0 {
      FramesFront(payloads[..n]);
      assert payloads[..n][1..] == payloads[1..][..n - 1];
    }
  }

  lemma {:induction false} IndexIs(data: Bytes, i: nat)
    requires i < |data| && data[i] == NEWLINE && forall j | 0 <= j < i :: data[j] != NEWLINE
    ensures IndexOfNewline(data) == i
  {
    if i > 0 {
      IndexIs(data[1..], i - 1);
    }
  }

  lemma OneFrame<M>(p: Bytes, rest: Bytes, end: StreamEnd, unmarshal: Bytes -> Result<M>)
    requires Payload(p)
    ensures var input := Fresh(p + [NEWLINE] + rest, end);
            Answer(input, unmarshal) == Opened(unmarshal, p) && Next(input) == Fresh(rest, end)
  {
    var data := p + [NEWLINE] + rest;
    IndexIs(data, |p|);
    assert data[..|p|] == p && data[|p| + 1..] == rest;
  }

  /** Once the stream is read to its end, every further call says so. */
  lemma {:induction false} EndStays<M>(unmarshal: Bytes -> Result<M>, more: nat, k: nat)
    requires k < more
    ensures |Answers(Fresh([], Eof), unmarshal, more)| == more && Answers(Fresh([], Eof), unmarshal, more)[k] == EndOfStream
  {
    if more > 1 {
      EndStays(unmarshal, more - 1, if k > 0 then k - 1 else 0);
    }
  }

  lemma {:induction false} AnswersLength<M>(input: Input, unmarshal: Bytes -> Result<M>, n: nat)
    ensures |Answers(input, unmarshal, n)| == n
    decreases n
  {
    if n > 0 { AnswersLength(Next(input), unmarshal, n - 1); }
  }

  lemma NoFrames()
    ensures Frames([]) == []
  {
  }

  /**
   Decoding the frames of any payloads gives, call by call, what the codec makes of each payload, in order, a bad
   payload costing only itself; then the end of the stream, for ever.
   */
  lemma {:induction false} FramingRoundTrip<M>(payloads: seq<Bytes>, unmarshal: Bytes -> Result<M>, more: nat, k: nat)
    requires (forall i | 0 <= i < |payloads| :: 10 !in payloads[i] && |payloads[i]| <= 65536) && k < |payloads| + more
    ensures var answers := Answers(Fresh(Frames(payloads), Eof), unmarshal, |payloads| + more);
            |answers| == |payloads| + more
            && answers[k] == if k < |payloads| then Opened(unmarshal, payloads[k]) else EndOfStream
    decreases |payloads|
  {
    hide Answer, Next, Frames, Opened;
    AnswersLength(Fresh(Frames(payloads), Eof), unmarshal, |payloads| + more);
    if payloads == [] {
      assert Frames(payloads) == [] by { NoFrames(); }
      EndStays(unmarshal, more, k);
    } else {
      FramesFront(payloads);
      OneFrame(payloads[0], Frames(payloads[1..]), Eof, unmarshal);
      if k > 0 {
        FramingRoundTrip(payloads[1..], unmarshal, more, k - 1);
      }
    }
  }

  /** The message marshals to one line within the limit, from which it is unmarshalled again. */
  ghost predicate Carried<M>(marshal: M -> Result<Bytes>, unmarshal: Bytes -> Result<M>, message: M) {
    marshal(message).Success? && Payload(marshal(message).value) && unmarshal(marshal(message).value) == Success(message)
  }

  lemma CarriedEncodes<M>(marshal: M -> Result<Bytes>, unmarshal: Bytes -> Result<M>, messages: seq<M>)
    requires forall i | 0 <= i < |messages| :: Carried(marshal, unmarshal, messages[i])
    ensures forall i | 0 <= i < |messages| :: Encodes(marshal, messages[i])
  {
    forall i | 0 <= i < |messages| ensures Encodes(marshal, messages[i]) {
      assert Carried(marshal, unmarshal, messages[i]);
    }
  }

  lemma FramesAnswer<M>(marshal: M -> Result<Bytes>, unmarshal: Bytes -> Result<M>, messages: seq<M>, more: nat, k: nat)
    requires (forall i | 0 <= i < |messages| :: Carried(marshal, unmarshal, messages[i]) && Encodes(marshal, messages[i]))
    requires k < |messages| + more
    ensures var answers := Answers(Fresh(Frames(Marshalled(marshal, messages)), Eof), unmarshal, |messages| + more);
            |answers| == |messages| + more && answers[k] == if k < |messages| then Delivered(messages[k]) else EndOfStream
  {
    if k < |messages| { assert Carried(marshal, unmarshal, messages[k]); }
    hide Frames;
    FramingRoundTrip(Marshalled(marshal, messages), unmarshal, more, k);
  }

  lemma AnswersStep<M>(input: Input, unmarshal: Bytes -> Result<M>, n: nat)
    requires n > 0
    ensures Answers(input, unmarshal, n) == [Answer(input, unmarshal)] + Answers(Next(input), unmarshal, n - 1)
  {
  }

  /** Decode, n times. */
  method DecodeAll<M>(decoder: Decoder<M>, n: nat) returns (answers: seq<Decoded<M>>)
    requires decoder.Valid()
    modifies decoder
    ensures decoder.Valid() && answers == Answers(old(decoder.View()), decoder.unmarshal, n)
  {
    hide Answer, Next, Answers;
    answers := [];
    ghost var all := Answers(decoder.View(), decoder.unmarshal, n);
    for i := 0 to n
      invariant decoder.Valid()
      invariant all == answers + Answers(decoder.View(), decoder.unmarshal, n - i)
    {
      ghost var rest := Answers(Next(decoder.View()), decoder.unmarshal, n - i - 1);
      AnswersStep(decoder.View(), decoder.unmarshal, n - i);
      var r := decoder.Decode();
      assert answers + ([r] + rest) == (answers + [r]) + rest;
      answers := answers + [r];
    }
    AnswersLength(decoder.View(), decoder.unmarshal, 0);
    assert answers == all;
  }

  /**
   Messages encoded one after the other on a writer that takes any part of what it is given, decoded again from
   what the writer holds: the same messages in order, then the end of the stream, for ever.
   */
  method MessagesRoundTrip<M>(script: seq<WriteResult>, marshal: M -> Result<Bytes>, unmarshal: Bytes -> Result<M>,
                                  messages: seq<M>, more: nat)
    returns (answers: seq<Decoded<M>>)
    requires Steady(script) && forall i | 0 <= i < |messages| :: Carried(marshal, unmarshal, messages[i])
    ensures |answers| == |messages| + more
    ensures forall k | 0 <= k < |answers| :: answers[k] == if k < |messages| then Delivered(messages[k]) else EndOfStream
  {
    hide Answers, Frames, Carried, Encodes, Steady, Marshalled, Answer, Next;
    CarriedEncodes(marshal, unmarshal, messages);
    var writer := new Writer(script);
    var err := EncodeAll(writer, marshal, messages);
    assert [] + Frames(Marshalled(marshal, messages)) == Frames(Marshalled(marshal, messages));
    var decoder := new Decoder(writer.data, Eof, unmarshal);
    answers := DecodeAll(decoder, |messages| + more);
    AnswersLength(Fresh(Frames(Marshalled(marshal, messages)), Eof), unmarshal, |messages| + more);
    forall k | 0 <= k < |answers| ensures answers[k] == if k < |messages| then Delivered(messages[k]) else EndOfStream {
      FramesAnswer(marshal, unmarshal, messages, more, k);
    }
  }

  /**
   One call of Decode on what is left of a stream, in its own bytes: if a line feed comes within the first 65537 bytes, what stands
   before it is the payload and what stands after it is left; otherwise a stream that is longer than 65536 bytes is too large, a
   reader's error is passed on without sticking, and what is left at the end is nothing at all or an unterminated frame.
   */
  lemma DecodesExactly<M>(data: Bytes, end: StreamEnd, unmarshal: Bytes -> Result<M>, i: nat)
    requires i <= |data| && 10 !in data[..i] && (i < |data| ==> data[i] == 10)
    ensures var input := Fresh(data, end); var r, next := Answer(input, unmarshal), Next(input);
            if i < |data| && i <= 65536 then
              && next == Fresh(data[i + 1..], end)
              && r == match unmarshal(data[..i]) case Success(m) => Delivered(m) case Failure(error) => BadPayload(error)
            else if |data| > 65536 then r == TooLarge && next.tooLarge
            else if end.Broken? then r == ReadFailed(end.error) && next == Fresh([], end)
            else if |data| == 0 then r == EndOfStream && next == Fresh([], end)
            else r == Unterminated && next.unterminated
  {
    if i < |data| {
      assert forall j | 0 <= j < i :: data[..i][j] == data[j];
      IndexIs(data, i);
    } else {
      assert data[..i] == data && IndexOfNewline(data) == i;
    }
  }

  /** After either sticky failure every further call gives the same answer. */
  lemma {:induction false} FailureSticks<M>(input: Input, unmarshal: Bytes -> Result<M>, n: nat, k: nat)
    requires Answer(input, unmarshal) == TooLarge || Answer(input, unmarshal) == Unterminated
    requires k < n
    ensures |Answers(input, unmarshal, n)| == n && Answers(input, unmarshal, n)[k] == Answer(input, unmarshal)
    decreases n
  {
    assert Answer(Next(input), unmarshal) == Answer(input, unmarshal);
    AnswersLength(input, unmarshal, n);
    if k > 0 {
      FailureSticks(Next(input), unmarshal, n - 1, k - 1);
    }
  }

  /** When a decoder that has not failed fails. */
  lemma FailsExactly<M>(data: Bytes, end: StreamEnd, unmarshal: Bytes -> Result<M>)
    ensures Answer(Fresh(data, end), unmarshal) == TooLarge <==> |data| > MAX_FRAME_SIZE && NEWLINE !in data[..BUFFER_SIZE]
    ensures Answer(Fresh(data, end), unmarshal) == Unterminated <==>
              end == Eof && 0 < |data| <= MAX_FRAME_SIZE && NEWLINE !in data
  {
    var i := IndexOfNewline(data);
    if i < |data| {
      assert data[i] in data;
      if i < BUFFER_SIZE <= |data| {
        assert data[..BUFFER_SIZE][i] == NEWLINE;
      }
    } else {
      assert data[..i] == data;
    }
    if BUFFER_SIZE <= i {
      assert data[..BUFFER_SIZE] == data[..i][..BUFFER_SIZE];
    }
  }
}
