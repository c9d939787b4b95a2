/** The signature engine: streaming match, loading, and reloading (pkg/signatures/signatures.go). */
module Signatures {
  import opened Wrappers
  import opened ByteData
  import Utf8

  const MATCH_BUFFER_SIZE: nat := 32 * 1024

  /** Published databases are never changed. */
  datatype Database = Database(patterns: seq<Bytes>, patternSet: set<Bytes>, maxPatternLength: nat)

  // ----- occurrence

  /** `pattern` stands in `content` at offset i. */
  predicate StandsAt(content: Bytes, pattern: Bytes, i: int) {
    0 <= i <= |content| - |pattern| && content[i..i + |pattern|] == pattern
  }

  /** bytes.Contains */
  predicate Occurs(content: Bytes, pattern: Bytes) { exists i | 0 <= i <= |content| - |pattern| :: StandsAt(content, pattern, i) }

  predicate AnyOccurs(content: Bytes, patterns: seq<Bytes>) { exists i | 0 <= i < |patterns| :: Occurs(content, patterns[i]) }

  /** `pattern` is the one of lowest index that occurs. */
  ghost predicate Lowest(content: Bytes, patterns: seq<Bytes>, pattern: Bytes) {
    exists i :: 0 <= i < |patterns| && patterns[i] == pattern && Occurs(content, pattern)
                && forall j | 0 <= j < i :: !Occurs(content, patterns[j])
  }

  // ----- reading

  datatype ReadEnd = Eof | Broken(error: string)

  /** One result of Read: some bytes, and perhaps the end. */
  datatype Chunk = Chunk(data: Bytes, end: Option<ReadEnd>)

  /** How many reads the matcher makes if it finds nothing. */
  function Reads(script: seq<Chunk>): (n: nat)
    ensures n <= |script|
  {
    if script == [] then 0
    else if script[0].end.Some? || script[0].data == [] then 1
    else 1 + Reads(script[1..])
  }

  function Flat(chunks: seq<Chunk>): Bytes {
    if chunks == [] then [] else Flat(chunks[..|chunks| - 1]) + chunks[|chunks| - 1].data
  }

  /** Everything the reader delivers before the matcher would stop. */
  function Delivered(script: seq<Chunk>): Bytes { Flat(script[..Reads(script)]) }

  datatype Outcome = Found(pattern: Bytes) | NotFound | Failed(error: string) | NoProgress

  /** The answer when nothing is found: how the reading ended. A reader that says no more is at its end. */
  function Ending(script: seq<Chunk>): Outcome {
    var n := Reads(script);
    if n == 0 then NotFound
    else
      match script[n - 1].end
      case Some(Eof) => NotFound
      case Some(Broken(error)) => Failed(error)
      case None => if script[n - 1].data == [] then NoProgress else NotFound
  }

  /** What a match must answer: the lowest pattern in the first delivered prefix that holds any, else how reading ended. */
  ghost predicate RightAnswer(patterns: seq<Bytes>, script: seq<Chunk>, r: Outcome) {
    if AnyOccurs(Delivered(script), patterns) then
      r.Found? && exists n | 0 <= n <= Reads(script) ::
        FirstPrefix(patterns, script, n) && Lowest(Flat(script[..n]), patterns, r.pattern)
    else r == Ending(script)
  }

  ghost predicate FirstPrefix(patterns: seq<Bytes>, script: seq<Chunk>, n: nat)
    requires n <= |script|
  {
    AnyOccurs(Flat(script[..n]), patterns) && forall m | 0 <= m < n :: !AnyOccurs(Flat(script[..m]), patterns)
  }

  /** The store publishes one database at a time; a match works on the one it found when it began. */
  class Store {
    var current: Option<Database>

    constructor (database: Database)
      ensures current == Some(database)
    {
      current := Some(database);
    }

    /** A database that does not load leaves the published one in place. */
    method Reload(file: File) returns (count: Result<nat>)
      modifies this
      ensures Loaded(file).Failure? ==> count == Failure(Loaded(file).error) && current == old(current)
      ensures Loaded(file).Success? ==> count == Success(|Loaded(file).value.patterns|) && current == Some(Loaded(file).value)
    {
      var r := Load(file);
      match r
      case Failure(error) => return Failure(error);
      case Success(database) =>
        current := Some(database);
        LoadedIsNormal(file);
        DistinctCount(database.patterns);
        return Success(|database.patternSet|);
    }

    /** The answer is right for the database published at the start, whatever is published meanwhile. */
    method Match(reader: Option<Reader>) returns (r: Outcome)
      requires current.Some? ==> Normal(current.value)
      modifies if reader.Some? then {reader.value, reader.value.store} else {}
      ensures reader.None? ==> r == Failed(NO_READER)
      ensures reader.Some? && old(current).None? ==> r == Failed(NOT_INITIALIZED)
      ensures reader.Some? && old(current).Some? ==> RightAnswer(old(current).value.patterns, old(reader.value.script), r)
    {
      if reader.None? {
        return Failed(NO_READER);
      }
      var database := current;
      if database.None? {
        return Failed(NOT_INITIALIZED);
      }
      r := MatchContent(database.value, reader.value);
    }
  }

  const NO_READER := "signature match reader must not be nil"
  const NOT_INITIALIZED := "signature store is not initialized"

  /** A reader that other goroutines run beside: before each read answers, they may have swapped the store's database. */
  class Reader {
    var script: seq<Chunk>
    var swaps: seq<seq<Database>>
    const store: Store

    constructor (script: seq<Chunk>, swaps: seq<seq<Database>>, store: Store)
      ensures this.script == script && this.swaps == swaps && this.store == store
    {
      this.script, this.swaps, this.store := script, swaps, store;
    }

    method Read() returns (chunk: Chunk)
      modifies this, store
      ensures old(script) == [] ==> chunk == Chunk([], Some(Eof)) && script == []
      ensures old(script) != [] ==> chunk == old(script)[0] && script == old(script)[1..]
      ensures old(store.current).Some? ==> store.current.Some?
    {
      if swaps != [] {
        if swaps[0] != [] {
          store.current := Some(swaps[0][|swaps[0]| - 1]);
        }
        swaps := swaps[1..];
      }
      if script == [] {
        return Chunk([], Some(Eof));
      }
      chunk := script[0];
      script := script[1..];
    }
  }

  // ----- matching

  ghost predicate PatternsFit(patterns: seq<Bytes>, maxLength: nat) {
    forall i | 0 <= i < |patterns| :: 0 < |patterns[i]| <= maxLength
  }

  /** What is kept of the content seen so far: its last maxLength - 1 bytes. */
  function Tail(content: Bytes, maxLength: nat): Bytes {
    var keep := if maxLength == 0 then 0 else maxLength - 1;
    if keep > |content| then content else content[|content| - keep..]
  }

  lemma StandsEarly(content: Bytes, more: Bytes, pattern: Bytes, i: int)
    requires StandsAt(content + more, pattern, i) && i + |pattern| <= |content|
    ensures Occurs(content, pattern)
  {
    assert (content + more)[i..i + |pattern|] == content[i..i + |pattern|];
    assert StandsAt(content, pattern, i);
  }

  /** A pattern that does not occur yet occurs after the next chunk iff it occurs in the window. */
  lemma WindowSuffices(content: Bytes, more: Bytes, pattern: Bytes, maxLength: nat)
    requires 0 < |pattern| <= maxLength && !Occurs(content, pattern)
    ensures Occurs(content + more, pattern) <==> Occurs(Tail(content, maxLength) + more, pattern)
  {
    var tail := Tail(content, maxLength);
    var window := tail + more;
    var whole := content + more;
    var shift := |content| - |tail|;
    assert whole[shift..] == window;
    if Occurs(whole, pattern) {
      var i :| 0 <= i <= |whole| - |pattern| && StandsAt(whole, pattern, i);
      if i + |pattern| <= |content| {
        StandsEarly(content, more, pattern, i);
      } else {
        assert window[i - shift..i - shift + |pattern|] == whole[i..i + |pattern|];
        assert StandsAt(window, pattern, i - shift);
      }
    }
    if Occurs(window, pattern) {
      var i :| 0 <= i <= |window| - |pattern| && StandsAt(window, pattern, i);
      assert whole[i + shift..i + shift + |pattern|] == window[i..i + |pattern|];
      assert StandsAt(whole, pattern, i + shift);
    }
  }

  /** Keeping the tail of the window is keeping the tail of everything. */
  lemma TailOfWindow(content: Bytes, more: Bytes, maxLength: nat)
    ensures Tail(Tail(content, maxLength) + more, maxLength) == Tail(content + more, maxLength)
  {
    var tail := Tail(content, maxLength);
    assert (content + more)[|content| - |tail|..] == tail + more;
  }

  lemma FlatMore(script: seq<Chunk>, n: nat)
    requires n < |script|
    ensures Flat(script[..n + 1]) == Flat(script[..n]) + script[n].data
  {
    assert script[..n + 1][..n] == script[..n];
  }

  lemma {:induction false} ReadsOn(script: seq<Chunk>, n: nat)
    requires n <= |script| && forall i | 0 <= i < n :: script[i].end.None? && script[i].data != []
    ensures n <= Reads(script)
    ensures n < |script| ==> n < Reads(script)
    ensures n < |script| && (script[n].end.Some? || script[n].data == []) ==> Reads(script) == n + 1
    ensures n == |script| ==> Reads(script) == n
  {
    if n > 0 {
      ReadsOn(script[1..], n - 1);
    }
  }

  /** What occurs in a prefix occurs in the whole. */
  lemma OccursLater(content: Bytes, more: Bytes, patterns: seq<Bytes>)
    requires AnyOccurs(content, patterns)
    ensures AnyOccurs(content + more, patterns)
  {
    var k :| 0 <= k < |patterns| && Occurs(content, patterns[k]);
    var i :| 0 <= i <= |content| - |patterns[k]| && StandsAt(content, patterns[k], i);
    assert (content + more)[i..i + |patterns[k]|] == content[i..i + |patterns[k]|];
    assert StandsAt(content + more, patterns[k], i);
  }

  lemma {:induction false} PrefixOccurs(script: seq<Chunk>, m: nat, n: nat, patterns: seq<Bytes>)
    requires m <= n <= |script| && AnyOccurs(Flat(script[..m]), patterns)
    ensures AnyOccurs(Flat(script[..n]), patterns)
  {
    if m < n {
      PrefixOccurs(script, m, n - 1, patterns);
      FlatMore(script, n - 1);
      OccursLater(Flat(script[..n - 1]), script[n - 1].data, patterns);
    }
  }

  /** The search of one window: the first pattern, in order, that occurs in it. */
  method SearchWindow(window: Bytes, patterns: seq<Bytes>) returns (found: Option<Bytes>)
    ensures found.Some? <==> AnyOccurs(window, patterns)
    ensures found.Some? ==> Lowest(window, patterns, found.value)
  {
    for i := 0 to |patterns|
      invariant forall j | 0 <= j < i :: !Occurs(window, patterns[j])
    {
      if Occurs(window, patterns[i]) {
        return Some(patterns[i]);
      }
    }
    return None;
  }

  /** With nothing found before, the window answers for everything delivered so far. */
  lemma WindowAnswers(content: Bytes, more: Bytes, patterns: seq<Bytes>, maxLength: nat)
    requires PatternsFit(patterns, maxLength) && !AnyOccurs(content, patterns)
    ensures var window := Tail(content, maxLength) + more;
            && (AnyOccurs(content + more, patterns) <==> AnyOccurs(window, patterns))
            && forall p :: Lowest(content + more, patterns, p) <==> Lowest(window, patterns, p)
  {
    var window := Tail(content, maxLength) + more;
    hide Occurs, Tail;
    forall i | 0 <= i < |patterns| ensures Occurs(content + more, patterns[i]) <==> Occurs(window, patterns[i]) {
      WindowSuffices(content, more, patterns[i], maxLength);
    }
    hide AnyOccurs;
    forall p ensures Lowest(content + more, patterns, p) <==> Lowest(window, patterns, p) {
    }
  }

  /** database.match */
  method MatchContent(database: Database, reader: Reader) returns (r: Outcome)
    requires PatternsFit(database.patterns, database.maxPatternLength)
    modifies reader, reader.store
    ensures RightAnswer(database.patterns, old(reader.script), r)
  {
    hide AnyOccurs, Lowest, Tail;
    ghost var script := reader.script;
    ghost var n := 0;
    ghost var seen: Bytes := [];
    var tail: Bytes := [];
    NothingYet(database.patterns, database.maxPatternLength);
    while true
      invariant n <= |script| && reader.script == script[n..]
      invariant forall i | 0 <= i < n :: script[i].end.None? && script[i].data != []
      invariant seen == Flat(script[..n]) && !AnyOccurs(seen, database.patterns)
      invariant tail == Tail(seen, database.maxPatternLength)
      decreases |reader.script|
    {
      ReadsOn(script, n);
      if n < |script| { FlatMore(script, n); }
      var chunk := reader.Read();
      if |chunk.data| > 0 {
        var window := tail + chunk.data;
        WindowAnswers(seen, chunk.data, database.patterns, database.maxPatternLength);
        var found := SearchWindow(window, database.patterns);
        if found.Some? {
          FoundIsRight(database.patterns, script, n, found.value);
          return Found(found.value);
        }
        TailOfWindow(seen, chunk.data, database.maxPatternLength);
        tail := KeepTail(window, database.maxPatternLength);
        seen := seen + chunk.data;
      }
      if chunk.end.Some? || |chunk.data| == 0 {
        EndIsRight(database.patterns, script, n, seen);
        if chunk.end.Some? {
          match chunk.end.value
          case Eof => return NotFound;
          case Broken(error) => return Failed(error);
        }
        return NoProgress;
      }
      n := n + 1;
    }
  }

  lemma NothingYet(patterns: seq<Bytes>, maxLength: nat)
    requires PatternsFit(patterns, maxLength)
    ensures !AnyOccurs([], patterns) && Tail([], maxLength) == []
  {
  }

  method KeepTail(window: Bytes, maxLength: nat) returns (tail: Bytes)
    ensures tail == Tail(window, maxLength)
  {
    var keep: int := maxLength - 1;
    if keep > |window| {
      keep := |window|;
    }
    if keep > 0 {
      tail := window[|window| - keep..];
    } else {
      tail := [];
    }
  }

  lemma FoundIsRight(patterns: seq<Bytes>, script: seq<Chunk>, n: nat, pattern: Bytes)
    requires n < Reads(script) && !AnyOccurs(Flat(script[..n]), patterns)
    requires AnyOccurs(Flat(script[..n + 1]), patterns) && Lowest(Flat(script[..n + 1]), patterns, pattern)
    ensures RightAnswer(patterns, script, Found(pattern))
  {
    hide AnyOccurs, Lowest;
    PrefixOccurs(script, n + 1, Reads(script), patterns);
    forall m | 0 <= m < n + 1 ensures !AnyOccurs(Flat(script[..m]), patterns) {
      if AnyOccurs(Flat(script[..m]), patterns) { PrefixOccurs(script, m, n, patterns); }
    }
    assert FirstPrefix(patterns, script, n + 1);
  }

  lemma EndIsRight(patterns: seq<Bytes>, script: seq<Chunk>, n: nat, seen: Bytes)
    requires n <= |script| && !AnyOccurs(seen, patterns)
    requires Reads(script) == if n < |script| then n + 1 else n
    requires forall i | 0 <= i < n :: script[i].end.None? && script[i].data != []
    requires n < |script| ==> (script[n].end.Some? || script[n].data == []) && seen == Flat(script[..n + 1])
    requires n == |script| ==> seen == Flat(script[..n])
    ensures n < |script| && script[n].end == Some(Eof) ==> RightAnswer(patterns, script, NotFound)
    ensures n < |script| && script[n].end.Some? && script[n].end.value.Broken? ==>
              RightAnswer(patterns, script, Failed(script[n].end.value.error))
    ensures n < |script| && script[n].end.None? ==> RightAnswer(patterns, script, NoProgress)
    ensures n == |script| ==> RightAnswer(patterns, script, NotFound)
  {
    hide AnyOccurs;
  }

  /** Whether something is found depends on the bytes delivered, not on how they were cut into reads. */
  lemma ChunkingIrrelevant(patterns: seq<Bytes>, a: seq<Chunk>, b: seq<Chunk>, ra: Outcome, rb: Outcome)
    requires RightAnswer(patterns, a, ra) && RightAnswer(patterns, b, rb) && Delivered(a) == Delivered(b)
    ensures ra.Found? <==> rb.Found?
    ensures ra.Found? <==> AnyOccurs(Delivered(a), patterns)
  {
    EndingIsNotFound(a);
    EndingIsNotFound(b);
  }

  lemma EndingIsNotFound(script: seq<Chunk>)
    ensures !Ending(script).Found?
  {
  }

  // ----- when the cuts matter

  /** The matcher can report r on some content cut into reads of at most `limit` bytes, or of any size. */
  ghost predicate Reports(patterns: seq<Bytes>, script: seq<Chunk>, content: Bytes, limit: Option<nat>, r: Bytes) {
    && Delivered(script) == content && RightAnswer(patterns, script, Found(r))
    && (limit.Some? ==> forall i | 0 <= i < |script| :: |script[i].data| <= limit.value)
  }

  /** The shortest prefix of the content that holds a pattern has length `least`. */
  ghost predicate FirstAt(patterns: seq<Bytes>, content: Bytes, least: nat) {
    least <= |content| && AnyOccurs(content[..least], patterns) && forall n | 0 <= n < least :: !AnyOccurs(content[..n], patterns)
  }

  /** The longest prefix that can be searched first: everything, or one full read after the last that holds nothing. */
  function Reach(content: Bytes, least: nat, limit: Option<nat>): (n: nat)
    requires 0 < least <= |content| && (limit.Some? ==> limit.value > 0)
    ensures least <= n <= |content|
  {
    if limit.None? || least - 1 + limit.value > |content| then |content| else least - 1 + limit.value
  }

  lemma {:induction false} FlatPrefix(script: seq<Chunk>, m: nat, n: nat)
    requires m <= n <= |script|
    ensures Flat(script[..m]) <= Flat(script[..n])
  {
    if m < n {
      FlatPrefix(script, m, n - 1);
      FlatMore(script, n - 1);
    }
  }

  lemma PrefixHolds(patterns: seq<Bytes>, content: Bytes, m: nat, n: nat, i: nat)
    requires m <= n <= |content| && i < |patterns| && Occurs(content[..m], patterns[i])
    ensures Occurs(content[..n], patterns[i])
  {
    var k :| 0 <= k <= m - |patterns[i]| && StandsAt(content[..m], patterns[i], k);
    assert content[..n][k..k + |patterns[i]|] == content[..m][k..k + |patterns[i]|];
    assert StandsAt(content[..n], patterns[i], k);
  }

  /** Between two prefixes with the same lowest pattern every prefix has it. */
  lemma Between(patterns: seq<Bytes>, content: Bytes, l: nat, m: nat, n: nat, p: Bytes, r: Bytes)
    requires l <= m <= n <= |content|
    requires Lowest(content[..l], patterns, p) && Lowest(content[..m], patterns, r) && Lowest(content[..n], patterns, p)
    ensures r == p
  {
    hide Occurs;
    var i :| 0 <= i < |patterns| && patterns[i] == p && Occurs(content[..l], p) && forall j | 0 <= j < i :: !Occurs(content[..l], patterns[j]);
    var j :| 0 <= j < |patterns| && patterns[j] == r && Occurs(content[..m], r) && forall k | 0 <= k < j :: !Occurs(content[..m], patterns[k]);
    var k :| 0 <= k < |patterns| && patterns[k] == p && Occurs(content[..n], p) && forall x | 0 <= x < k :: !Occurs(content[..n], patterns[x]);
    PrefixHolds(patterns, content, l, m, i);
    PrefixHolds(patterns, content, m, n, j);
    assert j <= i && k <= j;
  }

  lemma FlatNone(script: seq<Chunk>)
    ensures Flat(script[..0]) == []
  {
  }

  /** The prefix at which a match is reported lies between the shortest and the reach. */
  lemma ReportedWithin(patterns: seq<Bytes>, script: seq<Chunk>, content: Bytes, limit: Option<nat>, least: nat, r: Bytes) returns (m: nat)
    requires FirstAt(patterns, content, least) && 0 < least && (limit.Some? ==> limit.value > 0)
    requires Reports(patterns, script, content, limit, r)
    ensures least <= m <= Reach(content, least, limit) && Lowest(content[..m], patterns, r)
  {
    hide AnyOccurs, Lowest, Flat;
    EndingIsNotFound(script);
    assert AnyOccurs(Delivered(script), patterns);
    var n :| 0 <= n <= Reads(script) && FirstPrefix(patterns, script, n) && Lowest(Flat(script[..n]), patterns, r);
    FlatPrefix(script, n, Reads(script));
    m := |Flat(script[..n])|;
    assert Flat(script[..n]) == content[..m];
    assert content[..0] == [];
    FlatNone(script);
    if n > 0 {
      FlatMore(script, n - 1);
      FlatPrefix(script, n - 1, Reads(script));
      var before := |Flat(script[..n - 1])|;
      assert Flat(script[..n - 1]) == content[..before];
      if before >= least {
        HoldsLater(patterns, content, least, before);
      }
    }
  }

  lemma HoldsLater(patterns: seq<Bytes>, content: Bytes, m: nat, n: nat)
    requires m <= n <= |content| && AnyOccurs(content[..m], patterns)
    ensures AnyOccurs(content[..n], patterns)
  {
    var i :| 0 <= i < |patterns| && Occurs(content[..m], patterns[i]);
    PrefixHolds(patterns, content, m, n, i);
  }

  function Singles(content: Bytes): seq<Chunk> { seq(|content|, i requires 0 <= i < |content| => Chunk([content[i]], None)) }

  /** The content read byte by byte, but for one read of k bytes after the first m, and then the end. */
  function CutAt(content: Bytes, m: nat, k: nat): seq<Chunk>
    requires 0 < k && m + k <= |content|
  {
    Singles(content[..m]) + [Chunk(content[m..m + k], None)] + Singles(content[m + k..]) + [Chunk([], Some(Eof))]
  }

  /** How much of the content the first n chunks of the cut hold. */
  function Boundary(size: nat, m: nat, k: nat, n: nat): nat
    requires 0 < k && m + k <= size
  {
    if n <= m then n else if n - 1 + k > size then size else n - 1 + k
  }

  lemma CutChunk(content: Bytes, m: nat, k: nat, n: nat)
    requires 0 < k && m + k <= |content| && n < |content| - k + 2
    ensures |CutAt(content, m, k)| == |content| - k + 2
    ensures var from, to := Boundary(|content|, m, k, n), Boundary(|content|, m, k, n + 1);
            from <= to <= |content| && CutAt(content, m, k)[n].data == content[from..to]
  {
  }

  lemma {:induction false} CutFlat(content: Bytes, m: nat, k: nat, n: nat)
    requires 0 < k && m + k <= |content| && n <= |content| - k + 2
    ensures |CutAt(content, m, k)| == |content| - k + 2 && Boundary(|content|, m, k, n) <= |content|
    ensures Flat(CutAt(content, m, k)[..n]) == content[..Boundary(|content|, m, k, n)]
  {
    hide CutAt, Boundary, Flat;
    CutChunk(content, m, k, if n > 0 then n - 1 else 0);
    var script := CutAt(content, m, k);
    if n > 0 {
      CutFlat(content, m, k, n - 1);
      FlatMore(script, n - 1);
      var from, to := Boundary(|content|, m, k, n - 1), Boundary(|content|, m, k, n);
      assert content[..to] == content[..from] + content[from..to];
    } else {
      NoChunks(content, m, k);
    }
  }

  lemma NoChunks(content: Bytes, m: nat, k: nat)
    requires 0 < k && m + k <= |content|
    ensures Boundary(|content|, m, k, 0) == 0 && Flat(CutAt(content, m, k)[..0]) == []
  {
  }

  lemma CutDelivers(content: Bytes, m: nat, k: nat)
    requires 0 < k && m + k <= |content|
    ensures var script := CutAt(content, m, k);
            Reads(script) == |script| == |content| - k + 2 && Delivered(script) == content
  {
    var script := CutAt(content, m, k);
    var n := |content| - k + 1;
    CutFlat(content, m, k, n + 1);
    ReadsOn(script, n);
    assert script[n] == Chunk([], Some(Eof));
    assert script[..|script|] == script;
  }

  /** With that cut, what is reported is what the first m + k bytes hold, if the first m hold nothing. */
  lemma CutReports(patterns: seq<Bytes>, content: Bytes, limit: Option<nat>, least: nat, k: nat, r: Bytes)
    requires FirstAt(patterns, content, least) && 0 < least && 0 < k && least - 1 + k <= |content|
    requires Lowest(content[..least - 1 + k], patterns, r) && (limit.Some? ==> k <= limit.value)
    ensures Reports(patterns, CutAt(content, least - 1, k), content, limit, r)
  {
    hide AnyOccurs, Lowest, CutAt, Flat, Reads;
    var m := least - 1;
    var script := CutAt(content, m, k);
    CutDelivers(content, m, k);
    assert content[..|content|] == content;
    HoldsLater(patterns, content, least, m + k);
    HoldsLater(patterns, content, least, |content|);
    CutFlat(content, m, k, m + 1);
    forall n | 0 <= n < m + 1 ensures !AnyOccurs(Flat(script[..n]), patterns) {
      CutFlat(content, m, k, n);
    }
    assert FirstPrefix(patterns, script, m + 1);
    CutSizes(content, m, k, limit);
  }

  lemma CutSizes(content: Bytes, m: nat, k: nat, limit: Option<nat>)
    requires 0 < k && m + k <= |content| && (limit.Some? ==> k <= limit.value)
    ensures limit.Some? ==> forall i | 0 <= i < |CutAt(content, m, k)| :: |CutAt(content, m, k)[i].data| <= limit.value
  {
  }

  /**
   For reads of at most `limit` bytes, or of any size: every way to cut the content gives the same pattern if and
   only if the shortest prefix that holds a pattern and the reach have the same lowest pattern.
   */
  lemma CutsAgreeExactly(patterns: seq<Bytes>, content: Bytes, limit: Option<nat>, least: nat, p: Bytes, q: Bytes)
    requires FirstAt(patterns, content, least) && 0 < least && (limit.Some? ==> limit.value > 0)
    requires Lowest(content[..least], patterns, p) && Lowest(content[..Reach(content, least, limit)], patterns, q)
    ensures (forall a, b, r, s | Reports(patterns, a, content, limit, r) && Reports(patterns, b, content, limit, s) :: r == s) <==> p == q
  {
    hide Reports, FirstAt, Lowest;
    var reach := Reach(content, least, limit);
    if p == q {
      forall a, b, r, s | Reports(patterns, a, content, limit, r) && Reports(patterns, b, content, limit, s) ensures r == s {
        var m := ReportedWithin(patterns, a, content, limit, least, r);
        Between(patterns, content, least, m, reach, p, r);
        var n := ReportedWithin(patterns, b, content, limit, least, s);
        Between(patterns, content, least, n, reach, p, s);
      }
    }
    CutReports(patterns, content, limit, least, 1, p);
    CutReports(patterns, content, limit, least, reach - (least - 1), q);
  }

  /** Without a bound on reads: the pattern depends on the cut unless the whole content has the same lowest pattern as its shortest holding prefix. */
  lemma AnyCutsAgree(patterns: seq<Bytes>, content: Bytes, least: nat, p: Bytes, q: Bytes)
    requires FirstAt(patterns, content, least) && !AnyOccurs([], patterns)
    requires Lowest(content[..least], patterns, p) && Lowest(content, patterns, q)
    ensures (forall a, b, r, s | Reports(patterns, a, content, None, r) && Reports(patterns, b, content, None, s) :: r == s) <==> p == q
  {
    assert content[..0] == [] && content[..|content|] == content;
    hide AnyOccurs, Lowest, Reports;
    assert 0 < least;
    CutsAgreeExactly(patterns, content, None, least, p, q);
  }

  /** With the matcher's own buffer the reach is one buffer. */
  lemma BufferCutsAgree(patterns: seq<Bytes>, content: Bytes, least: nat, reach: nat, p: Bytes, q: Bytes)
    requires FirstAt(patterns, content, least) && !AnyOccurs([], patterns)
    requires reach == (if least - 1 + MATCH_BUFFER_SIZE > |content| then |content| else least - 1 + MATCH_BUFFER_SIZE)
    requires Lowest(content[..least], patterns, p) && Lowest(content[..reach], patterns, q)
    ensures (forall a, b, r, s |
               Reports(patterns, a, content, Some(MATCH_BUFFER_SIZE), r) && Reports(patterns, b, content, Some(MATCH_BUFFER_SIZE), s) ::
               r == s) <==> p == q
  {
    assert content[..0] == [];
    hide AnyOccurs, Lowest, Reports;
    assert 0 < least;
    CutsAgreeExactly(patterns, content, Some(MATCH_BUFFER_SIZE), least, p, q);
  }

  const BA: seq<Bytes> := [[2], [1]]
  const WHOLE: seq<Chunk> := [Chunk([1, 2], Some(Eof))]
  const CUT: seq<Chunk> := [Chunk([1], None), Chunk([2], Some(Eof))]

  lemma WholeAndCut()
    ensures Reads(WHOLE) == 1 && WHOLE[..1] == WHOLE && Flat(WHOLE[..0]) == [] && Flat(WHOLE) == [1, 2]
    ensures Reads(CUT) == 2 && CUT[..2] == CUT && Flat(CUT[..0]) == [] && Flat(CUT[..1]) == [1] && Flat(CUT) == [1, 2]
  {
    assert CUT[1..] == [Chunk([2], Some(Eof))];
    FlatMore(WHOLE, 0);
    FlatMore(CUT, 0);
    FlatMore(CUT, 1);
  }

  lemma OneAndTwo()
    ensures !AnyOccurs([], BA) && AnyOccurs([1], BA) && AnyOccurs([1, 2], BA)
    ensures Lowest([1], BA, [1]) && Lowest([1, 2], BA, [2])
  {
    var one, two: Bytes := [1], [1, 2];
    assert StandsAt(one, BA[1], 0) && StandsAt(two, BA[0], 1);
    assert Occurs(one, BA[1]) && Occurs(two, BA[0]);
  }

  /** Which pattern is reported does depend on the cuts. */
  lemma ChunkingChoosesPattern()
    ensures Delivered(WHOLE) == Delivered(CUT)
    ensures RightAnswer(BA, WHOLE, Found([2])) && RightAnswer(BA, CUT, Found([1]))
  {
    WholeAndCut();
    OneAndTwo();
    hide Lowest, AnyOccurs, Flat, Reads;
    assert FirstPrefix(BA, WHOLE, 1) && FirstPrefix(BA, CUT, 1);
  }

  // ----- loading

  function Newline(): Bytes { [NEWLINE] }

  /** bytes.Split at the newlines: one piece more than there are newlines. */
  function Lines(data: Bytes): (lines: seq<Bytes>)
    ensures lines != [] && forall i | 0 <= i < |lines| :: NEWLINE !in lines[i]
  {
    if data == [] then [[]]
    else if data[0] == NEWLINE then [[]] + Lines(data[1..])
    else
      var rest := Lines(data[1..]);
      [[data[0]] + rest[0]] + rest[1..]
  }

  /** bytes.TrimSuffix of one carriage return. */
  function TrimReturn(line: Bytes): Bytes {
    if line != [] && line[|line| - 1] == RETURN then line[..|line| - 1] else line
  }

  predicate Skipped(line: Bytes) { line == [] || line[0] == HASH }

  /** The patterns of the lines, each where it first occurs. */
  function Patterns(lines: seq<Bytes>): seq<Bytes> {
    if lines == [] then []
    else
      var n := |lines| - 1;
      var earlier := Patterns(lines[..n]);
      var line := TrimReturn(lines[n]);
      if Skipped(line) || line in earlier then earlier else earlier + [line]
  }

  function MaxLength(patterns: seq<Bytes>): nat {
    if patterns == [] then 0
    else
      var n := |patterns| - 1;
      var m := MaxLength(patterns[..n]);
      if |patterns[n]| > m then |patterns[n]| else m
  }

  function DatabaseOf(patterns: seq<Bytes>): Database { Database(patterns, (set p | p in patterns), MaxLength(patterns)) }

  /** What opening and reading the file came to. */
  datatype File = File(statError: Option<string>, regular: bool, readError: Option<string>, data: Bytes)

  /** A regular file that can be read. */
  function Readable(data: Bytes): File { File(None, true, None, data) }

  const NOT_REGULAR := "signature database is not a regular file"
  const NOT_UTF8 := "signature database is not valid UTF-8"

  function Loaded(file: File): Result<Database> {
    if file.statError.Some? then Failure(file.statError.value)
    else if !file.regular then Failure(NOT_REGULAR)
    else if file.readError.Some? then Failure(file.readError.value)
    else if !Utf8.Valid(file.data) then Failure(NOT_UTF8)
    else Success(DatabaseOf(Patterns(Lines(file.data))))
  }

  lemma PatternsMore(lines: seq<Bytes>, i: nat)
    requires i < |lines|
    ensures var line := TrimReturn(lines[i]); var earlier := Patterns(lines[..i]);
            Patterns(lines[..i + 1]) == if Skipped(line) || line in earlier then earlier else earlier + [line]
  {
    assert lines[..i + 1][..i] == lines[..i];
  }

  lemma MaxMore(patterns: seq<Bytes>, line: Bytes)
    ensures MaxLength(patterns + [line]) == if |line| > MaxLength(patterns) then |line| else MaxLength(patterns)
  {
    assert (patterns + [line])[..|patterns|] == patterns;
  }

  method Load(file: File) returns (r: Result<Database>)
    ensures r == Loaded(file)
  {
    if file.statError.Some? {
      return Failure(file.statError.value);
    }
    if !file.regular {
      return Failure(NOT_REGULAR);
    }
    if file.readError.Some? {
      return Failure(file.readError.value);
    }
    if !Utf8.Valid(file.data) {
      return Failure(NOT_UTF8);
    }
    var patterns: seq<Bytes> := [];
    var patternSet: set<Bytes> := {};
    var maxPatternLength := 0;
    var lines := Lines(file.data);
    assert lines[..0] == [];
    for i := 0 to |lines|
      invariant patterns == Patterns(lines[..i])
      invariant patternSet == set p | p in patterns
      invariant maxPatternLength == MaxLength(patterns)
    {
      PatternsMore(lines, i);
      MaxMore(patterns, TrimReturn(lines[i]));
      hide Patterns, Lines, MaxLength;
      var line := TrimReturn(lines[i]);
      if |line| == 0 || line[0] == HASH {
        continue;
      }
      if line in patternSet {
        continue;
      }
      patternSet := patternSet + {line};
      patterns := patterns + [line];
      if |line| > maxPatternLength {
        maxPatternLength := |line|;
      }
    }
    assert lines[..|lines|] == lines;
    return Success(Database(patterns, patternSet, maxPatternLength));
  }

  /** Distinct, not empty, free of newlines, no comments; the set is theirs and the maximum exact. */
  ghost predicate Normal(d: Database) {
    && (forall i, j | 0 <= i < j < |d.patterns| :: d.patterns[i] != d.patterns[j])
    && (forall i | 0 <= i < |d.patterns| :: !Skipped(d.patterns[i]) && NEWLINE !in d.patterns[i])
    && d.patternSet == (set p | p in d.patterns)
    && (forall i | 0 <= i < |d.patterns| :: |d.patterns[i]| <= d.maxPatternLength)
    && (if d.patterns == [] then d.maxPatternLength == 0
        else exists i :: 0 <= i < |d.patterns| && |d.patterns[i]| == d.maxPatternLength)
  }

  lemma {:induction false} MaxIsExact(patterns: seq<Bytes>)
    ensures forall i | 0 <= i < |patterns| :: |patterns[i]| <= MaxLength(patterns)
    ensures if patterns == [] then MaxLength(patterns) == 0
            else exists i :: 0 <= i < |patterns| && |patterns[i]| == MaxLength(patterns)
  {
    if patterns != [] {
      var n := |patterns| - 1;
      MaxIsExact(patterns[..n]);
      if |patterns[n]| > MaxLength(patterns[..n]) {
        assert |patterns[n]| == MaxLength(patterns);
      } else if n > 0 {
        var i :| 0 <= i < n && |patterns[..n][i]| == MaxLength(patterns[..n]);
        assert |patterns[i]| == MaxLength(patterns);
      }
    }
  }

  /** The patterns are exactly the lines, trimmed, that are neither empty nor comments; each once. */
  lemma {:induction false} PatternsExactly(lines: seq<Bytes>)
    requires forall i | 0 <= i < |lines| :: NEWLINE !in lines[i]
    ensures forall p :: p in Patterns(lines) <==> !Skipped(p) && exists i :: 0 <= i < |lines| && TrimReturn(lines[i]) == p
    ensures forall i | 0 <= i < |Patterns(lines)| :: NEWLINE !in Patterns(lines)[i]
    ensures forall i, j | 0 <= i < j < |Patterns(lines)| :: Patterns(lines)[i] != Patterns(lines)[j]
  {
    if lines != [] {
      var n := |lines| - 1;
      PatternsExactly(lines[..n]);
      var earlier := Patterns(lines[..n]);
      var line := TrimReturn(lines[n]);
      forall p ensures p in Patterns(lines) <==> !Skipped(p) && exists i :: 0 <= i < |lines| && TrimReturn(lines[i]) == p {
        if exists i :: 0 <= i < |lines| && TrimReturn(lines[i]) == p {
          var i :| 0 <= i < |lines| && TrimReturn(lines[i]) == p;
          if i < n {
            assert TrimReturn(lines[..n][i]) == p;
          }
        }
        if p in earlier {
          var i :| 0 <= i < n && TrimReturn(lines[..n][i]) == p;
          assert TrimReturn(lines[i]) == p;
        }
      }
    }
  }

  /** Patterns keep the order of their first occurrences. */
  lemma {:induction false} FirstOccurrenceOrder(lines: seq<Bytes>, i: nat, j: nat) returns (a: nat)
    requires i < j < |Patterns(lines)|
    ensures a < |lines| && TrimReturn(lines[a]) == Patterns(lines)[i]
    ensures forall b | 0 <= b <= a :: TrimReturn(lines[b]) != Patterns(lines)[j]
  {
    var n := |lines| - 1;
    var earlier := Patterns(lines[..n]);
    if j < |earlier| {
      a := FirstOccurrenceOrder(lines[..n], i, j);
    } else {
      a := OccursAt(lines[..n], earlier[i]);
      forall b | 0 <= b <= a ensures TrimReturn(lines[b]) != Patterns(lines)[j] {
        if TrimReturn(lines[b]) == Patterns(lines)[j] {
          LineInPatterns(lines[..n], b);
        }
      }
    }
  }

  lemma {:induction false} OccursAt(lines: seq<Bytes>, p: Bytes) returns (a: nat)
    requires p in Patterns(lines)
    ensures a < |lines| && TrimReturn(lines[a]) == p
  {
    var n := |lines| - 1;
    if p in Patterns(lines[..n]) {
      a := OccursAt(lines[..n], p);
    } else {
      a := n;
    }
  }

  lemma {:induction false} LineInPatterns(lines: seq<Bytes>, b: nat)
    requires b < |lines| && !Skipped(TrimReturn(lines[b]))
    ensures TrimReturn(lines[b]) in Patterns(lines)
  {
    var n := |lines| - 1;
    if b < n {
      LineInPatterns(lines[..n], b);
      assert lines[..n][b] == lines[b];
    }
  }

  lemma {:induction false} DistinctCount(patterns: seq<Bytes>)
    requires forall i, j | 0 <= i < j < |patterns| :: patterns[i] != patterns[j]
    ensures |set p | p in patterns| == |patterns|
  {
    if patterns != [] {
      var n := |patterns| - 1;
      DistinctCount(patterns[..n]);
      assert (set p | p in patterns) == (set p | p in patterns[..n]) + {patterns[n]};
    }
  }

  lemma LoadedIsNormal(file: File)
    requires Loaded(file).Success?
    ensures Normal(Loaded(file).value)
    ensures var d := Loaded(file).value; PatternsFit(d.patterns, d.maxPatternLength)
  {
    hide Lines, Patterns, MaxLength, Utf8.Valid, TrimReturn;
    var lines := Lines(file.data);
    PatternsExactly(lines);
    MaxIsExact(Patterns(lines));
  }

  // ----- printing and loading again

  /** The patterns, each with this terminator. */
  function Print(patterns: seq<Bytes>, terminator: Bytes): Bytes {
    if patterns == [] then [] else patterns[0] + terminator + Print(patterns[1..], terminator)
  }

  /** A line and its newline come off as one piece. */
  lemma {:induction false} LinesOff(line: Bytes, rest: Bytes)
    requires NEWLINE !in line
    ensures Lines(line + [NEWLINE] + rest) == [line] + Lines(rest)
  {
    var data := line + [NEWLINE] + rest;
    if line == [] {
      assert data[1..] == rest;
    } else {
      assert data[1..] == line[1..] + [NEWLINE] + rest;
      LinesOff(line[1..], rest);
      var tail := [line[1..]] + Lines(rest);
      assert [line[0]] + tail[0] == line && tail[1..] == Lines(rest);
    }
  }

  /** The lines of a printed database. */
  function Printed(patterns: seq<Bytes>, suffix: Bytes): seq<Bytes> { seq(|patterns|, i requires 0 <= i < |patterns| => patterns[i] + suffix) }

  lemma {:induction false} PrintLines(patterns: seq<Bytes>, suffix: Bytes)
    requires NEWLINE !in suffix && forall i | 0 <= i < |patterns| :: NEWLINE !in patterns[i]
    ensures Lines(Print(patterns, suffix + [NEWLINE])) == Printed(patterns, suffix) + [[]]
  {
    if patterns == [] {
      assert Lines([]) == [[]];
      assert Printed(patterns, suffix) + [[]] == [[]];
    } else {
      var rest := Print(patterns[1..], suffix + [NEWLINE]);
      PrintLines(patterns[1..], suffix);
      assert patterns[0] + (suffix + [NEWLINE]) + rest == (patterns[0] + suffix) + [NEWLINE] + rest;
      LinesOff(patterns[0] + suffix, rest);
      assert Printed(patterns, suffix) == [patterns[0] + suffix] + Printed(patterns[1..], suffix);
    }
  }

  lemma LastEmpty(lines: seq<Bytes>)
    ensures Patterns(lines + [[]]) == Patterns(lines)
  {
    assert (lines + [[]])[..|lines|] == lines;
  }

  /** Lines that each trim to a new pattern give those patterns. */
  lemma {:induction false} PatternsOfPrinted(patterns: seq<Bytes>, suffix: Bytes)
    requires forall i, j | 0 <= i < j < |patterns| :: patterns[i] != patterns[j]
    requires forall i | 0 <= i < |patterns| :: !Skipped(patterns[i]) && TrimReturn(patterns[i] + suffix) == patterns[i]
    ensures Patterns(Printed(patterns, suffix)) == patterns
  {
    if patterns != [] {
      var n := |patterns| - 1;
      PatternsOfPrinted(patterns[..n], suffix);
      assert Printed(patterns, suffix)[..n] == Printed(patterns[..n], suffix);
      assert patterns == patterns[..n] + [patterns[n]];
    }
  }

  lemma ReturnTrims(p: Bytes)
    ensures TrimReturn(p + [RETURN]) == p
  {
  }

  /** Without a newline the data is one line; with one, the first line comes off. */
  lemma {:induction false} FirstLine(data: Bytes, i: nat)
    requires i <= |data| && NEWLINE !in data[..i] && (i < |data| ==> data[i] == NEWLINE)
    ensures Lines(data) == if i == |data| then [data] else [data[..i]] + Lines(data[i + 1..])
  {
    if i == |data| {
      WholeLine(data);
    } else {
      assert data == data[..i] + [NEWLINE] + data[i + 1..];
      LinesOff(data[..i], data[i + 1..]);
    }
  }

  lemma {:induction false} WholeLine(data: Bytes)
    requires NEWLINE !in data[..|data|]
    ensures Lines(data) == [data]
  {
    assert data[..|data|] == data;
    if data != [] {
      assert data[1..][..|data| - 1] == data[1..];
      WholeLine(data[1..]);
      assert data[0] in data;
      assert [data[0]] + data[1..] == data;
    }
  }

  function NewlineIn(data: Bytes): (i: nat)
    ensures i <= |data| && NEWLINE !in data[..i] && (i < |data| ==> data[i] == NEWLINE)
  {
    if data == [] || data[0] == NEWLINE then 0
    else
      var i := NewlineIn(data[1..]);
      assert data[..i + 1] == [data[0]] + data[1..][..i];
      i + 1
  }

  /** The lines of well-formed UTF-8 are well-formed. */
  lemma {:induction false} LinesAreValid(data: Bytes)
    requires Utf8.Valid(data)
    ensures forall i | 0 <= i < |Lines(data)| :: Utf8.Valid(Lines(data)[i])
    decreases |data|
  {
    var i := NewlineIn(data);
    FirstLine(data, i);
    if i < |data| {
      assert data == data[..i] + [NEWLINE] + data[i + 1..];
      Utf8.ValidSplit(data[..i], NEWLINE, data[i + 1..]);
      LinesAreValid(data[i + 1..]);
    }
  }

  lemma TrimIsValid(line: Bytes)
    requires Utf8.Valid(line)
    ensures Utf8.Valid(TrimReturn(line))
  {
    if TrimReturn(line) != line {
      assert line == TrimReturn(line) + [RETURN] + [];
      Utf8.ValidSplit(TrimReturn(line), RETURN, []);
    }
  }

  lemma {:induction false} PrintJoins(patterns: seq<Bytes>, terminator: Bytes)
    requires Utf8.Valid(terminator) && forall i | 0 <= i < |patterns| :: Utf8.Valid(patterns[i])
    ensures Utf8.Valid(Print(patterns, terminator))
  {
    if patterns != [] {
      PrintJoins(patterns[1..], terminator);
      Utf8.ValidJoin(patterns[0], terminator);
      Utf8.ValidJoin(patterns[0] + terminator, Print(patterns[1..], terminator));
    }
  }

  /** What is printed of a database that loaded is well-formed UTF-8 again. */
  lemma PrintIsValid(file: File, terminator: Bytes)
    requires Loaded(file).Success? && (terminator == [NEWLINE] || terminator == [RETURN, NEWLINE])
    ensures Utf8.Valid(Print(Loaded(file).value.patterns, terminator))
  {
    var lines := Lines(file.data);
    var patterns := Patterns(lines);
    LinesAreValid(file.data);
    PatternsExactly(lines);
    forall i | 0 <= i < |patterns| ensures Utf8.Valid(patterns[i]) {
      assert patterns[i] in Patterns(lines);
      var k :| 0 <= k < |lines| && TrimReturn(lines[k]) == patterns[i];
      TrimIsValid(lines[k]);
    }
    assert terminator[1..] == [] || terminator[1..] == [NEWLINE];
    assert Utf8.Valid([NEWLINE]) && Utf8.Valid(terminator);
    PrintJoins(patterns, terminator);
  }

  /** What the printing of a loaded database loads to, before it is known which patterns that leaves. */
  lemma PrintedLoads(file: File, suffix: Bytes)
    requires Loaded(file).Success? && (suffix == [] || suffix == [RETURN])
    ensures var d := Loaded(file).value;
            && Normal(d) && d == DatabaseOf(d.patterns)
            && Loaded(Readable(Print(d.patterns, suffix + [NEWLINE]))) == Success(DatabaseOf(Patterns(Printed(d.patterns, suffix))))
  {
    hide Lines, Patterns, Print, Printed, Utf8.Valid, DatabaseOf, Normal;
    LoadedIsNormal(file);
    PrintIsValid(file, suffix + [NEWLINE]);
    var d := Loaded(file).value;
    assert NEWLINE !in suffix && forall i | 0 <= i < |d.patterns| :: NEWLINE !in d.patterns[i] by { NormalLines(d); }
    PrintLines(d.patterns, suffix);
    LastEmpty(Printed(d.patterns, suffix));
    DatabaseIs(Patterns(Lines(file.data)));
  }

  lemma NormalLines(d: Database)
    requires Normal(d)
    ensures forall i | 0 <= i < |d.patterns| :: NEWLINE !in d.patterns[i]
  {
  }

  lemma DatabaseIs(patterns: seq<Bytes>)
    ensures DatabaseOf(patterns).patterns == patterns
  {
  }

  /** Whatever was loaded, printing it with CR LF and loading that gives the same database. */
  lemma CrLfRoundTrip(file: File)
    requires Loaded(file).Success?
    ensures var d := Loaded(file).value;
            Loaded(Readable(Print(d.patterns, [RETURN, NEWLINE]))) == Success(d)
  {
    hide Loaded, Lines, TrimReturn, Print, Printed, Patterns, DatabaseOf;
    PrintedLoads(file, [RETURN]);
    var patterns := Loaded(file).value.patterns;
    assert [RETURN] + [NEWLINE] == [RETURN, NEWLINE];
    forall i | 0 <= i < |patterns| ensures TrimReturn(patterns[i] + [RETURN]) == patterns[i] {
      ReturnTrims(patterns[i]);
    }
    PatternsOfPrinted(patterns, [RETURN]);
  }

  predicate EndsInReturn(p: Bytes) { p != [] && p[|p| - 1] == RETURN }

  /** Among patterns that end in CR, one of greatest length. */
  lemma {:induction false} LongestReturn(patterns: seq<Bytes>) returns (k: nat)
    requires exists i :: 0 <= i < |patterns| && EndsInReturn(patterns[i])
    ensures k < |patterns| && EndsInReturn(patterns[k])
    ensures forall i | 0 <= i < |patterns| && EndsInReturn(patterns[i]) :: |patterns[i]| <= |patterns[k]|
  {
    var n := |patterns| - 1;
    if exists i :: 0 <= i < n && EndsInReturn(patterns[i]) {
      var i :| 0 <= i < n && EndsInReturn(patterns[i]);
      assert EndsInReturn(patterns[..n][i]);
      k := LongestReturn(patterns[..n]);
      assert forall i | 0 <= i < n :: patterns[..n][i] == patterns[i];
      if EndsInReturn(patterns[n]) && |patterns[n]| > |patterns[k]| {
        k := n;
      }
    } else {
      k := n;
    }
  }

  lemma TrimmedIsLonger(p: Bytes, line: Bytes)
    requires TrimReturn(line) == p && EndsInReturn(p)
    ensures EndsInReturn(line) && |line| > |p|
  {
  }

  lemma LongestIsLost(patterns: seq<Bytes>, lines: seq<Bytes>)
    requires |lines| == |patterns| && forall i | 0 <= i < |lines| :: lines[i] == patterns[i]
    requires exists i :: 0 <= i < |patterns| && EndsInReturn(patterns[i])
    ensures Patterns(lines) != patterns
  {
    hide Patterns, TrimReturn;
    var k := LongestReturn(patterns);
    if patterns[k] in Patterns(lines) {
      var a := OccursAt(lines, patterns[k]);
      TrimmedIsLonger(patterns[k], lines[a]);
    }
  }

  /** With LF alone the same holds exactly when no pattern ends in CR. */
  lemma LfRoundTrip(file: File)
    requires Loaded(file).Success?
    ensures var d := Loaded(file).value;
            Loaded(Readable(Print(d.patterns, [NEWLINE]))) == Success(d)
            <==> forall i | 0 <= i < |d.patterns| :: !EndsInReturn(d.patterns[i])
  {
    hide Loaded, Lines, TrimReturn, Print, Printed, Patterns, DatabaseOf, EndsInReturn;
    PrintedLoads(file, []);
    var patterns := Loaded(file).value.patterns;
    assert [] + [NEWLINE] == Newline();
    DatabaseIs(patterns);
    DatabaseIs(Patterns(Printed(patterns, [])));
    if exists i :: 0 <= i < |patterns| && EndsInReturn(patterns[i]) {
      PrintedAlone(patterns);
      LongestIsLost(patterns, Printed(patterns, []));
    } else {
      forall i | 0 <= i < |patterns| ensures TrimReturn(patterns[i] + []) == patterns[i] {
        NothingToTrim(patterns[i]);
      }
      PatternsOfPrinted(patterns, []);
    }
  }

  lemma PrintedAlone(patterns: seq<Bytes>)
    ensures |Printed(patterns, [])| == |patterns| && forall i | 0 <= i < |patterns| :: Printed(patterns, [])[i] == patterns[i]
  {
  }

  lemma NothingToTrim(p: Bytes)
    requires !EndsInReturn(p)
    ensures TrimReturn(p + []) == p
  {
    assert p + [] == p;
  }

  const CR_FILE: File := Readable([97, 13, 13, 10])

  lemma OneLine(p: Bytes)
    requires NEWLINE !in p && !Skipped(TrimReturn(p))
    ensures Patterns(Lines(p + [NEWLINE])) == [TrimReturn(p)]
  {
    assert p + [NEWLINE] + [] == p + [NEWLINE];
    LinesOff(p, []);
    assert [p] + [[]] == [p, []];
    assert [p, []][..1] == [p] && [p][..0] == [];
    assert Patterns([p]) == [TrimReturn(p)];
  }

  /** A file whose one pattern ends in CR: it loads, and its printing with LF loads to another database. */
  lemma LfLosesReturn()
    ensures Loaded(CR_FILE).Success? && Loaded(CR_FILE).value.patterns == [[97, 13]]
    ensures var again := Loaded(Readable(Print(Loaded(CR_FILE).value.patterns, [NEWLINE])));
            again.Success? && again.value.patterns == [[97]] && again != Loaded(CR_FILE)
  {
    var line: Bytes := [97, 13, 13];
    var p: Bytes := [97, 13];
    assert CR_FILE.data == line + [NEWLINE];
    assert TrimReturn(line) == p && TrimReturn(p) == [97];
    assert [p][1..] == [];
    assert Print([p], [NEWLINE]) == p + [NEWLINE];
    hide Utf8.Valid, Lines, Patterns, Print, TrimReturn;
    AsciiIsValid(CR_FILE.data);
    AsciiIsValid(p + [NEWLINE]);
    OneLine(line);
    OneLine(p);
  }

  lemma {:induction false} AsciiIsValid(s: Bytes)
    requires forall i | 0 <= i < |s| :: Utf8.Ascii(s[i])
    ensures Utf8.Valid(s)
  {
    if s != [] {
      AsciiIsValid(s[1..]);
    }
  }
}
