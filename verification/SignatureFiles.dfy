/** Signature files and scanned content in terms of their bytes alone: what a file loads to and what a match reports. */
module SignatureFiles {
  import opened Wrappers
  import opened ByteData
  import opened Signatures
  import Utf8

  // ----- content

  /** A pattern occurs iff the content is something, the pattern, and something more. */
  lemma OccursExactly(content: Bytes, pattern: Bytes)
    ensures Occurs(content, pattern) <==> exists before, after :: content == before + pattern + after
  {
    if Occurs(content, pattern) {
      var i :| 0 <= i <= |content| - |pattern| && StandsAt(content, pattern, i);
      assert content == content[..i] + pattern + content[i + |pattern|..];
    }
    if before, after :| content == before + pattern + after {
      assert content[|before|..|before| + |pattern|] == pattern;
      assert StandsAt(content, pattern, |before|);
    }
  }

  /** The bytes of the first n reads. */
  function ReadSoFar(script: seq<Chunk>, n: nat): Bytes
    requires n <= |script|
  {
    if n == 0 then [] else ReadSoFar(script, n - 1) + script[n - 1].data
  }

  lemma {:induction false} FlatIs(script: seq<Chunk>, n: nat)
    requires n <= |script|
    ensures Flat(script[..n]) == ReadSoFar(script, n)
  {
    if n > 0 {
      FlatIs(script, n - 1);
      FlatMore(script, n - 1);
    }
  }

  /** Read i brings bytes and not the end. */
  predicate Goes(script: seq<Chunk>, i: nat)
    requires i < |script|
  {
    script[i].end.None? && |script[i].data| > 0
  }

  lemma ReadsTo(script: seq<Chunk>, n: nat)
    requires n <= |script| && (forall i | 0 <= i < n :: Goes(script, i)) && (n < |script| ==> !Goes(script, n))
    ensures Reads(script) == if n < |script| then n + 1 else n
  {
    forall i | 0 <= i < n ensures script[i].end.None? && script[i].data != [] {
      assert Goes(script, i);
    }
    ReadsOn(script, n);
  }

  lemma NothingOccurs(patterns: seq<Bytes>, content: Bytes)
    ensures AnyOccurs(content, patterns) <==> exists p :: p in patterns && Occurs(content, p)
  {
    hide Occurs;
    if p :| p in patterns && Occurs(content, p) {
      var i :| 0 <= i < |patterns| && patterns[i] == p;
      assert Occurs(content, patterns[i]);
    }
  }

  /**
   The right answer by the first read that ends the matching: while no pattern stands in what was read, an error of the reader is
   reported as it is, the end of the content as nothing found, and a read of nothing as no progress.
   */
  lemma AnswersExactly(patterns: seq<Bytes>, script: seq<Chunk>, n: nat, r: Outcome)
    requires RightAnswer(patterns, script, r)
    requires n <= |script| && (forall i | 0 <= i < n :: Goes(script, i)) && (n < |script| ==> !Goes(script, n))
    requires forall p | p in patterns :: !Occurs(ReadSoFar(script, if n < |script| then n + 1 else n), p)
    ensures r == if n == |script| then NotFound
                 else match script[n].end
                      case Some(Eof) => NotFound
                      case Some(Broken(error)) => Failed(error)
                      case None => NoProgress
  {
    ReadsTo(script, n);
    FlatIs(script, Reads(script));
    NothingOccurs(patterns, Delivered(script));
    hide Occurs, Flat, ReadSoFar, Reads, AnyOccurs, Ending;
    assert r == Ending(script);
    EndingIs(script, n);
  }

  lemma EndingIs(script: seq<Chunk>, n: nat)
    requires n <= |script| && (forall i | 0 <= i < n :: Goes(script, i)) && (n < |script| ==> !Goes(script, n))
    requires Reads(script) == if n < |script| then n + 1 else n
    ensures Ending(script) == if n == |script| then NotFound
                              else match script[n].end
                                   case Some(Eof) => NotFound
                                   case Some(Broken(error)) => Failed(error)
                                   case None => NoProgress
  {
    hide Reads;
    if n == |script| && n > 0 { assert Goes(script, n - 1); }
  }

  /** And as soon as the content read holds a pattern, the one of lowest index among those it holds is reported. */
  lemma FindsExactly(patterns: seq<Bytes>, script: seq<Chunk>, n: nat, r: Outcome)
    requires RightAnswer(patterns, script, r)
    requires n < |script| && forall i | 0 <= i < n :: Goes(script, i)
    requires forall p | p in patterns :: !Occurs(ReadSoFar(script, n), p)
    requires exists p :: p in patterns && Occurs(ReadSoFar(script, n + 1), p)
    ensures exists i :: 0 <= i < |patterns| && r == Found(patterns[i]) && Occurs(ReadSoFar(script, n + 1), patterns[i])
                        && forall j | 0 <= j < i :: !Occurs(ReadSoFar(script, n + 1), patterns[j])
  {
    forall i | 0 <= i < n ensures script[i].end.None? && script[i].data != [] {
      assert Goes(script, i);
    }
    ReadsOn(script, n);
    FlatIs(script, n);
    FlatIs(script, n + 1);
    NothingOccurs(patterns, Flat(script[..n]));
    NothingOccurs(patterns, Flat(script[..n + 1]));
    hide Occurs, Flat, ReadSoFar, Reads, AnyOccurs, Lowest;
    PrefixOccurs(script, n + 1, Reads(script), patterns);
    var m :| 0 <= m <= Reads(script) && FirstPrefix(patterns, script, m) && Lowest(Flat(script[..m]), patterns, r.pattern);
    if m <= n { PrefixOccurs(script, m, n, patterns); }
    assert m == n + 1;
    LowestIs(Flat(script[..m]), patterns, r.pattern);
  }

  lemma LowestIs(content: Bytes, patterns: seq<Bytes>, p: Bytes)
    requires Lowest(content, patterns, p)
    ensures exists i :: 0 <= i < |patterns| && patterns[i] == p && Occurs(content, patterns[i])
                        && forall j | 0 <= j < i :: !Occurs(content, patterns[j])
  {
    hide Occurs;
  }

  // ----- files

  /** Lines joined by line feeds. */
  function Joined(lines: seq<Bytes>): Bytes
    requires lines != []
  {
    if |lines| == 1 then lines[0] else lines[0] + [10] + Joined(lines[1..])
  }

  lemma {:induction false} LinesJoin(data: Bytes)
    ensures Joined(Lines(data)) == data
  {
    if data != [] {
      LinesJoin(data[1..]);
      var rest := Lines(data[1..]);
      if data[0] == NEWLINE {
        assert ([[]] + rest)[1..] == rest;
        assert [] + [10] + data[1..] == data;
      } else {
        assert Lines(data)[1..] == rest[1..];
        assert [data[0]] + data[1..] == data;
        if |rest| > 1 { assert [data[0]] + rest[0] + [10] + Joined(rest[1..]) == [data[0]] + (rest[0] + [10] + Joined(rest[1..])); }
      }
    }
  }

  lemma {:induction false} OnlyLines(lines: seq<Bytes>)
    requires lines != [] && forall i | 0 <= i < |lines| :: 10 !in lines[i]
    ensures Lines(Joined(lines)) == lines
  {
    if |lines| == 1 {
      assert lines[0][..|lines[0]|] == lines[0];
      WholeLine(lines[0]);
    } else {
      OnlyLines(lines[1..]);
      LinesOff(lines[0], Joined(lines[1..]));
    }
  }

  /** The lines of a file are the one way to write it as pieces without a line feed, joined by line feeds. */
  lemma LinesExactly(data: Bytes, lines: seq<Bytes>)
    ensures lines == Lines(data) <==> lines != [] && (forall i | 0 <= i < |lines| :: 10 !in lines[i]) && Joined(lines) == data
  {
    LinesJoin(data);
    if lines != [] && (forall i | 0 <= i < |lines| :: 10 !in lines[i]) && Joined(lines) == data {
      OnlyLines(lines);
    }
  }

  /** Line `line` of a file stands for pattern p: it is p, or p and a carriage return, of which only one is dropped. */
  predicate StandsFor(line: Bytes, p: Bytes) { line == p + [13] || (line == p && (p == [] || p[|p| - 1] != 13)) }

  /** What the lines stand for, but for nothing and for what starts with a number sign; each once. */
  ghost predicate Holds(d: Database, lines: seq<Bytes>) {
    && (forall p :: p in d.patterns <==> p != [] && p[0] != 35 && exists i :: 0 <= i < |lines| && StandsFor(lines[i], p))
    && (forall i, j | 0 <= i < j < |d.patterns| :: d.patterns[i] != d.patterns[j])
    && (forall p :: p in d.patternSet <==> p in d.patterns)
  }

  lemma TrimExactly(line: Bytes, p: Bytes)
    ensures TrimReturn(line) == p <==> StandsFor(line, p)
  {
    if line != [] {
      assert line == line[..|line| - 1] + [line[|line| - 1]];
    }
  }

  /**
   What a file loads to, in its own bytes: the first thing that goes wrong, or the patterns that its lines stand for, but for empty
   lines and those that start with a number sign; each once, in the order of the lines that first stand for them.
   */
  lemma LoadExactly(file: File, lines: seq<Bytes>)
    requires lines != [] && (forall i | 0 <= i < |lines| :: 10 !in lines[i]) && Joined(lines) == file.data
    ensures Loaded(file).Success? <==> file.statError.None? && file.regular && file.readError.None? && Utf8.Valid(file.data)
    ensures Loaded(file).Success? ==> Holds(Loaded(file).value, lines)
    ensures Loaded(file).Failure? ==>
              Loaded(file).error == if file.statError.Some? then file.statError.value
                                    else if !file.regular then "signature database is not a regular file"
                                    else if file.readError.Some? then file.readError.value
                                    else "signature database is not valid UTF-8"
  {
    hide Lines, Joined, Utf8.Valid, Patterns, MaxLength, StandsFor, Holds, DatabaseOf;
    LinesExactly(file.data, lines);
    if Loaded(file).Success? {
      var d := Loaded(file).value;
      assert d == DatabaseOf(Patterns(lines));
      PatternsAre(lines);
    }
  }

  lemma PatternsAre(lines: seq<Bytes>)
    requires forall i | 0 <= i < |lines| :: 10 !in lines[i]
    ensures Holds(DatabaseOf(Patterns(lines)), lines)
  {
    hide Patterns, StandsFor, MaxLength;
    Distinct(lines);
    forall p ensures p in Patterns(lines) <==> p != [] && p[0] != 35 && exists i :: 0 <= i < |lines| && StandsFor(lines[i], p) {
      PatternIs(lines, p);
    }
  }

  lemma Distinct(lines: seq<Bytes>)
    requires forall i | 0 <= i < |lines| :: 10 !in lines[i]
    ensures forall i, j | 0 <= i < j < |Patterns(lines)| :: Patterns(lines)[i] != Patterns(lines)[j]
  {
    hide Patterns;
    PatternsExactly(lines);
  }

  lemma PatternIs(lines: seq<Bytes>, p: Bytes)
    requires forall i | 0 <= i < |lines| :: 10 !in lines[i]
    ensures p in Patterns(lines) <==> p != [] && p[0] != 35 && exists i :: 0 <= i < |lines| && StandsFor(lines[i], p)
  {
    hide Patterns, StandsFor, TrimReturn;
    PatternsExactly(lines);
    StandsWhere(lines, p);
  }

  lemma StandsWhere(lines: seq<Bytes>, p: Bytes)
    ensures (exists i :: 0 <= i < |lines| && TrimReturn(lines[i]) == p) <==> exists i :: 0 <= i < |lines| && StandsFor(lines[i], p)
  {
    hide StandsFor, TrimReturn;
    forall i | 0 <= i < |lines| ensures TrimReturn(lines[i]) == p <==> StandsFor(lines[i], p) {
      TrimExactly(lines[i], p);
    }
    if i :| 0 <= i < |lines| && TrimReturn(lines[i]) == p {
      assert StandsFor(lines[i], p);
    }
    if i :| 0 <= i < |lines| && StandsFor(lines[i], p) {
      assert TrimReturn(lines[i]) == p;
    }
  }

  /** A pattern stands before another iff the first line that stands for it does. */
  lemma LoadOrder(file: File, lines: seq<Bytes>, i: nat, j: nat) returns (a: nat)
    requires lines != [] && (forall i | 0 <= i < |lines| :: 10 !in lines[i]) && Joined(lines) == file.data
    requires Loaded(file).Success? && i < j < |Loaded(file).value.patterns|
    ensures a < |lines| && StandsFor(lines[a], Loaded(file).value.patterns[i])
    ensures forall b | 0 <= b <= a :: !StandsFor(lines[b], Loaded(file).value.patterns[j])
  {
    hide Lines, Joined, Utf8.Valid, Patterns, MaxLength, StandsFor, TrimReturn;
    LinesExactly(file.data, lines);
    var patterns := Loaded(file).value.patterns;
    a := FirstOccurrenceOrder(lines, i, j);
    TrimExactly(lines[a], patterns[i]);
    forall b | 0 <= b <= a ensures !StandsFor(lines[b], patterns[j]) {
      TrimExactly(lines[b], patterns[j]);
    }
  }
}
