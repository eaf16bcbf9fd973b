/**
 * STEventSourceLineAccumulator: splits the byte chunks of a response body into lines.
 * LF, CR and CRLF each end one line; a CRLF whose two bytes arrive in different chunks
 * still ends only one. The accumulator keeps the bytes of the unfinished line (`data`)
 * and whether the last byte it consumed was a CR (`state`).
 *
 * `Step`/`Run` are the byte-at-a-time machine the class runs; `SplitLines` is an
 * independent description of the lines of a whole stream. `RunFromFreshIsSplit` proves
 * that the machine, started fresh, always agrees with it, whatever the chunking.
 */
module LineAccumulation {
  import opened Octets

  /** STEventSourceLineAccumulatorState. `Normal` is the zero value. */
  datatype LineState = Normal | AfterCR

  predicate IsTerminator(b: byte) {
    b == CR || b == LF
  }

  predicate NoTerminator(s: bytes) {
    CR !in s && LF !in s
  }

  /** The accumulator's whole state: the pending, unterminated bytes and the CR flag. */
  datatype Splitter = Splitter(data: bytes, state: LineState)

  /** A newly created accumulator. */
  const Fresh: Splitter := Splitter([], Normal)

  /** What consuming some bytes gives: the lines completed, and the state afterwards. */
  datatype Fed = Fed(lines: seq<bytes>, after: Splitter)

  /** Consumes one byte. After a CR, an LF only completes the CRLF the CR began. */
  function Step(sp: Splitter, b: byte): Fed {
    if sp.state == AfterCR && b == LF then Fed([], Splitter(sp.data, Normal))
    else if b == LF then Fed([sp.data], Splitter([], Normal))
    else if b == CR then Fed([sp.data], Splitter([], AfterCR))
    else Fed([], Splitter(sp.data + [b], Normal))
  }

  /** Consumes a chunk, byte by byte. */
  function Run(sp: Splitter, chunk: bytes): Fed
    decreases |chunk|
  {
    if chunk == [] then Fed([], sp)
    else
      var first := Step(sp, chunk[0]);
      var rest := Run(first.after, chunk[1..]);
      Fed(first.lines + rest.lines, rest.after)
  }

  // ---------------------------------------------------------------------------
  // The reference: lines of a whole stream, found terminator by terminator

  datatype Terminator = LineFeed | CarriageReturn | CarriageReturnLineFeed

  function TerminatorBytes(t: Terminator): bytes {
    match t
    case LineFeed => [LF]
    case CarriageReturn => [CR]
    case CarriageReturnLineFeed => [CR, LF]
  }

  /** One line of the stream with the terminator that ended it. */
  datatype Line = Line(content: bytes, terminator: Terminator)

  /** The terminated lines of a stream and the unterminated bytes after the last of them. */
  datatype Split = Split(lines: seq<Line>, tail: bytes)

  /** Every line written out again, each followed by its terminator. */
  function Join(lines: seq<Line>): bytes {
    if lines == [] then [] else lines[0].content + TerminatorBytes(lines[0].terminator) + Join(lines[1..])
  }

  function Contents(lines: seq<Line>): (r: seq<bytes>)
    ensures |r| == |lines| && forall k :: 0 <= k < |lines| ==> r[k] == lines[k].content
  {
    if lines == [] then [] else [lines[0].content] + Contents(lines[1..])
  }

  /** The index of the first CR or LF of `s`, or `|s|` when there is none. */
  function FirstTerminator(s: bytes): (i: nat)
    ensures i <= |s|
  {
    if s == [] then 0
    else if IsTerminator(s[0]) then 0
    else 1 + FirstTerminator(s[1..])
  }

  /** `FirstTerminator` finds the first terminator: none comes before it. */
  lemma {:induction false} FirstTerminatorSpec(s: bytes)
    ensures var i := FirstTerminator(s);
            && NoTerminator(s[..i])
            && (i < |s| ==> IsTerminator(s[i]))
    decreases |s|
  {
    if s != [] && !IsTerminator(s[0]) {
      FirstTerminatorSpec(s[1..]);
      var i := FirstTerminator(s);
      assert s[..i] == [s[0]] + s[1..][..i - 1];
    }
  }

  /** The terminator that starts at `s[i]`: a CR directly followed by an LF is one CRLF. */
  function TerminatorAt(s: bytes, i: nat): (t: Terminator)
    requires i < |s|
    ensures i + |TerminatorBytes(t)| <= |s|
  {
    if s[i] != CR then LineFeed
    else if i + 1 < |s| && s[i + 1] == LF then CarriageReturnLineFeed
    else CarriageReturn
  }

  /** At a CR or LF, `TerminatorAt` gives the terminator actually written there. */
  lemma TerminatorAtSpec(s: bytes, i: nat)
    requires i < |s| && IsTerminator(s[i])
    ensures var t := TerminatorAt(s, i);
            && s[i..i + |TerminatorBytes(t)|] == TerminatorBytes(t)
            && (t == CarriageReturn ==> i + 1 == |s| || s[i + 1] != LF)
  {
  }

  /** The lines of a stream, found terminator by terminator, and the unterminated bytes after the last one. */
  function SplitLines(s: bytes): Split
    decreases |s|, 1
  {
    var i := FirstTerminator(s);
    if i == |s| then Split([], s) else SplitAt(s, i)
  }

  function SplitAt(s: bytes, i: nat): Split
    requires i < |s|
    decreases |s|, 0
  {
    var t := TerminatorAt(s, i);
    var rest := SplitLines(s[i + |TerminatorBytes(t)|..]);
    Split([Line(s[..i], t)] + rest.lines, rest.tail)
  }

  /** No byte is lost or invented: the lines, each followed by its own terminator, and then the tail, are the stream. */
  lemma {:induction false} SplitLinesLossless(s: bytes)
    ensures Join(SplitLines(s).lines) + SplitLines(s).tail == s
    decreases |s|
  {
    var i := FirstTerminator(s);
    if i == |s| {
      assert SplitLines(s) == Split([], s);
    } else {
      var t := TerminatorAt(s, i);
      var n := i + |TerminatorBytes(t)|;
      var rest := SplitLines(s[n..]);
      assert s[i..n] == TerminatorBytes(t) by {
        FirstTerminatorSpec(s);
        TerminatorAtSpec(s, i);
      }
      SplitLinesAt(s, i, s[..i], t, s[n..]);
      SplitLinesLossless(s[n..]);
      var lines := [Line(s[..i], t)] + rest.lines;
      JoinCons(Line(s[..i], t), rest.lines);
      Reassemble(s[..i], TerminatorBytes(t), Join(rest.lines), rest.tail);
      SliceAt(s, i, n);
    }
  }

  lemma JoinCons(l: Line, lines: seq<Line>)
    ensures Join([l] + lines) == l.content + TerminatorBytes(l.terminator) + Join(lines)
  {
    assert ([l] + lines)[1..] == lines;
  }

  lemma Reassemble(a: bytes, b: bytes, c: bytes, d: bytes)
    ensures (a + b + c) + d == a + b + (c + d)
  {
  }

  lemma SliceAt(s: bytes, i: nat, n: nat)
    requires i <= n <= |s|
    ensures s[..i] + s[i..n] + s[n..] == s
  {
  }

  /** Neither a line nor the tail holds a CR or LF. */
  lemma {:induction false} SplitLinesClean(s: bytes)
    ensures Clean(SplitLines(s))
    decreases |s|
  {
    var i := FirstTerminator(s);
    FirstTerminatorSpec(s);
    if i == |s| {
      assert s[..i] == s;
    } else {
      var t := TerminatorAt(s, i);
      var n := i + |TerminatorBytes(t)|;
      SplitLinesClean(s[n..]);
      SplitLinesAt(s, i, s[..i], t, s[n..]);
      CleanCons(Line(s[..i], t), SplitLines(s[n..]));
    }
  }

  predicate Clean(sp: Split) {
    && NoTerminator(sp.tail)
    && forall k :: 0 <= k < |sp.lines| ==> NoTerminator(sp.lines[k].content)
  }

  lemma CleanCons(l: Line, rest: Split)
    requires NoTerminator(l.content) && Clean(rest)
    ensures Clean(Split([l] + rest.lines, rest.tail))
  {
    var lines := [l] + rest.lines;
    assert forall k :: 1 <= k < |lines| ==> lines[k] == rest.lines[k - 1];
  }

  predicate EndsWithCR(s: bytes) {
    |s| > 0 && s[|s| - 1] == CR
  }

  /** The state the machine is in after a whole stream: `AfterCR` exactly when the stream ends with CR. */
  function StateAfter(s: bytes): LineState {
    if EndsWithCR(s) then AfterCR else Normal
  }

  /** What the reference says the machine should give for a whole stream. */
  function Reference(s: bytes): Fed {
    Fed(Contents(SplitLines(s).lines), Splitter(SplitLines(s).tail, StateAfter(s)))
  }

  // ---------------------------------------------------------------------------
  // Properties of the machine

  /** Feeding `a` then `b` is feeding `a + b`: the machine has no notion of chunk boundaries. */
  lemma {:induction false} RunAppend(sp: Splitter, a: bytes, b: bytes)
    ensures Run(sp, a + b) == Fed(Run(sp, a).lines + Run(Run(sp, a).after, b).lines, Run(Run(sp, a).after, b).after)
    decreases |a|
  {
    if a == [] {
      assert a + b == b;
    } else {
      var first := Step(sp, a[0]);
      ConsAppend(a, b);
      RunAppend(first.after, a[1..], b);
      var mid := Run(first.after, a[1..]);
      ConcatAssoc(first.lines, mid.lines, Run(mid.after, b).lines);
    }
  }

  lemma RunCons(sp: Splitter, s: bytes)
    requires s != []
    ensures var first := Step(sp, s[0]);
            Run(sp, s) == Fed(first.lines + Run(first.after, s[1..]).lines, Run(first.after, s[1..]).after)
  {
  }

  lemma ConsAppend<T>(a: seq<T>, b: seq<T>)
    requires a != []
    ensures (a + b)[0] == a[0] && (a + b)[1..] == a[1..] + b
  {
  }

  lemma ConsShift<T>(p: seq<T>, s: seq<T>)
    requires s != []
    ensures p + [s[0]] + s[1..] == p + s
  {
    assert [s[0]] + s[1..] == s;
  }

  lemma InitLast<T>(s: seq<T>)
    requires s != []
    ensures s[..|s| - 1] + [s[|s| - 1]] == s
  {
  }

  lemma ConcatAssoc<T>(a: seq<T>, b: seq<T>, c: seq<T>)
    ensures (a + b) + c == a + (b + c)
  {
  }

  /** A zero-length chunk returns no lines and changes nothing. */
  lemma EmptyChunk(sp: Splitter)
    ensures Run(sp, []) == Fed([], sp)
  {
  }

  /** After `AfterCR`, a leading LF is swallowed: no empty line, and the state is `Normal` again. */
  lemma LFAfterCR(data: bytes, rest: bytes)
    ensures Run(Splitter(data, AfterCR), [LF] + rest) == Run(Splitter(data, Normal), rest)
  {
    assert ([LF] + rest)[1..] == rest;
  }

  /** After `AfterCR`, any other byte is processed exactly as from `Normal`: the CR has already closed its line. */
  lemma {:induction false} OtherByteAfterCR(data: bytes, s: bytes)
    requires s != [] && s[0] != LF
    ensures Run(Splitter(data, AfterCR), s) == Run(Splitter(data, Normal), s)
  {
  }

  /** The state after a non-empty chunk is `AfterCR` exactly when its last byte is CR. */
  lemma {:induction false} RunStateTracksLastByte(sp: Splitter, s: bytes)
    requires s != []
    ensures Run(sp, s).after.state == StateAfter(s)
    decreases |s|
  {
    var first := Step(sp, s[0]);
    if |s| > 1 {
      RunStateTracksLastByte(first.after, s[1..]);
      assert s[1..][|s[1..]| - 1] == s[|s| - 1];
    }
  }

  /** Starting from a clean pending tail, neither the lines returned nor the new tail hold a CR or LF. */
  lemma {:induction false} RunKeepsLinesClean(sp: Splitter, s: bytes)
    requires NoTerminator(sp.data)
    ensures NoTerminator(Run(sp, s).after.data)
    ensures forall k :: 0 <= k < |Run(sp, s).lines| ==> NoTerminator(Run(sp, s).lines[k])
    decreases |s|
  {
    if s != [] {
      var first := Step(sp, s[0]);
      RunKeepsLinesClean(first.after, s[1..]);
    }
  }

  lemma {:induction false} FirstTerminatorAfterClean(p: bytes, s: bytes)
    requires NoTerminator(p) && s != [] && IsTerminator(s[0])
    ensures FirstTerminator(p + s) == |p|
    decreases |p|
  {
    if p == [] {
      assert p + s == s;
    } else {
      assert (p + s)[0] == p[0] && p[0] in p;
      assert (p + s)[1..] == p[1..] + s;
      assert forall b :: b in p[1..] ==> b in p;
      FirstTerminatorAfterClean(p[1..], s);
    }
  }

  /** `SplitLines` at the first terminator of `s`, with the line before it `c` and the bytes after it `rest`. */
  lemma SplitLinesAt(s: bytes, i: nat, c: bytes, t: Terminator, rest: bytes)
    requires i == FirstTerminator(s) && i < |s|
    requires s[..i] == c && TerminatorAt(s, i) == t && s[i + |TerminatorBytes(t)|..] == rest
    ensures SplitLines(s) == Split([Line(c, t)] + SplitLines(rest).lines, SplitLines(rest).tail)
  {
  }

  /** The reference, on a stream that starts with an unterminated line `p` and then a terminator. */
  lemma SplitAtTerminator(p: bytes, s: bytes)
    requires NoTerminator(p) && s != [] && IsTerminator(s[0])
    ensures var t := TerminatorAt(s, 0);
            var rest := s[|TerminatorBytes(t)|..];
            SplitLines(p + s) == Split([Line(p, t)] + SplitLines(rest).lines, SplitLines(rest).tail)
  {
    var ps := p + s;
    var t := TerminatorAt(s, 0);
    var rest := s[|TerminatorBytes(t)|..];
    assert FirstTerminator(ps) == |p| by {
      FirstTerminatorAfterClean(p, s);
    }
    assert TerminatorAt(ps, |p|) == t by {
      assert ps[|p|] == s[0];
      assert |p| + 1 < |ps| ==> ps[|p| + 1] == s[1];
    }
    assert ps[..|p|] == p;
    assert ps[|p| + |TerminatorBytes(t)|..] == rest;
    SplitLinesAt(ps, |p|, p, t, rest);
  }

  /** The machine, on the same stream: the terminator completes `p`, and the rest starts from an empty line. */
  lemma RunAtTerminator(p: bytes, s: bytes)
    requires s != [] && IsTerminator(s[0])
    ensures var t := TerminatorAt(s, 0);
            var rest := s[|TerminatorBytes(t)|..];
            var r := if rest == [] then Fed([], Splitter([], if t == CarriageReturn then AfterCR else Normal))
                     else Run(Splitter([], Normal), rest);
            Run(Splitter(p, Normal), s) == Fed([p] + r.lines, r.after)
  {
    var t := TerminatorAt(s, 0);
    var rest := s[|TerminatorBytes(t)|..];
    if t == CarriageReturnLineFeed {
      assert s[1..] == [LF] + rest;
      LFAfterCR([], rest);
    } else if t == CarriageReturn && rest != [] {
      assert s[1..] == rest;
      OtherByteAfterCR([], rest);
    }
  }

  lemma NoTerminatorAppend(p: bytes, b: byte)
    requires NoTerminator(p) && !IsTerminator(b)
    ensures NoTerminator(p + [b])
  {
  }

  lemma ContentsCons(l: Line, lines: seq<Line>)
    ensures Contents([l] + lines) == [l.content] + Contents(lines)
  {
    assert ([l] + lines)[1..] == lines;
  }

  lemma StateAfterSuffix(a: bytes, b: bytes)
    requires b != []
    ensures StateAfter(a + b) == StateAfter(b)
  {
    assert (a + b)[|a + b| - 1] == b[|b| - 1];
  }

  /** A stream with no terminator is all tail. */
  lemma SplitUnterminated(p: bytes)
    requires NoTerminator(p)
    ensures SplitLines(p) == Split([], p) && StateAfter(p) == Normal
  {
    assert forall k | 0 <= k < |p| :: p[k] in p;
    FirstTerminatorSpec(p);
  }

  /** The state after a stream whose last terminator starts at `s[0]`. */
  lemma StateAfterTerminator(p: bytes, s: bytes)
    requires s != [] && IsTerminator(s[0])
    ensures var t := TerminatorAt(s, 0);
            var rest := s[|TerminatorBytes(t)|..];
            StateAfter(p + s) == if rest != [] then StateAfter(rest) else if t == CarriageReturn then AfterCR else Normal
  {
    var t := TerminatorAt(s, 0);
    var rest := s[|TerminatorBytes(t)|..];
    if rest == [] {
      assert s == TerminatorBytes(t);
      assert (p + s)[|p + s| - 1] == s[|s| - 1];
    } else {
      assert s == TerminatorBytes(t) + rest;
      assert p + s == (p + TerminatorBytes(t)) + rest;
      StateAfterSuffix(p + TerminatorBytes(t), rest);
    }
  }

  /** The terminator case of `RunFromPending`: the terminator completes `p`, and the rest starts from an empty line. */
  lemma {:induction false} RunFromPendingAtTerminator(p: bytes, s: bytes)
    requires NoTerminator(p) && s != [] && IsTerminator(s[0])
    ensures Run(Splitter(p, Normal), s) == Reference(p + s)
    decreases |s|, 0
  {
    var t := TerminatorAt(s, 0);
    var rest := s[|TerminatorBytes(t)|..];
    if rest != [] {
      RunFromPending([], rest);
      assert [] + rest == rest;
    }
    SplitAtTerminator(p, s);
    RunAtTerminator(p, s);
    ContentsCons(Line(p, t), SplitLines(rest).lines);
    StateAfterTerminator(p, s);
    if rest == [] {
      assert SplitLines(rest) == Split([], []);
    }
  }

  /** A byte that is not a terminator joins the pending line and completes nothing. */
  lemma RunOrdinaryByte(p: bytes, s: bytes, r: Fed)
    requires s != [] && !IsTerminator(s[0])
    requires Run(Splitter(p + [s[0]], Normal), s[1..]) == r
    ensures Run(Splitter(p, Normal), s) == r
  {
    RunCons(Splitter(p, Normal), s);
    assert Step(Splitter(p, Normal), s[0]) == Fed([], Splitter(p + [s[0]], Normal));
  }

  /** The ordinary-byte case of `RunFromPending`: the byte joins the pending line. */
  lemma {:induction false} RunFromPendingOrdinary(p: bytes, s: bytes)
    requires NoTerminator(p) && s != [] && !IsTerminator(s[0])
    ensures Run(Splitter(p, Normal), s) == Reference(p + s)
    decreases |s|, 0
  {
    var q := p + [s[0]];
    var c := p + s;
    assert q + s[1..] == c;
    assert NoTerminator(q) by {
      NoTerminatorAppend(p, s[0]);
    }
    RunFromPending(q, s[1..]);
    RunOrdinaryByte(p, s, Reference(c));
  }

  /**
   * The machine, holding an unterminated line `p`, turns `s` into exactly the lines and
   * tail that the reference finds in `p + s`.
   */
  lemma {:induction false} RunFromPending(p: bytes, s: bytes)
    requires NoTerminator(p)
    ensures Run(Splitter(p, Normal), s) == Reference(p + s)
    decreases |s|, 1
  {
    if s == [] {
      assert p + s == p;
      SplitUnterminated(p);
    } else if !IsTerminator(s[0]) {
      RunFromPendingOrdinary(p, s);
    } else {
      RunFromPendingAtTerminator(p, s);
    }
  }

  /**
   * Chunk-boundary invariance: a fresh accumulator fed any stream returns exactly the
   * reference lines of that stream, keeps exactly the bytes after its last terminator,
   * and is `AfterCR` exactly when the stream ends with CR.
   */
  lemma RunFromFreshIsSplit(s: bytes)
    ensures Run(Fresh, s) == Reference(s)
  {
    RunFromPending([], s);
    assert [] + s == s;
  }

  /** The bytes of `lines`, each followed by LF. */
  function LFTerminated(lines: seq<bytes>): bytes
    decreases |lines|
  {
    if lines == [] then [] else LFTerminated(lines[..|lines| - 1]) + lines[|lines| - 1] + [LF]
  }

  /** Bytes without a terminator only extend the pending line. */
  lemma {:induction false} RunUnterminated(p: bytes, s: bytes)
    requires NoTerminator(s)
    ensures Run(Splitter(p, Normal), s) == Fed([], Splitter(p + s, Normal))
    decreases |s|
  {
    if s != [] {
      assert !IsTerminator(s[0]) && NoTerminator(s[1..]) by {
        assert s[0] in s;
        assert forall b :: b in s[1..] ==> b in s;
      }
      RunUnterminated(p + [s[0]], s[1..]);
      ConsShift(p, s);
      RunOrdinaryByte(p, s, Fed([], Splitter(p + s, Normal)));
    }
  }

  /** `RunAppend`, for chunks whose runs are already known. */
  lemma RunConcat(sp: Splitter, a: bytes, b: bytes, ra: Fed, rb: Fed)
    requires Run(sp, a) == ra && Run(ra.after, b) == rb
    ensures Run(sp, a + b) == Fed(ra.lines + rb.lines, rb.after)
  {
    RunAppend(sp, a, b);
  }

  lemma OneLFTerminatedLine(line: bytes)
    requires NoTerminator(line)
    ensures Run(Fresh, line + [LF]) == Fed([line], Fresh)
  {
    RunAppend(Fresh, line, [LF]);
    RunUnterminated([], line);
    assert [] + line == line;
    RunCons(Splitter(line, Normal), [LF]);
    EmptyChunk(Fresh);
  }

  /** A chunk of lines, each ended by LF, gives back exactly those lines and leaves the accumulator as new. */
  lemma {:induction false} LFTerminatedLines(lines: seq<bytes>)
    requires forall k :: 0 <= k < |lines| ==> NoTerminator(lines[k])
    ensures Run(Fresh, LFTerminated(lines)) == Fed(lines, Fresh)
    decreases |lines|
  {
    if lines != [] {
      var init := lines[..|lines| - 1];
      var last := lines[|lines| - 1];
      var a, b := LFTerminated(init), last + [LF];
      LFTerminatedLines(init);
      OneLFTerminatedLine(last);
      RunConcat(Fresh, a, b, Fed(init, Fresh), Fed([last], Fresh));
      ConcatAssoc(a, last, [LF]);
      InitLast(lines);
    }
  }

  /** Feeding `a` then `b` to a fresh accumulator yields the lines of `a + b`, however a CRLF falls across them. */
  lemma TwoChunks(a: bytes, b: bytes)
    ensures Run(Fresh, a).lines + Run(Run(Fresh, a).after, b).lines == Contents(SplitLines(a + b).lines)
    ensures Run(Run(Fresh, a).after, b).after == Splitter(SplitLines(a + b).tail, StateAfter(a + b))
  {
    RunAppend(Fresh, a, b);
    RunFromFreshIsSplit(a + b);
  }

  /**
   * One more chunk after a stream `c`: the new lines extend the old ones to the reference
   * lines of `c + chunk`, hold no CR or LF, and leave the reference tail pending.
   */
  lemma FeedFacts(c: bytes, chunk: bytes)
    ensures var r := Run(Run(Fresh, c).after, chunk);
            && Run(Fresh, c + chunk) == Fed(Run(Fresh, c).lines + r.lines, r.after)
            && Run(Fresh, c).lines + r.lines == Contents(SplitLines(c + chunk).lines)
            && r.after.data == SplitLines(c + chunk).tail
            && NoTerminator(r.after.data)
            && (forall k :: 0 <= k < |r.lines| ==> NoTerminator(r.lines[k]))
            && (chunk != [] ==> (r.after.state == AfterCR <==> chunk[|chunk| - 1] == CR))
  {
    var sp := Run(Fresh, c).after;
    RunAppend(Fresh, c, chunk);
    RunFromFreshIsSplit(c);
    RunFromFreshIsSplit(c + chunk);
    SplitLinesClean(c);
    SplitLinesClean(c + chunk);
    RunKeepsLinesClean(sp, chunk);
    if chunk != [] {
      RunStateTracksLastByte(sp, chunk);
    }
  }

  // ---------------------------------------------------------------------------
  // The accumulator object

  class LineAccumulator {
    /** The bytes of the line not yet terminated. */
    var data: bytes
    var state: LineState
    /** Every byte fed so far, and every line returned so far. */
    ghost var consumed: bytes
    ghost var emitted: seq<bytes>

    ghost predicate Valid()
      reads this
    {
      Run(Fresh, consumed) == Fed(emitted, Splitter(data, state))
    }

    constructor ()
      ensures Valid() && consumed == [] && emitted == []
      ensures data == [] && state == Normal
    {
      data := [];
      state := Normal;
      consumed := [];
      emitted := [];
    }

    /**
     * One byte: completes the pending line at a terminator, except the LF of a CRLF, and otherwise
     * extends it. An internal step of `LinesByAccumulatingData`: it leaves the ghost logs
     * `consumed` and `emitted` alone, so called on its own it does not keep `Valid()`.
     */
    method AccumulateByte(b: byte) returns (completed: seq<bytes>)
      modifies this`data, this`state
      ensures Fed(completed, Splitter(data, state)) == Step(old(Splitter(data, state)), b)
    {
      var completesCRLF := state == AfterCR && b == LF;
      state := Normal;
      completed := [];
      if !completesCRLF {
        if b == LF || b == CR {
          completed := [data];
          data := [];
          if b == CR {
            state := AfterCR;
          }
        } else {
          data := data + [b];
        }
      }
    }

    /**
     * The bytes of `chunk` in order: the lines they complete, as the machine runs them. Like
     * `AccumulateByte`, an internal step that does not extend the ghost logs.
     */
    method AccumulateBytes(chunk: bytes) returns (lines: seq<bytes>)
      modifies this`data, this`state
      ensures Fed(lines, Splitter(data, state)) == Run(old(Splitter(data, state)), chunk)
    {
      ghost var start := Splitter(data, state);
      var i := 0;
      lines := [];
      while i < |chunk|
        invariant 0 <= i <= |chunk|
        invariant Run(start, chunk) == Fed(lines + Run(Splitter(data, state), chunk[i..]).lines,
                                           Run(Splitter(data, state), chunk[i..]).after)
      {
        ghost var before := Splitter(data, state);
        RunCons(before, chunk[i..]);
        assert chunk[i..][0] == chunk[i] && chunk[i..][1..] == chunk[i + 1..];
        var completed := AccumulateByte(chunk[i]);
        ConcatAssoc(lines, completed, Run(Splitter(data, state), chunk[i + 1..]).lines);
        lines := lines + completed;
        i := i + 1;
      }
      assert chunk[i..] == [];
    }

    /** linesByAccumulatingData: the lines the chunk completes, in order; the rest stays in `data`. */
    method LinesByAccumulatingData(chunk: bytes) returns (lines: seq<bytes>)
      requires Valid()
      modifies this
      ensures Valid()
      ensures Fed(lines, Splitter(data, state)) == Run(old(Splitter(data, state)), chunk)
      ensures consumed == old(consumed) + chunk && emitted == old(emitted) + lines
      ensures emitted == Contents(SplitLines(consumed).lines)
      ensures data == SplitLines(consumed).tail && NoTerminator(data)
      ensures forall k :: 0 <= k < |lines| ==> NoTerminator(lines[k])
      ensures chunk != [] ==> (state == AfterCR <==> chunk[|chunk| - 1] == CR)
      ensures chunk == [] ==> lines == [] && data == old(data) && state == old(state)
    {
      assert Run(Fresh, consumed).after == Splitter(data, state);
      lines := AccumulateBytes(chunk);
      FeedFacts(consumed, chunk);
      consumed := consumed + chunk;
      emitted := emitted + lines;
    }
  }
}
