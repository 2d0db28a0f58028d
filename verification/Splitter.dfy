/** The NDJSON reader loop: splits a file, read in arbitrary pieces, into raw batches. */
module Splitter {

  function Newlines(s: string): (n: nat) {
    if s == "" then 0 else Newlines(s[..|s| - 1]) + (if s[|s| - 1] == '\n' then 1 else 0)
  }

  lemma {:induction false} NewlinesConcat(a: string, b: string)
    ensures Newlines(a + b) == Newlines(a) + Newlines(b)
  {
    if b == "" {
      assert a + b == a;
    } else {
      assert (a + b)[..|a + b| - 1] == a + b[..|b| - 1];
      NewlinesConcat(a, b[..|b| - 1]);
    }
  }

  /** Everything before the first newline counts nothing. */
  lemma {:induction false} NoNewlines(s: string)
    requires '\n' !in s
    ensures Newlines(s) == 0
  {
    if s != "" { NoNewlines(s[..|s| - 1]); }
  }

  lemma {:induction false} SomeNewline(s: string)
    requires Newlines(s) > 0
    ensures '\n' in s
  {
    if '\n' !in s { NoNewlines(s); }
  }

  predicate Blank(s: string) {
    forall i :: 0 <= i < |s| ==> s[i] in " \t\r\n"
  }

  function Concat(pieces: seq<string>): (r: string) {
    if pieces == [] then "" else Concat(pieces[..|pieces| - 1]) + pieces[|pieces| - 1]
  }

  /** The pieces that reach the parse queue. */
  function NonBlank(pieces: seq<string>): (r: seq<string>) {
    if pieces == [] then []
    else
      var last := pieces[|pieces| - 1];
      NonBlank(pieces[..|pieces| - 1]) + if Blank(last) then [] else [last]
  }

  // ---------------------------------------------------------------------------
  // What a reader of the batches gets to see
  // ---------------------------------------------------------------------------

  /** A text without its spaces, tabs, carriage returns and newlines. */
  function Visible(s: string): (r: string) {
    if s == "" then ""
    else
      var c := s[|s| - 1];
      Visible(s[..|s| - 1]) + if c == ' ' || c == '\t' || c == '\r' || c == '\n' then "" else [c]
  }

  lemma {:induction false} VisibleConcat(a: string, b: string)
    ensures Visible(a + b) == Visible(a) + Visible(b)
  {
    if b == "" {
      assert a + b == a;
    } else {
      assert (a + b)[..|a + b| - 1] == a + b[..|b| - 1];
      VisibleConcat(a, b[..|b| - 1]);
    }
  }

  /** Only white space is dropped. */
  lemma {:induction false} BlankIsInvisible(s: string)
    ensures Blank(s) <==> Visible(s) == ""
  {
    if s != "" {
      BlankIsInvisible(s[..|s| - 1]);
      if Blank(s[..|s| - 1]) && s[|s| - 1] in " \t\r\n" { assert Blank(s); }
    }
  }

  lemma {:induction false} NonBlankKeepsVisible(pieces: seq<string>)
    ensures Visible(Concat(NonBlank(pieces))) == Visible(Concat(pieces))
    ensures forall i :: 0 <= i < |NonBlank(pieces)| ==> Visible(NonBlank(pieces)[i]) != ""
  {
    if pieces != [] {
      var init, last := pieces[..|pieces| - 1], pieces[|pieces| - 1];
      NonBlankKeepsVisible(init);
      BlankIsInvisible(last);
      VisibleConcat(Concat(init), last);
      if Blank(last) {
        assert NonBlank(pieces) == NonBlank(init);
      } else {
        ConcatStep(NonBlank(init), last);
        VisibleConcat(Concat(NonBlank(init)), last);
      }
    }
  }

  /** A closed batch: whole lines, at least one and at most `batchSize` of them. */
  ghost predicate Closed(piece: string, batchSize: nat) {
    1 <= Newlines(piece) <= batchSize && piece[|piece| - 1] == '\n'
  }

  ghost predicate AllClosed(pieces: seq<string>, batchSize: nat) {
    forall i :: 0 <= i < |pieces| ==> pieces[i] != "" && Closed(pieces[i], batchSize)
  }

  lemma ConcatStep(pieces: seq<string>, piece: string)
    ensures Concat(pieces + [piece]) == Concat(pieces) + piece
    ensures NonBlank(pieces + [piece]) == NonBlank(pieces) + if Blank(piece) then [] else [piece]
  {
    assert (pieces + [piece])[..|pieces|] == pieces;
  }

  /** `string::find('\n', from)` on a text known to hold a newline there. */
  method FindNewline(s: string, from: nat) returns (i: nat)
    requires from <= |s| && Newlines(s[from..]) > 0
    ensures from <= i < |s| && s[i] == '\n' && '\n' !in s[from..i]
  {
    SomeNewline(s[from..]);
    i := from;
    while s[i] != '\n'
      invariant from <= i < |s| && '\n' !in s[from..i] && '\n' in s[i..]
      decreases |s| - i
    {
      assert s[i..] == [s[i]] + s[i + 1..];
      assert s[from..i + 1] == s[from..i] + [s[i]];
      i := i + 1;
    }
  }

  /** The end of the first `take` lines. */
  method SplitAfter(pending: string, take: nat) returns (split: nat)
    requires 1 <= take <= Newlines(pending)
    ensures 0 < split <= |pending| && pending[split - 1] == '\n'
    ensures Newlines(pending[..split]) == take
  {
    split := 0;
    for line := 0 to take
      invariant split <= |pending| && Newlines(pending[..split]) == line
      invariant line > 0 ==> split > 0 && pending[split - 1] == '\n'
    {
      LinesLeft(pending, split);
      var at := FindNewline(pending, split);
      LineTaken(pending, split, at);
      split := at + 1;
    }
  }

  lemma LinesLeft(s: string, split: nat)
    requires split <= |s|
    ensures Newlines(s[split..]) == Newlines(s) - Newlines(s[..split])
  {
    assert s == s[..split] + s[split..];
    NewlinesConcat(s[..split], s[split..]);
  }

  lemma LineTaken(s: string, split: nat, at: nat)
    requires split <= at < |s| && s[at] == '\n' && '\n' !in s[split..at]
    ensures Newlines(s[..at + 1]) == Newlines(s[..split]) + 1
  {
    var upTo := s[..at];
    assert s[..at + 1][..at] == upTo && upTo == s[..split] + s[split..at];
    NewlinesConcat(s[..split], s[split..at]);
    NoNewlines(s[split..at]);
  }

  /** One exact cut of a text: closed batches, then a tail below both caps. */
  ghost predicate ValidCut(text: string, pieces: seq<string>, tail: string, batchSize: nat, byteTarget: nat) {
    && Concat(pieces) + tail == text
    && AllClosed(pieces, batchSize)
    && Newlines(tail) < batchSize
    && (|tail| >= byteTarget ==> Newlines(tail) == 0)
  }

  /** Piece `i` was closed for a cap: it has the full number of lines, or after some read there
      was enough text, the pieces before it taken away, to reach the byte target. */
  ghost predicate ClosedForCap(chunks: seq<string>, pieces: seq<string>, i: nat, batchSize: nat, byteTarget: nat)
    requires i < |pieces|
  {
    || Newlines(pieces[i]) == batchSize
    || exists r {:trigger chunks[..r]} :: 0 <= r <= |chunks| && |Concat(chunks[..r])| >= |Concat(pieces[..i])| + byteTarget
  }

  ghost predicate AllForCaps(chunks: seq<string>, pieces: seq<string>, batchSize: nat, byteTarget: nat) {
    forall i :: 0 <= i < |pieces| ==> ClosedForCap(chunks, pieces, i, batchSize, byteTarget)
  }

  lemma NextForCap(chunks: seq<string>, pieces: seq<string>, piece: string, r: nat, batchSize: nat, byteTarget: nat)
    requires AllForCaps(chunks, pieces, batchSize, byteTarget) && r <= |chunks|
    requires Newlines(piece) == batchSize || |Concat(chunks[..r])| >= |Concat(pieces)| + byteTarget
    ensures AllForCaps(chunks, pieces + [piece], batchSize, byteTarget)
  {
    var more := pieces + [piece];
    forall i | 0 <= i < |more| ensures ClosedForCap(chunks, more, i, batchSize, byteTarget) {
      assert more[..i] == pieces[..i];
      if i < |pieces| { assert ClosedForCap(chunks, pieces, i, batchSize, byteTarget); }
      else { assert pieces[..i] == pieces; }
    }
  }

  ghost predicate CutSoFar(text: string, pieces: seq<string>, pending: string, batches: seq<string>, batchSize: nat) {
    Concat(pieces) + pending == text && batches == NonBlank(pieces) && AllClosed(pieces, batchSize)
  }

  lemma CutGoesOn(text: string, pieces: seq<string>, pending: string, batches: seq<string>, batchSize: nat, split: nat)
    requires CutSoFar(text, pieces, pending, batches, batchSize)
    requires 0 < split <= |pending| && Closed(pending[..split], batchSize)
    ensures CutSoFar(text, pieces + [pending[..split]], pending[split..],
                     if Blank(pending[..split]) then batches else batches + [pending[..split]], batchSize)
    ensures Newlines(pending[split..]) == Newlines(pending) - Newlines(pending[..split])
  {
    CutStep(pieces, pending, split);
  }

  /** The reader thread, for any sequence of read results: batches are the non-blank
      pieces of one exact cut of the file, made only right after newlines. */
  method ReadBatches(chunks: seq<string>, batchSize: nat, byteTarget: nat) returns (batches: seq<string>)
    requires batchSize > 0
    ensures exists pieces, tail ::
      && ValidCut(Concat(chunks), pieces, tail, batchSize, byteTarget) && AllForCaps(chunks, pieces, batchSize, byteTarget)
      && batches == NonBlank(pieces + [tail])
    ensures Visible(Concat(batches)) == Visible(Concat(chunks))
    ensures forall i :: 0 <= i < |batches| ==> Visible(batches[i]) != ""
  {
    ghost var pieces := [];
    batches := [];
    var pending, pendingLines := "", 0;
    for r := 0 to |chunks|
      invariant CutSoFar(Concat(chunks[..r]), pieces, pending, batches, batchSize)
      invariant AllForCaps(chunks, pieces, batchSize, byteTarget)
      invariant pendingLines == Newlines(pending) < batchSize
      invariant |pending| >= byteTarget ==> pendingLines == 0
    {
      var counted := CountNewlines(chunks[r]);
      ReadStep(chunks, r, Concat(pieces), pending);
      pendingLines := pendingLines + counted;
      pending := pending + chunks[r];
      while pendingLines >= batchSize || (|pending| >= byteTarget && pendingLines > 0)
        invariant CutSoFar(Concat(chunks[..r + 1]), pieces, pending, batches, batchSize)
        invariant AllForCaps(chunks, pieces, batchSize, byteTarget)
        invariant pendingLines == Newlines(pending)
        decreases pendingLines
      {
        var take := if pendingLines < batchSize then pendingLines else batchSize;
        var split := SplitAfter(pending, take);
        CutGoesOn(Concat(chunks[..r + 1]), pieces, pending, batches, batchSize, split);
        NextForCap(chunks, pieces, pending[..split], r + 1, batchSize, byteTarget);
        if !Blank(pending[..split]) { batches := batches + [pending[..split]]; }
        pieces := pieces + [pending[..split]];
        pending := pending[split..];
        pendingLines := pendingLines - take;
      }
    }
    assert chunks[..|chunks|] == chunks;
    ConcatStep(pieces, pending);
    assert ValidCut(Concat(chunks), pieces, pending, batchSize, byteTarget);
    NonBlankKeepsVisible(pieces + [pending]);
    if !Blank(pending) { batches := batches + [pending]; }
  }

  lemma ReadStep(chunks: seq<string>, r: nat, done: string, pending: string)
    requires r < |chunks| && done + pending == Concat(chunks[..r])
    ensures done + (pending + chunks[r]) == Concat(chunks[..r + 1])
    ensures Newlines(pending + chunks[r]) == Newlines(pending) + Newlines(chunks[r])
  {
    NewlinesConcat(pending, chunks[r]);
    ConcatStep(chunks[..r], chunks[r]);
    assert chunks[..r + 1] == chunks[..r] + [chunks[r]];
    assert done + (pending + chunks[r]) == (done + pending) + chunks[r];
  }

  lemma CutStep(pieces: seq<string>, pending: string, split: nat)
    requires split <= |pending|
    ensures Concat(pieces + [pending[..split]]) + pending[split..] == Concat(pieces) + pending
    ensures NonBlank(pieces + [pending[..split]])
         == NonBlank(pieces) + if Blank(pending[..split]) then [] else [pending[..split]]
    ensures Newlines(pending[split..]) == Newlines(pending) - Newlines(pending[..split])
  {
    assert pending == pending[..split] + pending[split..];
    NewlinesConcat(pending[..split], pending[split..]);
    ConcatStep(pieces, pending[..split]);
    Regroup(Concat(pieces), pending[..split], pending[split..]);
  }

  lemma Regroup<T>(a: seq<T>, b: seq<T>, c: seq<T>)
    ensures (a + b) + c == a + (b + c)
  {
  }

  method CountNewlines(s: string) returns (n: nat)
    ensures n == Newlines(s)
  {
    n := 0;
    for i := 0 to |s|
      invariant n == Newlines(s[..i])
    {
      assert s[..i + 1][..i] == s[..i];
      if s[i] == '\n' { n := n + 1; }
    }
    assert s[..|s|] == s;
  }

  // ---------------------------------------------------------------------------
  // The cut does not depend on how the file happened to be read
  // ---------------------------------------------------------------------------

  /** The lines of a text: each closed by its newline, the last one possibly open. */
  function Lines(s: string): (r: seq<string>)
    ensures |r| > 0
  {
    if s == "" then [""] else AddChar(Lines(s[..|s| - 1]), s[|s| - 1])
  }

  function AddChar(lines: seq<string>, c: char): (r: seq<string>)
    requires |lines| > 0
    ensures |r| > 0
  {
    var grown := lines[..|lines| - 1] + [lines[|lines| - 1] + [c]];
    if c == '\n' then grown + [""] else grown
  }

  lemma AddCharAfter(front: seq<string>, lines: seq<string>, c: char)
    requires |lines| > 0
    ensures AddChar(front + lines, c) == front + AddChar(lines, c)
  {
    assert (front + lines)[..|front + lines| - 1] == front + lines[..|lines| - 1];
  }

  /** Cutting right after a newline splits the list of lines, never a line. */
  lemma {:induction false} CutKeepsLines(a: string, b: string)
    requires a != "" && a[|a| - 1] == '\n'
    ensures Lines(a + b) == Lines(a)[..|Lines(a)| - 1] + Lines(b)
  {
    if b == "" {
      assert a + b == a;
      assert Lines(a)[|Lines(a)| - 1] == "";
    } else {
      var init := b[..|b| - 1];
      assert (a + b)[..|a + b| - 1] == a + init;
      CutKeepsLines(a, init);
      AddCharAfter(Lines(a)[..|Lines(a)| - 1], Lines(init), b[|b| - 1]);
    }
  }

  function LinesOfPieces(pieces: seq<string>): (r: seq<string>)
    requires forall i :: 0 <= i < |pieces| ==> pieces[i] != ""
  {
    if pieces == [] then []
    else
      Lines(pieces[0])[..|Lines(pieces[0])| - 1] + LinesOfPieces(pieces[1..])
  }

  /** Whatever the read sizes and caps, the lines of the batches are the file's lines. */
  lemma {:induction false} BatchesHoldTheLines(pieces: seq<string>, tail: string, batchSize: nat)
    requires AllClosed(pieces, batchSize)
    ensures Lines(Concat(pieces) + tail) == LinesOfPieces(pieces) + Lines(tail)
    decreases |pieces|
  {
    if pieces == [] {
      assert Concat(pieces) + tail == tail;
    } else {
      ConcatFront(pieces);
      var rest := Concat(pieces[1..]) + tail;
      Regroup(pieces[0], Concat(pieces[1..]), tail);
      CutKeepsLines(pieces[0], rest);
      BatchesHoldTheLines(pieces[1..], tail, batchSize);
      var whole := Lines(pieces[0]);
      Regroup(whole[..|whole| - 1], LinesOfPieces(pieces[1..]), Lines(tail));
    }
  }

  lemma {:induction false} ConcatFront(pieces: seq<string>)
    requires pieces != []
    ensures Concat(pieces) == pieces[0] + Concat(pieces[1..])
  {
    if |pieces| > 1 {
      ConcatFront(pieces[..|pieces| - 1]);
      assert pieces[..|pieces| - 1][1..] == pieces[1..][..|pieces| - 2];
    } else {
      assert pieces[..0] == [] && pieces[1..] == [];
    }
  }
}
