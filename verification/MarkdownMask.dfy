/**
 Blanking Markdown code before mentions are looked up: fenced and indented lines first, then
 inline code spans. Positions and encoding stay as they were.
 */
module MarkdownMask {
  import opened Wrappers
  import opened Utf8

  const BACKTICK: Byte := 0x60
  const TILDE: Byte := 0x7E
  const SPACE: Byte := 0x20
  const TAB: Byte := 0x09
  const BACKSLASH: Byte := 0x5C

  datatype Fence = Fence(marker: Byte, length: nat)

  // ---- lines ----

  /** The length of the run of `b` that `s` starts with. */
  function Run(s: seq<Byte>, b: Byte): (n: nat)
    ensures n <= |s| && (forall k :: 0 <= k < n ==> s[k] == b) && (n < |s| ==> s[n] != b)
  {
    if s != [] && s[0] == b then 1 + Run(s[1..], b) else 0
  }

  /** The first line break at or after `start`, or the end of the text. */
  function LineEnd(s: seq<Byte>, start: nat): (end: nat)
    requires start <= |s|
    ensures start <= end <= |s| && (forall k :: start <= k < end ==> !LineBreak(s[k])) && (end < |s| ==> LineBreak(s[end]))
    decreases |s| - start
  {
    if start == |s| || LineBreak(s[start]) then start else LineEnd(s, start + 1)
  }

  function NextLine(s: seq<Byte>, end: nat): (next: nat)
    requires end <= |s| && (end < |s| ==> LineBreak(s[end]))
    ensures end <= next <= |s| && (end < |s| ==> end < next) && forall k :: end <= k < next ==> LineBreak(s[k])
  {
    if end + 1 < |s| && s[end] == 0x0D && s[end + 1] == 0x0A then end + 2
    else if end < |s| then end + 1 else end
  }

  function Min(a: nat, b: nat): nat {
    if a < b then a else b
  }

  function Indent(line: seq<Byte>): nat {
    Min(Run(line, SPACE), 4)
  }

  /** The byte a fence would be made of. */
  function Marker(line: seq<Byte>): Option<Byte> {
    var at := Min(Indent(line), 3);
    if at < |line| then Some(line[at]) else None
  }

  function MarkerLength(line: seq<Byte>): (n: nat)
    ensures Min(Indent(line), 3) <= |line| ==> Min(Indent(line), 3) + n <= |line|
  {
    var at := Min(Indent(line), 3);
    if at < |line| then Run(line[at..], line[at]) else 0
  }

  function AfterMarker(line: seq<Byte>): seq<Byte> {
    var at := Min(Indent(line), 3);
    if at < |line| then line[at + MarkerLength(line)..] else []
  }

  predicate Closes(line: seq<Byte>, fence: Option<Fence>) {
    && fence.Some? && Marker(line) == Some(fence.value.marker) && MarkerLength(line) >= fence.value.length
    && forall b :: b in AfterMarker(line) ==> b == SPACE || b == TAB
  }

  predicate Opens(line: seq<Byte>, fence: Option<Fence>) {
    && fence.None? && (Marker(line) == Some(BACKTICK) || Marker(line) == Some(TILDE)) && MarkerLength(line) >= 3
    && !(Marker(line) == Some(BACKTICK) && BACKTICK in AfterMarker(line))
  }

  predicate CodeLine(line: seq<Byte>, fence: Option<Fence>) {
    fence.Some? || Opens(line, fence) || Indent(line) >= 4 || (line != [] && line[0] == TAB)
  }

  function FenceAfter(line: seq<Byte>, fence: Option<Fence>): Option<Fence> {
    if Closes(line, fence) then None
    else if Opens(line, fence) then Some(Fence(Marker(line).value, MarkerLength(line)))
    else fence
  }

  function Fill(n: nat, value: bool): seq<bool> {
    seq(n, _ => value)
  }

  /** The lines from `start` on that are code; line breaks never are. */
  function CodeLines(s: seq<Byte>, start: nat, fence: Option<Fence>): (m: seq<bool>)
    requires start <= |s|
    ensures |m| == |s| - start
    decreases |s| - start
  {
    if start == |s| then []
    else
      var end := LineEnd(s, start);
      var next := NextLine(s, end);
      Fill(end - start, CodeLine(s[start..end], fence)) + Fill(next - end, false) + CodeLines(s, next, FenceAfter(s[start..end], fence))
  }

  // ---- inline spans ----

  /** An odd run of backslashes precedes `index`. */
  predicate EscapedAt(s: seq<Byte>, index: nat)
    requires index <= |s|
  {
    Backslashes(s, index) % 2 == 1
  }

  function Backslashes(s: seq<Byte>, index: nat): nat
    requires index <= |s|
  {
    if index > 0 && s[index - 1] == BACKSLASH then 1 + Backslashes(s, index - 1) else 0
  }

  /** A backtick run outside code lines that starts a span, if a run of the same length follows. */
  predicate OpenerAt(s: seq<Byte>, code: seq<bool>, index: nat)
    requires |code| == |s| && index < |s|
  {
    s[index] == BACKTICK && !code[index] && !EscapedAt(s, index)
  }

  /** The next run of exactly `length` backticks at or after `from`, outside code lines. */
  function Closer(s: seq<Byte>, code: seq<bool>, from: nat, length: nat): (c: Option<nat>)
    requires |code| == |s| && from <= |s|
    ensures c.Some? ==> from <= c.value < |s| && Run(s[c.value..], BACKTICK) == length && s[c.value] == BACKTICK && !code[c.value]
    decreases |s| - from
  {
    if from == |s| then None
    else if s[from] != BACKTICK || code[from] then Closer(s, code, from + 1, length)
    else
      var run := Run(s[from..], BACKTICK);
      if run == length then Some(from) else Closer(s, code, from + run, length)
  }

  /** The mask of the next byte, span, or run that nothing closes. */
  function Piece(s: seq<Byte>, code: seq<bool>, index: nat): (p: seq<bool>)
    requires |code| == |s| && index < |s|
    ensures 0 < |p| <= |s| - index
  {
    if !OpenerAt(s, code, index) then [code[index]]
    else
      var run := Run(s[index..], BACKTICK);
      var closer := Closer(s, code, index + run, run);
      if closer.Some? then Fill(closer.value + run - index, true) else code[index..index + run]
  }

  /** The mask from `index` on, once spans are found left to right. */
  function WithSpans(s: seq<Byte>, code: seq<bool>, index: nat): (m: seq<bool>)
    requires |code| == |s| && index <= |s|
    ensures |m| == |s| - index
    decreases |s| - index
  {
    if index == |s| then []
    else
      var piece := Piece(s, code, index);
      piece + WithSpans(s, code, index + |piece|)
  }

  /** What is code in a text. */
  function Code(s: seq<Byte>): (m: seq<bool>)
    ensures |m| == |s|
  {
    WithSpans(s, CodeLines(s, 0, None), 0)
  }

  // ---- whole characters are masked ----

  /** In valid UTF-8 no tail byte follows an ASCII byte. */
  ghost predicate TailsFollow(s: seq<Byte>) {
    forall k :: 0 <= k < |s| && Tail(s[k]) ==> k > 0 && s[k - 1] >= 0x80
  }

  lemma Utf8TailsFollow(s: seq<Byte>)
    requires ValidUtf8(s)
    ensures TailsFollow(s)
  {
  }

  /** `m` masks the bytes of `s` from `at` on. */
  ghost predicate AlignedFrom(s: seq<Byte>, at: nat, m: seq<bool>) {
    at <= |s| && |m| == |s| - at && forall k :: at < k < |s| && Tail(s[k]) ==> m[k - at] == m[k - 1 - at]
  }

  lemma GlueAligned(s: seq<Byte>, at: nat, piece: seq<bool>, rest: seq<bool>)
    requires at + |piece| + |rest| == |s| && AlignedFrom(s, at + |piece|, rest)
    requires forall k :: at < k < at + |piece| && Tail(s[k]) ==> piece[k - at] == piece[k - 1 - at]
    requires at + |piece| < |s| && |piece| > 0 && Tail(s[at + |piece|]) ==> rest[0] == piece[|piece| - 1]
    ensures AlignedFrom(s, at, piece + rest)
  {
  }

  lemma {:induction false} CodeLinesAligned(s: seq<Byte>, start: nat, fence: Option<Fence>)
    requires TailsFollow(s) && start <= |s|
    ensures AlignedFrom(s, start, CodeLines(s, start, fence))
    decreases |s| - start
  {
    hide AlignedFrom, LineEnd, NextLine, CodeLine, FenceAfter;
    if start == |s| {
      Trivially(s);
    } else {
      var end := LineEnd(s, start);
      var next := NextLine(s, end);
      var rest := CodeLines(s, next, FenceAfter(s[start..end], fence));
      var line := Fill(end - start, CodeLine(s[start..end], fence));
      var break_ := Fill(next - end, false);
      CodeLinesAligned(s, next, FenceAfter(s[start..end], fence));
      assert next < |s| ==> LineBreak(s[next - 1]) && !Tail(s[next]);
      GlueAligned(s, end, break_, rest);
      GlueAligned(s, start, line, break_ + rest);
      assert line + (break_ + rest) == line + break_ + rest;
    }
  }

  lemma Trivially(s: seq<Byte>)
    ensures AlignedFrom(s, |s|, [])
  {
  }

  lemma {:induction false} WithSpansAligned(s: seq<Byte>, code: seq<bool>, index: nat)
    requires TailsFollow(s) && Aligned(s, code) && index <= |s|
    ensures AlignedFrom(s, index, WithSpans(s, code, index))
    ensures index < |s| && Tail(s[index]) ==> WithSpans(s, code, index)[0] == code[index]
    decreases |s| - index
  {
    hide AlignedFrom, Piece, TailsFollow;
    if index == |s| {
      Trivially(s);
    } else {
      var piece := Piece(s, code, index);
      PieceAligned(s, code, index);
      WithSpansAligned(s, code, index + |piece|);
      GlueAligned(s, index, piece, WithSpans(s, code, index + |piece|));
    }
  }

  /** A piece does not split a character, inside or at its end. */
  lemma PieceAligned(s: seq<Byte>, code: seq<bool>, index: nat)
    requires TailsFollow(s) && Aligned(s, code) && index < |s|
    ensures var p := Piece(s, code, index);
            && (forall k :: index < k < index + |p| && Tail(s[k]) ==> p[k - index] == p[k - 1 - index])
            && (index + |p| < |s| && Tail(s[index + |p|]) ==> p[|p| - 1] == code[index + |p|])
            && (Tail(s[index]) ==> p[0] == code[index])
  {
    hide Closer, EscapedAt, Run, TailsFollow;
    if OpenerAt(s, code, index) {
      var run := Run(s[index..], BACKTICK);
      var closer := Closer(s, code, index + run, run);
      RunIsAscii(s, index, run);
      if closer.Some? {
        PieceClosed(s, code, index, run, closer.value);
        RunIsAscii(s, closer.value, run);
      }
    }
  }

  /** Neither a run of backticks nor the byte after it holds a tail byte. */
  lemma RunIsAscii(s: seq<Byte>, at: nat, run: nat)
    requires TailsFollow(s) && at < |s| && s[at] == BACKTICK && run == Run(s[at..], BACKTICK)
    ensures run > 0 && at + run <= |s|
    ensures forall k :: at <= k <= at + run && k < |s| ==> !Tail(s[k])
  {
    forall k | at <= k < at + run ensures s[k] == BACKTICK { assert s[k] == s[at..][k - at]; }
    assert s[at + run - 1] == BACKTICK;
  }

  lemma CodeAligned(s: seq<Byte>)
    requires ValidUtf8(s)
    ensures Aligned(s, Code(s))
  {
    hide CodeLines, WithSpans, TailsFollow, ValidUtf8;
    Utf8TailsFollow(s);
    CodeLinesAligned(s, 0, None);
    WithSpansAligned(s, CodeLines(s, 0, None), 0);
  }

  // ---- what is masked ----

  /** `k` lies from an opening run to the end of the next run of the same length. */
  predicate SpanCovers(s: seq<Byte>, code: seq<bool>, i: nat, k: nat)
    requires |code| == |s| && i < |s|
  {
    var run := Run(s[i..], BACKTICK);
    && i <= k && OpenerAt(s, code, i)
    && Closer(s, code, i + run, run).Some? && k < Closer(s, code, i + run, run).value + run
  }

  ghost predicate InSpan(s: seq<Byte>, code: seq<bool>, k: nat)
    requires |code| == |s|
  {
    exists i: nat :: i < |s| && SpanCovers(s, code, i, k)
  }

  /** Code lines stay masked, and beyond them only spans are. */
  lemma {:induction false} MaskedAreCode(s: seq<Byte>, code: seq<bool>, index: nat, k: nat)
    requires |code| == |s| && index <= k < |s|
    ensures code[k] ==> WithSpans(s, code, index)[k - index]
    ensures WithSpans(s, code, index)[k - index] ==> code[k] || InSpan(s, code, k)
    decreases |s| - index
  {
    hide Piece, SpanCovers;
    var piece := Piece(s, code, index);
    if k < index + |piece| {
      PieceIsCode(s, code, index, k);
    } else {
      MaskedAreCode(s, code, index + |piece|, k);
    }
  }

  lemma PieceIsCode(s: seq<Byte>, code: seq<bool>, index: nat, k: nat)
    requires |code| == |s| && index < |s| && index <= k < index + |Piece(s, code, index)|
    ensures code[k] ==> Piece(s, code, index)[k - index]
    ensures Piece(s, code, index)[k - index] ==> code[k] || SpanCovers(s, code, index, k)
  {
  }

  /** Every masked byte is in a code line or in a span, and every code line is masked. */
  lemma CodeIsCode(s: seq<Byte>, k: nat)
    requires k < |s|
    ensures CodeLines(s, 0, None)[k] ==> Code(s)[k]
    ensures Code(s)[k] ==> CodeLines(s, 0, None)[k] || InSpan(s, CodeLines(s, 0, None), k)
  {
    MaskedAreCode(s, CodeLines(s, 0, None), 0, k);
  }

  // ---- the two scans, in place ----

  /** `masked[lo..hi].fill(true)`. */
  method FillRange(masked: array<bool>, lo: nat, hi: nat)
    requires lo <= hi <= masked.Length
    modifies masked
    ensures masked[..] == old(masked[..])[..lo] + Fill(hi - lo, true) + old(masked[..])[hi..]
  {
    for k := lo to hi
      invariant masked[..lo] == old(masked[..lo])
      invariant forall j :: lo <= j < k ==> masked[j]
      invariant masked[hi..] == old(masked[hi..])
    {
      masked[k] := true;
    }
    assert masked[lo..hi] == Fill(hi - lo, true);
    assert masked[..] == masked[..lo] + masked[lo..hi] + masked[hi..];
  }

  method MaskLines(s: seq<Byte>, masked: array<bool>)
    requires masked.Length == |s| && masked[..] == Fill(|s|, false)
    modifies masked
    ensures masked[..] == CodeLines(s, 0, None)
  {
    hide Fill, CodeLines, CodeLine, FenceAfter, LineEnd, NextLine;
    var fence: Option<Fence> := None;
    var start := 0;
    ghost var whole := CodeLines(s, 0, None);
    while start < |s|
      invariant start <= |s|
      invariant masked[..][..start] + CodeLines(s, start, fence) == whole
      invariant masked[..][start..] == Fill(|s| - start, false)
      decreases |s| - start
    {
      ghost var was := masked[..];
      var end := LineEnd(s, start);
      var next := NextLine(s, end);
      var line := s[start..end];
      if CodeLine(line, fence) {
        FillRange(masked, start, end);
      }
      LinesStep(s, was, masked[..], start, fence);
      fence, start := FenceAfter(line, fence), next;
    }
    CodeLinesFrom(s, start, fence);
  }

  lemma CodeLinesFrom(s: seq<Byte>, start: nat, fence: Option<Fence>)
    requires start <= |s|
    ensures start == |s| ==> CodeLines(s, start, fence) == []
    ensures start < |s| ==>
              var end := LineEnd(s, start);
              var next := NextLine(s, end);
              CodeLines(s, start, fence)
              == Fill(end - start, CodeLine(s[start..end], fence)) + Fill(next - end, false) + CodeLines(s, next, FenceAfter(s[start..end], fence))
  {
    hide LineEnd, NextLine, CodeLine, FenceAfter;
  }

  /** One more line is decided. */
  lemma LineMasked(was: seq<bool>, masked: seq<bool>, start: nat, end: nat, next: nat, code: bool, rest: seq<bool>)
    requires start <= end <= next <= |was| && was[start..] == Fill(|was| - start, false)
    requires masked == if code then was[..start] + Fill(end - start, true) + was[end..] else was
    ensures |masked| == |was| && masked[next..] == Fill(|was| - next, false)
    ensures masked[..next] + rest == was[..start] + (Fill(end - start, code) + Fill(next - end, false) + rest)
  {
    assert was[end..] == was[start..][end - start..];
    assert masked[..next] == was[..start] + Fill(end - start, code) + Fill(next - end, false);
  }

  lemma LinesStep(s: seq<Byte>, was: seq<bool>, masked: seq<bool>, start: nat, fence: Option<Fence>)
    requires start < |s| == |was| && was[start..] == Fill(|was| - start, false)
    requires var end := LineEnd(s, start);
             masked == if CodeLine(s[start..end], fence) then was[..start] + Fill(end - start, true) + was[end..] else was
    ensures var end := LineEnd(s, start);
            var next := NextLine(s, end);
            && |masked| == |was| && masked[next..] == Fill(|was| - next, false)
            && masked[..next] + CodeLines(s, next, FenceAfter(s[start..end], fence)) == was[..start] + CodeLines(s, start, fence)
  {
    hide Fill, CodeLines, CodeLine, FenceAfter, LineEnd, NextLine;
    CodeLinesFrom(s, start, fence);
    var end := LineEnd(s, start);
    var next := NextLine(s, end);
    var line := s[start..end];
    LineMasked(was, masked, start, end, next, CodeLine(line, fence), CodeLines(s, next, FenceAfter(line, fence)));
  }

  lemma CloserStep(s: seq<Byte>, code: seq<bool>, from: nat, length: nat)
    requires |code| == |s| && from <= |s|
    ensures from == |s| ==> Closer(s, code, from, length).None?
    ensures from < |s| && (s[from] != BACKTICK || code[from]) ==> Closer(s, code, from, length) == Closer(s, code, from + 1, length)
    ensures from < |s| && s[from] == BACKTICK && !code[from] ==>
              var run := Run(s[from..], BACKTICK);
              run > 0 && Closer(s, code, from, length) == if run == length then Some(from) else Closer(s, code, from + run, length)
  {
  }

  method FindCloser(s: seq<Byte>, masked: array<bool>, from: nat, length: nat) returns (closer: nat)
    requires masked.Length == |s| && from <= |s| && length > 0
    ensures closer <= |s|
    ensures Closer(s, masked[..], from, length) == if closer < |s| then Some(closer) else None
  {
    hide Closer, Run;
    ghost var code := masked[..];
    closer := from;
    while closer < |s|
      invariant from <= closer <= |s|
      invariant Closer(s, code, from, length) == Closer(s, code, closer, length)
      decreases |s| - closer
    {
      CloserStep(s, code, closer, length);
      if s[closer] != BACKTICK || masked[closer] {
        closer := closer + 1;
        continue;
      }
      var run := Run(s[closer..], BACKTICK);
      if run == length {
        return;
      }
      closer := closer + run;
    }
    CloserStep(s, code, closer, length);
  }

  /** Spans are masked on top of code lines; the scan never looks back at what it masked. */
  method MaskSpans(s: seq<Byte>, masked: array<bool>)
    requires masked.Length == |s|
    modifies masked
    ensures masked[..] == WithSpans(s, old(masked[..]), 0)
  {
    hide Piece;
    ghost var code := masked[..];
    var index := 0;
    while index < |s|
      invariant index <= |s|
      invariant masked[index..] == code[index..]
      invariant WithSpans(s, code, 0) == masked[..index] + WithSpans(s, code, index)
      decreases |s| - index
    {
      ghost var before := masked[..index];
      ghost var piece := Piece(s, code, index);
      index := MaskPiece(s, masked, index, code);
      Joined(before, piece, WithSpans(s, code, index));
    }
  }

  lemma Joined(a: seq<bool>, b: seq<bool>, c: seq<bool>)
    ensures a + (b + c) == a + b + c
  {
  }

  /** One step of the scan. */
  method MaskPiece(s: seq<Byte>, masked: array<bool>, index: nat, ghost code: seq<bool>) returns (next: nat)
    requires masked.Length == |s| == |code| && index < |s|
    requires masked[index..] == code[index..]
    modifies masked
    ensures next == index + |Piece(s, code, index)| && masked[next..] == code[next..]
    ensures masked[..next] == old(masked[..index]) + Piece(s, code, index)
  {
    hide Closer, EscapedAt, Run, Piece, Fill;
    ghost var before := masked[..index];
    ghost var m0 := masked[..];
    Halves(m0, code, index);
    if s[index] != BACKTICK || masked[index] || EscapedAt(s, index) {
      PieceByte(s, code, index);
      Decided(before, m0, code, index, index + 1, [code[index]]);
      return index + 1;
    }
    var run := Run(s[index..], BACKTICK);
    RunStarts(s, index);
    CloserLooksAhead(s, m0, code, index, index + run, run);
    var closer := FindCloser(s, masked, index + run, run);
    if closer < |s| {
      PieceClosed(s, code, index, run, closer);
      next := closer + run;
      Suffix(m0, code, index, next);
      FillRange(masked, index, next);
      Decided(before, masked[..], code, index, next, Piece(s, code, index));
    } else {
      next := index + run;
      PieceUnclosed(s, code, index, run);
      Decided(before, m0, code, index, next, code[index..next]);
    }
  }

  lemma Halves(m: seq<bool>, code: seq<bool>, at: nat)
    requires at < |m| == |code| && m[at..] == code[at..]
    ensures m == m[..at] + code[at..] && m[at] == code[at]
  {
  }

  lemma PieceByte(s: seq<Byte>, code: seq<bool>, index: nat)
    requires |code| == |s| && index < |s| && !OpenerAt(s, code, index)
    ensures Piece(s, code, index) == [code[index]]
  {
  }

  lemma PieceUnclosed(s: seq<Byte>, code: seq<bool>, index: nat, run: nat)
    requires |code| == |s| && index < |s| && OpenerAt(s, code, index) && run == Run(s[index..], BACKTICK)
    requires Closer(s, code, index + run, run).None?
    ensures Piece(s, code, index) == code[index..index + run]
  {
  }

  lemma RunStarts(s: seq<Byte>, at: nat)
    requires at < |s| && s[at] == BACKTICK
    ensures 0 < Run(s[at..], BACKTICK) <= |s| - at
  {
  }

  lemma PieceClosed(s: seq<Byte>, code: seq<bool>, index: nat, run: nat, c: nat)
    requires |code| == |s| && index < |s| && OpenerAt(s, code, index) && run == Run(s[index..], BACKTICK)
    requires Closer(s, code, index + run, run) == Some(c)
    ensures index < c + run <= |s| && Piece(s, code, index) == Fill(c + run - index, true)
  {
    hide Closer, Run, OpenerAt, Fill, EscapedAt;
  }

  lemma Suffix(a: seq<bool>, b: seq<bool>, lo: nat, hi: nat)
    requires lo <= hi <= |a| == |b| && a[lo..] == b[lo..]
    ensures a[hi..] == b[hi..]
  {
  }

  /** The mask up to `hi` is final, and beyond it the lines' mask still stands. */
  lemma Decided(before: seq<bool>, masked: seq<bool>, code: seq<bool>, lo: nat, hi: nat, piece: seq<bool>)
    requires |before| == lo <= hi <= |masked| == |code| && |piece| == hi - lo
    requires masked == before + piece + code[hi..] || (masked == before + code[lo..] && piece == code[lo..hi])
    ensures masked[..hi] == before + piece && masked[hi..] == code[hi..]
  {
  }

  lemma {:induction false} CloserLooksAhead(s: seq<Byte>, a: seq<bool>, b: seq<bool>, at: nat, from: nat, length: nat)
    requires |a| == |b| == |s| && at <= from <= |s| && a[at..] == b[at..]
    ensures Closer(s, a, from, length) == Closer(s, b, from, length)
    decreases |s| - from
  {
    hide Closer, Run;
    CloserStep(s, a, from, length);
    CloserStep(s, b, from, length);
    if from < |s| {
      assert a[from] == a[at..][from - at] && b[from] == b[at..][from - at];
      if s[from] != BACKTICK || a[from] {
        CloserLooksAhead(s, a, b, at, from + 1, length);
      } else if Run(s[from..], BACKTICK) != length {
        CloserLooksAhead(s, a, b, at, from + Run(s[from..], BACKTICK), length);
      }
    }
  }

  /**
   The masked text has the same length, differs only by spaces in place of bytes that are code,
   and is valid UTF-8: the fallback to an empty text is never taken.
   */
  method MaskMarkdownCode(text: seq<Byte>) returns (out: seq<Byte>)
    requires ValidUtf8(text)
    ensures out == Blanked(text, Code(text)) && ValidUtf8(out) && |out| == |text|
    ensures forall k :: 0 <= k < |text| ==> out[k] == text[k] || (Code(text)[k] && out[k] == SPACE && !LineBreak(text[k]))
  {
    var masked := new bool[|text|](_ => false);
    assert masked[..] == Fill(|text|, false);
    MaskLines(text, masked);
    MaskSpans(text, masked);
    var bytes := Blanked(text, masked[..]);
    CodeAligned(text);
    BlankedValid(text, Code(text));
    out := if ValidUtf8(bytes) then bytes else [];
  }
}
