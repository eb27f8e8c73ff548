/**
 The two host-managed blocks of `startup.md`: each is replaced between its markers, or
 appended, and everything else the author wrote is kept.
 */
module StartupBlocks {
  import opened Wrappers
  import opened Stamping

  function HtmlComment(words: string): string {
    "<!-- " + words + " -->"
  }

  datatype HostBlock = Snapshots | Contract

  function Begin(b: HostBlock): string {
    match b
    case Snapshots => HtmlComment("nostrherd-place-snapshots")
    case Contract => HtmlComment("nostrherd-contract")
  }

  function End(b: HostBlock): string {
    match b
    case Snapshots => HtmlComment("/nostrherd-place-snapshots")
    case Contract => HtmlComment("/nostrherd-contract")
  }

  /** A marker opens with its only `<`, closes with its only `>`, has a space and stays on one line. */
  predicate IsMarker(m: string) {
    && |m| >= 3 && m[0] == '<' && m[|m| - 1] == '>'
    && (forall k :: 0 < k < |m| ==> m[k] != '<')
    && (forall k :: 0 <= k < |m| - 1 ==> m[k] != '>')
    && '\n' !in m && ' ' in m
  }

  lemma CommentIsMarker(words: string)
    requires '<' !in words && '>' !in words && '\n' !in words
    ensures IsMarker(HtmlComment(words))
  {
  }

  lemma BeginIsMarker(b: HostBlock)
    ensures IsMarker(Begin(b)) && |Begin(b)| == if b.Snapshots? then 34 else 27
  {
    hide IsMarker;
    match b
    case Snapshots => CommentIsMarker("nostrherd-place-snapshots");
    case Contract => CommentIsMarker("nostrherd-contract");
  }

  lemma EndIsMarker(b: HostBlock)
    ensures IsMarker(End(b)) && |End(b)| == if b.Snapshots? then 35 else 28
  {
    hide IsMarker;
    match b
    case Snapshots => CommentIsMarker("/nostrherd-place-snapshots");
    case Contract => CommentIsMarker("/nostrherd-contract");
  }

  /** The four markers are markers, and differ. */
  lemma HostMarkers(b: HostBlock, c: HostBlock)
    ensures IsMarker(Begin(b)) && IsMarker(End(b)) && Begin(b) != End(c)
    ensures b != c ==> Begin(b) != Begin(c) && End(b) != End(c)
  {
    hide IsMarker, Begin, End, HtmlComment;
    BeginIsMarker(b);
    BeginIsMarker(c);
    EndIsMarker(b);
    EndIsMarker(c);
  }

  predicate Occurs(text: string, m: string, i: nat) {
    i + |m| <= |text| && text[i..i + |m|] == m
  }

  lemma OccursLater(text: string, m: string, k: nat)
    requires 0 < k < |text|
    ensures Occurs(text, m, k) <==> Occurs(text[1..], m, k - 1)
  {
    assert k + |m| <= |text| ==> text[k..k + |m|] == text[1..][k - 1..k - 1 + |m|];
  }

  /** How many positions `m` occurs at. */
  function Count(text: string, m: string): nat {
    if text == "" then 0 else (if m <= text then 1 else 0) + Count(text[1..], m)
  }

  function Find(text: string, m: string): (i: Option<nat>)
    ensures i.Some? ==> Occurs(text, m, i.value)
    ensures i.None? ==> forall k: nat :: k < |text| ==> !Occurs(text, m, k)
  {
    if text == "" then None
    else if m <= text then Some(0)
    else
      var rest := Find(text[1..], m);
      assert forall k: nat :: 0 < k < |text| ==> (Occurs(text, m, k) <==> Occurs(text[1..], m, k - 1)) by {
        forall k: nat | 0 < k < |text| { OccursLater(text, m, k); }
      }
      if rest.Some? then Some(rest.value + 1) else None
  }

  /** `str::matches(m).count()`: occurrences left to right that do not overlap. */
  function Matches(text: string, m: string): nat
    requires m != ""
    decreases |text|
  {
    if text == "" then 0
    else if m <= text then 1 + Matches(text[|m|..], m)
    else Matches(text[1..], m)
  }

  // ---- counting across seams ----

  /** A place no marker can lie across. */
  predicate Seam(x: string, y: string) {
    x == "" || y == "" || y[0] == '<' || y[0] == '\n' || x[|x| - 1] == '>' || x[|x| - 1] == '\n'
  }

  lemma NothingAcross(x: string, y: string, m: string)
    requires IsMarker(m) && Seam(x, y) && x != ""
    ensures m <= x + y <==> m <= x
  {
    if m <= x + y {
      if |m| <= |x| {
        assert m == (x + y)[..|m|] == x[..|m|];
      } else {
        MarkerAcross(x, y, m);
      }
    }
  }

  lemma MarkerAcross(x: string, y: string, m: string)
    requires IsMarker(m) && m <= x + y && 0 < |x| < |m|
    ensures !Seam(x, y)
  {
    assert m[|x| - 1] == (x + y)[|x| - 1] == x[|x| - 1];
    assert m[|x|] == (x + y)[|x|] == y[0];
    assert m[|x|] in m && m[|x| - 1] in m;
  }

  lemma {:induction false} CountConcat(x: string, y: string, m: string)
    requires IsMarker(m) && Seam(x, y)
    ensures Count(x + y, m) == Count(x, m) + Count(y, m)
  {
    if x == "" {
      assert x + y == y;
    } else {
      NothingAcross(x, y, m);
      assert (x + y)[1..] == x[1..] + y;
      if |x| == 1 {
        assert x[1..] + y == y;
      } else {
        CountConcat(x[1..], y, m);
      }
    }
  }

  lemma {:induction false} NoOpening(text: string, m: string)
    requires IsMarker(m) && '<' !in text
    ensures Count(text, m) == 0
  {
    if text != "" {
      assert text[0] in text;
      NoOpening(text[1..], m);
    }
  }

  /** A marker contains another only if it is that marker. */
  lemma CountInMarker(text: string, m: string)
    requires IsMarker(text) && IsMarker(m)
    ensures Count(text, m) == if text == m then 1 else 0
  {
    assert '<' !in text[1..] by {
      forall k | 0 <= k < |text[1..]| ensures text[1..][k] != '<' { assert text[1..][k] == text[k + 1]; }
    }
    NoOpening(text[1..], m);
    if m <= text {
      assert text[|m| - 1] == '>';
      assert text[..|m|] == m;
    }
  }

  lemma OccursTail(text: string, m: string, i: nat)
    requires Occurs(text, m, i) && 0 < i
    ensures Occurs(text[1..], m, i - 1)
  {
  }

  lemma {:induction false} CountAt(text: string, m: string, i: nat)
    requires m != "" && Occurs(text, m, i)
    ensures Count(text, m) >= 1
  {
    if i == 0 {
      assert m <= text;
    } else {
      OccursTail(text, m, i);
      CountAt(text[1..], m, i - 1);
    }
  }

  /** A first occurrence leaves none for the rest. */
  lemma FirstIsOnly(text: string, m: string, i: nat)
    requires m != "" && Count(text, m) <= 1 && m <= text && Occurs(text, m, i)
    ensures i == 0
  {
    if i > 0 {
      OccursTail(text, m, i);
      CountAt(text[1..], m, i - 1);
    }
  }

  /** A single occurrence is at one place. */
  lemma {:induction false} CountOne(text: string, m: string, i: nat, j: nat)
    requires m != "" && Count(text, m) <= 1 && Occurs(text, m, i) && Occurs(text, m, j)
    ensures i == j
  {
    if i == 0 {
      FirstIsOnly(text, m, j);
    } else if j == 0 {
      FirstIsOnly(text, m, i);
    } else {
      OccursTail(text, m, i);
      OccursTail(text, m, j);
      assert Count(text[1..], m) <= Count(text, m);
      CountOne(text[1..], m, i - 1, j - 1);
    }
  }

  /** Markers do not overlap themselves, so the two ways of counting agree. */
  lemma {:induction false} MatchesCount(text: string, m: string)
    requires IsMarker(m)
    ensures Matches(text, m) == Count(text, m)
    decreases |text|
  {
    if text != "" {
      if m <= text {
        MatchesCount(text[|m|..], m);
        assert text == m + text[|m|..];
        CountConcat(m, text[|m|..], m);
        CountInMarker(m, m);
      } else {
        MatchesCount(text[1..], m);
      }
    }
  }

  // ---- the upsert ----

  predicate Contains(text: string, m: string) {
    Count(text, m) > 0
  }

  predicate Unmarked(text: string) {
    forall b: HostBlock :: !Contains(text, Begin(b)) && !Contains(text, End(b))
  }

  datatype Upserted = Updated(text: string) | IncompleteMarkers | ReversedMarkers | OverlappingMarkers

  /** Two markers at different places do not overlap. */
  lemma Apart(text: string, a: string, b: string, i: nat, j: nat)
    requires IsMarker(a) && IsMarker(b) && Occurs(text, a, i) && Occurs(text, b, j) && i < j
    ensures i + |a| <= j
  {
    assert text[j] == text[j..j + |b|][0] == '<';
    forall k | i < k < i + |a| ensures text[k] != '<' { assert text[k] == text[i..i + |a|][k - i]; }
  }

  function Upsert(existing: string, begin: string, end: string, block: string): Upserted
    requires IsMarker(begin) && IsMarker(end)
  {
    var starts, ends := Matches(existing, begin), Matches(existing, end);
    if starts > 1 || ends > 1 || starts != ends then IncompleteMarkers
    else
      var i, j := Find(existing, begin), Find(existing, end);
      if i.Some? && j.Some? then
        if i.value < j.value then
          Apart(existing, begin, end, i.value, j.value);
          if !Unmarked(existing[i.value + |begin|..j.value]) then OverlappingMarkers
          else Updated(existing[..i.value] + TrimEnd(block) + existing[j.value + |end|..])
        else ReversedMarkers
      else if existing == "" then Updated(block)
      else Updated(existing + (if existing[|existing| - 1] == '\n' then "" else "\n") + "\n" + block)
  }

  function BlockText(begin: string, body: string, end: string): string {
    begin + body + end + "\n"
  }

  /** `text` is `before`, then exactly this block, then `after`, and no other marker of the pair. */
  predicate BlockAt(text: string, begin: string, end: string, body: string, before: string, after: string) {
    && text == before + (begin + body + end) + after
    && Count(text, begin) == 1 && Count(text, end) == 1
  }

  lemma BlockCounts(begin: string, body: string, end: string, m: string)
    requires IsMarker(begin) && IsMarker(end) && IsMarker(m)
    ensures Count(begin + body + end, m) == (if begin == m then 1 else 0) + Count(body, m) + (if end == m then 1 else 0)
  {
    CountConcat(begin, body, m);
    CountConcat(begin + body, end, m);
    CountInMarker(begin, m);
    CountInMarker(end, m);
  }

  /** Counting in a text with a block: the block splits it. */
  lemma SplitCounts(before: string, begin: string, body: string, end: string, after: string, m: string)
    requires IsMarker(begin) && IsMarker(end) && IsMarker(m)
    ensures Count(before + (begin + body + end) + after, m)
            == Count(before, m) + ((if begin == m then 1 else 0) + Count(body, m) + (if end == m then 1 else 0)) + Count(after, m)
  {
    var block := begin + body + end;
    assert block[0] == '<' && block[|block| - 1] == '>';
    CountConcat(before, block, m);
    assert (before + block)[|before + block| - 1] == '>';
    CountConcat(before + block, after, m);
    BlockCounts(begin, body, end, m);
  }

  lemma TrimmedBlock(begin: string, body: string, end: string)
    requires IsMarker(end)
    ensures TrimEnd(BlockText(begin, body, end)) == begin + body + end
  {
  }

  /** A found pair of single markers splits the text. */
  lemma FoundBlock(text: string, begin: string, end: string, i: nat, j: nat)
    requires Occurs(text, begin, i) && Occurs(text, end, j) && i + |begin| <= j
    ensures text == text[..i] + (begin + text[i + |begin|..j] + end) + text[j + |end|..]
  {
  }

  lemma {:induction false} CountedIsFound(text: string, m: string)
    requires m != ""
    ensures Count(text, m) > 0 <==> Find(text, m).Some?
  {
    if text != "" {
      CountedIsFound(text[1..], m);
      assert Find(text, m).Some? <==> m <= text || Find(text[1..], m).Some?;
    }
  }

  /** Upsert a host block with this body. */
  function UpsertBlock(existing: string, b: HostBlock, body: string): Upserted {
    HostMarkers(b, b);
    Upsert(existing, Begin(b), End(b), BlockText(Begin(b), body, End(b)))
  }

  /** The host block stands in `text`, once. */
  predicate Stands(text: string, b: HostBlock, body: string, before: string, after: string) {
    BlockAt(text, Begin(b), End(b), body, before, after)
  }

  // ---- what an upsert leaves ----

  /** What comes before a block that is appended. */
  function Preface(existing: string): string {
    if existing == "" then "" else existing + (if existing[|existing| - 1] == '\n' then "" else "\n") + "\n"
  }

  lemma UpsertAppends(existing: string, begin: string, end: string, block: string)
    requires IsMarker(begin) && IsMarker(end) && Count(existing, begin) == 0 && Count(existing, end) == 0
    ensures Upsert(existing, begin, end, block) == Updated(Preface(existing) + block)
  {
    hide Count, Find, Matches;
    MatchesCount(existing, begin);
    MatchesCount(existing, end);
    CountedIsFound(existing, begin);
    CountedIsFound(existing, end);
  }

  lemma MarkersOccur(text: string, begin: string, end: string, body: string, before: string, after: string)
    requires text == before + (begin + body + end) + after
    ensures Occurs(text, begin, |before|) && Occurs(text, end, |before| + |begin| + |body|)
  {
  }

  lemma BlockPieces(text: string, begin: string, end: string, body: string, before: string, after: string)
    requires text == before + (begin + body + end) + after
    ensures text[..|before|] == before && text[|before| + |begin|..|before| + |begin| + |body|] == body
    ensures text[|before| + |begin| + |body| + |end|..] == after
  {
  }

  lemma FoundWhere(text: string, m: string, i: nat)
    requires m != "" && Count(text, m) == 1 && Occurs(text, m, i)
    ensures Find(text, m) == Some(i)
  {
    hide Count, Find;
    CountedIsFound(text, m);
    CountOne(text, m, Find(text, m).value, i);
  }

  lemma BlockFound(existing: string, begin: string, end: string, inner: string, before: string, after: string)
    requires begin != "" && end != "" && BlockAt(existing, begin, end, inner, before, after)
    ensures Find(existing, begin) == Some(|before|) && Find(existing, end) == Some(|before| + |begin| + |inner|)
  {
    hide Count, Find, Occurs;
    MarkersOccur(existing, begin, end, inner, before, after);
    FoundWhere(existing, begin, |before|);
    FoundWhere(existing, end, |before| + |begin| + |inner|);
  }

  lemma UpsertReplaces(existing: string, begin: string, end: string, block: string, inner: string, before: string, after: string)
    requires IsMarker(begin) && IsMarker(end) && BlockAt(existing, begin, end, inner, before, after)
    ensures Upsert(existing, begin, end, block) == if Unmarked(inner) then Updated(before + TrimEnd(block) + after) else OverlappingMarkers
  {
    hide Count, Find, Matches, Unmarked, TrimEnd;
    BlockPieces(existing, begin, end, inner, before, after);
    BlockFound(existing, begin, end, inner, before, after);
    MatchesCount(existing, begin);
    MatchesCount(existing, end);
  }

  /** A text that can be updated has no marker of the pair, or the block once, in order and not overlapping. */
  lemma UpsertFinds(existing: string, begin: string, end: string, block: string)
    returns (before: string, inner: string, after: string)
    requires IsMarker(begin) && IsMarker(end) && Upsert(existing, begin, end, block).Updated?
    ensures || (Count(existing, begin) == 0 && Count(existing, end) == 0)
            || (BlockAt(existing, begin, end, inner, before, after) && Unmarked(inner))
  {
    hide Count, Find, Matches, Unmarked, TrimEnd;
    MatchesCount(existing, begin);
    MatchesCount(existing, end);
    CountedIsFound(existing, begin);
    CountedIsFound(existing, end);
    var i, j := Find(existing, begin), Find(existing, end);
    before, inner, after := "", "", "";
    if i.Some? && j.Some? {
      Apart(existing, begin, end, i.value, j.value);
      FoundBlock(existing, begin, end, i.value, j.value);
      before, inner, after := existing[..i.value], existing[i.value + |begin|..j.value], existing[j.value + |end|..];
    }
  }

  /** An upsert is refused unless the block is absent, or present once and well formed. */
  lemma UpsertSucceeds(existing: string, begin: string, end: string, block: string)
    requires IsMarker(begin) && IsMarker(end)
    ensures Upsert(existing, begin, end, block).Updated? <==>
              || (Count(existing, begin) == 0 && Count(existing, end) == 0)
              || (exists before, inner, after :: BlockAt(existing, begin, end, inner, before, after) && Unmarked(inner))
  {
    hide Upsert, Count, IsMarker, Unmarked, BlockAt;
    if Upsert(existing, begin, end, block).Updated? {
      var before, inner, after := UpsertFinds(existing, begin, end, block);
    } else if before, inner, after :| BlockAt(existing, begin, end, inner, before, after) && Unmarked(inner) {
      UpsertReplaces(existing, begin, end, block, inner, before, after);
    } else if Count(existing, begin) == 0 && Count(existing, end) == 0 {
      UpsertAppends(existing, begin, end, block);
    }
  }

  /** Everything outside the block is what it was; a new block is appended after a blank line. */
  ghost predicate KeepsOutside(existing: string, begin: string, end: string, before: string, after: string) {
    || (exists inner :: Unmarked(inner) && existing == before + (begin + inner + end) + after)
    || (Count(existing, begin) == 0 && Count(existing, end) == 0 && before == Preface(existing) && after == "\n")
  }

  /** The block stands once between two texts that hold none of its markers. */
  lemma BlockStands(before: string, begin: string, body: string, end: string, after: string)
    requires IsMarker(begin) && IsMarker(end) && begin != end
    requires Count(body, begin) == Count(body, end) == 0
    requires Count(before, begin) + Count(after, begin) == 0 && Count(before, end) + Count(after, end) == 0
    ensures BlockAt(before + (begin + body + end) + after, begin, end, body, before, after)
  {
    hide Count, IsMarker;
    SplitCounts(before, begin, body, end, after, begin);
    SplitCounts(before, begin, body, end, after, end);
  }

  /** The texts around a block hold none of its markers. */
  lemma AroundBlock(text: string, begin: string, end: string, inner: string, before: string, after: string)
    requires IsMarker(begin) && IsMarker(end) && begin != end && BlockAt(text, begin, end, inner, before, after)
    ensures Count(before, begin) + Count(after, begin) == 0 && Count(before, end) + Count(after, end) == 0
  {
    hide Count, IsMarker;
    SplitCounts(before, begin, inner, end, after, begin);
    SplitCounts(before, begin, inner, end, after, end);
  }

  lemma PrefaceCount(existing: string, m: string)
    requires IsMarker(m)
    ensures Count(Preface(existing), m) == Count(existing, m) && Count("\n", m) == 0
  {
    hide Count;
    NoOpening("\n", m);
    NoOpening("", m);
    CountConcat(existing, "\n", m);
    CountConcat(existing + "\n", "\n", m);
    assert existing + "" + "\n" == existing + "\n";
  }

  /** A successful upsert leaves exactly one block, with the new body, and keeps the rest byte for byte. */
  lemma UpsertPlaces(existing: string, b: HostBlock, body: string, r: string) returns (before: string, after: string)
    requires Unmarked(body) && UpsertBlock(existing, b, body) == Updated(r)
    ensures Stands(r, b, body, before, after) && KeepsOutside(existing, Begin(b), End(b), before, after)
  {
    hide Upsert, Count, IsMarker, TrimEnd, Preface, Begin, End;
    var begin, end := Begin(b), End(b);
    HostMarkers(b, b);
    TrimmedBlock(begin, body, end);
    var inner: string;
    before, inner, after := UpsertFinds(existing, begin, end, BlockText(begin, body, end));
    if Count(existing, begin) == 0 && Count(existing, end) == 0 {
      before, after := Preface(existing), "\n";
      UpsertAppends(existing, begin, end, BlockText(begin, body, end));
      PrefaceCount(existing, begin);
      PrefaceCount(existing, end);
      assert r == before + (begin + body + end) + after;
    } else {
      UpsertReplaces(existing, begin, end, BlockText(begin, body, end), inner, before, after);
      AroundBlock(existing, begin, end, inner, before, after);
    }
    BlockStands(before, begin, body, end, after);
  }

  /** Upserting the block that is there changes nothing. */
  lemma UpsertAgain(text: string, b: HostBlock, body: string, before: string, after: string)
    requires Unmarked(body) && Stands(text, b, body, before, after)
    ensures UpsertBlock(text, b, body) == Updated(text)
  {
    hide Upsert, Count, IsMarker, Unmarked, TrimEnd, Begin, End;
    HostMarkers(b, b);
    TrimmedBlock(Begin(b), body, End(b));
    UpsertReplaces(text, Begin(b), End(b), BlockText(Begin(b), body, End(b)), body, before, after);
  }

  // ---- the other block ----

  /** A marker that is not in the block lies before or after it. */
  lemma OneSide(text: string, before: string, begin: string, inner: string, end: string, after: string, m: string, p: nat)
    requires IsMarker(begin) && IsMarker(end) && IsMarker(m) && m != begin && m != end
    requires text == before + (begin + inner + end) + after && Count(inner, m) == 0
    requires Count(text, m) == 1 && Occurs(text, m, p)
    ensures p + |m| <= |before| || p >= |before| + |begin| + |inner| + |end|
  {
    assert m != "";
    hide Count, Find, Occurs, IsMarker;
    SplitCounts(before, begin, inner, end, after, m);
    BlockPieces(text, begin, end, inner, before, after);
    if Count(before, m) == 1 {
      InFirst(text, |before|, m, p);
    } else {
      InLast(text, |before| + |begin| + |inner| + |end|, m, p);
    }
  }

  lemma InFirst(text: string, n: nat, m: string, p: nat)
    requires m != "" && n <= |text| && Count(text[..n], m) == 1 && Count(text, m) == 1 && Occurs(text, m, p)
    ensures p + |m| <= n
  {
    hide Count, Find;
    CountedIsFound(text[..n], m);
    var i := Find(text[..n], m).value;
    assert text[i..i + |m|] == text[..n][i..i + |m|];
    CountOne(text, m, i, p);
  }

  lemma InLast(text: string, n: nat, m: string, p: nat)
    requires m != "" && n <= |text| && Count(text[n..], m) == 1 && Count(text, m) == 1 && Occurs(text, m, p)
    ensures p >= n
  {
    hide Count, Find;
    CountedIsFound(text[n..], m);
    var i := Find(text[n..], m).value;
    assert text[n + i..n + i + |m|] == text[n..][i..i + |m|];
    CountOne(text, m, n + i, p);
  }

  /** The other block lies wholly before or wholly after the replaced one. */
  lemma BlocksApart(existing: string, b1: string, e1: string, inner: string, before: string, after: string,
                    b2: string, e2: string, body: string, x: string, y: string)
    requires IsMarker(b1) && IsMarker(e1) && IsMarker(b2) && IsMarker(e2) && b2 != b1 && b2 != e1 && e2 != b1 && e2 != e1
    requires existing == before + (b1 + inner + e1) + after && Count(inner, b2) == 0 && Count(inner, e2) == 0
    requires BlockAt(existing, b2, e2, body, x, y) && Count(body, b1) == 0
    ensures |x + (b2 + body + e2)| <= |before| || |x| >= |before + (b1 + inner + e1)|
  {
    assert b1 != "";
    hide Count, IsMarker, Occurs;
    MarkersOccur(existing, b1, e1, inner, before, after);
    MarkersOccur(existing, b2, e2, body, x, y);
    OneSide(existing, before, b1, inner, e1, after, b2, |x|);
    OneSide(existing, before, b1, inner, e1, after, e2, |x| + |b2| + |body|);
    if |x| + |b2| <= |before| {
      NotAround(existing, |before|, b1, b2, body, e2, x, y);
    }
  }

  /** A block whose body is without the marker `m` does not surround it. */
  lemma NotAround(text: string, n: nat, m: string, begin: string, body: string, end: string, before: string, after: string)
    requires text == before + (begin + body + end) + after
    requires m != "" && Occurs(text, m, n) && Count(body, m) == 0 && |before| + |begin| <= n
    ensures |before| + |begin| + |body| < n + |m|
  {
    hide Count, Occurs;
    BlockPieces(text, begin, end, body, before, after);
    var at := |before| + |begin|;
    if n + |m| <= at + |body| {
      Within(text, n, m, body, at);
      CountAt(body, m, n - at);
    }
  }

  lemma Within(text: string, n: nat, m: string, body: string, at: nat)
    requires Occurs(text, m, n) && at + |body| <= |text| && text[at..at + |body|] == body
    requires at <= n && n + |m| <= at + |body|
    ensures Occurs(body, m, n - at)
  {
    forall i | 0 <= i < |m| ensures body[n - at..n - at + |m|][i] == m[i] {
      assert m[i] == text[n..n + |m|][i] == text[n + i] == text[at..at + |body|][n + i - at];
    }
  }

  /** Upserting one block leaves the other one as it was. */
  lemma OtherBlockKept(existing: string, a: HostBlock, body1: string, r: string, b: HostBlock, body2: string, x: string, y: string)
    returns (x': string, y': string)
    requires Unmarked(body1) && Unmarked(body2) && a != b && UpsertBlock(existing, a, body1) == Updated(r)
    requires Stands(existing, b, body2, x, y)
    ensures Stands(r, b, body2, x', y')
  {
    hide Upsert, Count, IsMarker, Preface, Begin, End;
    HostMarkers(a, b);
    HostMarkers(b, a);
    var b1, e1, b2, e2 := Begin(a), End(a), Begin(b), End(b);
    var before, after := UpsertPlaces(existing, a, body1, r);
    if inner :| Unmarked(inner) && existing == before + (b1 + inner + e1) + after {
      BlocksApart(existing, b1, e1, inner, before, after, b2, e2, body2, x, y);
      x', y' := AroundReplaced(existing, before, b1 + inner + e1, b1 + body1 + e1, after, x, b2 + body2 + e2, y);
      SameCount(before, b1, e1, inner, body1, after, b2);
      SameCount(before, b1, e1, inner, body1, after, e2);
    } else {
      x', y' := x, PrefaceGap(existing, before, y) + (b1 + body1 + e1) + after;
      PrefaceCount(existing, b2);
      PrefaceCount(existing, e2);
      SplitCounts(before, b1, body1, e1, after, b2);
      SplitCounts(before, b1, body1, e1, after, e2);
      AfterGap(existing, before, x, b2 + body2 + e2, y, b1 + body1 + e1, after);
    }
  }

  /** What follows the old text in front of an appended block. */
  function PrefaceGap(existing: string, before: string, y: string): string {
    if |existing| <= |before| then y + before[|existing|..] else y
  }

  lemma AfterGap(existing: string, before: string, x: string, block: string, y: string, added: string, after: string)
    requires existing == x + block + y && before == Preface(existing)
    ensures before + added + after == x + block + (PrefaceGap(existing, before, y) + added + after)
  {
  }

  lemma SameCount(before: string, b1: string, e1: string, inner: string, body: string, after: string, m: string)
    requires IsMarker(b1) && IsMarker(e1) && IsMarker(m) && Count(inner, m) == Count(body, m)
    ensures Count(before + (b1 + inner + e1) + after, m) == Count(before + (b1 + body + e1) + after, m)
  {
    hide Count, IsMarker;
    SplitCounts(before, b1, inner, e1, after, m);
    SplitCounts(before, b1, body, e1, after, m);
  }

  /** A part that lies beside the replaced one is still there. */
  lemma AroundReplaced(existing: string, before: string, old_: string, new_: string, after: string, x: string, part: string, y: string)
    returns (x': string, y': string)
    requires existing == before + old_ + after == x + part + y
    requires |x + part| <= |before| || |x| >= |before + old_|
    ensures before + new_ + after == x' + part + y'
  {
    if |x + part| <= |before| {
      var z := before[|x + part|..];
      assert before == existing[..|before|] == x + part + z;
      x', y' := x, z + new_ + after;
    } else {
      var z := x[|before + old_|..];
      assert x == existing[..|x|] == before + old_ + z;
      assert after == existing[|before + old_|..] == z + part + y;
      x', y' := before + new_ + z, y;
    }
  }

  // ---- both blocks ----

  /** `point_startup_at_snapshots`, on the text. */
  function PointStartup(existing: string, snapshots: string, contract: string): Upserted {
    match UpsertBlock(existing, Snapshots, snapshots)
    case Updated(text) => UpsertBlock(text, Contract, contract)
    case refused => refused
  }

  /** Both blocks are there, once each, with the host's text; running again changes nothing. */
  lemma PointStartupSettles(existing: string, snapshots: string, contract: string, r: string)
    requires Unmarked(snapshots) && Unmarked(contract) && PointStartup(existing, snapshots, contract) == Updated(r)
    ensures exists x, y :: Stands(r, Snapshots, snapshots, x, y)
    ensures exists x, y :: Stands(r, Contract, contract, x, y)
    ensures PointStartup(r, snapshots, contract) == Updated(r)
  {
    hide UpsertBlock, Unmarked, Stands;
    var text := UpsertBlock(existing, Snapshots, snapshots).text;
    var x, y := UpsertPlaces(existing, Snapshots, snapshots, text);
    var p, q := UpsertPlaces(text, Contract, contract, r);
    x, y := OtherBlockKept(text, Contract, contract, r, Snapshots, snapshots, x, y);
    UpsertAgain(r, Snapshots, snapshots, x, y);
    UpsertAgain(r, Contract, contract, p, q);
  }

  // ---- the contract body names a configured session ----

  predicate AnglesClosed(text: string) {
    forall i :: 0 <= i < |text| && text[i] == '<' ==> '>' in text[i..]
  }

  predicate AnglesOpened(text: string) {
    forall i :: 0 <= i < |text| && text[i] == '>' ==> '<' in text[..i]
  }

  /** A configured session name is one token, so it cannot complete a marker with the text around it. */
  lemma TokenCompletesNothing(pre: string, token: string, post: string, m: string)
    requires IsMarker(m) && Count(pre, m) == 0 && Count(post, m) == 0
    requires AnglesClosed(pre) && AnglesOpened(post) && ' ' !in token
    ensures Count(pre + token + post, m) == 0
  {
    hide Count;
    var text := pre + token + post;
    assert text == pre + (token + post);
    forall i: nat | i < |text| ensures !Occurs(text, m, i) {
      if i < |pre| {
        StartsInside(pre, token + post, m, i);
      } else if i < |pre| + |token| {
        StartsInToken(pre, token, post, m, i);
      } else {
        StartsAfter(pre + token, post, m, i);
      }
    }
    NoneOccurs(text, m);
  }

  lemma NoneOccurs(text: string, m: string)
    requires m != ""
    ensures Count(text, m) == 0 <==> forall i: nat :: i < |text| ==> !Occurs(text, m, i)
  {
    hide Count, Find;
    CountedIsFound(text, m);
    var found := Find(text, m);
    if found.Some? {
      assert Occurs(text, m, found.value) && found.value < |text|;
    }
  }

  lemma StartsAfter(pre: string, post: string, m: string, i: nat)
    requires IsMarker(m) && Count(post, m) == 0 && |pre| <= i < |pre + post|
    ensures !Occurs(pre + post, m, i)
  {
    hide Count;
    NoneOccurs(post, m);
    assert !Occurs(post, m, i - |pre|);
    assert i + |m| <= |pre + post| ==> (pre + post)[i..i + |m|] == post[i - |pre|..i - |pre| + |m|];
  }

  lemma StartsInside(pre: string, rest: string, m: string, i: nat)
    requires IsMarker(m) && Count(pre, m) == 0 && AnglesClosed(pre) && i < |pre|
    ensures !Occurs(pre + rest, m, i)
  {
    hide Count;
    var text := pre + rest;
    NoneOccurs(pre, m);
    assert !Occurs(pre, m, i);
    if i + |m| <= |pre| {
      assert text[i..i + |m|] == pre[i..i + |m|];
    } else if i + |m| <= |text| {
      if pre[i] == '<' {
        var k :| 0 <= k < |pre[i..]| && pre[i..][k] == '>';
        assert text[i..i + |m|][k] == pre[i..][k] != m[k];
      } else {
        assert text[i..i + |m|][0] == pre[i] != m[0];
      }
    }
  }

  lemma StartsInToken(pre: string, token: string, post: string, m: string, i: nat)
    requires IsMarker(m) && AnglesOpened(post) && ' ' !in token && |pre| <= i < |pre| + |token|
    ensures !Occurs(pre + token + post, m, i)
  {
    var text := pre + token + post;
    if i + |m| <= |text| {
      var s :| 0 <= s < |m| && m[s] == ' ';
      var last := i + |m| - 1;
      if i + s < |pre| + |token| {
        assert token[i + s - |pre|] in token;
        assert text[i..i + |m|][s] == token[i + s - |pre|] != m[s];
      } else if text[last] != '>' {
        assert text[i..i + |m|][|m| - 1] == text[last] != m[|m| - 1];
      } else {
        var e := last - |pre| - |token|;
        assert post[e] == text[last];
        var k :| 0 <= k < |post[..e]| && post[..e][k] == '<';
        var at := k + |pre| + |token| - i;
        assert text[i..i + |m|][at] == post[k] != m[at];
      }
    }
  }
}
