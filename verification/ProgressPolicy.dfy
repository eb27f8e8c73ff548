/** The clock of progress posts and the byte cap of one progress body. */
module ProgressPolicy {
  import opened Wrappers
  import opened Stamping

  const INITIAL_HOLD_SECS := 20
  const EDIT_INTERVAL_SECS := 30
  const EDIT_CAP: nat := 20
  const BODY_MAX_BYTES: nat := 64 * 1024
  const ELLIPSIS := ['\U{2026}']

  const I64_MIN := -0x8000_0000_0000_0000
  const I64_MAX := 0x7FFF_FFFF_FFFF_FFFF

  /** `i64::saturating_sub`. */
  function SaturatingSub(a: int, b: int): int {
    if a - b < I64_MIN then I64_MIN else if a - b > I64_MAX then I64_MAX else a - b
  }

  datatype ProgressStep = Wait | Create | Edit

  function NextProgressStep(openedAt: int, lastSendAt: Option<int>, postExists: bool, pendingBody: bool, now: int): ProgressStep {
    if !pendingBody then Wait
    else if !postExists then
      if SaturatingSub(now, openedAt) >= INITIAL_HOLD_SECS then Create else Wait
    else
      match lastSendAt
      case Some(last) => if SaturatingSub(now, last) < EDIT_INTERVAL_SECS then Wait else Edit
      case None => Edit
  }

  /** A post is created, once, only after the hold, and edited only an interval after the last send. */
  lemma StepMeansElapsed(openedAt: int, lastSendAt: Option<int>, postExists: bool, pendingBody: bool, now: int)
    ensures var step := NextProgressStep(openedAt, lastSendAt, postExists, pendingBody, now);
            && (step.Create? <==> pendingBody && !postExists && now >= openedAt + INITIAL_HOLD_SECS)
            && (step.Edit? <==> pendingBody && postExists && (lastSendAt.Some? ==> now >= lastSendAt.value + EDIT_INTERVAL_SECS))
  {
  }

  // ---- the body cap ----

  /** UTF-8 length of one scalar value. */
  function CharBytes(c: char): (n: nat)
    ensures 1 <= n <= 4
  {
    var v := c as int;
    if v < 0x80 then 1 else if v < 0x800 then 2 else if v < 0x1_0000 then 3 else 4
  }

  function Bytes(s: string): nat {
    if s == "" then 0 else Bytes(s[..|s| - 1]) + CharBytes(s[|s| - 1])
  }

  lemma {:induction false} BytesMonotone(s: string, n: nat)
    requires n <= |s|
    ensures Bytes(s[..n]) <= Bytes(s) && Bytes(s[..n]) >= n
    ensures n < |s| ==> Bytes(s[..n]) < Bytes(s)
    decreases |s|
  {
    if n < |s| {
      assert s[..|s| - 1][..n] == s[..n];
      BytesMonotone(s[..|s| - 1], n);
    } else if n > 0 {
      assert s[..n] == s;
      BytesMonotone(s[..n - 1], n - 1);
      assert s[..n - 1][..n - 1] == s[..n - 1];
    } else {
      assert s[..n] == "";
    }
  }

  /** `is_char_boundary`: byte offset `cut` ends the first `CharsAt` characters. */
  predicate IsCharBoundary(s: string, cut: nat) {
    exists n :: 0 <= n <= |s| && Bytes(s[..n]) == cut
  }

  /** The number of leading characters that fit in `limit` bytes. */
  function Fitting(s: string, limit: nat): (n: nat)
    ensures n <= |s| && Bytes(s[..n]) <= limit
    ensures forall m :: n < m <= |s| ==> Bytes(s[..m]) > limit
  {
    if Bytes(s) <= limit then
      assert s[..|s|] == s;
      |s|
    else
      var n := Fitting(s[..|s| - 1], limit);
      assert forall m :: 0 <= m < |s| ==> s[..|s| - 1][..m] == s[..m];
      assert s[..|s|] == s;
      n
  }

  /** What `cap_progress_body` returns. */
  function Capped(body: string): Option<string> {
    var trimmed := Trim(body);
    if trimmed == "" then None
    else if Bytes(trimmed) <= BODY_MAX_BYTES then Some(trimmed)
    else Some(TrimEnd(trimmed[..Fitting(trimmed, BODY_MAX_BYTES - Bytes(ELLIPSIS))]) + ELLIPSIS)
  }

  lemma BytesAppendChar(s: string, c: char)
    ensures Bytes(s + [c]) == Bytes(s) + CharBytes(c)
  {
  }

  /** A capped body fits, is never empty, and is a prefix of the trimmed body, plus the marker iff it was cut. */
  lemma CappedFits(body: string)
    ensures Capped(body).None? <==> Trim(body) == ""
    ensures Capped(body).Some? ==>
              && 0 < Bytes(Capped(body).value) <= BODY_MAX_BYTES
              && (Bytes(Trim(body)) <= BODY_MAX_BYTES ==> Capped(body).value == Trim(body))
              && (Bytes(Trim(body)) > BODY_MAX_BYTES ==>
                    exists kept :: kept <= Trim(body) && Capped(body).value == kept + ELLIPSIS)
  {
    var trimmed := Trim(body);
    assert Bytes("") == 0;
    if trimmed != "" {
      BytesMonotone(trimmed, 1);
      if Bytes(trimmed) > BODY_MAX_BYTES {
        var cut := trimmed[..Fitting(trimmed, BODY_MAX_BYTES - Bytes(ELLIPSIS))];
        var kept := TrimEnd(cut);
        BytesMonotone(cut, |kept|);
        assert cut[..|kept|] == kept;
        BytesAppendChar(kept, ELLIPSIS[0]);
        BytesAppendChar("", ELLIPSIS[0]);
        assert "" + [ELLIPSIS[0]] == ELLIPSIS && [ELLIPSIS[0]] == ELLIPSIS;
        assert kept <= trimmed && Capped(body).value == kept + ELLIPSIS;
      }
    }
  }

  /** The backwards search for a character boundary stops at the longest prefix that fits. */
  method CapProgressBody(body: string) returns (r: Option<string>)
    ensures r == Capped(body)
  {
    var trimmed := Trim(body);
    if trimmed == "" {
      return None;
    }
    if Bytes(trimmed) <= BODY_MAX_BYTES {
      return Some(trimmed);
    }
    var cut: nat := BODY_MAX_BYTES - Bytes(ELLIPSIS);
    ghost var best := Fitting(trimmed, cut);
    ghost var limit := cut;
    while !IsCharBoundary(trimmed, cut)
      invariant Bytes(trimmed[..best]) <= cut <= limit
      invariant forall m :: best < m <= |trimmed| ==> Bytes(trimmed[..m]) > cut
      decreases cut
    {
      assert Bytes(trimmed[..best]) != cut;
      cut := cut - 1;
    }
    var n: nat :| n <= |trimmed| && Bytes(trimmed[..n]) == cut;
    assert n == best by {
      if n < best {
        assert trimmed[..best][..n] == trimmed[..n];
        BytesMonotone(trimmed[..best], n);
      }
    }
    r := Some(TrimEnd(trimmed[..n]) + ELLIPSIS);
  }
}
