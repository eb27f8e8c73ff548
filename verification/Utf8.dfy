/** UTF-8 as sections 3 and 4 of RFC 3629 define it, over byte sequences. */
module Utf8 {
  newtype Byte = b: int | 0 <= b < 256

  predicate Tail(b: Byte) {
    0x80 <= b <= 0xBF
  }

  /** The length of the first character of `s`, or 0 when `s` does not start with one. */
  function CharLength(s: seq<Byte>): (n: nat)
    ensures n <= |s| && n <= 4
    ensures n > 0 ==> !Tail(s[0]) && (forall k :: 0 < k < n ==> Tail(s[k])) && (n == 1 <==> s[0] < 0x80)
  {
    if s == [] then 0
    else if s[0] <= 0x7F then 1
    else if 0xC2 <= s[0] <= 0xDF && |s| >= 2 && Tail(s[1]) then 2
    else if |s| >= 3 && Tail(s[1]) && Tail(s[2])
            && (|| (s[0] == 0xE0 && 0xA0 <= s[1])
                || (0xE1 <= s[0] <= 0xEC)
                || (s[0] == 0xED && s[1] <= 0x9F)
                || (0xEE <= s[0] <= 0xEF)) then 3
    else if |s| >= 4 && Tail(s[1]) && Tail(s[2]) && Tail(s[3])
            && (|| (s[0] == 0xF0 && 0x90 <= s[1])
                || (0xF1 <= s[0] <= 0xF3)
                || (s[0] == 0xF4 && s[1] <= 0x8F)) then 4
    else 0
  }

  predicate ValidUtf8(s: seq<Byte>) {
    s == [] || (CharLength(s) > 0 && ValidUtf8(s[CharLength(s)..]))
  }

  /** A tail byte follows a byte of the same character, which is not ASCII. */
  lemma {:induction false} TailFollowsNonAscii(s: seq<Byte>, k: nat)
    requires ValidUtf8(s) && k < |s| && Tail(s[k])
    ensures k > 0 && s[k - 1] >= 0x80
  {
    var n := CharLength(s);
    if k >= n {
      TailFollowsNonAscii(s[n..], k - n);
    }
  }

  /** Whether a character is masked is decided for all its bytes at once. */
  ghost predicate Aligned(s: seq<Byte>, masked: seq<bool>) {
    |masked| == |s| && forall k :: 0 < k < |s| && Tail(s[k]) ==> masked[k] == masked[k - 1]
  }

  predicate LineBreak(b: Byte) {
    b == 0x0A || b == 0x0D
  }

  /** Blank the masked bytes, except line breaks. */
  function Blanked(s: seq<Byte>, masked: seq<bool>): seq<Byte>
    requires |masked| == |s|
  {
    seq(|s|, k requires 0 <= k < |s| => if masked[k] && !LineBreak(s[k]) then 0x20 else s[k])
  }

  lemma {:induction false} AlignedBytes(s: seq<Byte>, masked: seq<bool>, n: nat)
    requires Aligned(s, masked) && n <= |s| && forall k :: 0 < k < n ==> Tail(s[k])
    ensures forall k :: 0 <= k < n ==> masked[k] == masked[0]
  {
    if n > 1 {
      AlignedBytes(s, masked, n - 1);
      assert Tail(s[n - 1]) && masked[n - 1] == masked[n - 2];
    }
  }

  /** Blanking whole characters keeps UTF-8 valid. */
  lemma {:induction false} BlankedValid(s: seq<Byte>, masked: seq<bool>)
    requires ValidUtf8(s) && Aligned(s, masked)
    ensures ValidUtf8(Blanked(s, masked))
    decreases |s|
  {
    if s != [] {
      hide ValidUtf8, CharLength, Blanked, Aligned;
      var n := CharLength(s);
      var out := Blanked(s, masked);
      ValidStep(s);
      FirstBlanked(s, masked, n);
      AlignedRest(s, masked, n);
      BlankedValid(s[n..], masked[n..]);
      BlankedRest(s, masked, n);
      if masked[0] && !LineBreak(s[0]) {
        SpacesThenValid(out, n);
      } else {
        SameFirst(s, out, n);
      }
    }
  }

  /** The first character is blanked as a whole or kept as a whole. */
  lemma FirstBlanked(s: seq<Byte>, masked: seq<bool>, n: nat)
    requires s != [] && Aligned(s, masked) && n == CharLength(s) && n > 0
    ensures masked[0] && !LineBreak(s[0]) ==> forall k :: 0 <= k < n ==> Blanked(s, masked)[k] == 0x20
    ensures !(masked[0] && !LineBreak(s[0])) ==> Blanked(s, masked)[..n] == s[..n]
  {
  }

  lemma BlankedRest(s: seq<Byte>, masked: seq<bool>, n: nat)
    requires |masked| == |s| && n <= |s|
    ensures |Blanked(s, masked)| == |s| && Blanked(s[n..], masked[n..]) == Blanked(s, masked)[n..]
  {
  }

  lemma ValidStep(s: seq<Byte>)
    requires ValidUtf8(s) && s != []
    ensures CharLength(s) > 0 && ValidUtf8(s[CharLength(s)..])
  {
  }

  /** A text that starts with the same character, followed by valid UTF-8. */
  lemma SameFirst(s: seq<Byte>, t: seq<Byte>, n: nat)
    requires s != [] && n == CharLength(s) && 0 < n <= |t| && t[..n] == s[..n] && ValidUtf8(t[n..])
    ensures ValidUtf8(t)
  {
    assert forall k :: 0 <= k < n ==> t[k] == t[..n][k] == s[k];
    assert CharLength(t) == n by {
      hide ValidUtf8;
    }
  }

  lemma AlignedRest(s: seq<Byte>, masked: seq<bool>, n: nat)
    requires Aligned(s, masked) && n <= |s|
    ensures Aligned(s[n..], masked[n..])
  {
  }

  lemma {:induction false} SpacesThenValid(s: seq<Byte>, n: nat)
    requires n <= |s| && (forall k :: 0 <= k < n ==> s[k] == 0x20) && ValidUtf8(s[n..])
    ensures ValidUtf8(s)
  {
    if n > 0 {
      assert s[1..][n - 1..] == s[n..];
      SpacesThenValid(s[1..], n - 1);
    } else {
      assert s[0..] == s;
    }
  }
}
