/**
 Trimming and the outbound stamp `**[bot]**:`.

 The outbox stores an already stamped body and stamps it again on every retry, so a
 retry rebuilds the same event only if stamping is idempotent.
 */
module Stamping {

  /** Unicode White_Space, the set Rust's `trim` removes. */
  predicate IsWhitespace(c: char) {
    var n := c as int;
    0x9 <= n <= 0xD || n == 0x20 || n == 0x85 || n == 0xA0 || n == 0x1680
    || 0x2000 <= n <= 0x200A || n == 0x2028 || n == 0x2029 || n == 0x202F || n == 0x205F || n == 0x3000
  }

  function TrimStart(s: string): string {
    if s != "" && IsWhitespace(s[0]) then TrimStart(s[1..]) else s
  }

  function TrimEnd(s: string): (r: string)
    ensures r <= s
    ensures r == "" || !IsWhitespace(r[|r| - 1])
  {
    if s != "" && IsWhitespace(s[|s| - 1]) then TrimEnd(s[..|s| - 1]) else s
  }

  function Trim(s: string): string {
    TrimEnd(TrimStart(s))
  }

  function OutboundPrefix(bot: string): string {
    "**[" + bot + "]**:"
  }

  function Stamp(body: string, prefix: string): string {
    var trimmed := Trim(body);
    if prefix <= trimmed then trimmed
    else if trimmed == "" then prefix
    else prefix + " " + trimmed
  }

  /** A text that neither starts nor ends in white space. */
  predicate Tight(s: string) {
    s != "" ==> !IsWhitespace(s[0]) && !IsWhitespace(s[|s| - 1])
  }

  lemma {:induction false} TrimStartTight(s: string)
    ensures TrimStart(s) != "" ==> !IsWhitespace(TrimStart(s)[0])
  {
    if s != "" && IsWhitespace(s[0]) {
      TrimStartTight(s[1..]);
    }
  }

  lemma TrimIsTight(s: string)
    ensures Tight(Trim(s))
  {
    TrimStartTight(s);
  }

  /** Trimming removes exactly what is not tight: a text is its own trim iff it is tight. */
  lemma TrimFixedPoint(s: string)
    ensures Trim(s) == s <==> Tight(s)
  {
    TrimIsTight(s);
  }

  lemma StampIsTight(body: string, bot: string)
    ensures Tight(Stamp(body, OutboundPrefix(bot)))
    ensures OutboundPrefix(bot) <= Stamp(body, OutboundPrefix(bot))
  {
  }

  /** Stamping a stamped body changes nothing, for every body and every bot. */
  lemma StampIdempotent(body: string, bot: string)
    ensures Stamp(Stamp(body, OutboundPrefix(bot)), OutboundPrefix(bot)) == Stamp(body, OutboundPrefix(bot))
  {
    StampIsTight(body, bot);
    TrimFixedPoint(Stamp(body, OutboundPrefix(bot)));
  }
}
