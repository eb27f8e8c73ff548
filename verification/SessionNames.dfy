/**
 The public name of one bot in one place: readable, bounded, free, and stable once stored.
 A name is the bot id, a slug of the channel's title, and, when that name is bound
 elsewhere, a growing piece of a stable id of the channel.
 */
module SessionNames {
  import opened Wrappers
  import opened Utf8

  const NAME_MAX: nat := 32
  const FNV_OFFSET: nat := 0xcbf2_9ce4_8422_2325
  const FNV_PRIME: nat := 0x0100_0000_01b3
  const TWO_64: nat := 0x1_0000_0000_0000_0000

  // ---- characters ----

  predicate IsLower(c: char) { 'a' <= c <= 'z' }
  predicate IsUpper(c: char) { 'A' <= c <= 'Z' }
  predicate IsDigit(c: char) { '0' <= c <= '9' }

  predicate IsAlphanumeric(c: char) {
    IsLower(c) || IsUpper(c) || IsDigit(c)
  }

  function Lower(c: char): char {
    if IsUpper(c) then ((c as int) - ('A' as int) + ('a' as int)) as char else c
  }

  /** The characters of bot ids and session names. */
  predicate IsNameChar(c: char) {
    IsLower(c) || IsDigit(c) || c == '-'
  }

  predicate NameChars(s: string) {
    forall c :: c in s ==> IsNameChar(c)
  }

  /** `BotId::parse` accepts exactly these. */
  predicate IsBotId(s: string) {
    s != "" && IsLower(s[0]) && NameChars(s)
  }

  // ---- the slug of a title ----

  /** The slug of a prefix of the title, and whether a separator is due before the next letter. */
  datatype SlugState = SlugState(slug: string, pending: bool)

  function Slugged(display: string): SlugState {
    if display == "" then SlugState("", false)
    else
      var before := Slugged(display[..|display| - 1]);
      var c := display[|display| - 1];
      if IsAlphanumeric(c) then
        SlugState(before.slug + (if before.pending && before.slug != "" then "-" else "") + [Lower(c)], false)
      else SlugState(before.slug, before.pending || before.slug != "")
  }

  function Slug(display: string): string {
    if Slugged(display).slug == "" then "channel" else Slugged(display).slug
  }

  method Slugify(display: string) returns (slug: string)
    ensures slug == Slug(display)
  {
    slug := "";
    var separatorPending := false;
    for i := 0 to |display|
      invariant Slugged(display[..i]) == SlugState(slug, separatorPending)
    {
      assert display[..i + 1][..i] == display[..i];
      var c := display[i];
      if IsAlphanumeric(c) {
        if separatorPending && slug != "" {
          slug := slug + "-";
        }
        slug := slug + [Lower(c)];
        separatorPending := false;
      } else if slug != "" {
        separatorPending := true;
      }
    }
    assert display[..|display|] == display;
    if slug == "" {
      slug := "channel";
    }
  }

  /** Lowercase letters and digits, single hyphens only between them. */
  predicate IsSlug(s: string) {
    && NameChars(s)
    && (s != "" ==> s[0] != '-' && s[|s| - 1] != '-')
    && (forall i :: 0 <= i < |s| - 1 ==> !(s[i] == '-' && s[i + 1] == '-'))
  }

  lemma {:induction false} SluggedIsSlug(display: string)
    ensures IsSlug(Slugged(display).slug)
  {
    if display != "" {
      SluggedIsSlug(display[..|display| - 1]);
      var before := Slugged(display[..|display| - 1]).slug;
      var after := Slugged(display).slug;
      forall c | c in after ensures IsNameChar(c) { assert c in before || c == '-' || c == Lower(display[|display| - 1]); }
    }
  }

  /** The letters and digits of a text, in lower case. */
  function Letters(s: string): string {
    if s == "" then ""
    else Letters(s[..|s| - 1]) + (if IsAlphanumeric(s[|s| - 1]) then [Lower(s[|s| - 1])] else "")
  }

  lemma LettersAppend(s: string, c: char)
    ensures Letters(s + [c]) == Letters(s) + (if IsAlphanumeric(c) then [Lower(c)] else "")
  {
  }

  /** The slug keeps every letter and digit of the title, in order, and adds only hyphens. */
  lemma {:induction false} SlugKeepsLetters(display: string)
    ensures Letters(Slugged(display).slug) == Letters(display)
  {
    if display != "" {
      var before := Slugged(display[..|display| - 1]);
      var c := display[|display| - 1];
      SlugKeepsLetters(display[..|display| - 1]);
      if IsAlphanumeric(c) {
        HyphenAdded(before.slug, c);
      }
    }
  }

  lemma HyphenAdded(slug: string, c: char)
    requires IsAlphanumeric(c)
    ensures Letters(slug + "" + [Lower(c)]) == Letters(slug + "-" + [Lower(c)]) == Letters(slug) + [Lower(c)]
  {
    hide Letters;
    LettersAppend(slug, '-');
    LettersAppend(slug, Lower(c));
    LettersAppend(slug + "-", Lower(c));
    assert slug + "" + [Lower(c)] == slug + [Lower(c)];
  }

  lemma SlugShape(display: string)
    ensures IsSlug(Slug(display)) && Slug(display) != ""
  {
    SluggedIsSlug(display);
    assert IsSlug("channel") by {
      assert forall c :: c in "channel" ==> IsLower(c);
    }
  }

  // ---- the stable id of a channel ----

  predicate IsHexByte(b: Byte) {
    0x30 <= b <= 0x39 || 0x41 <= b <= 0x46 || 0x61 <= b <= 0x66
  }

  predicate IsUuid(channel: seq<Byte>) {
    && |channel| == 36
    && forall i :: 0 <= i < 36 ==> if i == 8 || i == 13 || i == 18 || i == 23 then channel[i] == 0x2D else IsHexByte(channel[i])
  }

  predicate IsHexChar(c: char) {
    IsDigit(c) || 'a' <= c <= 'f'
  }

  predicate HexChars(s: string) {
    forall c :: c in s ==> IsHexChar(c)
  }

  function HexOf(b: Byte): char {
    Lower((b as int) as char)
  }

  /** The hex digits of a UUID, without its hyphens. */
  function Compact(channel: seq<Byte>): string {
    if channel == [] then ""
    else (if IsHexByte(channel[0]) then [HexOf(channel[0])] else "") + Compact(channel[1..])
  }

  lemma {:induction false} CompactIsHex(channel: seq<Byte>)
    ensures HexChars(Compact(channel))
    ensures (exists b :: b in channel && IsHexByte(b)) ==> Compact(channel) != ""
  {
    if channel != [] {
      CompactIsHex(channel[1..]);
      assert forall c :: c in Compact(channel) ==> c == HexOf(channel[0]) || c in Compact(channel[1..]);
    }
  }

  /** The exclusive or of the low byte. */
  function XorByte(hash: nat, b: Byte): nat {
    hash / 256 * 256 + (((hash % 256) as bv8) ^ (b as int as bv8)) as nat
  }

  /** 64-bit FNV-1a; the product wraps around. */
  function Fnv(channel: seq<Byte>): (h: nat)
    ensures h < TWO_64
  {
    if channel == [] then FNV_OFFSET
    else (XorByte(Fnv(channel[..|channel| - 1]), channel[|channel| - 1]) * FNV_PRIME) % TWO_64
  }

  function HexDigit(n: nat): char
    requires n < 16
  {
    if n < 10 then ('0' as int + n) as char else ('a' as int + n - 10) as char
  }

  /** `{:0width$x}` of a number that has at most `width` digits. */
  function HexPadded(n: nat, width: nat): (s: string)
    ensures |s| == width && HexChars(s)
  {
    if width == 0 then "" else HexPadded(n / 16, width - 1) + [HexDigit(n % 16)]
  }

  function StableId(channel: seq<Byte>): string {
    if IsUuid(channel) then Compact(channel) else HexPadded(Fnv(channel), 16)
  }

  lemma StableIdShape(channel: seq<Byte>)
    ensures StableId(channel) != "" && HexChars(StableId(channel))
  {
    if IsUuid(channel) {
      assert channel[0] in channel && IsHexByte(channel[0]);
      CompactIsHex(channel);
    }
  }

  // ---- candidates ----

  function TrimHyphens(s: string): (r: string)
    ensures r <= s && (r != "" ==> r[|r| - 1] != '-')
  {
    if s != "" && s[|s| - 1] == '-' then TrimHyphens(s[..|s| - 1]) else s
  }

  function Min(a: nat, b: nat): nat {
    if a < b then a else b
  }

  function SaturatingSub(a: nat, b: nat): nat {
    if a < b then 0 else a - b
  }

  /** `session_candidate` without a suffix. */
  function BaseName(bot: string, slug: string): Option<string> {
    if |bot| + 1 > NAME_MAX then None
    else
      var shown := TrimHyphens(slug[..Min(|slug|, NAME_MAX - (|bot| + 1))]);
      if shown == "" then None else Some(bot + "-" + shown)
  }

  /** `session_candidate` with a suffix. */
  function SuffixedName(bot: string, slug: string, suffix: string): Option<string> {
    var shown := TrimHyphens(slug[..Min(|slug|, SaturatingSub(NAME_MAX, |bot| + 1 + |suffix| + 1))]);
    var name := if shown == "" then bot + "-" + suffix else bot + "-" + shown + "-" + suffix;
    if |name| <= NAME_MAX then Some(name) else None
  }

  /** A name for sessions of `bot`. */
  predicate IsNameOf(name: string, bot: string) {
    |name| <= NAME_MAX && bot + "-" < name && IsBotId(name)
  }

  lemma BaseNameGood(bot: string, slug: string)
    requires IsBotId(bot) && IsSlug(slug) && slug != ""
    ensures BaseName(bot, slug).Some? <==> |bot| + 1 < NAME_MAX
    ensures BaseName(bot, slug).Some? ==> IsNameOf(BaseName(bot, slug).value, bot)
  {
    if |bot| + 1 < NAME_MAX {
      var cut := slug[..Min(|slug|, NAME_MAX - (|bot| + 1))];
      FirstStays(cut);
      CharsOf(bot, TrimHyphens(cut), slug);
    }
  }

  lemma {:induction false} FirstStays(s: string)
    requires s != "" && s[0] != '-'
    ensures TrimHyphens(s) != ""
  {
    if s[|s| - 1] == '-' { FirstStays(s[..|s| - 1]); }
  }

  lemma CharsOf(bot: string, shown: string, slug: string)
    requires IsBotId(bot) && NameChars(slug) && shown <= slug
    ensures NameChars(shown) && IsBotId(bot + "-" + shown)
  {
  }

  lemma SuffixedNameGood(bot: string, slug: string, suffix: string)
    requires IsBotId(bot) && IsSlug(slug) && HexChars(suffix) && suffix != "" && |bot| + 1 + |suffix| <= NAME_MAX
    ensures SuffixedName(bot, slug, suffix).Some? && IsNameOf(SuffixedName(bot, slug, suffix).value, bot)
  {
  }

  /** The suffix lengths that are tried: 8, 12, 16 and so on, up to the longest that fits. */
  function SuffixLengths(n: nat, max: nat): (r: seq<nat>)
    requires n <= max
    ensures forall i :: 0 <= i < |r| ==> n <= r[i] <= max && r[i] > 0
    ensures n > 0 ==> max in r
    decreases max - n
  {
    if n == 0 then [] else if n == max then [n] else [n] + SuffixLengths(Min(n + 4, max), max)
  }

  function MaxSuffix(bot: string, id: string): nat
    requires |bot| + 1 <= NAME_MAX
  {
    Min(|id|, NAME_MAX - (|bot| + 1))
  }

  /** Names with the first `lengths` characters of the id. */
  function SuffixedNames(bot: string, slug: string, id: string, lengths: seq<nat>): (r: seq<Option<string>>)
    requires forall i :: 0 <= i < |lengths| ==> lengths[i] <= |id|
    ensures |r| == |lengths|
  {
    if lengths == [] then [] else [SuffixedName(bot, slug, id[..lengths[0]])] + SuffixedNames(bot, slug, id, lengths[1..])
  }

  /** Every name that may be tried for a channel, in order. */
  function Candidates(bot: string, channel: seq<Byte>, display: string): seq<Option<string>> {
    var base := BaseName(bot, Slug(display));
    if base.None? || |bot| + 1 > NAME_MAX then []
    else
      var max := MaxSuffix(bot, StableId(channel));
      [base] + SuffixedNames(bot, Slug(display), StableId(channel), SuffixLengths(Min(8, max), max))
  }

  /** The first candidate that is free. */
  function FirstFree(candidates: seq<Option<string>>, taken: set<string>): (r: Option<string>)
    ensures r.Some? ==> r.value !in taken && r in candidates
    ensures r.None? ==> forall c :: c in candidates && c.Some? ==> c.value in taken
  {
    if candidates == [] then None
    else if candidates[0].Some? && candidates[0].value !in taken then candidates[0]
    else FirstFree(candidates[1..], taken)
  }

  lemma {:induction false} SuffixedNamesGood(bot: string, slug: string, id: string, lengths: seq<nat>)
    requires IsBotId(bot) && IsSlug(slug) && HexChars(id) && |bot| + 1 <= NAME_MAX
    requires forall i :: 0 <= i < |lengths| ==> 0 < lengths[i] <= MaxSuffix(bot, id) <= |id|
    ensures forall c :: c in SuffixedNames(bot, slug, id, lengths) ==> c.Some? && IsNameOf(c.value, bot)
  {
    if lengths != [] {
      var suffix := id[..lengths[0]];
      forall c | c in suffix ensures IsHexChar(c) { assert c in id; }
      SuffixedNameGood(bot, slug, suffix);
      SuffixedNamesGood(bot, slug, id, lengths[1..]);
    }
  }

  /** Every candidate is a name of the bot; there is one unless the bot id leaves no room. */
  lemma CandidatesGood(bot: string, channel: seq<Byte>, display: string)
    requires IsBotId(bot)
    ensures forall c :: c in Candidates(bot, channel, display) ==> c.Some? && IsNameOf(c.value, bot)
    ensures Candidates(bot, channel, display) == [] <==> |bot| + 1 >= NAME_MAX
  {
    SlugShape(display);
    StableIdShape(channel);
    BaseNameGood(bot, Slug(display));
    if |bot| + 1 < NAME_MAX {
      var max := MaxSuffix(bot, StableId(channel));
      SuffixedNamesGood(bot, Slug(display), StableId(channel), SuffixLengths(Min(8, max), max));
    }
  }

  lemma FirstFreeOf(c: Option<string>, rest: seq<Option<string>>, taken: set<string>)
    ensures FirstFree([c] + rest, taken) == if c.Some? && c.value !in taken then c else FirstFree(rest, taken)
  {
  }

  lemma SuffixedNamesFrom(bot: string, slug: string, id: string, n: nat, max: nat)
    requires 0 < n <= max <= |id|
    ensures SuffixedNames(bot, slug, id, SuffixLengths(n, max))
            == [SuffixedName(bot, slug, id[..n])] + (if n == max then [] else SuffixedNames(bot, slug, id, SuffixLengths(Min(n + 4, max), max)))
  {
  }

  /** Try longer and longer pieces of the id. */
  method TrySuffixes(bot: string, slug: string, id: string, max: nat, taken: set<string>) returns (name: Option<string>)
    requires 0 < max <= |id| && |bot| + 1 + max <= NAME_MAX && IsBotId(bot) && IsSlug(slug) && HexChars(id)
    ensures name == FirstFree(SuffixedNames(bot, slug, id, SuffixLengths(Min(8, max), max)), taken)
  {
    hide SuffixedName, SuffixedNames, SuffixLengths, IsNameOf, IsSlug, IsBotId, FirstFree;
    var n := Min(8, max);
    ghost var result := FirstFree(SuffixedNames(bot, slug, id, SuffixLengths(n, max)), taken);
    while n <= max
      invariant 0 < n <= max
      invariant result == FirstFree(SuffixedNames(bot, slug, id, SuffixLengths(n, max)), taken)
      decreases max - n
    {
      forall c | c in id[..n] ensures IsHexChar(c) { assert c in id; }
      SuffixedNameGood(bot, slug, id[..n]);
      SuffixedNamesFrom(bot, slug, id, n, max);
      var candidate := SuffixedName(bot, slug, id[..n]);
      FirstFreeOf(candidate, if n == max then [] else SuffixedNames(bot, slug, id, SuffixLengths(Min(n + 4, max), max)), taken);
      if candidate.value !in taken {
        return candidate;
      }
      if n == max {
        NoneFree(taken);
        return None;
      }
      n := Min(n + 4, max);
    }
  }

  lemma NoneFree(taken: set<string>)
    ensures FirstFree([], taken) == None
  {
  }

  /** The search ends with the first free candidate: a name of the bot, at most 32 bytes, not taken. */
  method FromBotAndChannel(bot: string, channel: seq<Byte>, display: string, taken: set<string>) returns (name: Option<string>)
    requires IsBotId(bot)
    ensures name == FirstFree(Candidates(bot, channel, display), taken)
    ensures name.Some? ==> name.value !in taken && IsNameOf(name.value, bot)
  {
    hide Slug, StableId, IsNameOf, IsBotId, BaseName, SuffixedNames, SuffixLengths, FirstFree;
    CandidatesGood(bot, channel, display);
    SlugShape(display);
    StableIdShape(channel);
    BaseNameGood(bot, Slug(display));
    NoneFree(taken);
    var slug := Slugify(display);
    var base := BaseName(bot, slug);
    if base.None? {
      return None;
    }
    var id := StableId(channel);
    var max := MaxSuffix(bot, id);
    FirstFreeOf(base, SuffixedNames(bot, slug, id, SuffixLengths(Min(8, max), max)), taken);
    if base.value !in taken {
      return base;
    }
    name := TrySuffixes(bot, slug, id, max, taken);
  }

  // ---- stored sessions ----

  datatype Place = Place(bot: string, channel: seq<Byte>)

  datatype Ensured = Found(name: string) | Unnameable | NotStored

  /** `snapshot_file_stem`. */
  function FileStem(name: string): Option<string> {
    if name == "" || exists c :: c in name && !(IsAlphanumeric(c) || c == '-') then None else Some(name)
  }

  /** A session name is an accepted snapshot file stem. */
  lemma NameIsFileStem(name: string, bot: string)
    requires IsNameOf(name, bot)
    ensures FileStem(name) == Some(name)
  {
  }

  /** No two places share a name, and every name is a name of its bot. */
  ghost predicate NamesGood(names: map<Place, string>) {
    && (forall p :: p in names ==> IsNameOf(names[p], p.bot))
    && (forall p, q :: p in names && q in names && names[p] == names[q] ==> p == q)
  }

  /** The sessions table, as far as names go. */
  class SessionTable {
    var names: map<Place, string>

    constructor ()
      ensures names == map[] && NamesGood(names)
    {
      names := map[];
    }

    /** The session of a place: the stored one, or a new one under a free name. A stored name never changes. */
    method Ensure(place: Place, display: string) returns (r: Ensured)
      requires NamesGood(names) && IsBotId(place.bot)
      modifies this
      ensures NamesGood(names)
      ensures forall p :: p in old(names) ==> p in names && names[p] == old(names)[p]
      ensures names.Keys <= old(names).Keys + {place}
      ensures r.Found? ==> place in names && r.name == names[place] && IsNameOf(r.name, place.bot)
      ensures place in old(names) ==> r == Found(old(names)[place]) && names == old(names)
      ensures r.Unnameable? ==>
                && names == old(names)
                && forall c :: c in Candidates(place.bot, place.channel, display) && c.Some? ==> exists p :: p in names && names[p] == c.value
    {
      hide IsNameOf, IsBotId, Candidates, FirstFree;
      if place in names {
        return Found(names[place]);
      }
      var taken := set p | p in names :: names[p];
      var name := FromBotAndChannel(place.bot, place.channel, display, taken);
      if name.None? {
        return Unnameable;
      }
      assert forall p :: p in names ==> names[p] in taken;
      var stored: bool := *;
      if stored {
        names := names[place := name.value];
      }
      var reported: bool := *;
      r := if stored && reported then Found(name.value) else NotStored;
    }
  }
}
