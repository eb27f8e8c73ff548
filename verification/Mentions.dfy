/**
 Readable `@Label` text to the `p` tags of a published message: aliases are looked up longest
 first, an alias that two participants share names nobody, and the list that was resolved
 is the list that is published.

 Text is bytes; letters outside ASCII have no case here, and only ASCII bytes are white space.
 */
module Mentions {
  import opened Wrappers
  import opened Stamping
  import opened Utf8
  import opened MarkdownMask

  const MENTIONS_MAX: nat := 50
  const AT: Byte := 0x40
  const PIPE: Byte := 0x7C

  datatype Participant = Participant(pubkey: string, aliases: seq<seq<Byte>>)

  // ---- case and boundaries ----

  function LowerByte(b: Byte): Byte {
    if 0x41 <= b <= 0x5A then b + 0x20 else b
  }

  function LowerBytes(s: seq<Byte>): (r: seq<Byte>)
    ensures |r| == |s|
  {
    seq(|s|, i requires 0 <= i < |s| => LowerByte(s[i]))
  }

  function LowerChar(c: char): char {
    if 'A' <= c <= 'Z' then ((c as int) - ('A' as int) + ('a' as int)) as char else c
  }

  function LowerText(s: string): (r: string)
    ensures |r| == |s|
  {
    seq(|s|, i requires 0 <= i < |s| => LowerChar(s[i]))
  }

  predicate SpaceByte(b: Byte) {
    0x09 <= b <= 0x0D || b == 0x20
  }

  /** `,;.!?:)]}*_` */
  const PUNCTUATION: set<Byte> := {0x2C, 0x3B, 0x2E, 0x21, 0x3F, 0x3A, 0x29, 0x5D, 0x7D, 0x2A, 0x5F}

  predicate ValidPrefix(text: seq<Byte>, at: nat)
    requires at <= |text|
  {
    || at == 0
    || (at >= 2 && text[at - 2] == PIPE && text[at - 1] == PIPE)
    || SpaceByte(text[at - 1]) || text[at - 1] == 0x28 || text[at - 1] == 0x2A || text[at - 1] == 0x5F
  }

  predicate ValidSuffix(rest: seq<Byte>) {
    rest == [] || (|rest| >= 2 && rest[0] == PIPE && rest[1] == PIPE) || SpaceByte(rest[0]) || rest[0] in PUNCTUATION
  }

  // ---- the alias table ----

  predicate HasAlias(p: Participant, key: seq<Byte>) {
    exists j :: 0 <= j < |p.aliases| && LowerBytes(p.aliases[j]) == key
  }

  /** The public keys of the participants with this alias. */
  function Holders(participants: seq<Participant>, key: seq<Byte>): set<string> {
    set i | 0 <= i < |participants| && HasAlias(participants[i], key) :: LowerText(participants[i].pubkey)
  }

  type Table = map<seq<Byte>, set<string>>

  ghost predicate IsTableOf(table: Table, participants: seq<Participant>) {
    && (forall key :: key in table <==> exists i :: 0 <= i < |participants| && HasAlias(participants[i], key))
    && (forall key :: key in table ==> table[key] == Holders(participants, key))
  }

  /** One more alias of one more participant. */
  function WithAlias(table: Table, alias: seq<Byte>, pubkey: string): Table {
    var key := LowerBytes(alias);
    table[key := (if key in table then table[key] else {}) + {LowerText(pubkey)}]
  }

  function WithAliases(table: Table, p: Participant, n: nat): Table
    requires n <= |p.aliases|
  {
    if n == 0 then table else WithAlias(WithAliases(table, p, n - 1), p.aliases[n - 1], p.pubkey)
  }

  predicate HasAliasBefore(p: Participant, key: seq<Byte>, n: nat)
    requires n <= |p.aliases|
  {
    exists j :: 0 <= j < n && LowerBytes(p.aliases[j]) == key
  }

  function HeldIn(table: Table, key: seq<Byte>): set<string> {
    if key in table then table[key] else {}
  }

  lemma {:induction false} AliasesAdded(table: Table, p: Participant, n: nat, key: seq<Byte>)
    requires n <= |p.aliases|
    ensures var after := WithAliases(table, p, n);
            && (key in after <==> key in table || HasAliasBefore(p, key, n))
            && HeldIn(after, key) == HeldIn(table, key) + (if HasAliasBefore(p, key, n) then {LowerText(p.pubkey)} else {})
  {
    hide LowerText, LowerBytes;
    if n > 0 {
      AliasesAdded(table, p, n - 1, key);
      assert HasAliasBefore(p, key, n) <==> HasAliasBefore(p, key, n - 1) || LowerBytes(p.aliases[n - 1]) == key;
    }
  }

  lemma HoldersAppend(participants: seq<Participant>, p: Participant, key: seq<Byte>)
    ensures Holders(participants + [p], key) == Holders(participants, key) + (if HasAlias(p, key) then {LowerText(p.pubkey)} else {})
  {
    var all := participants + [p];
    assert all[|participants|] == p;
    forall i | 0 <= i < |participants| ensures all[i] == participants[i] {}
    forall x ensures x in Holders(all, key) <==> x in Holders(participants, key) || (HasAlias(p, key) && x == LowerText(p.pubkey)) {
      if x in Holders(participants, key) {
        var i :| 0 <= i < |participants| && HasAlias(participants[i], key) && LowerText(participants[i].pubkey) == x;
        assert HasAlias(all[i], key) && LowerText(all[i].pubkey) == x;
      }
    }
  }

  lemma ParticipantAdded(table: Table, participants: seq<Participant>, p: Participant)
    requires IsTableOf(table, participants)
    ensures IsTableOf(WithAliases(table, p, |p.aliases|), participants + [p])
  {
    var after := WithAliases(table, p, |p.aliases|);
    var all := participants + [p];
    forall key ensures (key in after <==> key in table || HasAlias(p, key))
      ensures HeldIn(after, key) == HeldIn(table, key) + (if HasAlias(p, key) then {LowerText(p.pubkey)} else {})
    {
      AliasesAdded(table, p, |p.aliases|, key);
    }
    forall key ensures key in after <==> exists i :: 0 <= i < |all| && HasAlias(all[i], key) {
      if i :| 0 <= i < |participants| && HasAlias(participants[i], key) { assert HasAlias(all[i], key); }
      if HasAlias(p, key) { assert HasAlias(all[|participants|], key); }
    }
    forall key | key in after ensures after[key] == Holders(all, key) {
      HoldersAppend(participants, p, key);
      if key !in table { assert Holders(participants, key) == {}; }
    }
  }

  /** The alias map, filled participant by participant. */
  method BuildTable(participants: seq<Participant>) returns (table: Table)
    ensures IsTableOf(table, participants)
  {
    table := map[];
    for i := 0 to |participants|
      invariant IsTableOf(table, participants[..i])
    {
      var p := participants[i];
      ghost var before := table;
      for j := 0 to |p.aliases|
        invariant table == WithAliases(before, p, j)
      {
        table := WithAlias(table, p.aliases[j], p.pubkey);
      }
      ParticipantAdded(before, participants[..i], p);
      assert participants[..i + 1] == participants[..i] + [p];
    }
    assert participants[..|participants|] == participants;
  }

  // ---- one mention ----

  /** The text after the `@` starts with this alias, and the alias ends there. */
  predicate MatchesAt(rest: seq<Byte>, key: seq<Byte>) {
    |key| <= |rest| && LowerBytes(rest[..|key|]) == key && ValidSuffix(rest[|key|..])
  }

  /** The longest matching alias of at most `n` bytes: prefixes of the text are tried from long to short. */
  function KeyAt(keys: set<seq<Byte>>, rest: seq<Byte>, n: nat): (key: Option<seq<Byte>>)
    requires n <= |rest|
    ensures key.Some? ==> key.value in keys && MatchesAt(rest, key.value) && |key.value| <= n
    ensures key.Some? ==> forall k :: k in keys && MatchesAt(rest, k) && |k| <= n ==> |k| <= |key.value|
    ensures key.None? ==> forall k :: k in keys && MatchesAt(rest, k) ==> |k| > n
  {
    var prefix := LowerBytes(rest[..n]);
    if prefix in keys && ValidSuffix(rest[n..]) then
      assert LowerBytes(rest[..n]) == prefix;
      Some(prefix)
    else if n == 0 then None
    else KeyAt(keys, rest, n - 1)
  }

  /** Whom the text after an `@` names: the one holder of the longest matching alias, or nobody. */
  ghost function NamedAt(table: Table, rest: seq<Byte>): (r: Option<string>)
    ensures r.Some? <==> KeyAt(table.Keys, rest, |rest|).Some? && |table[KeyAt(table.Keys, rest, |rest|).value]| == 1
    ensures r.Some? ==> table[KeyAt(table.Keys, rest, |rest|).value] == {r.value}
  {
    var key := KeyAt(table.Keys, rest, |rest|);
    if key.Some? && |table[key.value]| == 1 then
      var one :| one in table[key.value];
      OnlyOne(table[key.value], one);
      Some(one)
    else None
  }

  lemma OnlyOne(s: set<string>, one: string)
    requires |s| == 1 && one in s
    ensures s == {one}
  {
    assert |s - {one}| == 0;
  }

  /**
   Look through the aliases from long to short. Which of two aliases of the same length comes
   first is left open, as the order of the source's hash map is; it does not matter.
   */
  method FindNamed(table: Table, rest: seq<Byte>) returns (r: Option<string>)
    ensures r == NamedAt(table, rest)
  {
    var todo := table.Keys;
    ghost var key := KeyAt(table.Keys, rest, |rest|);
    while todo != {}
      invariant todo <= table.Keys
      invariant forall k :: k in table && k !in todo ==> !MatchesAt(rest, k)
      decreases |todo|
    {
      var longest := Longest(todo);
      if MatchesAt(rest, longest) {
        SameLength(rest, longest, key.value);
        if |table[longest]| == 1 {
          var one :| one in table[longest];
          return Some(one);
        }
        return None;
      }
      todo := todo - {longest};
    }
    r := None;
  }

  method Longest(keys: set<seq<Byte>>) returns (longest: seq<Byte>)
    requires keys != {}
    ensures longest in keys && forall k :: k in keys ==> |k| <= |longest|
  {
    longest :| longest in keys;
    var todo := keys - {longest};
    while todo != {}
      invariant longest in keys && todo <= keys
      invariant forall k :: k in keys && k !in todo ==> |k| <= |longest|
      decreases |todo|
    {
      var k :| k in todo;
      todo := todo - {k};
      if |k| > |longest| { longest := k; }
    }
  }

  /** Matching aliases of the same length are the same alias. */
  lemma SameLength(rest: seq<Byte>, a: seq<Byte>, b: seq<Byte>)
    requires MatchesAt(rest, a) && MatchesAt(rest, b) && |a| == |b|
    ensures a == b
  {
  }

  /** A shared alias names nobody, even when a shorter alias would name somebody. */
  lemma SharedNamesNobody(participants: seq<Participant>, table: Table, rest: seq<Byte>, key: seq<Byte>, i: nat, j: nat)
    requires IsTableOf(table, participants) && MatchesAt(rest, key) && i < |participants| && j < |participants|
    requires HasAlias(participants[i], key) && HasAlias(participants[j], key)
    requires LowerText(participants[i].pubkey) != LowerText(participants[j].pubkey)
    requires forall k :: k in table && MatchesAt(rest, k) ==> |k| <= |key|
    ensures NamedAt(table, rest).None?
  {
    hide IsTableOf, HasAlias, LowerText;
    TableHolds(participants, table, key, i);
    TableHolds(participants, table, key, j);
    var longest := KeyAt(table.Keys, rest, |rest|);
    SameLength(rest, key, longest.value);
  }

  lemma TableHolds(participants: seq<Participant>, table: Table, key: seq<Byte>, i: nat)
    requires IsTableOf(table, participants) && i < |participants| && HasAlias(participants[i], key)
    ensures key in table && LowerText(participants[i].pubkey) in table[key]
  {
  }

  /** Whoever is named has the longest matching alias, and has it alone. */
  lemma NamedAlone(participants: seq<Participant>, table: Table, rest: seq<Byte>)
    requires IsTableOf(table, participants) && NamedAt(table, rest).Some?
    ensures var key := KeyAt(table.Keys, rest, |rest|).value;
            && MatchesAt(rest, key) && (forall k :: k in table && MatchesAt(rest, k) ==> |k| <= |key|)
            && Holders(participants, key) == {NamedAt(table, rest).value}
  {
  }

  // ---- all mentions of a text ----

  ghost function NamedFrom(table: Table, text: seq<Byte>, at: nat): seq<string>
    requires at <= |text|
    decreases |text| - at
  {
    if at == |text| then []
    else
      (if text[at] == AT && ValidPrefix(text, at) && NamedAt(table, text[at + 1..]).Some? then [NamedAt(table, text[at + 1..]).value] else [])
      + NamedFrom(table, text, at + 1)
  }

  lemma NamedStep(table: Table, text: seq<Byte>, at: nat)
    requires at < |text|
    ensures var here := text[at] == AT && ValidPrefix(text, at) && NamedAt(table, text[at + 1..]).Some?;
            NamedFrom(table, text, at) == (if here then [NamedAt(table, text[at + 1..]).value] else []) + NamedFrom(table, text, at + 1)
  {
  }

  method NamesIn(table: Table, text: seq<Byte>) returns (matches: seq<string>)
    ensures matches == NamedFrom(table, text, 0)
  {
    hide NamedAt, NamedFrom, ValidPrefix;
    matches := [];
    for at := 0 to |text|
      invariant NamedFrom(table, text, 0) == matches + NamedFrom(table, text, at)
    {
      NamedStep(table, text, at);
      var here: seq<string> := [];
      if text[at] == AT && ValidPrefix(text, at) {
        var named := FindNamed(table, text[at + 1..]);
        if named.Some? {
          here := [named.value];
        }
      }
      Joined(matches, here, NamedFrom(table, text, at + 1));
      matches := matches + here;
    }
    NoMoreNames(table, text);
  }

  lemma Joined(a: seq<string>, b: seq<string>, c: seq<string>)
    ensures a + (b + c) == (a + b) + c
  {
  }

  lemma NoMoreNames(table: Table, text: seq<Byte>)
    ensures NamedFrom(table, text, |text|) == []
  {
  }

  /** Code is masked first; what is masked names nobody. */
  method MentionedPubkeys(participants: seq<Participant>, body: seq<Byte>) returns (matches: seq<string>)
    requires ValidUtf8(body)
    ensures exists table :: IsTableOf(table, participants) && matches == NamedFrom(table, Blanked(body, Code(body)), 0)
  {
    var text := MaskMarkdownCode(body);
    var table := BuildTable(participants);
    matches := NamesIn(table, text);
  }

  /** The `@` at this place of the text names the holder of this key. */
  ghost predicate NamesAt(table: Table, text: seq<Byte>, at: nat, key: string) {
    at < |text| && text[at] == AT && ValidPrefix(text, at) && NamedAt(table, text[at + 1..]) == Some(key)
  }

  lemma NamedHere(table: Table, text: seq<Byte>, at: nat, key: string)
    requires at < |text|
    ensures key in NamedFrom(table, text, at) <==> NamesAt(table, text, at, key) || key in NamedFrom(table, text, at + 1)
  {
    hide NamedAt, ValidPrefix, NamedFrom;
    NamedStep(table, text, at);
  }

  ghost predicate NamesAfter(table: Table, text: seq<Byte>, from: nat, key: string) {
    exists at: nat :: from <= at && NamesAt(table, text, at, key)
  }

  lemma NamesNext(table: Table, text: seq<Byte>, from: nat, key: string)
    ensures NamesAfter(table, text, from, key) <==> NamesAt(table, text, from, key) || NamesAfter(table, text, from + 1, key)
  {
    hide NamesAt;
    if at: nat :| from <= at && NamesAt(table, text, at, key) {
      assert at == from || from + 1 <= at;
    }
  }

  /** What is recorded is exactly what some `@` names. */
  lemma {:induction false} NamedSomewhere(table: Table, text: seq<Byte>, from: nat, key: string)
    requires from <= |text|
    ensures key in NamedFrom(table, text, from) <==> NamesAfter(table, text, from, key)
    decreases |text| - from
  {
    if from < |text| {
      hide NamesAt, NamedFrom, NamesAfter;
      NamedHere(table, text, from, key);
      NamesNext(table, text, from, key);
      NamedSomewhere(table, text, from + 1, key);
    } else {
      hide NamedAt;
    }
  }

  /** Every mention that is recorded starts at an `@` outside code. */
  lemma MaskedNamesNobody(table: Table, body: seq<Byte>, key: string)
    ensures key in NamedFrom(table, Blanked(body, Code(body)), 0) <==>
              exists at: nat :: at < |body| && body[at] == AT && !Code(body)[at] && NamesAt(table, Blanked(body, Code(body)), at, key)
  {
    hide NamedAt, ValidPrefix, Code;
    var text := Blanked(body, Code(body));
    NamedSomewhere(table, text, 0, key);
    if at: nat :| 0 <= at && NamesAt(table, text, at, key) {
      assert text[at] == AT;
      assert at < |body| && body[at] == AT && !Code(body)[at];
    }
  }

  // ---- the list of mentions ----

  /** The first occurrence of each element. */
  function Distinct(list: seq<string>): (r: seq<string>)
    ensures |r| <= |list|
    ensures forall x :: x in r <==> x in list
  {
    if list == [] then []
    else
      var before := Distinct(list[..|list| - 1]);
      assert forall x :: x in list <==> x in list[..|list| - 1] || x == list[|list| - 1];
      if list[|list| - 1] in before then before else before + [list[|list| - 1]]
  }

  predicate AllDistinct(list: seq<string>) {
    forall i, j :: 0 <= i < j < |list| ==> list[i] != list[j]
  }

  lemma {:induction false} DistinctIsDistinct(list: seq<string>)
    ensures AllDistinct(Distinct(list))
    ensures list != [] ==> Distinct(list) != [] && Distinct(list)[0] == list[0]
  {
    if list != [] {
      DistinctIsDistinct(list[..|list| - 1]);
      assert list[0] in list;
    }
  }

  lemma {:induction false} DistinctFixed(list: seq<string>)
    requires AllDistinct(list)
    ensures Distinct(list) == list
  {
    if list != [] {
      var n := |list| - 1;
      DistinctFixed(list[..n]);
      assert list[n] !in list[..n];
      assert list == list[..n] + [list[n]];
    }
  }

  function Take(list: seq<string>, n: nat): seq<string> {
    if |list| <= n then list else list[..n]
  }

  /** `resolved_mentions`: the requester first, then whom the body names, each once, at most 50. */
  function ResolvedList(requester: string, named: seq<string>): seq<string> {
    Take(Distinct((if requester == "" then [] else [LowerText(requester)]) + named), MENTIONS_MAX)
  }

  method ResolvedMentions(body: seq<Byte>, requester: string, audience: Option<seq<Participant>>) returns (mentions: seq<string>)
    requires ValidUtf8(body)
    ensures audience.None? ==> mentions == ResolvedList(requester, [])
    ensures audience.Some? ==>
              exists table :: IsTableOf(table, audience.value)
                              && mentions == ResolvedList(requester, NamedFrom(table, Blanked(body, Code(body)), 0))
  {
    hide IsTableOf, Code, Blanked, ValidUtf8, NamedFrom;
    var all: seq<string> := if requester == "" then [] else [LowerText(requester)];
    if audience.Some? {
      var named := MentionedPubkeys(audience.value, body);
      all := all + named;
    } else {
      assert all + [] == all;
    }
    mentions := Retained(all);
    mentions := Take(mentions, MENTIONS_MAX);
  }

  /** `retain` with a set of what was seen. */
  method Retained(all: seq<string>) returns (kept: seq<string>)
    ensures kept == Distinct(all)
  {
    kept := [];
    var seen: set<string> := {};
    for i := 0 to |all|
      invariant kept == Distinct(all[..i])
      invariant forall x :: x in seen <==> x in kept
    {
      assert all[..i + 1][..i] == all[..i];
      if all[i] !in seen {
        seen := seen + {all[i]};
        kept := kept + [all[i]];
      }
    }
    assert all[..|all|] == all;
  }

  // ---- storing and publishing the list ----

  function Join(list: seq<string>): string {
    if list == [] then "" else if |list| == 1 then list[0] else list[0] + "," + Join(list[1..])
  }

  /** `split(',')`. */
  function Split(s: string): (r: seq<string>)
    ensures r != []
  {
    if s == "" then [""]
    else
      var rest := Split(s[1..]);
      if s[0] == ',' then [""] + rest else [[s[0]] + rest[0]] + rest[1..]
  }

  lemma {:induction false} SplitWord(word: string, rest: string)
    requires ',' !in word
    ensures Split(word) == [word] && Split(word + "," + rest) == [word] + Split(rest)
  {
    if word == "" {
      assert word + "," + rest == "," + rest;
      assert ("," + rest)[1..] == rest;
    } else {
      assert word[0] in word;
      SplitWord(word[1..], rest);
      assert [word[0]] + word[1..] == word;
      assert (word + "," + rest)[1..] == word[1..] + "," + rest;
    }
  }

  lemma {:induction false} SplitJoin(list: seq<string>)
    requires list != [] && forall i :: 0 <= i < |list| ==> ',' !in list[i]
    ensures Split(Join(list)) == list
  {
    if |list| == 1 {
      SplitWord(list[0], "");
    } else {
      SplitJoin(list[1..]);
      SplitWord(list[0], Join(list[1..]));
    }
  }

  function NonEmpty(list: seq<string>): seq<string> {
    if list == [] then [] else (if list[0] == "" then [] else [list[0]]) + NonEmpty(list[1..])
  }

  function Cleaned(list: seq<string>): (r: seq<string>)
    ensures |r| == |list|
  {
    seq(|list|, i requires 0 <= i < |list| => LowerText(Trim(list[i])))
  }

  /** The public keys that `channel_message` tags. */
  function TaggedKeys(mentions: seq<string>): seq<string> {
    Take(Distinct(NonEmpty(Cleaned(mentions))), MENTIONS_MAX)
  }

  /** A public key: lowercase, without commas or white space around it. */
  predicate CleanKey(key: string) {
    key != "" && ',' !in key && Trim(key) == key && LowerText(key) == key
  }

  lemma {:induction false} NonEmptyFixed(list: seq<string>)
    requires forall i :: 0 <= i < |list| ==> list[i] != ""
    ensures NonEmpty(list) == list
  {
    if list != [] { NonEmptyFixed(list[1..]); }
  }

  /** A resolved list of keys is published exactly as it was stored. */
  lemma PublishedAsResolved(requester: string, named: seq<string>)
    requires requester == "" || CleanKey(LowerText(requester))
    requires forall i :: 0 <= i < |named| ==> CleanKey(named[i])
    ensures var list := ResolvedList(requester, named);
            && TaggedKeys(NonEmpty(Split(Join(list)))) == list
            && AllDistinct(list) && |list| <= MENTIONS_MAX
            && (requester != "" ==> list != [] && list[0] == LowerText(requester))
  {
    var all := (if requester == "" then [] else [LowerText(requester)]) + named;
    var list := ResolvedList(requester, named);
    DistinctIsDistinct(all);
    assert AllDistinct(list);
    forall i | 0 <= i < |list| ensures CleanKey(list[i]) { assert list[i] in Distinct(all) && list[i] in all; }
    ListPublished(list);
  }

  /** Whom an `@` names is a participant, and the only one with the alias. */
  lemma NamedIsParticipant(participants: seq<Participant>, table: Table, rest: seq<Byte>)
    requires IsTableOf(table, participants) && NamedAt(table, rest).Some?
    ensures exists i :: 0 <= i < |participants| && NamedAt(table, rest).value == LowerText(participants[i].pubkey)
  {
    NamedAlone(participants, table, rest);
    var key := KeyAt(table.Keys, rest, |rest|).value;
    assert NamedAt(table, rest).value in Holders(participants, key);
  }

  /** Everybody a reply mentions: its requester, and whom an `@` outside code names. */
  ghost predicate Mentioned(table: Table, body: seq<Byte>, requester: string, key: string) {
    || (requester != "" && key == LowerText(requester))
    || key in NamedFrom(table, Blanked(body, Code(body)), 0)
  }

  /**
   The published keys are those of the requester and of whoever the body names: the requester
   first, each once, at most 50; and all of them, unless they are more than that.
   */
  lemma PublishedMentions(participants: seq<Participant>, table: Table, body: seq<Byte>, requester: string)
    requires IsTableOf(table, participants)
    requires requester == "" || CleanKey(LowerText(requester))
    requires forall i :: 0 <= i < |participants| ==> CleanKey(LowerText(participants[i].pubkey))
    ensures var named := NamedFrom(table, Blanked(body, Code(body)), 0);
            var published := TaggedKeys(NonEmpty(Split(Join(ResolvedList(requester, named)))));
            && published == ResolvedList(requester, named) && AllDistinct(published) && |published| <= MENTIONS_MAX
            && (requester != "" ==> published != [] && published[0] == LowerText(requester))
            && (forall key :: key in published ==> Mentioned(table, body, requester, key))
            && (|published| < MENTIONS_MAX ==> forall key :: Mentioned(table, body, requester, key) ==> key in published)
  {
    hide IsTableOf, NamedFrom, Code, Blanked, NamedAt, LowerText, CleanKey;
    var named := NamedFrom(table, Blanked(body, Code(body)), 0);
    forall i | 0 <= i < |named| ensures CleanKey(named[i]) {
      assert named[i] in named;
      NamedIsClean(participants, table, Blanked(body, Code(body)), named[i]);
    }
    PublishedAsResolved(requester, named);
    ResolvedHolds(requester, named);
  }

  lemma ResolvedHolds(requester: string, named: seq<string>)
    ensures var all := (if requester == "" then [] else [LowerText(requester)]) + named;
            && (forall key :: key in ResolvedList(requester, named) ==> key in all)
            && (|ResolvedList(requester, named)| < MENTIONS_MAX ==> forall key :: key in all ==> key in ResolvedList(requester, named))
  {
  }

  lemma NamedIsClean(participants: seq<Participant>, table: Table, text: seq<Byte>, key: string)
    requires IsTableOf(table, participants) && key in NamedFrom(table, text, 0)
    requires forall i :: 0 <= i < |participants| ==> CleanKey(LowerText(participants[i].pubkey))
    ensures CleanKey(key)
  {
    hide IsTableOf, NamedFrom, NamedAt, CleanKey;
    NamedSomewhere(table, text, 0, key);
    var at: nat :| 0 <= at && NamesAt(table, text, at, key);
    NamedIsParticipant(participants, table, text[at + 1..]);
  }

  lemma ListPublished(list: seq<string>)
    requires AllDistinct(list) && |list| <= MENTIONS_MAX && forall i :: 0 <= i < |list| ==> CleanKey(list[i])
    ensures TaggedKeys(NonEmpty(Split(Join(list)))) == list
  {
    if list == [] {
      assert NonEmpty(Split(Join(list))) == [];
      assert Cleaned([]) == [];
    } else {
      SplitJoin(list);
      NonEmptyFixed(list);
      assert Cleaned(list) == list;
      DistinctFixed(list);
    }
  }
}
