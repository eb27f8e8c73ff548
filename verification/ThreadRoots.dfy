/**
 Thread roots of replies, from marked `e` tags (NIP-10, "Marked e tags"), with the first
 unmarked `e` tag as the older positional form.
 */
module ThreadRoots {
  import opened Wrappers
  import opened Stamping

  type Tag = seq<string>

  // ---- event ids ----

  predicate IsHex(c: char) {
    '0' <= c <= '9' || 'a' <= c <= 'f' || 'A' <= c <= 'F'
  }

  function LowerHex(c: char): char {
    if 'A' <= c <= 'F' then ((c as int) - ('A' as int) + ('a' as int)) as char else c
  }

  /** `EventId::parse_hex`. */
  function ParseId(raw: string): Option<string> {
    var t := Trim(raw);
    if |t| != 64 || exists c :: c in t && !IsHex(c) then None
    else Some(seq(64, i requires 0 <= i < 64 => LowerHex(t[i])))
  }

  /** An id as it is stored: 64 lowercase hex digits. */
  predicate IsId(id: string) {
    |id| == 64 && forall c :: c in id ==> IsHex(c) && LowerHex(c) == c
  }

  /** Parsing yields stored ids, and leaves a stored id alone. */
  lemma ParsedIsId(raw: string)
    ensures ParseId(raw).Some? ==> IsId(ParseId(raw).value)
    ensures IsId(raw) ==> ParseId(raw) == Some(raw)
  {
    var t := Trim(raw);
    if ParseId(raw).Some? {
      var id := ParseId(raw).value;
      forall c | c in id ensures IsHex(c) && LowerHex(c) == c {
        var i :| 0 <= i < 64 && id[i] == c;
        assert t[i] in t;
      }
    }
    if IsId(raw) {
      assert raw[0] in raw && raw[63] in raw;
      TrimFixedPoint(raw);
      assert Tight(raw) && Trim(raw) == raw;
      forall i | 0 <= i < 64 ensures LowerHex(raw[i]) == raw[i] { assert raw[i] in raw; }
      assert seq(64, i requires 0 <= i < 64 => LowerHex(raw[i])) == raw;
    }
  }

  // ---- the root of a reply ----

  predicate IsE(tag: Tag) {
    |tag| >= 2 && tag[0] == "e" && ParseId(tag[1]).Some?
  }

  /** An `e` tag with this marker. */
  predicate IsMarked(tag: Tag, marker: string) {
    IsE(tag) && |tag| >= 4 && tag[3] == marker
  }

  /** The id of the last `e` tag with this marker. */
  function Marked(tags: seq<Tag>, marker: string): (r: Option<string>) {
    if tags == [] then None
    else
      var tag := tags[|tags| - 1];
      if IsMarked(tag, marker) then ParseId(tag[1]) else Marked(tags[..|tags| - 1], marker)
  }

  /** The id of the first `e` tag without a marker. */
  function Positional(tags: seq<Tag>): Option<string> {
    if tags == [] then None
    else
      var before := Positional(tags[..|tags| - 1]);
      var tag := tags[|tags| - 1];
      if before.None? && IsE(tag) && |tag| <= 3 then ParseId(tag[1]) else before
  }

  function Other(id: Option<string>, trigger: string): Option<string> {
    if id == Some(trigger) then None else id
  }

  /** The root that a reply to `trigger` must carry, if it is another event. */
  function ThreadRoot(trigger: string, tags: seq<Tag>): Option<string> {
    var root, reply := Marked(tags, "root"), Marked(tags, "reply");
    if root.Some? then (if reply.Some? then Other(root, trigger) else None)
    else if reply.Some? then Other(reply, trigger)
    else Other(Positional(tags), trigger)
  }

  method ReplyThreadRoot(trigger: string, tags: seq<Tag>) returns (r: Option<string>)
    ensures r == ThreadRoot(trigger, tags)
  {
    var root: Option<string>, reply: Option<string>, legacy: Option<string> := None, None, None;
    for i := 0 to |tags|
      invariant root == Marked(tags[..i], "root") && reply == Marked(tags[..i], "reply") && legacy == Positional(tags[..i])
    {
      assert tags[..i + 1][..i] == tags[..i];
      var tag := tags[i];
      if |tag| >= 2 && tag[0] == "e" {
        var id := ParseId(tag[1]);
        if id.Some? {
          if |tag| >= 4 {
            if tag[3] == "root" {
              root := id;
            } else if tag[3] == "reply" {
              reply := id;
            }
          } else if legacy.None? {
            legacy := id;
          }
        }
      }
    }
    assert tags[..|tags|] == tags;
    if root.Some? && reply.Some? && root.value != trigger {
      r := root;
    } else if root.None? && reply.Some? && reply.value != trigger {
      r := reply;
    } else if root.None? && reply.None? && legacy != Some(trigger) {
      r := legacy;
    } else {
      r := None;
    }
  }

  /** A reply is never its own root, and roots are event ids. */
  lemma RootIsAnother(trigger: string, tags: seq<Tag>)
    ensures ThreadRoot(trigger, tags).Some? ==> ThreadRoot(trigger, tags).value != trigger && IsId(ThreadRoot(trigger, tags).value)
  {
    MarkedIsId(tags, "root");
    MarkedIsId(tags, "reply");
    PositionalIsId(tags);
  }

  lemma {:induction false} MarkedIsId(tags: seq<Tag>, marker: string)
    ensures Marked(tags, marker).Some? ==> IsId(Marked(tags, marker).value)
  {
    if tags != [] {
      MarkedIsId(tags[..|tags| - 1], marker);
      if IsE(tags[|tags| - 1]) { ParsedIsId(tags[|tags| - 1][1]); }
    }
  }

  lemma {:induction false} PositionalIsId(tags: seq<Tag>)
    ensures Positional(tags).Some? ==> IsId(Positional(tags).value)
  {
    if tags != [] {
      PositionalIsId(tags[..|tags| - 1]);
      if IsE(tags[|tags| - 1]) { ParsedIsId(tags[|tags| - 1][1]); }
    }
  }

  // ---- tags of a reply ----

  /** `reply_thread_tags`. */
  function ThreadTags(trigger: string, root: Option<string>): seq<Tag> {
    if root.Some? && root.value != trigger then [["e", root.value, "", "root"], ["e", trigger, "", "reply"]]
    else [["e", trigger, "", "reply"]]
  }

  /** The tags of a published channel message: channel, thread, mentions. */
  function MessageTags(channel: string, thread: seq<Tag>, mentions: seq<string>): seq<Tag> {
    [["h", channel]] + thread + MentionTags(mentions)
  }

  function MentionTags(mentions: seq<string>): (r: seq<Tag>)
    ensures forall i :: 0 <= i < |r| ==> |r[i]| == 2 && r[i][0] == "p"
  {
    seq(|mentions|, i requires 0 <= i < |mentions| => ["p", mentions[i]])
  }

  lemma {:induction false} MarkedConcat(a: seq<Tag>, b: seq<Tag>, marker: string)
    ensures Marked(a + b, marker) == if Marked(b, marker).Some? then Marked(b, marker) else Marked(a, marker)
  {
    if b == [] {
      assert a + b == a;
    } else {
      var n := |b| - 1;
      assert (a + b)[..|a + b| - 1] == a + b[..n];
      MarkedConcat(a, b[..n], marker);
    }
  }

  lemma {:induction false} NoneMarked(tags: seq<Tag>, marker: string)
    requires forall i :: 0 <= i < |tags| ==> !IsMarked(tags[i], marker)
    ensures Marked(tags, marker) == None
  {
    if tags != [] { NoneMarked(tags[..|tags| - 1], marker); }
  }

  lemma MarkedOfThread(trigger: string, root: Option<string>)
    requires IsId(trigger) && (root.Some? ==> IsId(root.value))
    ensures var thread := ThreadTags(trigger, root);
            && Marked(thread, "reply") == Some(trigger)
            && Marked(thread, "root") == if root == Some(trigger) then None else root
  {
    ParsedIsId(trigger);
    if root.Some? { ParsedIsId(root.value); }
    hide ParseId;
    var thread := ThreadTags(trigger, root);
    if |thread| == 2 {
      assert thread[..1] == [thread[0]];
      assert [thread[0]][..0] == [];
    } else {
      assert thread[..0] == [];
    }
  }

  lemma UnmarkedAround(channel: string, thread: seq<Tag>, mentions: seq<string>, marker: string)
    ensures Marked(MessageTags(channel, thread, mentions), marker) == Marked(thread, marker)
  {
    hide Marked;
    NoneMarked([["h", channel]], marker);
    NoneMarked(MentionTags(mentions), marker);
    MarkedConcat([["h", channel]] + thread, MentionTags(mentions), marker);
    MarkedConcat([["h", channel]], thread, marker);
  }

  /** Reading back what was written: the marked ids of a published reply. */
  lemma MarkedOfMessage(channel: string, trigger: string, root: Option<string>, mentions: seq<string>)
    requires IsId(trigger) && (root.Some? ==> IsId(root.value))
    ensures var tags := MessageTags(channel, ThreadTags(trigger, root), mentions);
            && Marked(tags, "reply") == Some(trigger)
            && Marked(tags, "root") == if root == Some(trigger) then None else root
  {
    hide Marked, MessageTags, ThreadTags, IsId;
    MarkedOfThread(trigger, root);
    UnmarkedAround(channel, ThreadTags(trigger, root), mentions, "reply");
    UnmarkedAround(channel, ThreadTags(trigger, root), mentions, "root");
  }

  // ---- chains ----

  datatype Message = Message(id: string, tags: seq<Tag>)

  /** Every message after the first replies to the one before it, as the host publishes replies. */
  ghost predicate IsChain(chain: seq<Message>) {
    && chain != [] && (forall i :: 0 <= i < |chain| ==> IsId(chain[i].id))
    && (forall i, j :: 0 <= i < j < |chain| ==> chain[i].id != chain[j].id)
    && ThreadRoot(chain[0].id, chain[0].tags).None?
    && (forall i :: 0 < i < |chain| ==> RepliesTo(chain[i], chain[i - 1]))
  }

  ghost predicate RepliesTo(reply: Message, parent: Message) {
    exists channel, mentions :: reply.tags == MessageTags(channel, ThreadTags(parent.id, ThreadRoot(parent.id, parent.tags)), mentions)
  }

  /** However long the chain of replies, the root of each is its first message. */
  lemma {:induction false} RootOfChain(chain: seq<Message>, k: nat)
    requires IsChain(chain) && 0 < k < |chain|
    ensures ThreadRoot(chain[k].id, chain[k].tags) == Some(chain[0].id)
  {
    if k > 1 { RootOfChain(chain, k - 1); }
    var parent := chain[k - 1];
    assert RepliesTo(chain[k], parent);
    var channel, mentions :| chain[k].tags == MessageTags(channel, ThreadTags(parent.id, ThreadRoot(parent.id, parent.tags)), mentions);
    MarkedOfMessage(channel, parent.id, ThreadRoot(parent.id, parent.tags), mentions);
  }
}
