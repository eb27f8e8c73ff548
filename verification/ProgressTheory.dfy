/**
 What is true of progress posts between any two durable writes, how the posts may change
 over a run, and one lemma for every kind of change.
 */
module ProgressTheory {
  import opened Wrappers
  import opened Stamping
  import opened HostStore
  import opened RelayPublisher
  import opened ProgressPolicy
  import opened ProgressRelay

  datatype View = View(
    turns: seq<Turn>, attempts: map<Key, Attempt>, posts: map<AskId, ProgressPost>, sent: seq<Send>,
    feed: seq<Entry>, queue: seq<Command>, completions: seq<Completion>, active: set<Operation>,
    sign: (Payload, int) -> EventId)

  // ---- reading the feed ----

  /** The newest recorded body of an ask, as it would be shown. */
  function Newest(feed: seq<Entry>, ask: AskId): Option<string> {
    if feed == [] then None
    else
      var e := feed[|feed| - 1];
      if e.Recorded? && e.ask == ask then Some(e.content) else Newest(feed[..|feed| - 1], ask)
  }

  /** The content of the last accepted edit of an ask. */
  function LastEdit(feed: seq<Entry>, ask: AskId): Option<string> {
    if feed == [] then None
    else
      var e := feed[|feed| - 1];
      if e.EditRan? && e.ask == ask && e.verdict.Accepted? then Some(e.content) else LastEdit(feed[..|feed| - 1], ask)
  }

  /** What readers of the channel see. */
  function Shown(feed: seq<Entry>, ask: AskId, p: ProgressPost): Option<string> {
    Coalesce(LastEdit(feed, ask), p.postBody)
  }

  ghost predicate FixedIn(feed: seq<Entry>, ask: AskId, content: string) {
    exists i :: 0 <= i < |feed| && feed[i] == PostFixed(ask, content)
  }

  /** A delete that named this post was accepted, or refused for good. */
  ghost predicate DeleteSettled(feed: seq<Entry>, ask: AskId, target: EventId) {
    exists i :: 0 <= i < |feed| && feed[i].DeleteRan? && feed[i].ask == ask && feed[i].target == target
                && !feed[i].verdict.NotAccepted?
  }

  /** The create of this ask was fixed: content and event id are stored. */
  ghost predicate WasFixed(feed: seq<Entry>, ask: AskId) {
    exists i :: 0 <= i < |feed| && feed[i].PostFixed? && feed[i].ask == ask
  }

  /** What an entry says about the feed before it. */
  ghost predicate EntryGood(before: seq<Entry>, e: Entry) {
    match e
    case Recorded(_, _) => true
    case PostFixed(ask, content) => Newest(before, ask) == Some(content) && !WasFixed(before, ask)
    case EditIssued(ask, _, content) => Newest(before, ask) == Some(content) && WasFixed(before, ask)
    case EditRan(ask, target, content, issue, _) =>
      && issue < |before| && before[issue] == EditIssued(ask, target, content)
      && (forall i :: 0 <= i < |before| && before[i].EditRan? && before[i].ask == ask ==> before[i].issue < issue)
      && (forall i :: 0 <= i < |before| && before[i].DeleteRan? ==> before[i].ask != ask)
    case PostLive(ask, _) => forall i :: 0 <= i < |before| && before[i].PostLive? ==> before[i].ask != ask
    case _ => true
  }

  ghost predicate FeedGood(feed: seq<Entry>) {
    forall i {:trigger feed[..i]} :: 0 <= i < |feed| ==> EntryGood(feed[..i], feed[i])
  }

  /** What an entry says about the stored row of its ask. */
  predicate EntryBacked(e: Entry, posts: map<AskId, ProgressPost>) {
    && e.ask in posts
    && (e.PostFixed? ==> posts[e.ask].prepared.Some?)
    && (e.PostLive? ==> posts[e.ask].postEvent.Some?)
    && (e.PostDropped? ==> posts[e.ask].ended)
    && (e.EditIssued? || e.EditRan? ==> posts[e.ask].postEvent == Some(e.target))
    && (e.DeleteRan? ==> posts[e.ask].ended && posts[e.ask].prepared == Some(e.target))
  }

  // ---- one row ----

  function StampFor(turns: seq<Turn>, ask: AskId, body: string): string
    requires OfAsk(turns, ask).Some?
  {
    Stamp(body, OutboundPrefix(turns[OfAsk(turns, ask).value].session.bot))
  }

  function CreatePayload(p: ProgressPost): Payload
    requires p.postBody.Some?
  {
    Payload(p.postBody.value, p.channel, Some(p.replyTo), p.root, "")
  }

  /** Nothing waits to be shown and nothing stopped the post. */
  predicate Settled(p: ProgressPost) {
    !p.ended && p.prepared.Some? && p.pending.None? && p.editCount < EDIT_CAP
  }

  ghost predicate PostGood(ask: AskId, p: ProgressPost, turns: seq<Turn>, attempts: map<Key, Attempt>,
                           feed: seq<Entry>, sign: (Payload, int) -> EventId) {
    && OfAsk(turns, ask).Some?
    && (p.prepared.Some? <==> p.createdAt.Some?)
    && (p.prepared.Some? ==>
          && p.postBody.Some? && FixedIn(feed, ask, p.postBody.value)
          && p.prepared == Some(sign(CreatePayload(p), p.createdAt.value)))
    && (p.postEvent.Some? ==> p.postEvent == p.prepared && p.lastSendAt.Some?)
    && (p.postEvent.None? ==> p.editCount == 0)
    && (p.prepared.None? && !p.ended ==> p.postBody.None?)
    && p.editCount <= EDIT_CAP
    && (p.postEvent.Some? && p.pending.Some? ==> p.editCount < EDIT_CAP)
    && (p.deletePending ==> p.ended && p.prepared.Some?)
    && (p.ended ==> p.pending.None?)
    && (p.pending.Some? ==> Newest(feed, ask) == Some(StampFor(turns, ask, p.pending.value)))
    && (Settled(p) && Ask(ask) !in attempts ==> Shown(feed, ask, p) == Newest(feed, ask))
  }

  // ---- why a row ended, and since when it is live ----

  predicate Over(turns: seq<Turn>, ask: AskId) {
    OfAsk(turns, ask).Some? && Terminal(turns[OfAsk(turns, ask).value].state)
  }

  /** An ended row that owes no delete had it settled, or its turn is over or answered, or its
      create was given up, or a refused final ended it. */
  ghost predicate EndExplained(ask: AskId, p: ProgressPost, turns: seq<Turn>, attempts: map<Key, Attempt>, feed: seq<Entry>) {
    p.ended && p.prepared.Some? && !p.deletePending ==>
      || DeleteSettled(feed, ask, p.prepared.value)
      || Over(turns, ask) || Answered(attempts, ask)
      || PostDropped(ask) in feed || FinalRefused(ask) in feed
  }

  /** Every counted edit of a live post took its interval since the create was accepted. */
  ghost predicate LivePaced(ask: AskId, p: ProgressPost, feed: seq<Entry>) {
    p.postEvent.Some? ==>
      p.lastSendAt.Some? && exists at :: PostLive(ask, at) in feed && p.lastSendAt.value >= at + EDIT_INTERVAL_SECS * p.editCount
  }

  ghost predicate RowExplained(ask: AskId, p: ProgressPost, turns: seq<Turn>, attempts: map<Key, Attempt>, feed: seq<Entry>) {
    EndExplained(ask, p, turns, attempts, feed) && LivePaced(ask, p, feed)
  }

  ghost predicate RowsExplained(posts: map<AskId, ProgressPost>, turns: seq<Turn>, attempts: map<Key, Attempt>, feed: seq<Entry>) {
    forall ask :: ask in posts ==> RowExplained(ask, posts[ask], turns, attempts, feed)
  }

  /** A create is only ever sent for a live row without a final, under the row's one event. */
  predicate CreateBacked(e: Send, posts: map<AskId, ProgressPost>) {
    e.purpose.ForProgress? ==>
      && e.purpose.ask in posts && var p := posts[e.purpose.ask];
      && p.prepared == Some(e.id) && p.postBody.Some? && e.payload == CreatePayload(p)
      && e.attempt.None? && e.post.Some? && !e.post.value.ended && e.post.value.prepared == Some(e.id)
  }

  // ---- operations in flight ----

  /** An edit that is queued or reported but not yet applied. */
  predicate FlightGood(ask: AskId, target: EventId, content: string, issue: nat, at: int,
                       posts: map<AskId, ProgressPost>, attempts: map<Key, Attempt>, feed: seq<Entry>) {
    && ask in posts && var p := posts[ask];
    && p.postEvent == Some(target) && p.editCount < EDIT_CAP
    && p.lastSendAt.Some? && at >= p.lastSendAt.value + EDIT_INTERVAL_SECS
    && issue < |feed| && feed[issue] == EditIssued(ask, target, content)
    && (!p.ended && Ask(ask) !in attempts ==> p.pending.Some?)
  }

  /** Nothing of this ask ran that was issued at or after `issue`, and it was not deleted. */
  ghost predicate AheadOf(feed: seq<Entry>, ask: AskId, issue: nat) {
    && (forall i :: 0 <= i < |feed| && feed[i].EditRan? && feed[i].ask == ask ==> feed[i].issue < issue)
    && (forall i :: 0 <= i < |feed| && feed[i].DeleteRan? ==> feed[i].ask != ask)
  }

  ghost predicate CommandGood(c: Command, posts: map<AskId, ProgressPost>, attempts: map<Key, Attempt>, feed: seq<Entry>) {
    match c
    case EditCommand(ask, target, content, issuedAt, issue) =>
      FlightGood(ask, target, content, issue, issuedAt, posts, attempts, feed) && AheadOf(feed, ask, issue)
    case DeleteCommand(ask, target) =>
      ask in posts && posts[ask].ended && posts[ask].prepared == Some(target)
  }

  /** `ran` is the last edit of this ask that ran. */
  ghost predicate LastRan(feed: seq<Entry>, ask: AskId, ran: nat) {
    forall i :: ran < i < |feed| && feed[i].EditRan? ==> feed[i].ask != ask
  }

  ghost predicate CompletionGood(c: Completion, posts: map<AskId, ProgressPost>, attempts: map<Key, Attempt>, feed: seq<Entry>) {
    && c.ran < |feed|
    && match c
       case EditDone(ask, content, at, verdict, ran) =>
         && feed[ran].EditRan? && feed[ran].ask == ask && feed[ran].content == content && feed[ran].verdict == verdict
         && FlightGood(ask, feed[ran].target, content, feed[ran].issue, at, posts, attempts, feed)
         && LastRan(feed, ask, ran)
       case DeleteDone(ask, _, verdict, ran) =>
         && ask in posts && posts[ask].ended
         && feed[ran].DeleteRan? && feed[ran].ask == ask && feed[ran].verdict == verdict
  }

  /** Every operation in flight is single, known as active, and an edit is never queued behind its delete. */
  ghost predicate FlightsApart(queue: seq<Command>, completions: seq<Completion>, active: set<Operation>) {
    && (forall i :: 0 <= i < |queue| ==> OpOf(queue[i]) in active)
    && (forall i :: 0 <= i < |completions| ==> OpDone(completions[i]) in active)
    && (forall i, j :: 0 <= i < j < |queue| ==> OpOf(queue[i]) != OpOf(queue[j]))
    && (forall i, j :: 0 <= i < j < |completions| ==> OpDone(completions[i]) != OpDone(completions[j]))
    && (forall i, j :: 0 <= i < |queue| && 0 <= j < |completions| ==> OpOf(queue[i]) != OpDone(completions[j]))
    && (forall i, j :: 0 <= i < j < |queue| && queue[i].DeleteCommand? && queue[j].EditCommand? ==> queue[i].ask != queue[j].ask)
  }

  // ---- the invariant ----

  ghost predicate PostsGood(posts: map<AskId, ProgressPost>, turns: seq<Turn>, attempts: map<Key, Attempt>,
                            feed: seq<Entry>, sign: (Payload, int) -> EventId) {
    forall ask :: ask in posts ==> PostGood(ask, posts[ask], turns, attempts, feed, sign)
  }

  ghost predicate EntriesBacked(feed: seq<Entry>, posts: map<AskId, ProgressPost>) {
    forall i :: 0 <= i < |feed| ==> EntryBacked(feed[i], posts)
  }

  ghost predicate CreatesBacked(sent: seq<Send>, posts: map<AskId, ProgressPost>) {
    forall i :: 0 <= i < |sent| ==> CreateBacked(sent[i], posts)
  }

  ghost predicate CommandsGood(queue: seq<Command>, posts: map<AskId, ProgressPost>, attempts: map<Key, Attempt>, feed: seq<Entry>) {
    forall i :: 0 <= i < |queue| ==> CommandGood(queue[i], posts, attempts, feed)
  }

  ghost predicate CompletionsGood(completions: seq<Completion>, posts: map<AskId, ProgressPost>, attempts: map<Key, Attempt>, feed: seq<Entry>) {
    forall i :: 0 <= i < |completions| ==> CompletionGood(completions[i], posts, attempts, feed)
  }

  ghost predicate ProgressGood(v: View) {
    && TurnsGood(v.turns)
    && FeedGood(v.feed)
    && PostsGood(v.posts, v.turns, v.attempts, v.feed, v.sign)
    && RowsExplained(v.posts, v.turns, v.attempts, v.feed)
    && EntriesBacked(v.feed, v.posts)
    && CreatesBacked(v.sent, v.posts)
    && CommandsGood(v.queue, v.posts, v.attempts, v.feed)
    && CompletionsGood(v.completions, v.posts, v.attempts, v.feed)
    && FlightsApart(v.queue, v.completions, v.active)
  }

  lemma StoredPostGood(v: View, ask: AskId)
    requires ProgressGood(v) && ask in v.posts
    ensures PostGood(ask, v.posts[ask], v.turns, v.attempts, v.feed, v.sign)
    ensures RowExplained(ask, v.posts[ask], v.turns, v.attempts, v.feed)
  {
  }

  // ---- change over a run ----

  predicate PostEvolves(p: ProgressPost, q: ProgressPost) {
    && p.channel == q.channel && p.replyTo == q.replyTo && p.root == q.root && p.openedAt == q.openedAt
    && (p.prepared.Some? ==> q.prepared == p.prepared && q.createdAt == p.createdAt && q.postBody == p.postBody)
    && (p.postEvent.Some? ==> q.postEvent == p.postEvent)
    && (p.ended ==> q.ended)
    && p.editCount <= q.editCount
    && (p.postEvent.Some? && p.lastSendAt.Some? ==>
          q.lastSendAt.Some? && q.lastSendAt.value >= p.lastSendAt.value + EDIT_INTERVAL_SECS * (q.editCount - p.editCount))
  }

  /** Progress of an ask is over: its row has ended, its final has reached the host, or its turn is over. */
  predicate Quiet(v: View, ask: AskId) {
    (ask in v.posts && v.posts[ask].ended) || Ask(ask) in v.attempts || Over(v.turns, ask)
  }

  /** The create of this ask may have reached the relay. */
  predicate Created(posts: map<AskId, ProgressPost>, ask: AskId) {
    ask in posts && posts[ask].prepared.Some?
  }

  /** Turns that are over stay over. */
  ghost predicate OversKept(a: seq<Turn>, b: seq<Turn>) {
    forall ask :: Over(a, ask) ==> Over(b, ask)
  }

  /** The entries after which an ended row may owe no delete though its turn is open. */
  predicate GivesUp(e: Entry) {
    e.PostDropped? || e.FinalRefused?
  }

  ghost predicate NoneGivenUp(a: seq<Entry>, b: seq<Entry>) {
    a <= b && forall i :: |a| <= i < |b| ==> !GivesUp(b[i])
  }

  lemma NoneGivenUpTransitive(a: seq<Entry>, b: seq<Entry>, c: seq<Entry>)
    requires NoneGivenUp(a, b) && NoneGivenUp(b, c)
    ensures NoneGivenUp(a, c)
  {
  }

  /** A post is given up only because its create was refused or rejected. */
  ghost predicate OnlyDrops(a: seq<Entry>, b: seq<Entry>) {
    a <= b && forall i :: |a| <= i < |b| && GivesUp(b[i]) ==> b[i].PostDropped?
  }

  lemma OnlyDropsTransitive(a: seq<Entry>, b: seq<Entry>, c: seq<Entry>)
    requires OnlyDrops(a, b) && OnlyDrops(b, c)
    ensures OnlyDrops(a, c)
  {
  }

  predicate Issues(e: Entry) {
    e.Recorded? || e.PostFixed? || e.EditIssued?
  }

  ghost predicate PostsKept(v: View, w: View) {
    forall ask :: ask in v.posts ==>
      && ask in w.posts && PostEvolves(v.posts[ask], w.posts[ask])
      && (v.posts[ask].deletePending && v.posts[ask].prepared.Some? && !w.posts[ask].deletePending ==>
            DeleteSettled(w.feed, ask, v.posts[ask].prepared.value))
  }

  ghost predicate ProgressEvolves(v: View, w: View) {
    && v.attempts.Keys <= w.attempts.Keys
    && v.sign == w.sign
    && v.feed <= w.feed && v.sent <= w.sent
    && PostsKept(v, w) && OversKept(v.turns, w.turns)
    && (forall ask :: Quiet(v, ask) && Created(w.posts, ask) ==> Created(v.posts, ask))
    && (forall i :: |v.feed| <= i < |w.feed| && Issues(w.feed[i]) ==> !Quiet(v, w.feed[i].ask))
    && (forall i :: |v.sent| <= i < |w.sent| && w.sent[i].purpose.ForProgress? ==> !Quiet(v, w.sent[i].purpose.ask))
  }

  lemma ProgressEvolvesReflexive(v: View)
    ensures ProgressEvolves(v, v)
  {
  }

  lemma ProgressEvolvesTransitive(a: View, b: View, c: View)
    requires ProgressEvolves(a, b) && ProgressEvolves(b, c)
    ensures ProgressEvolves(a, c)
  {
    forall ask | ask in a.posts
      ensures ask in c.posts && PostEvolves(a.posts[ask], c.posts[ask])
      ensures a.posts[ask].deletePending && a.posts[ask].prepared.Some? && !c.posts[ask].deletePending ==>
                DeleteSettled(c.feed, ask, a.posts[ask].prepared.value)
    {
      assert PostEvolves(a.posts[ask], b.posts[ask]) && PostEvolves(b.posts[ask], c.posts[ask]);
      if a.posts[ask].deletePending && a.posts[ask].prepared.Some? && !b.posts[ask].deletePending {
        var i :| 0 <= i < |b.feed| && b.feed[i].DeleteRan? && b.feed[i].ask == ask
                 && b.feed[i].target == a.posts[ask].prepared.value && !b.feed[i].verdict.NotAccepted?;
        assert c.feed[i] == b.feed[i];
      }
    }
    forall ask | Quiet(a, ask) ensures Quiet(b, ask) {
      if ask in a.posts { assert PostEvolves(a.posts[ask], b.posts[ask]); }
    }
    forall ask | Quiet(a, ask) && Created(c.posts, ask) ensures Created(a.posts, ask) {
      assert Quiet(b, ask);
    }
    forall i | |a.feed| <= i < |c.feed| && Issues(c.feed[i]) ensures !Quiet(a, c.feed[i].ask) {
      if i < |b.feed| { assert c.feed[i] == b.feed[i]; }
    }
    forall i | |a.sent| <= i < |c.sent| && c.sent[i].purpose.ForProgress? ensures !Quiet(a, c.sent[i].purpose.ask) {
      if i < |b.sent| { assert c.sent[i] == b.sent[i]; }
    }
  }
}
