/** One lemma for every kind of durable change: it keeps the invariant and only moves rows forward. */
module ProgressSteps {
  import opened Wrappers
  import opened HostStore
  import opened RelayPublisher
  import opened ProgressPolicy
  import opened ProgressRelay
  import opened ProgressTheory

  // ---- how each part of the invariant survives a longer feed ----

  lemma FeedAppend(feed: seq<Entry>, e: Entry, ask: AskId)
    ensures Newest(feed + [e], ask) == (if e.Recorded? && e.ask == ask then Some(e.content) else Newest(feed, ask))
    ensures LastEdit(feed + [e], ask)
            == (if e.EditRan? && e.ask == ask && e.verdict.Accepted? then Some(e.content) else LastEdit(feed, ask))
  {
  }

  lemma FeedGoodAppend(feed: seq<Entry>, e: Entry)
    requires FeedGood(feed) && EntryGood(feed, e)
    ensures FeedGood(feed + [e])
  {
    var after := feed + [e];
    forall i | 0 <= i < |after| ensures EntryGood(after[..i], after[i]) {
      if i < |feed| {
        assert after[..i] == feed[..i];
      } else {
        assert after[..i] == feed;
      }
    }
  }

  lemma FixedAppend(feed: seq<Entry>, e: Entry, ask: AskId, content: string)
    requires FixedIn(feed, ask, content)
    ensures FixedIn(feed + [e], ask, content)
  {
    var i :| 0 <= i < |feed| && feed[i] == PostFixed(ask, content);
    assert (feed + [e])[i] == PostFixed(ask, content);
  }

  /** What explains a row stays an explanation. */
  lemma ExplainedAppend(ask: AskId, p: ProgressPost, turns: seq<Turn>, attempts: map<Key, Attempt>, feed: seq<Entry>, e: Entry)
    requires RowExplained(ask, p, turns, attempts, feed)
    ensures RowExplained(ask, p, turns, attempts, feed + [e])
  {
    if p.prepared.Some? && DeleteSettled(feed, ask, p.prepared.value) { SettledAppend(feed, e, ask, p.prepared.value); }
  }

  lemma SettledAppend(feed: seq<Entry>, e: Entry, ask: AskId, target: EventId)
    requires DeleteSettled(feed, ask, target)
    ensures DeleteSettled(feed + [e], ask, target)
  {
    var i :| 0 <= i < |feed| && feed[i].DeleteRan? && feed[i].ask == ask && feed[i].target == target && !feed[i].verdict.NotAccepted?;
    assert (feed + [e])[i] == feed[i];
  }

  lemma RowsExplainedAppend(posts: map<AskId, ProgressPost>, turns: seq<Turn>, attempts: map<Key, Attempt>, feed: seq<Entry>, e: Entry)
    requires RowsExplained(posts, turns, attempts, feed)
    ensures RowsExplained(posts, turns, attempts, feed + [e])
  {
    hide RowExplained;
    forall ask | ask in posts ensures RowExplained(ask, posts[ask], turns, attempts, feed + [e]) {
      ExplainedAppend(ask, posts[ask], turns, attempts, feed, e);
    }
  }

  /** A row stays good when the entry is not a newer body, or an edit that shows something stale. */
  lemma PostGoodAppend(ask: AskId, p: ProgressPost, turns: seq<Turn>, attempts: map<Key, Attempt>,
                       feed: seq<Entry>, sign: (Payload, int) -> EventId, e: Entry)
    requires PostGood(ask, p, turns, attempts, feed, sign)
    requires e.ask == ask ==> !e.Recorded?
    requires e.EditRan? && e.ask == ask && e.verdict.Accepted? && Settled(p) && Ask(ask) !in attempts ==>
               Newest(feed, ask) == Some(e.content)
    ensures PostGood(ask, p, turns, attempts, feed + [e], sign)
  {
    FeedAppend(feed, e, ask);
    if p.prepared.Some? { FixedAppend(feed, e, ask, p.postBody.value); }
  }

  lemma CommandsAppend(queue: seq<Command>, posts: map<AskId, ProgressPost>, attempts: map<Key, Attempt>, feed: seq<Entry>, e: Entry)
    requires CommandsGood(queue, posts, attempts, feed)
    requires e.EditRan? || e.DeleteRan? ==> forall i :: 0 <= i < |queue| ==> !(queue[i].EditCommand? && queue[i].ask == e.ask)
    ensures CommandsGood(queue, posts, attempts, feed + [e])
  {
  }

  lemma CompletionsAppend(completions: seq<Completion>, posts: map<AskId, ProgressPost>, attempts: map<Key, Attempt>, feed: seq<Entry>, e: Entry)
    requires CompletionsGood(completions, posts, attempts, feed)
    requires e.EditRan? ==> forall i :: 0 <= i < |completions| ==> !(completions[i].EditDone? && completions[i].ask == e.ask)
    ensures CompletionsGood(completions, posts, attempts, feed + [e])
  {
  }

  // ---- how each part survives a changed row ----

  predicate EditQueued(queue: seq<Command>, ask: AskId) {
    exists i :: 0 <= i < |queue| && queue[i].EditCommand? && queue[i].ask == ask
  }

  predicate EditReported(completions: seq<Completion>, ask: AskId) {
    exists i :: 0 <= i < |completions| && completions[i].EditDone? && completions[i].ask == ask
  }

  /** What a row must keep while an edit of it is in flight. */
  predicate KeepsFlight(p: ProgressPost, q: ProgressPost, final: bool) {
    && q.editCount == p.editCount && q.lastSendAt == p.lastSendAt
    && (q.pending.Some? || q.pending == p.pending || q.ended || final)
  }

  lemma CommandsUpdate(queue: seq<Command>, posts: map<AskId, ProgressPost>, attempts: map<Key, Attempt>, feed: seq<Entry>,
                       ask: AskId, q: ProgressPost)
    requires CommandsGood(queue, posts, attempts, feed)
    requires ask in posts ==> PostEvolves(posts[ask], q)
    requires ask in posts && EditQueued(queue, ask) ==> KeepsFlight(posts[ask], q, Ask(ask) in attempts)
    ensures CommandsGood(queue, posts[ask := q], attempts, feed)
  {
  }

  lemma CompletionsUpdate(completions: seq<Completion>, posts: map<AskId, ProgressPost>, attempts: map<Key, Attempt>, feed: seq<Entry>,
                          ask: AskId, q: ProgressPost)
    requires CompletionsGood(completions, posts, attempts, feed)
    requires ask in posts ==> PostEvolves(posts[ask], q)
    requires ask in posts && EditReported(completions, ask) ==> KeepsFlight(posts[ask], q, Ask(ask) in attempts)
    ensures CompletionsGood(completions, posts[ask := q], attempts, feed)
  {
  }

  lemma BackingUpdate(feed: seq<Entry>, sent: seq<Send>, posts: map<AskId, ProgressPost>, ask: AskId, q: ProgressPost)
    requires EntriesBacked(feed, posts) && CreatesBacked(sent, posts)
    requires ask in posts ==> PostEvolves(posts[ask], q)
    ensures EntriesBacked(feed, posts[ask := q]) && CreatesBacked(sent, posts[ask := q])
  {
  }

  ghost predicate DeletesOnlySettled(feed: seq<Entry>, ask: AskId, p: ProgressPost, q: ProgressPost) {
    p.deletePending && p.prepared.Some? && !q.deletePending ==> DeleteSettled(feed, ask, p.prepared.value)
  }

  lemma PostsKeptUpdate(v: View, w: View, ask: AskId, q: ProgressPost)
    requires w.posts == v.posts[ask := q]
    requires ask in v.posts ==> PostEvolves(v.posts[ask], q) && DeletesOnlySettled(w.feed, ask, v.posts[ask], q)
    ensures PostsKept(v, w)
  {
  }

  // ---- the steps ----

  ghost predicate AnswersKept(a: map<Key, Attempt>, b: map<Key, Attempt>) {
    forall ask :: Answered(a, ask) ==> Answered(b, ask)
  }

  /** Turns, attempts and other sends may move forward underneath the posts. */
  lemma OutsideStep(v: View, w: View)
    requires ProgressGood(v)
    requires w == v.(turns := w.turns, attempts := w.attempts, sent := w.sent)
    requires TurnsGood(w.turns) && TurnsEvolve(v.turns, w.turns) && v.attempts.Keys <= w.attempts.Keys
    requires AnswersKept(v.attempts, w.attempts)
    requires v.sent <= w.sent && forall i :: |v.sent| <= i < |w.sent| ==> w.sent[i].purpose.ForAttempt?
    ensures ProgressGood(w) && ProgressEvolves(v, w)
  {
    hide PostGood, CommandGood, CompletionGood, FeedGood, EntriesBacked, FlightsApart, RowExplained;
    forall ask | ask in v.posts ensures RowExplained(ask, w.posts[ask], w.turns, w.attempts, w.feed) {
      ExplainedOutside(v, w, ask);
    }
    forall ask | ask in v.posts ensures PostGood(ask, w.posts[ask], w.turns, w.attempts, w.feed, w.sign) {
      PostOutside(v, w, ask);
    }
    forall i | 0 <= i < |w.sent| ensures CreateBacked(w.sent[i], w.posts) {
      if i < |v.sent| { assert CreateBacked(v.sent[i], v.posts); }
    }
    FlightsOutside(v, w);
  }

  lemma ExplainedOutside(v: View, w: View, ask: AskId)
    requires RowsExplained(v.posts, v.turns, v.attempts, v.feed) && ask in v.posts
    requires w == v.(turns := w.turns, attempts := w.attempts, sent := w.sent)
    requires TurnsGood(v.turns) && TurnsGood(w.turns) && TurnsEvolve(v.turns, w.turns) && AnswersKept(v.attempts, w.attempts)
    ensures RowExplained(ask, w.posts[ask], w.turns, w.attempts, w.feed)
  {
    assert RowExplained(ask, v.posts[ask], v.turns, v.attempts, v.feed);
    if Over(v.turns, ask) { OfAskStable(v.turns, w.turns, ask); }
  }

  lemma PostOutside(v: View, w: View, ask: AskId)
    requires PostsGood(v.posts, v.turns, v.attempts, v.feed, v.sign) && ask in v.posts
    requires w == v.(turns := w.turns, attempts := w.attempts, sent := w.sent)
    requires TurnsGood(v.turns) && TurnsGood(w.turns) && TurnsEvolve(v.turns, w.turns) && v.attempts.Keys <= w.attempts.Keys
    ensures PostGood(ask, w.posts[ask], w.turns, w.attempts, w.feed, w.sign)
  {
    assert PostGood(ask, v.posts[ask], v.turns, v.attempts, v.feed, v.sign);
    OfAskStable(v.turns, w.turns, ask);
  }

  lemma FlightsOutside(v: View, w: View)
    requires CommandsGood(v.queue, v.posts, v.attempts, v.feed) && CompletionsGood(v.completions, v.posts, v.attempts, v.feed)
    requires v.attempts.Keys <= w.attempts.Keys
    ensures CommandsGood(v.queue, v.posts, w.attempts, v.feed) && CompletionsGood(v.completions, v.posts, w.attempts, v.feed)
  {
  }

  /** An entry other than a recorded body joins the feed. */
  lemma FeedStep(v: View, e: Entry)
    requires ProgressGood(v) && !e.Recorded?
    requires EntryGood(v.feed, e) && EntryBacked(e, v.posts)
    requires Issues(e) ==> !Quiet(v, e.ask)
    requires e.EditRan? || e.DeleteRan? ==> !EditQueued(v.queue, e.ask)
    requires e.EditRan? ==>
               && !EditReported(v.completions, e.ask)
               && (e.verdict.Accepted? && Settled(v.posts[e.ask]) && Ask(e.ask) !in v.attempts ==>
                     Newest(v.feed, e.ask) == Some(e.content))
    ensures ProgressGood(v.(feed := v.feed + [e])) && ProgressEvolves(v, v.(feed := v.feed + [e]))
  {
    hide PostGood, CommandGood, CompletionGood, EntryGood, EntryBacked, CreateBacked, RowsExplained;
    FeedGoodAppend(v.feed, e);
    RowsExplainedAppend(v.posts, v.turns, v.attempts, v.feed, e);
    forall ask | ask in v.posts ensures PostGood(ask, v.posts[ask], v.turns, v.attempts, v.feed + [e], v.sign) {
      PostGoodAppend(ask, v.posts[ask], v.turns, v.attempts, v.feed, v.sign, e);
    }
    CommandsAppend(v.queue, v.posts, v.attempts, v.feed, e);
    CompletionsAppend(v.completions, v.posts, v.attempts, v.feed, e);
  }

  /** One row changes and nothing is recorded. */
  lemma PostStep(v: View, ask: AskId, q: ProgressPost)
    requires ProgressGood(v) && PostGood(ask, q, v.turns, v.attempts, v.feed, v.sign)
    requires RowExplained(ask, q, v.turns, v.attempts, v.feed)
    requires q.prepared.Some? ==> Created(v.posts, ask)
    requires ask in v.posts ==>
               && PostEvolves(v.posts[ask], q)
               && DeletesOnlySettled(v.feed, ask, v.posts[ask], q)
               && (EditQueued(v.queue, ask) || EditReported(v.completions, ask) ==> KeepsFlight(v.posts[ask], q, Ask(ask) in v.attempts))
    ensures ProgressGood(v.(posts := v.posts[ask := q])) && ProgressEvolves(v, v.(posts := v.posts[ask := q]))
  {
    hide PostGood, RowExplained, CommandGood, CompletionGood, EntryBacked, CreateBacked, FlightsApart, FeedGood, PostEvolves, KeepsFlight,
         DeletesOnlySettled, EditQueued, EditReported;
    BackingUpdate(v.feed, v.sent, v.posts, ask, q);
    CommandsUpdate(v.queue, v.posts, v.attempts, v.feed, ask, q);
    CompletionsUpdate(v.completions, v.posts, v.attempts, v.feed, ask, q);
    PostsKeptUpdate(v, v.(posts := v.posts[ask := q]), ask, q);
  }

  /** One row changes together with its entry in the feed. */
  lemma FeedPostStep(v: View, ask: AskId, q: ProgressPost, e: Entry)
    requires ProgressGood(v) && e.ask == ask && (e.Recorded? || e.PostFixed? || e.PostLive? || e.PostDropped?) && !Quiet(v, ask)
    requires EntryGood(v.feed, e) && EntryBacked(e, v.posts[ask := q])
    requires RowExplained(ask, q, v.turns, v.attempts, v.feed + [e])
    requires PostGood(ask, q, v.turns, v.attempts, v.feed + [e], v.sign)
    requires ask in v.posts ==>
               && PostEvolves(v.posts[ask], q) && v.posts[ask].deletePending == q.deletePending
               && (EditQueued(v.queue, ask) || EditReported(v.completions, ask) ==> KeepsFlight(v.posts[ask], q, Ask(ask) in v.attempts))
    ensures var w := v.(posts := v.posts[ask := q], feed := v.feed + [e]);
            ProgressGood(w) && ProgressEvolves(v, w)
  {
    hide PostGood, CommandGood, CompletionGood, EntryGood, CreateBacked, FlightsApart, PostEvolves, KeepsFlight, RowExplained;
    FeedGoodAppend(v.feed, e);
    RowsExplainedAppend(v.posts, v.turns, v.attempts, v.feed, e);
    forall a | a in v.posts && a != ask ensures PostGood(a, v.posts[a], v.turns, v.attempts, v.feed + [e], v.sign) {
      PostGoodAppend(a, v.posts[a], v.turns, v.attempts, v.feed, v.sign, e);
    }
    BackingUpdate(v.feed, v.sent, v.posts, ask, q);
    CommandsAppend(v.queue, v.posts, v.attempts, v.feed, e);
    CompletionsAppend(v.completions, v.posts, v.attempts, v.feed, e);
    CommandsUpdate(v.queue, v.posts, v.attempts, v.feed + [e], ask, q);
    CompletionsUpdate(v.completions, v.posts, v.attempts, v.feed + [e], ask, q);
    PostsKeptUpdate(v, v.(posts := v.posts[ask := q], feed := v.feed + [e]), ask, q);
  }

  /** A body becomes the pending body, and with it the newest of the feed. */
  lemma RecordStep(v: View, ask: AskId, q: ProgressPost)
    requires ProgressGood(v) && OfAsk(v.turns, ask).Some? && q.pending.Some?
    requires !Quiet(v, ask)
    requires ask in v.posts ==>
               && q == v.posts[ask].(pending := q.pending)
               && (q.postEvent.Some? ==> q.editCount < EDIT_CAP)
    requires ask !in v.posts ==>
               && q.postBody.None? && q.prepared.None? && q.createdAt.None? && q.postEvent.None? && q.editCount == 0
               && !q.ended && !q.deletePending
    ensures var w := v.(posts := v.posts[ask := q], feed := v.feed + [Recorded(ask, StampFor(v.turns, ask, q.pending.value))]);
            ProgressGood(w) && ProgressEvolves(v, w)
  {
    var e := Recorded(ask, StampFor(v.turns, ask, q.pending.value));
    RecordedRow(v, ask, q);
    RecordedExplained(v, ask, q, e);
    FeedPostStep(v, ask, q, e);
  }

  lemma RecordedExplained(v: View, ask: AskId, q: ProgressPost, e: Entry)
    requires ProgressGood(v) && !q.ended
    requires if ask in v.posts then q.postEvent == v.posts[ask].postEvent && q.lastSendAt == v.posts[ask].lastSendAt && q.editCount == v.posts[ask].editCount
             else q.postEvent.None?
    ensures RowExplained(ask, q, v.turns, v.attempts, v.feed + [e])
  {
    hide ProgressGood;
    if ask in v.posts {
      StoredPostGood(v, ask);
      ExplainedAppend(ask, v.posts[ask], v.turns, v.attempts, v.feed, e);
    }
  }

  lemma RecordedRow(v: View, ask: AskId, q: ProgressPost)
    requires PostsGood(v.posts, v.turns, v.attempts, v.feed, v.sign) && OfAsk(v.turns, ask).Some? && q.pending.Some? && !Quiet(v, ask)
    requires ask in v.posts ==> q == v.posts[ask].(pending := q.pending) && (q.postEvent.Some? ==> q.editCount < EDIT_CAP)
    requires ask !in v.posts ==>
               && q.postBody.None? && q.prepared.None? && q.createdAt.None? && q.postEvent.None? && q.editCount == 0
               && !q.ended && !q.deletePending
    ensures PostGood(ask, q, v.turns, v.attempts, v.feed + [Recorded(ask, StampFor(v.turns, ask, q.pending.value))], v.sign)
  {
    var e := Recorded(ask, StampFor(v.turns, ask, q.pending.value));
    FeedAppend(v.feed, e, ask);
    if ask in v.posts {
      assert PostGood(ask, v.posts[ask], v.turns, v.attempts, v.feed, v.sign);
      if q.prepared.Some? { FixedAppend(v.feed, e, ask, q.postBody.value); }
    }
  }

  /** Fewer operations in flight, as after a drain, an applied completion or a crash. */
  lemma ForgetStep(v: View, queue: seq<Command>, completions: seq<Completion>, active: set<Operation>)
    requires ProgressGood(v)
    requires queue == v.queue || queue == [] || (v.queue != [] && queue == v.queue[1..])
    requires completions == v.completions || completions == [] || (v.completions != [] && completions == v.completions[1..])
    requires forall i :: 0 <= i < |queue| ==> OpOf(queue[i]) in active
    requires forall i :: 0 <= i < |completions| ==> OpDone(completions[i]) in active
    ensures var w := v.(queue := queue, completions := completions, active := active);
            ProgressGood(w) && ProgressEvolves(v, w)
  {
    ForgetApart(v.queue, v.completions, v.active, queue, completions, active);
    CommandsTail(v.queue, queue, v.posts, v.attempts, v.feed);
    CompletionsTail(v.completions, completions, v.posts, v.attempts, v.feed);
  }

  lemma CommandsTail(q0: seq<Command>, queue: seq<Command>, posts: map<AskId, ProgressPost>, attempts: map<Key, Attempt>, feed: seq<Entry>)
    requires CommandsGood(q0, posts, attempts, feed)
    requires queue == q0 || queue == [] || (q0 != [] && queue == q0[1..])
    ensures CommandsGood(queue, posts, attempts, feed)
  {
  }

  lemma CompletionsTail(c0: seq<Completion>, completions: seq<Completion>, posts: map<AskId, ProgressPost>, attempts: map<Key, Attempt>, feed: seq<Entry>)
    requires CompletionsGood(c0, posts, attempts, feed)
    requires completions == c0 || completions == [] || (c0 != [] && completions == c0[1..])
    ensures CompletionsGood(completions, posts, attempts, feed)
  {
  }

  lemma ForgetApart(q0: seq<Command>, c0: seq<Completion>, a0: set<Operation>,
                    queue: seq<Command>, completions: seq<Completion>, active: set<Operation>)
    requires FlightsApart(q0, c0, a0)
    requires queue == q0 || queue == [] || (q0 != [] && queue == q0[1..])
    requires completions == c0 || completions == [] || (c0 != [] && completions == c0[1..])
    requires forall i :: 0 <= i < |queue| ==> OpOf(queue[i]) in active
    requires forall i :: 0 <= i < |completions| ==> OpDone(completions[i]) in active
    ensures FlightsApart(queue, completions, active)
  {
  }

  /** A command joins the queue. */
  lemma EnqueueCommand(v: View, c: Command)
    requires ProgressGood(v) && OpOf(c) !in v.active
    requires CommandGood(c, v.posts, v.attempts, v.feed)
    requires c.EditCommand? ==> !v.posts[c.ask].ended
    ensures var w := v.(queue := v.queue + [c], active := v.active + {OpOf(c)});
            ProgressGood(w) && ProgressEvolves(v, w)
  {
    hide PostGood, CompletionGood, EntryGood, EntryBacked, CreateBacked, FlightsApart;
    forall i | 0 <= i < |v.queue| && v.queue[i].DeleteCommand? && c.EditCommand? ensures v.queue[i].ask != c.ask {
      assert CommandGood(v.queue[i], v.posts, v.attempts, v.feed);
    }
    EnqueueApart(v.queue, v.completions, v.active, c);
  }

  lemma EnqueueApart(queue: seq<Command>, completions: seq<Completion>, active: set<Operation>, c: Command)
    requires FlightsApart(queue, completions, active) && OpOf(c) !in active
    requires c.EditCommand? ==> forall i :: 0 <= i < |queue| && queue[i].DeleteCommand? ==> queue[i].ask != c.ask
    ensures FlightsApart(queue + [c], completions, active + {OpOf(c)})
  {
  }

  /** The background worker runs the oldest command. */
  lemma WorkerLemma(v: View, verdict: Verdict, now: int)
    requires ProgressGood(v) && v.queue != []
    ensures var c := v.queue[0];
            var w := v.(queue := v.queue[1..], feed := v.feed + [Ran(c, verdict)],
                        completions := v.completions + [Completed(c, verdict, now, |v.feed|)]);
            ProgressGood(w) && ProgressEvolves(v, w)
  {
    var c := v.queue[0];
    var e := Ran(c, verdict);
    var done := Completed(c, verdict, now, |v.feed|);
    var popped := v.(queue := v.queue[1..]);
    var ran := popped.(feed := v.feed + [e]);
    WorkerAlone(v.queue, v.completions, v.active);
    ForgetStep(v, v.queue[1..], v.completions, v.active);
    RunnableCommand(v, verdict);
    FeedStep(popped, e);
    ReportApart(v.queue, v.completions, v.active, done);
    CommandReported(v, verdict, now);
    ReportStep(ran, done);
    ProgressEvolvesTransitive(v, popped, ran);
    ProgressEvolvesTransitive(v, ran, ran.(completions := v.completions + [done]));
  }

  lemma RunnableCommand(v: View, verdict: Verdict)
    requires ProgressGood(v) && v.queue != []
    ensures var e := Ran(v.queue[0], verdict);
            && EntryGood(v.feed, e) && EntryBacked(e, v.posts)
            && (e.EditRan? && Settled(v.posts[e.ask]) && Ask(e.ask) !in v.attempts ==> Newest(v.feed, e.ask) == Some(e.content))
  {
    assert CommandGood(v.queue[0], v.posts, v.attempts, v.feed);
  }

  lemma CommandReported(v: View, verdict: Verdict, now: int)
    requires CommandsGood(v.queue, v.posts, v.attempts, v.feed) && v.queue != []
    ensures CompletionGood(Completed(v.queue[0], verdict, now, |v.feed|), v.posts, v.attempts, v.feed + [Ran(v.queue[0], verdict)])
  {
  }

  lemma ReportStep(v: View, done: Completion)
    requires ProgressGood(v) && CompletionGood(done, v.posts, v.attempts, v.feed)
    requires FlightsApart(v.queue, v.completions + [done], v.active)
    ensures var w := v.(completions := v.completions + [done]); ProgressGood(w) && ProgressEvolves(v, w)
  {
  }

  /** The oldest command's operation is nowhere else in flight. */
  lemma WorkerAlone(queue: seq<Command>, completions: seq<Completion>, active: set<Operation>)
    requires FlightsApart(queue, completions, active) && queue != []
    ensures !EditQueued(queue[1..], queue[0].ask)
    ensures queue[0].EditCommand? ==> !EditReported(completions, queue[0].ask)
    ensures forall i :: 0 <= i < |queue[1..]| ==> OpOf(queue[1..][i]) in active
  {
  }

  lemma ReportApart(queue: seq<Command>, completions: seq<Completion>, active: set<Operation>, done: Completion)
    requires FlightsApart(queue, completions, active) && queue != [] && OpDone(done) == OpOf(queue[0])
    ensures FlightsApart(queue[1..], completions + [done], active)
  {
  }

  /** A create is sent. */
  lemma CreateStep(v: View, e: Send)
    requires ProgressGood(v) && e.purpose.ForProgress? && CreateBacked(e, v.posts) && !Quiet(v, e.purpose.ask)
    ensures ProgressGood(v.(sent := v.sent + [e])) && ProgressEvolves(v, v.(sent := v.sent + [e]))
  {
  }

  // ---- what the feed says about one row ----

  lemma {:induction false} NoEditsYet(feed: seq<Entry>, posts: map<AskId, ProgressPost>, ask: AskId)
    requires EntriesBacked(feed, posts) && ask in posts && posts[ask].postEvent.None?
    ensures LastEdit(feed, ask).None?
  {
    if feed != [] {
      var shorter := feed[..|feed| - 1];
      assert EntryBacked(feed[|feed| - 1], posts);
      forall i | 0 <= i < |shorter| ensures EntryBacked(shorter[i], posts) {
        assert EntryBacked(feed[i], posts);
      }
      NoEditsYet(shorter, posts, ask);
    }
  }

  lemma {:induction false} LastEditAt(feed: seq<Entry>, ask: AskId, ran: nat)
    requires ran < |feed| && feed[ran].EditRan? && feed[ran].ask == ask && feed[ran].verdict.Accepted?
    requires LastRan(feed, ask, ran)
    ensures LastEdit(feed, ask) == Some(feed[ran].content)
  {
    if ran < |feed| - 1 {
      LastEditAt(feed[..|feed| - 1], ask, ran);
    }
  }

  /** An edit issued now is ahead of everything of its ask that ran. */
  lemma IssuedAhead(feed: seq<Entry>, posts: map<AskId, ProgressPost>, ask: AskId, e: Entry)
    requires FeedGood(feed) && EntriesBacked(feed, posts) && ask in posts && !posts[ask].ended
    requires e.EditIssued?
    ensures AheadOf(feed, ask, |feed|) && AheadOf(feed + [e], ask, |feed|)
  {
    forall i | 0 <= i < |feed| && feed[i].EditRan? && feed[i].ask == ask ensures feed[i].issue < |feed| {
      assert EntryGood(feed[..i], feed[i]);
    }
    forall i | 0 <= i < |feed| && feed[i].DeleteRan? ensures feed[i].ask != ask {
      assert EntryBacked(feed[i], posts);
    }
  }

  /** What an edit needs of the row it edits. */
  predicate Editable(v: View, ask: AskId, target: EventId, content: string, now: int) {
    && ask in v.posts && var p := v.posts[ask];
    && !Quiet(v, ask) && p.pending.Some? && p.postEvent == Some(target) && p.editCount < EDIT_CAP
    && p.lastSendAt.Some? && now >= p.lastSendAt.value + EDIT_INTERVAL_SECS
    && Newest(v.feed, ask) == Some(content)
  }

  /** The host hands an edit to the background worker. */
  lemma IssueStep(v: View, ask: AskId, target: EventId, content: string, now: int)
    requires ProgressGood(v) && Editable(v, ask, target, content, now) && EditOf(ask) !in v.active
    ensures var w := v.(feed := v.feed + [EditIssued(ask, target, content)],
                        queue := v.queue + [EditCommand(ask, target, content, now, |v.feed|)],
                        active := v.active + {EditOf(ask)});
            ProgressGood(w) && ProgressEvolves(v, w)
  {
    hide ProgressEvolves, PostsGood, EntryGood;
    var e := EditIssued(ask, target, content);
    var issued := v.(feed := v.feed + [e]);
    IssuedEntryGood(v, ask, e);
    FeedStep(v, e);
    IssuedAhead(v.feed, v.posts, ask, e);
    EnqueueCommand(issued, EditCommand(ask, target, content, now, |v.feed|));
    ProgressEvolvesTransitive(v, issued, issued.(queue := v.queue + [EditCommand(ask, target, content, now, |v.feed|)],
                                                 active := v.active + {EditOf(ask)}));
  }

  lemma IssuedEntryGood(v: View, ask: AskId, e: Entry)
    requires PostsGood(v.posts, v.turns, v.attempts, v.feed, v.sign) && ask in v.posts && v.posts[ask].postEvent.Some?
    requires e.EditIssued? && e.ask == ask && Newest(v.feed, ask) == Some(e.content)
    ensures EntryGood(v.feed, e)
  {
  }

  /** An edit sent before the relay call returns. */
  lemma DirectEditStep(v: View, ask: AskId, target: EventId, content: string, now: int, verdict: Verdict)
    requires ProgressGood(v) && Editable(v, ask, target, content, now) && v.queue == [] && v.completions == []
    ensures var w := v.(feed := v.feed + [EditIssued(ask, target, content)] + [EditRan(ask, target, content, |v.feed|, verdict)]);
            ProgressGood(w) && ProgressEvolves(v, w)
  {
    hide ProgressEvolves, PostsGood, EntryGood;
    var e := EditIssued(ask, target, content);
    var issued := v.(feed := v.feed + [e]);
    IssuedEntryGood(v, ask, e);
    FeedStep(v, e);
    IssuedAhead(v.feed, v.posts, ask, e);
    FeedAppend(v.feed, e, ask);
    var ran := EditRan(ask, target, content, |v.feed|, verdict);
    RanGood(issued.feed, ran);
    FeedStep(issued, ran);
    ProgressEvolvesTransitive(v, issued, issued.(feed := issued.feed + [ran]));
  }

  lemma RanGood(feed: seq<Entry>, ran: Entry)
    requires ran.EditRan? && ran.issue < |feed| && feed[ran.issue] == EditIssued(ran.ask, ran.target, ran.content)
    requires AheadOf(feed, ran.ask, ran.issue)
    ensures EntryGood(feed, ran)
  {
  }

  /** The create is fixed: its content and id are stored together, before anything is sent. */
  lemma FixStep(v: View, ask: AskId, q: ProgressPost)
    requires ProgressGood(v) && ask in v.posts && !Quiet(v, ask)
    requires var p := v.posts[ask];
             && p.pending.Some? && p.prepared.None? && p.postBody.None?
             && q.prepared.Some? && q.createdAt.Some? && q.postBody == Some(StampFor(v.turns, ask, p.pending.value))
             && q == p.(pending := None, postBody := q.postBody, prepared := q.prepared, createdAt := q.createdAt)
             && q.prepared.value == v.sign(CreatePayload(q), q.createdAt.value)
    ensures var w := v.(feed := v.feed + [PostFixed(ask, q.postBody.value)], posts := v.posts[ask := q]);
            ProgressGood(w) && ProgressEvolves(v, w)
  {
    hide ProgressEvolves, EntryGood, PostsGood, CommandsGood, CompletionsGood;
    var e := PostFixed(ask, q.postBody.value);
    StoredPostGood(v, ask);
    FixedEntryGood(v, ask, e);
    FeedAppend(v.feed, e, ask);
    assert (v.feed + [e])[|v.feed|] == e;
    NoEditsYet(v.feed, v.posts, ask);
    Unposted(v, ask);
    RecordedExplained(v, ask, q, e);
    FeedPostStep(v, ask, q, e);
  }

  lemma FixedEntryGood(v: View, ask: AskId, e: Entry)
    requires EntriesBacked(v.feed, v.posts) && ask in v.posts && v.posts[ask].prepared.None?
    requires e.PostFixed? && e.ask == ask && Newest(v.feed, ask) == Some(e.content)
    ensures EntryGood(v.feed, e)
  {
  }

  /** A post that does not exist yet has no edit in flight. */
  lemma Unposted(v: View, ask: AskId)
    requires CommandsGood(v.queue, v.posts, v.attempts, v.feed) && CompletionsGood(v.completions, v.posts, v.attempts, v.feed)
    requires ask in v.posts && v.posts[ask].postEvent.None?
    ensures !EditQueued(v.queue, ask) && !EditReported(v.completions, ask)
  {
  }
}
