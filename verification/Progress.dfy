/**
 Progress posts: recording a body, and on the tick creating, editing and deleting the one
 post of an ask.

 Each method reports false when a write failed; the store is then as a crash would leave
 it, and every contract holds of that state too.
 */
module Progress {
  import opened Wrappers
  import opened Stamping
  import opened HostStore
  import opened RelayPublisher
  import opened ProgressPolicy
  import opened ProgressRelay
  import opened ProgressTheory
  import opened ProgressSteps

  ghost function ViewOf(repo: Repository, publisher: Publisher, relay: Relay): View
    reads repo, publisher, relay
  {
    View(repo.turns, repo.attempts, repo.posts, publisher.sent, relay.feed, relay.queue, relay.completions, relay.active, publisher.sign)
  }

  /** A relay that sends before it returns has nothing in flight. */
  ghost predicate Coherent(repo: Repository, publisher: Publisher, relay: Relay)
    reads repo, publisher, relay
  {
    ProgressGood(ViewOf(repo, publisher, relay)) && (!relay.background ==> relay.queue == [] && relay.completions == [])
  }

  /** `turn` is the stored row of `ask`. */
  predicate Current(turns: seq<Turn>, ask: AskId, turn: Turn) {
    OfAsk(turns, ask).Some? && turns[OfAsk(turns, ask).value] == turn
  }

  // ---- small pure parts ----

  function NewProgressPost(turn: Turn, indexed: map<EventId, IndexedEvent>, now: int): ProgressPost
    requires turn.publishReplyTo.Some?
  {
    ProgressPost(turn.session.channel, turn.publishReplyTo.value, RootOf(indexed, turn.publishReplyTo.value),
                 turn.openedAt.GetOr(now), None, None, None, None, None, 0, None, false, false, None, false)
  }

  predicate AtCap(p: ProgressPost) {
    p.postEvent.Some? && p.editCount >= EDIT_CAP
  }

  function DroppedAtCap(p: ProgressPost): ProgressPost {
    if AtCap(p) then p.(pending := None, capNoticed := true) else p
  }

  /** At most one operator notice per interval. */
  predicate NoticeDue(p: ProgressPost, now: int) {
    p.retryNoticedAt.None? || SaturatingSub(now, p.retryNoticedAt.value) >= EDIT_INTERVAL_SECS
  }

  /** The event a delete must name, if a create may have landed. */
  function DeleteTarget(p: ProgressPost): Option<EventId> {
    Coalesce(p.postEvent, p.prepared)
  }

  // ---- one write ----

  method SavePost(repo: Repository, ghost publisher: Publisher, ghost relay: Relay, ask: AskId, q: ProgressPost)
    returns (ok: bool)
    requires Coherent(repo, publisher, relay)
    requires PostGood(ask, q, repo.turns, repo.attempts, relay.feed, publisher.sign)
    requires RowExplained(ask, q, repo.turns, repo.attempts, relay.feed)
    requires ask in repo.posts &&
               var p := repo.posts[ask];
               && PostEvolves(p, q) && q.prepared == p.prepared && MergedPost(Some(p), q) == q && DeletesOnlySettled(relay.feed, ask, p, q)
               && (EditQueued(relay.queue, ask) || EditReported(relay.completions, ask) ==> KeepsFlight(p, q, Ask(ask) in repo.attempts))
    modifies repo`posts, repo`failures
    ensures old(repo.failures) + Misses(ok) <= repo.failures
    ensures Coherent(repo, publisher, relay)
    ensures ProgressEvolves(old(ViewOf(repo, publisher, relay)), ViewOf(repo, publisher, relay))
    ensures repo.posts == old(repo.posts)[ask := q] || (!ok && repo.posts == old(repo.posts))
  {
    hide ProgressGood, ProgressEvolves, PostGood, PostEvolves, RowExplained;
    ghost var v := ViewOf(repo, publisher, relay);
    PostStep(v, ask, q);
    ProgressEvolvesReflexive(v);
    ok := repo.SaveProgressPost(ask, q);
    assert ViewOf(repo, publisher, relay) == v || ViewOf(repo, publisher, relay) == v.(posts := v.posts[ask := q]);
  }

  // ---- recording a body ----

  /** Whether a delivered body becomes the pending body. */
  predicate Records(turn: Turn, ask: AskId, body: string, attempts: map<Key, Attempt>, posts: map<AskId, ProgressPost>) {
    && turn.state.Open? && turn.publishReplyTo.Some? && Ask(ask) !in attempts && Capped(body).Some?
    && (ask in posts ==> !posts[ask].ended && !AtCap(posts[ask]))
  }

  /** The row a body is recorded in: the stored one, or a new one for the open turn. */
  function Recording(posts: map<AskId, ProgressPost>, ask: AskId, turn: Turn, indexed: map<EventId, IndexedEvent>, now: int): ProgressPost
    requires turn.publishReplyTo.Some?
  {
    if ask in posts then posts[ask] else NewProgressPost(turn, indexed, now)
  }

  method RecordProgress(repo: Repository, ghost publisher: Publisher, relay: Relay, turn: Turn, ask: AskId, body: string, now: int)
    returns (ok: bool)
    requires Coherent(repo, publisher, relay) && Current(repo.turns, ask, turn)
    modifies repo`posts, relay`feed, repo`failures
    ensures old(repo.failures) + Misses(ok) <= repo.failures
    ensures Coherent(repo, publisher, relay)
    ensures ProgressEvolves(old(ViewOf(repo, publisher, relay)), ViewOf(repo, publisher, relay))
    ensures NoneGivenUp(old(relay.feed), relay.feed)
    ensures Records(turn, ask, body, repo.attempts, old(repo.posts)) ==>
              || (&& repo.posts == old(repo.posts)[ask := Recording(old(repo.posts), ask, turn, repo.indexed, now).(pending := Capped(body))]
                  && Newest(relay.feed, ask) == Some(StampFor(repo.turns, ask, Capped(body).value)))
              || (!ok && repo.posts == old(repo.posts) && relay.feed == old(relay.feed))
    ensures !Records(turn, ask, body, repo.attempts, old(repo.posts)) ==>
              && relay.feed == old(relay.feed)
              && (repo.posts == old(repo.posts)
                  || (ask in old(repo.posts) && repo.posts == old(repo.posts)[ask := DroppedAtCap(old(repo.posts[ask]))]))
  {
    hide ProgressGood, ProgressEvolves, Capped, StampFor;
    ProgressEvolvesReflexive(ViewOf(repo, publisher, relay));
    if !turn.state.Open? || turn.publishReplyTo.None? || Ask(ask) in repo.attempts {
      return true;
    }
    var capped := CapProgressBody(body);
    if capped.None? {
      return true;
    }
    var post := Recording(repo.posts, ask, turn, repo.indexed, now);
    if post.ended {
      return true;
    }
    if AtCap(post) {
      StoredPostGood(ViewOf(repo, publisher, relay), ask);
      ok := SavePost(repo, publisher, relay, ask, DroppedAtCap(post));
      return;
    }
    ok := SavePending(repo, publisher, relay, ask, post.(pending := capped));
  }

  /** The row and, specification only, its entry in the feed are written together. */
  method SavePending(repo: Repository, ghost publisher: Publisher, relay: Relay, ask: AskId, q: ProgressPost)
    returns (ok: bool)
    requires Coherent(repo, publisher, relay) && OfAsk(repo.turns, ask).Some? && q.pending.Some?
    requires !Quiet(ViewOf(repo, publisher, relay), ask)
    requires ask in repo.posts ==> q == repo.posts[ask].(pending := q.pending) && !AtCap(q)
    requires ask !in repo.posts ==>
               && q.postBody.None? && q.prepared.None? && q.createdAt.None? && q.postEvent.None? && q.editCount == 0
               && !q.ended && !q.deletePending
    modifies repo`posts, relay`feed, repo`failures
    ensures old(repo.failures) + Misses(ok) <= repo.failures
    ensures Coherent(repo, publisher, relay)
    ensures ProgressEvolves(old(ViewOf(repo, publisher, relay)), ViewOf(repo, publisher, relay))
    ensures NoneGivenUp(old(relay.feed), relay.feed)
    ensures || (&& repo.posts == old(repo.posts)[ask := q]
                && Newest(relay.feed, ask) == Some(StampFor(repo.turns, ask, q.pending.value)))
            || (!ok && repo.posts == old(repo.posts) && relay.feed == old(relay.feed))
  {
    hide ProgressGood, ProgressEvolves;
    ghost var v := ViewOf(repo, publisher, relay);
    var entry := Recorded(ask, StampFor(repo.turns, ask, q.pending.value));
    RecordStep(v, ask, q);
    ProgressEvolvesReflexive(v);
    FeedAppend(v.feed, entry, ask);
    var before := repo.posts;
    ok := repo.SaveProgressPost(ask, q);
    if repo.posts == before[ask := q] {
      relay.Note(entry);
      assert ViewOf(repo, publisher, relay) == v.(posts := v.posts[ask := q], feed := v.feed + [entry]);
    } else {
      assert ViewOf(repo, publisher, relay) == v;
    }
  }

  // ---- the end of a post ----

  /** A final was accepted or refused: drop what was pending and keep the post. */
  method DiscardPending(repo: Repository, ghost publisher: Publisher, ghost relay: Relay, ask: AskId) returns (ok: bool)
    requires Coherent(repo, publisher, relay)
    requires ask in repo.posts ==> Answered(repo.attempts, ask) || FinalRefused(ask) in relay.feed
    modifies repo`posts, repo`failures
    ensures old(repo.failures) + Misses(ok) <= repo.failures
    ensures Coherent(repo, publisher, relay)
    ensures ProgressEvolves(old(ViewOf(repo, publisher, relay)), ViewOf(repo, publisher, relay))
    ensures ask !in old(repo.posts) ==> repo.posts == old(repo.posts)
    ensures ask in old(repo.posts) ==>
              || repo.posts == old(repo.posts)[ask := old(repo.posts[ask]).(pending := None, ended := true)]
              || (!ok && repo.posts == old(repo.posts))
  {
    hide ProgressGood, ProgressEvolves;
    ProgressEvolvesReflexive(ViewOf(repo, publisher, relay));
    if ask !in repo.posts {
      return true;
    }
    StoredPostGood(ViewOf(repo, publisher, relay), ask);
    var post := repo.posts[ask];
    if post.pending.None? && post.ended {
      return true;
    }
    ok := SavePost(repo, publisher, relay, ask, post.(pending := None, ended := true));
  }

  /** The row of a cancelled ask needs no delete any more. */
  predicate DeleteOver(p: ProgressPost, q: ProgressPost) {
    q == p.(deletePending := q.deletePending, retryNoticedAt := q.retryNoticedAt)
  }

  /** Hand the delete to the relay; it names the one event of this post. */
  method IssueDelete(ghost repo: Repository, ghost publisher: Publisher, relay: Relay, ask: AskId, target: EventId)
    returns (d: Dispatch)
    requires Coherent(repo, publisher, relay)
    requires ask in repo.posts && repo.posts[ask].deletePending && DeleteTarget(repo.posts[ask]) == Some(target)
    modifies relay
    ensures Coherent(repo, publisher, relay)
    ensures ProgressEvolves(old(ViewOf(repo, publisher, relay)), ViewOf(repo, publisher, relay))
    ensures old(relay.active) <= relay.active
    ensures d.Pending? ==> DeleteOf(ask) in relay.active
    ensures d.Done? || d == Error(false) ==> DeleteSettled(relay.feed, ask, target)
    ensures relay.background ==> relay.feed == old(relay.feed) && (d.Pending? || d == Error(true))
    ensures forall i :: |old(relay.feed)| <= i < |relay.feed| ==> relay.feed[i].DeleteRan?
  {
    hide ProgressGood, ProgressEvolves, CommandGood, EntryGood;
    ghost var v := ViewOf(repo, publisher, relay);
    ProgressEvolvesReflexive(v);
    ghost var verdict: Verdict;
    d, verdict := relay.Delete(ask, target);
    DeleteCommandGood(v, ask, target);
    if !relay.background {
      FeedStep(v, DeleteRan(ask, target, verdict));
      assert ViewOf(repo, publisher, relay) == v.(feed := v.feed + [DeleteRan(ask, target, verdict)]);
      assert relay.feed[|v.feed|] == DeleteRan(ask, target, verdict);
    } else if d.Pending? && DeleteOf(ask) !in v.active {
      EnqueueCommand(v, DeleteCommand(ask, target));
      assert ViewOf(repo, publisher, relay) == v.(queue := v.queue + [DeleteCommand(ask, target)], active := v.active + {DeleteOf(ask)});
    } else {
      assert ViewOf(repo, publisher, relay) == v;
    }
  }

  /** The delete is in flight, or it was tried and the row says how it ended. */
  ghost predicate HandedDelete(active: set<Operation>, feed: seq<Entry>, posts: map<AskId, ProgressPost>, ask: AskId, d: Dispatch, ok: bool) {
    && ask in posts && posts[ask].prepared.Some?
    && (d.Pending? ==> DeleteOf(ask) in active && posts[ask].deletePending)
    && (ok && (d.Done? || d == Error(false)) ==> !posts[ask].deletePending && DeleteSettled(feed, ask, posts[ask].prepared.value))
    && (d == Error(true) ==> posts[ask].deletePending)
  }

  method SendDelete(repo: Repository, ghost publisher: Publisher, relay: Relay, ask: AskId, now: int)
    returns (ok: bool, ghost handed: Dispatch)
    requires Coherent(repo, publisher, relay)
    requires ask in repo.posts && repo.posts[ask].deletePending
    modifies repo`posts, relay, repo`failures
    ensures old(repo.failures) + Misses(ok) <= repo.failures
    ensures Coherent(repo, publisher, relay)
    ensures ProgressEvolves(old(ViewOf(repo, publisher, relay)), ViewOf(repo, publisher, relay))
    ensures old(relay.active) <= relay.active
    ensures ask in repo.posts && repo.posts == old(repo.posts)[ask := repo.posts[ask]]
    ensures DeleteOver(old(repo.posts[ask]), repo.posts[ask])
    ensures relay.background ==> repo.posts[ask].deletePending && relay.feed == old(relay.feed)
    ensures forall i :: |old(relay.feed)| <= i < |relay.feed| ==> relay.feed[i].DeleteRan?
    ensures HandedDelete(relay.active, relay.feed, repo.posts, ask, handed, ok)
  {
    hide ProgressGood, ProgressEvolves, PostGood;
    ghost var v := ViewOf(repo, publisher, relay);
    StoredPostPrepared(v, ask);
    var post := repo.posts[ask];
    var d := IssueDelete(repo, publisher, relay, ask, DeleteTarget(post).value);
    handed := d;
    ghost var w := ViewOf(repo, publisher, relay);
    ok := true;
    if d.Done? {
      ok := SaveDeleteOver(repo, publisher, relay, ask, post.(deletePending := false, retryNoticedAt := None));
    } else if d == Error(false) {
      ok := SaveDeleteOver(repo, publisher, relay, ask, post.(deletePending := false));
    } else if d.Error? && NoticeDue(post, now) {
      ok := SaveDeleteOver(repo, publisher, relay, ask, post.(retryNoticedAt := Some(now)));
    } else {
      ProgressEvolvesReflexive(w);
    }
    ProgressEvolvesTransitive(v, w, ViewOf(repo, publisher, relay));
  }

  method SaveDeleteOver(repo: Repository, ghost publisher: Publisher, ghost relay: Relay, ask: AskId, q: ProgressPost)
    returns (ok: bool)
    requires Coherent(repo, publisher, relay)
    requires ask in repo.posts && repo.posts[ask].deletePending && DeleteOver(repo.posts[ask], q)
    requires repo.posts[ask].prepared.Some? && !q.deletePending ==> DeleteSettled(relay.feed, ask, repo.posts[ask].prepared.value)
    modifies repo`posts, repo`failures
    ensures old(repo.failures) + Misses(ok) <= repo.failures
    ensures Coherent(repo, publisher, relay)
    ensures ProgressEvolves(old(ViewOf(repo, publisher, relay)), ViewOf(repo, publisher, relay))
    ensures repo.posts == old(repo.posts)[ask := q] || (!ok && repo.posts == old(repo.posts))
  {
    hide ProgressGood, ProgressEvolves;
    StoredPostGood(ViewOf(repo, publisher, relay), ask);
    ok := SavePost(repo, publisher, relay, ask, q);
  }

  lemma StoredPostPrepared(v: View, ask: AskId)
    requires ProgressGood(v) && ask in v.posts && v.posts[ask].deletePending
    ensures v.posts[ask].prepared.Some? && DeleteTarget(v.posts[ask]) == v.posts[ask].prepared
  {
  }

  lemma DeleteCommandGood(v: View, ask: AskId, target: EventId)
    requires ProgressGood(v) && ask in v.posts && v.posts[ask].deletePending && DeleteTarget(v.posts[ask]) == Some(target)
    ensures CommandGood(DeleteCommand(ask, target), v.posts, v.attempts, v.feed)
    ensures forall verdict :: EntryGood(v.feed, DeleteRan(ask, target, verdict)) && EntryBacked(DeleteRan(ask, target, verdict), v.posts)
  {
    StoredPostGood(v, ask);
  }

  /** A post that a create may have left is deleted, or its delete is still owed. */
  ghost predicate Covered(posts: map<AskId, ProgressPost>, feed: seq<Entry>, ask: AskId) {
    ask in posts && posts[ask].prepared.Some? ==>
      posts[ask].ended && (posts[ask].deletePending || DeleteSettled(feed, ask, posts[ask].prepared.value))
  }

  /** The row had ended without a delete: nothing will delete its post any more. */
  ghost predicate LetGo(posts: map<AskId, ProgressPost>, feed: seq<Entry>, ask: AskId) {
    && ask in posts && posts[ask].prepared.Some? && posts[ask].ended && !posts[ask].deletePending
    && !DeleteSettled(feed, ask, posts[ask].prepared.value)
  }

  /** The ask was cancelled or replaced: end its row, and delete the post a create may have left. */
  method DeleteProgressPost(repo: Repository, ghost publisher: Publisher, relay: Relay, ask: AskId, now: int) returns (ok: bool)
    requires Coherent(repo, publisher, relay)
    modifies repo`posts, relay, repo`failures
    ensures old(repo.failures) + Misses(ok) <= repo.failures
    ensures Coherent(repo, publisher, relay)
    ensures ProgressEvolves(old(ViewOf(repo, publisher, relay)), ViewOf(repo, publisher, relay))
    ensures NoneGivenUp(old(relay.feed), relay.feed)
    ensures ok && ask in old(repo.posts) && (!old(repo.posts[ask]).ended || old(repo.posts[ask]).deletePending) ==>
              && ask in repo.posts && repo.posts[ask].ended
              && (old(repo.posts[ask]).prepared.Some? ==>
                    repo.posts[ask].deletePending || DeleteSettled(relay.feed, ask, old(repo.posts[ask]).prepared.value))
    ensures ask !in old(repo.posts) || (old(repo.posts[ask]).ended && !old(repo.posts[ask]).deletePending) ==>
              ok && repo.posts == old(repo.posts) && relay.feed == old(relay.feed)
    ensures ok ==> (Covered(repo.posts, relay.feed, ask) <==> !LetGo(old(repo.posts), old(relay.feed), ask))
  {
    hide ProgressGood, ProgressEvolves;
    ghost var v := ViewOf(repo, publisher, relay);
    ProgressEvolvesReflexive(v);
    if ask !in repo.posts {
      return true;
    }
    var post := repo.posts[ask];
    if post.ended && !post.deletePending {
      return true;
    }
    StoredPostGood(v, ask);
    var deleting := post.(ended := true, pending := None, deletePending := DeleteTarget(post).Some?, retryNoticedAt := None);
    ok := SavePost(repo, publisher, relay, ask, deleting);
    if !ok {
      return;
    }
    if deleting.deletePending {
      ghost var w := ViewOf(repo, publisher, relay);
      ghost var handed: Dispatch;
      ok, handed := SendDelete(repo, publisher, relay, ask, now);
      ProgressEvolvesTransitive(v, w, ViewOf(repo, publisher, relay));
      SettledByEvolution(w, ViewOf(repo, publisher, relay), ask);
    }
  }

  lemma SettledByEvolution(v: View, w: View, ask: AskId)
    requires ProgressEvolves(v, w) && ask in v.posts && v.posts[ask].deletePending && v.posts[ask].prepared.Some?
    ensures ask in w.posts && PostEvolves(v.posts[ask], w.posts[ask])
    ensures w.posts[ask].deletePending || DeleteSettled(w.feed, ask, v.posts[ask].prepared.value)
  {
  }

  // ---- creating the post ----

  /** The row as the create fixes it; a row already fixed is left alone. */
  function Fixed(p: ProgressPost, stamped: string, id: EventId, createdAt: int): ProgressPost {
    if p.prepared.Some? then p
    else p.(pending := if p.postBody.Some? then p.pending else None, postBody := Some(stamped),
            prepared := Some(id), createdAt := Some(createdAt))
  }

  /** What a create needs of the row. */
  predicate Creatable(v: View, ask: AskId) {
    && ask in v.posts && !Quiet(v, ask) && v.posts[ask].postEvent.None?
    && (v.posts[ask].prepared.Some? || (v.posts[ask].pending.Some? && v.posts[ask].postBody.None?))
  }

  /** Store the prepared create before it is sent. */
  method SaveFixed(repo: Repository, ghost publisher: Publisher, relay: Relay, ask: AskId, q: ProgressPost) returns (ok: bool)
    requires Coherent(repo, publisher, relay) && Creatable(ViewOf(repo, publisher, relay), ask)
    requires OfAsk(repo.turns, ask).Some? && q.prepared.Some? && q.createdAt.Some?
    requires repo.posts[ask].prepared.Some? ==> q == repo.posts[ask]
    requires repo.posts[ask].prepared.None? ==>
               && q == Fixed(repo.posts[ask], StampFor(repo.turns, ask, repo.posts[ask].pending.value), q.prepared.value, q.createdAt.value)
               && q.prepared.value == publisher.sign(CreatePayload(q), q.createdAt.value)
    modifies repo`posts, relay`feed, repo`failures
    ensures old(repo.failures) + Misses(ok) <= repo.failures
    ensures Coherent(repo, publisher, relay)
    ensures ProgressEvolves(old(ViewOf(repo, publisher, relay)), ViewOf(repo, publisher, relay))
    ensures repo.posts == old(repo.posts)[ask := q] || (!ok && repo.posts == old(repo.posts))
    ensures forall i :: |old(relay.feed)| <= i < |relay.feed| ==> CreateEntry(relay.feed[i])
  {
    hide ProgressGood, ProgressEvolves, PostGood;
    ghost var v := ViewOf(repo, publisher, relay);
    ProgressEvolvesReflexive(v);
    StoredPostIdentity(v, ask);
    var before := repo.posts;
    if before[ask].prepared.None? {
      FixStep(v, ask, q);
    }
    ok := repo.SaveProgressPost(ask, q);
    if repo.posts == before[ask := q] && before[ask].prepared.None? {
      relay.Note(PostFixed(ask, q.postBody.value));
      assert ViewOf(repo, publisher, relay) == v.(feed := v.feed + [PostFixed(ask, q.postBody.value)], posts := v.posts[ask := q]);
    } else {
      assert repo.posts == before;
      assert ViewOf(repo, publisher, relay) == v;
    }
  }

  lemma StoredPostIdentity(v: View, ask: AskId)
    requires ProgressGood(v) && ask in v.posts
    ensures var p := v.posts[ask];
            && OfAsk(v.turns, ask).Some?
            && (p.prepared.Some? <==> p.createdAt.Some?)
            && (p.prepared.Some? ==> p.postBody.Some? && p.prepared.value == v.sign(CreatePayload(p), p.createdAt.value))
            && (p.prepared.None? ==> p.postEvent.None? && (!p.ended ==> p.postBody.None?))
            && (p.postEvent.None? || p.postEvent == p.prepared)
            && (p.ended ==> p.pending.None?) && (p.deletePending ==> p.ended)
  {
  }

  /** Send the fixed create. */
  method SendCreate(ghost repo: Repository, publisher: Publisher, ghost relay: Relay, ask: AskId, id: EventId)
    returns (verdict: Verdict)
    requires Coherent(repo, publisher, relay)
    requires ask in repo.posts && !Quiet(ViewOf(repo, publisher, relay), ask)
    requires repo.posts[ask].prepared == Some(id)
    modifies publisher`sent
    ensures Coherent(repo, publisher, relay)
    ensures ProgressEvolves(old(ViewOf(repo, publisher, relay)), ViewOf(repo, publisher, relay))
    ensures repo.posts[ask].postBody.Some?
    ensures publisher.sent == old(publisher.sent)
              + [Logged(ForProgress(ask), id, CreatePayload(repo.posts[ask]), verdict, repo.turns, repo.attempts, repo.posts)]
  {
    hide ProgressGood, ProgressEvolves, PostGood;
    ghost var v := ViewOf(repo, publisher, relay);
    StoredPostIdentity(v, ask);
    verdict := publisher.Publish(ForProgress(ask), id, CreatePayload(repo.posts[ask]), repo);
    ghost var e := Logged(ForProgress(ask), id, CreatePayload(repo.posts[ask]), verdict, repo.turns, repo.attempts, repo.posts);
    CreateStep(v, e);
    assert ViewOf(repo, publisher, relay) == v.(sent := v.sent + [e]);
  }

  /** How a create ends: accepted, or given up. */
  predicate CreateEnds(p: ProgressPost, q: ProgressPost, ask: AskId, e: Entry) {
    || (&& p.prepared.Some? && q.lastSendAt.Some? && e == PostLive(ask, q.lastSendAt.value)
        && q == p.(postEvent := p.prepared, lastSendAt := q.lastSendAt, retryNoticedAt := None))
    || (e == PostDropped(ask) && q == p.(ended := true, pending := None, postBody := Coalesce(p.postBody, q.postBody)))
  }

  lemma CreateEndStep(v: View, ask: AskId, q: ProgressPost, e: Entry)
    requires ProgressGood(v) && ask in v.posts && !Quiet(v, ask) && v.posts[ask].postEvent.None?
    requires CreateEnds(v.posts[ask], q, ask, e)
    ensures var w := v.(posts := v.posts[ask := q], feed := v.feed + [e]);
            ProgressGood(w) && ProgressEvolves(v, w) && MergedPost(Some(v.posts[ask]), q) == q
  {
    hide ProgressGood, ProgressEvolves;
    StoredPostGood(v, ask);
    Uncreated(v, ask);
    NotLiveYet(v, ask, e);
    FeedAppend(v.feed, e, ask);
    PostGoodAppend(ask, v.posts[ask], v.turns, v.attempts, v.feed, v.sign, e);
    assert (v.feed + [e])[|v.feed|] == e;
    FeedPostStep(v, ask, q, e);
  }

  /** A create is accepted once. */
  lemma NotLiveYet(v: View, ask: AskId, e: Entry)
    requires ProgressGood(v) && ask in v.posts && v.posts[ask].postEvent.None? && e.ask == ask && (e.PostLive? || e.PostDropped?)
    ensures EntryGood(v.feed, e)
  {
    forall i | 0 <= i < |v.feed| && v.feed[i].PostLive? ensures v.feed[i].ask != ask {
      assert EntryBacked(v.feed[i], v.posts);
    }
  }

  /** How the create ended and, specification only, its entry in the feed are written together. */
  method SaveCreateEnd(repo: Repository, ghost publisher: Publisher, relay: Relay, ask: AskId, q: ProgressPost, e: Entry)
    returns (ok: bool)
    requires Coherent(repo, publisher, relay) && ask in repo.posts && repo.posts[ask].postEvent.None?
    requires !Quiet(ViewOf(repo, publisher, relay), ask) && CreateEnds(repo.posts[ask], q, ask, e)
    modifies repo`posts, relay`feed, repo`failures
    ensures old(repo.failures) + Misses(ok) <= repo.failures
    ensures Coherent(repo, publisher, relay)
    ensures ProgressEvolves(old(ViewOf(repo, publisher, relay)), ViewOf(repo, publisher, relay))
    ensures || (repo.posts == old(repo.posts)[ask := q] && relay.feed == old(relay.feed) + [e])
            || (!ok && repo.posts == old(repo.posts) && relay.feed == old(relay.feed))
  {
    hide ProgressGood, ProgressEvolves, CreateEnds, MergedPost;
    ghost var v := ViewOf(repo, publisher, relay);
    CreateEndStep(v, ask, q, e);
    ProgressEvolvesReflexive(v);
    var before := repo.posts;
    ok := repo.SaveProgressPost(ask, q);
    if repo.posts == before[ask := q] {
      relay.Note(e);
      assert ViewOf(repo, publisher, relay) == v.(posts := v.posts[ask := q], feed := v.feed + [e]);
    } else {
      assert ViewOf(repo, publisher, relay) == v;
    }
  }

  /** The create may be sent again; only the pace of notices changes. */
  method SaveNoticed(repo: Repository, ghost publisher: Publisher, ghost relay: Relay, ask: AskId, q: ProgressPost)
    returns (ok: bool)
    requires Coherent(repo, publisher, relay) && ask in repo.posts && repo.posts[ask].postEvent.None?
    requires q == repo.posts[ask].(retryNoticedAt := q.retryNoticedAt)
    modifies repo`posts, repo`failures
    ensures old(repo.failures) + Misses(ok) <= repo.failures
    ensures Coherent(repo, publisher, relay)
    ensures ProgressEvolves(old(ViewOf(repo, publisher, relay)), ViewOf(repo, publisher, relay))
    ensures repo.posts == old(repo.posts)[ask := q] || (!ok && repo.posts == old(repo.posts))
  {
    hide ProgressGood, ProgressEvolves;
    ghost var v := ViewOf(repo, publisher, relay);
    StoredPostGood(v, ask);
    Uncreated(v, ask);
    ok := SavePost(repo, publisher, relay, ask, q);
  }

  /** The create was not accepted: the row stays for its redelivery, with at most one notice per interval. */
  method KeepTrying(repo: Repository, ghost publisher: Publisher, ghost relay: Relay, ask: AskId, now: int) returns (ok: bool)
    requires Coherent(repo, publisher, relay) && ask in repo.posts && repo.posts[ask].postEvent.None?
    modifies repo`posts, repo`failures
    ensures old(repo.failures) + Misses(ok) <= repo.failures
    ensures Coherent(repo, publisher, relay)
    ensures ProgressEvolves(old(ViewOf(repo, publisher, relay)), ViewOf(repo, publisher, relay))
    ensures ask in repo.posts && repo.posts == old(repo.posts)[ask := repo.posts[ask]]
    ensures repo.posts[ask] == old(repo.posts[ask]).(retryNoticedAt := repo.posts[ask].retryNoticedAt)
  {
    hide ProgressGood, ProgressEvolves, MergedPost;
    ghost var v := ViewOf(repo, publisher, relay);
    var post := repo.posts[ask];
    ok := SaveNoticed(repo, publisher, relay, ask, post);
    if ok && NoticeDue(post, now) {
      ghost var w := ViewOf(repo, publisher, relay);
      ok := SaveNoticed(repo, publisher, relay, ask, post.(retryNoticedAt := Some(now)));
      ProgressEvolvesTransitive(v, w, ViewOf(repo, publisher, relay));
    }
  }

  lemma Uncreated(v: View, ask: AskId)
    requires ProgressGood(v) && ask in v.posts && v.posts[ask].postEvent.None?
    ensures !EditQueued(v.queue, ask) && !EditReported(v.completions, ask)
  {
  }

  /** How the one send of a create left the row. */
  predicate CreateOutcome(q: ProgressPost, verdict: Verdict, id: EventId, now: int) {
    && q.prepared == Some(id) && !q.deletePending
    && match verdict
       case Accepted => q.postEvent == Some(id) && q.lastSendAt == Some(now) && !q.ended
       case Rejected => q.postEvent.None? && q.ended
       case NotAccepted => q.postEvent.None? && !q.ended
  }

  /** The entries a create may add to the feed. */
  predicate CreateEntry(e: Entry) {
    e.PostFixed? || e.PostLive? || e.PostDropped?
  }

  /** The body of the create: the stored one, or the stamped pending body. */
  function CreateBody(p: ProgressPost, bot: BotId): string
    requires p.postBody.Some? || p.pending.Some?
  {
    if p.postBody.Some? then p.postBody.value else Stamp(p.pending.value, OutboundPrefix(bot))
  }

  function CreateRequest(p: ProgressPost, stamped: string): Payload {
    Payload(stamped, p.channel, Some(p.replyTo), p.root, "")
  }

  /** A redelivered create is the recorded event again. */
  lemma CreateRepeats(v: View, ask: AskId, turn: Turn)
    requires ProgressGood(v) && Creatable(v, ask) && Current(v.turns, ask, turn)
    ensures var p := v.posts[ask];
            && (p.postBody.Some? || p.pending.Some?) && !p.deletePending && p.postEvent.None?
            && (p.prepared.Some? ==>
                  p.createdAt.Some? && p.prepared.value == v.sign(CreateRequest(p, CreateBody(p, turn.session.bot)), p.createdAt.value))
            && (p.prepared.None? ==> p.createdAt.None? && p.postBody.None?)
  {
  }

  lemma FixedCreate(v: View, ask: AskId, turn: Turn, id: EventId, createdAt: int)
    requires ProgressGood(v) && Creatable(v, ask) && Current(v.turns, ask, turn)
    requires v.posts[ask].postBody.Some? || v.posts[ask].pending.Some?
    requires id == v.sign(CreateRequest(v.posts[ask], CreateBody(v.posts[ask], turn.session.bot)), createdAt)
    requires v.posts[ask].prepared.Some? ==> v.posts[ask].prepared == Some(id)
    ensures var p := v.posts[ask];
            var q := Fixed(p, CreateBody(p, turn.session.bot), id, createdAt);
            && q.prepared == Some(id) && q.createdAt.Some? && q.postEvent.None? && !q.ended
            && (p.prepared.Some? ==> q == p)
            && (p.prepared.None? ==>
                  && q == Fixed(p, StampFor(v.turns, ask, p.pending.value), q.prepared.value, q.createdAt.value)
                  && q.postBody.Some? && q.prepared.value == v.sign(CreatePayload(q), q.createdAt.value))
  {
  }

  /** A row that had not ended was not deleted, so it is let go exactly when the create ended it. */
  lemma CreateLetsGo(v: View, posts: map<AskId, ProgressPost>, feed: seq<Entry>, ask: AskId)
    requires ProgressGood(v) && Creatable(v, ask) && v.feed <= feed && forall i :: |v.feed| <= i < |feed| ==> CreateEntry(feed[i])
    requires ask in posts && posts[ask].prepared.Some? && !posts[ask].deletePending
    ensures LetGo(posts, feed, ask) <==> posts[ask].ended
  {
    forall i | 0 <= i < |feed| && feed[i].DeleteRan? ensures feed[i].ask != ask {
      assert feed[i] == v.feed[i];
      assert EntryBacked(v.feed[i], v.posts);
    }
  }

  method CreatePost(repo: Repository, publisher: Publisher, relay: Relay, turn: Turn, ask: AskId, now: int) returns (ok: bool)
    requires Coherent(repo, publisher, relay) && Current(repo.turns, ask, turn)
    requires Creatable(ViewOf(repo, publisher, relay), ask)
    modifies repo`posts, relay`feed, publisher`sent, repo`failures
    ensures old(repo.failures) + Misses(ok) <= repo.failures
    ensures Coherent(repo, publisher, relay)
    ensures ProgressEvolves(old(ViewOf(repo, publisher, relay)), ViewOf(repo, publisher, relay))
    ensures ask in repo.posts && repo.posts == old(repo.posts)[ask := repo.posts[ask]]
    ensures |old(publisher.sent)| <= |publisher.sent| <= |old(publisher.sent)| + 1
    ensures |publisher.sent| > |old(publisher.sent)| ==>
              var e := publisher.sent[|old(publisher.sent)|];
              e.purpose == ForProgress(ask) && repo.posts[ask].prepared == Some(e.id)
              && (ok ==> CreateOutcome(repo.posts[ask], e.verdict, e.id, now))
    ensures ok && |publisher.sent| == |old(publisher.sent)| ==> repo.posts[ask].ended
    ensures ok && old(repo.posts[ask]).prepared.Some? ==>
              (LetGo(repo.posts, relay.feed, ask) <==>
                 |publisher.sent| == |old(publisher.sent)| || publisher.sent[|old(publisher.sent)|].verdict.Rejected?)
    ensures forall i :: |old(relay.feed)| <= i < |relay.feed| ==> CreateEntry(relay.feed[i])
  {
    hide ProgressGood, ProgressEvolves, PostGood, Fixed, CreateRequest, CreatePayload, LetGo;
    ghost var v := ViewOf(repo, publisher, relay);
    ProgressEvolvesReflexive(v);
    var post := repo.posts[ask];
    CreateRepeats(v, ask, turn);
    var stamped := CreateBody(post, turn.session.bot);
    var r := publisher.Prepare(CreateRequest(post, stamped), post.prepared, post.createdAt, now);
    match r {
      case Mismatch =>
        assert false;
      case Refused =>
        ok := SaveCreateEnd(repo, publisher, relay, ask, post.(ended := true, pending := None, postBody := Some(stamped)), PostDropped(ask));
      case Prepared(id, createdAt) =>
        FixedCreate(v, ask, turn, id, createdAt);
        ok := FixAndSend(repo, publisher, relay, ask, Fixed(post, stamped, id, createdAt), now);
    }
    LogsGrow(v, ViewOf(repo, publisher, relay));
    if ok && post.prepared.Some? { CreateLetsGo(v, repo.posts, relay.feed, ask); }
  }

  /** Store the prepared create, then send it. */
  method FixAndSend(repo: Repository, publisher: Publisher, relay: Relay, ask: AskId, q: ProgressPost, now: int) returns (ok: bool)
    requires Coherent(repo, publisher, relay) && Creatable(ViewOf(repo, publisher, relay), ask)
    requires OfAsk(repo.turns, ask).Some? && q.prepared.Some? && q.createdAt.Some? && q.postEvent.None? && !q.ended
    requires repo.posts[ask].prepared.Some? ==> q == repo.posts[ask]
    requires repo.posts[ask].prepared.None? ==>
               && q == Fixed(repo.posts[ask], StampFor(repo.turns, ask, repo.posts[ask].pending.value), q.prepared.value, q.createdAt.value)
               && q.postBody.Some? && q.prepared.value == publisher.sign(CreatePayload(q), q.createdAt.value)
    modifies repo`posts, relay`feed, publisher`sent, repo`failures
    ensures old(repo.failures) + Misses(ok) <= repo.failures
    ensures Coherent(repo, publisher, relay)
    ensures ProgressEvolves(old(ViewOf(repo, publisher, relay)), ViewOf(repo, publisher, relay))
    ensures ask in repo.posts && repo.posts == old(repo.posts)[ask := repo.posts[ask]]
    ensures |old(publisher.sent)| <= |publisher.sent| <= |old(publisher.sent)| + 1
    ensures ok ==> |publisher.sent| == |old(publisher.sent)| + 1
    ensures |publisher.sent| > |old(publisher.sent)| ==>
              var e := publisher.sent[|old(publisher.sent)|];
              e.purpose == ForProgress(ask) && repo.posts[ask].prepared == Some(e.id)
              && (ok ==> CreateOutcome(repo.posts[ask], e.verdict, e.id, now))
    ensures forall i :: |old(relay.feed)| <= i < |relay.feed| ==> CreateEntry(relay.feed[i])
  {
    hide ProgressGood, ProgressEvolves, PostGood, Fixed, CreatePayload, CreateOutcome, CreateEntry;
    ghost var v := ViewOf(repo, publisher, relay);
    ok := SaveFixed(repo, publisher, relay, ask, q);
    if ok {
      ghost var w := ViewOf(repo, publisher, relay);
      ok := SendFixed(repo, publisher, relay, ask, q.prepared.value, now);
      LogsGrow(w, ViewOf(repo, publisher, relay));
      ProgressEvolvesTransitive(v, w, ViewOf(repo, publisher, relay));
    }
  }

  method SendFixed(repo: Repository, publisher: Publisher, relay: Relay, ask: AskId, id: EventId, now: int) returns (ok: bool)
    requires Coherent(repo, publisher, relay)
    requires ask in repo.posts && !Quiet(ViewOf(repo, publisher, relay), ask)
    requires repo.posts[ask].prepared == Some(id) && repo.posts[ask].postEvent.None?
    modifies repo`posts, relay`feed, publisher`sent, repo`failures
    ensures old(repo.failures) + Misses(ok) <= repo.failures
    ensures Coherent(repo, publisher, relay)
    ensures ProgressEvolves(old(ViewOf(repo, publisher, relay)), ViewOf(repo, publisher, relay))
    ensures ask in repo.posts && repo.posts == old(repo.posts)[ask := repo.posts[ask]]
    ensures |publisher.sent| == |old(publisher.sent)| + 1
    ensures var e := publisher.sent[|old(publisher.sent)|];
            e.purpose == ForProgress(ask) && e.id == id && repo.posts[ask].prepared == Some(id)
            && (ok ==> CreateOutcome(repo.posts[ask], e.verdict, id, now))
    ensures forall i :: |old(relay.feed)| <= i < |relay.feed| ==> CreateEntry(relay.feed[i])
  {
    hide ProgressGood, ProgressEvolves, PostGood;
    ghost var v := ViewOf(repo, publisher, relay);
    StoredPostIdentity(v, ask);
    var verdict := SendCreate(repo, publisher, relay, ask, id);
    ghost var w := ViewOf(repo, publisher, relay);
    var q := repo.posts[ask];
    match verdict {
      case Accepted =>
        ok := SaveCreateEnd(repo, publisher, relay, ask, q.(postEvent := Some(id), lastSendAt := Some(now), retryNoticedAt := None), PostLive(ask, now));
      case Rejected =>
        ok := SaveCreateEnd(repo, publisher, relay, ask, q.(ended := true, pending := None), PostDropped(ask));
      case NotAccepted =>
        ok := KeepTrying(repo, publisher, relay, ask, now);
    }
    ProgressEvolvesTransitive(v, w, ViewOf(repo, publisher, relay));
  }

  // ---- editing the post ----

  /** Hand the edit to the relay. */
  method IssueEdit(ghost repo: Repository, ghost publisher: Publisher, relay: Relay, ask: AskId, target: EventId, content: string, now: int)
    returns (d: Dispatch)
    requires Coherent(repo, publisher, relay) && Editable(ViewOf(repo, publisher, relay), ask, target, content, now)
    modifies relay
    ensures Coherent(repo, publisher, relay)
    ensures ProgressEvolves(old(ViewOf(repo, publisher, relay)), ViewOf(repo, publisher, relay))
    ensures old(relay.active) <= relay.active
    ensures NoneGivenUp(old(relay.feed), relay.feed)
    ensures d.Done? ==> !relay.background && LastEdit(relay.feed, ask) == Some(content) && Newest(relay.feed, ask) == Some(content)
    ensures d.Pending? ==> EditOf(ask) in relay.active
    ensures forall i :: |old(relay.feed)| <= i < |relay.feed| && relay.feed[i].EditIssued? ==> relay.feed[i] == EditIssued(ask, target, content)
  {
    hide ProgressGood, ProgressEvolves, Editable;
    ghost var v := ViewOf(repo, publisher, relay);
    ProgressEvolvesReflexive(v);
    ghost var verdict: Verdict;
    d, verdict := relay.Edit(ask, target, content, now);
    if !relay.background {
      DirectEditStep(v, ask, target, content, now, verdict);
      NewestOfEditable(v, ask, target, content, now);
      FeedAppend(v.feed, EditIssued(ask, target, content), ask);
      FeedAppend(v.feed + [EditIssued(ask, target, content)], EditRan(ask, target, content, |v.feed|, verdict), ask);
      assert ViewOf(repo, publisher, relay)
          == v.(feed := v.feed + [EditIssued(ask, target, content)] + [EditRan(ask, target, content, |v.feed|, verdict)]);
    } else if d.Pending? && EditOf(ask) !in v.active {
      IssueStep(v, ask, target, content, now);
      assert ViewOf(repo, publisher, relay)
          == v.(feed := v.feed + [EditIssued(ask, target, content)],
                queue := v.queue + [EditCommand(ask, target, content, now, |v.feed|)], active := v.active + {EditOf(ask)});
    } else {
      assert ViewOf(repo, publisher, relay) == v;
    }
  }

  lemma NewestOfEditable(v: View, ask: AskId, target: EventId, content: string, now: int)
    requires Editable(v, ask, target, content, now)
    ensures Newest(v.feed, ask) == Some(content)
  {
  }

  /** A row is edited when it is live, posted, and has a body to show. */
  predicate WantsEdit(v: View, ask: AskId, now: int) {
    && ask in v.posts && !Quiet(v, ask) && v.posts[ask].pending.Some? && v.posts[ask].postEvent.Some?
    && (v.posts[ask].lastSendAt.Some? ==> now >= v.posts[ask].lastSendAt.value + EDIT_INTERVAL_SECS)
  }

  lemma EditableRow(v: View, ask: AskId, now: int)
    requires ProgressGood(v) && WantsEdit(v, ask, now)
    ensures OfAsk(v.turns, ask).Some?
    ensures Editable(v, ask, v.posts[ask].postEvent.value, StampFor(v.turns, ask, v.posts[ask].pending.value), now)
  {
  }

  /** The edit is in flight, or it was tried and the row says how it ended; a failed edit costs nothing. */
  predicate HandedEdit(active: set<Operation>, p: ProgressPost, q: ProgressPost, ask: AskId, now: int, d: Dispatch, ok: bool) {
    && (d.Pending? ==> EditOf(ask) in active && q == p)
    && (d.Error? ==> q == p.(retryNoticedAt := q.retryNoticedAt) && (ok ==> !NoticeDue(p, now) || q.retryNoticedAt == Some(now)))
    && (ok && d.Done? ==> q == p.(editCount := p.editCount + 1, lastSendAt := Some(now), pending := None, retryNoticedAt := None))
  }

  method EditPost(repo: Repository, ghost publisher: Publisher, relay: Relay, turn: Turn, ask: AskId, now: int)
    returns (ok: bool, ghost handed: Dispatch)
    requires Coherent(repo, publisher, relay) && Current(repo.turns, ask, turn)
    requires WantsEdit(ViewOf(repo, publisher, relay), ask, now)
    modifies repo`posts, relay, repo`failures
    ensures old(repo.failures) + Misses(ok) <= repo.failures
    ensures Coherent(repo, publisher, relay)
    ensures ProgressEvolves(old(ViewOf(repo, publisher, relay)), ViewOf(repo, publisher, relay))
    ensures old(relay.active) <= relay.active
    ensures NoneGivenUp(old(relay.feed), relay.feed)
    ensures ask in repo.posts && repo.posts == old(repo.posts)[ask := repo.posts[ask]]
    ensures relay.background ==> repo.posts[ask].editCount == old(repo.posts[ask]).editCount
                                 && repo.posts[ask].pending == old(repo.posts[ask]).pending
    ensures HandedEdit(relay.active, old(repo.posts[ask]), repo.posts[ask], ask, now, handed, ok)
    ensures ok && repo.posts[ask].pending.None? ==> LastEdit(relay.feed, ask) == Newest(relay.feed, ask)
    ensures repo.posts[ask].ended == old(repo.posts[ask]).ended
    ensures forall i :: |old(relay.feed)| <= i < |relay.feed| && relay.feed[i].EditIssued? ==>
              relay.feed[i] == EditIssued(ask, old(repo.posts[ask]).postEvent.value, StampFor(repo.turns, ask, old(repo.posts[ask]).pending.value))
  {
    hide ProgressGood, ProgressEvolves, Editable, NoneGivenUp;
    ghost var v := ViewOf(repo, publisher, relay);
    EditableRow(v, ask, now);
    var post := repo.posts[ask];
    var d := IssueEdit(repo, publisher, relay, ask, post.postEvent.value, Stamp(post.pending.value, OutboundPrefix(turn.session.bot)), now);
    handed := d;
    ghost var w := ViewOf(repo, publisher, relay);
    ok := true;
    if d.Done? {
      ok := SaveEdited(repo, publisher, relay, ask, post.(editCount := post.editCount + 1, lastSendAt := Some(now), pending := None, retryNoticedAt := None), now);
    } else if d.Error? && NoticeDue(post, now) {
      ok := SaveEdited(repo, publisher, relay, ask, post.(retryNoticedAt := Some(now)), now);
    } else {
      ProgressEvolvesReflexive(w);
    }
    ProgressEvolvesTransitive(v, w, ViewOf(repo, publisher, relay));
  }

  method SaveEdited(repo: Repository, ghost publisher: Publisher, ghost relay: Relay, ask: AskId, q: ProgressPost, ghost now: int)
    returns (ok: bool)
    requires Coherent(repo, publisher, relay) && ask in repo.posts && repo.posts[ask].postEvent.Some?
    requires var p := repo.posts[ask];
             || q == p.(retryNoticedAt := q.retryNoticedAt)
             || (&& !relay.background && p.editCount < EDIT_CAP
                 && (p.lastSendAt.Some? ==> now >= p.lastSendAt.value + EDIT_INTERVAL_SECS)
                 && LastEdit(relay.feed, ask).Some? && LastEdit(relay.feed, ask) == Newest(relay.feed, ask)
                 && q == p.(editCount := p.editCount + 1, lastSendAt := Some(now), pending := None, retryNoticedAt := None))
    modifies repo`posts, repo`failures
    ensures old(repo.failures) + Misses(ok) <= repo.failures
    ensures Coherent(repo, publisher, relay)
    ensures ProgressEvolves(old(ViewOf(repo, publisher, relay)), ViewOf(repo, publisher, relay))
    ensures repo.posts == old(repo.posts)[ask := q] || (!ok && repo.posts == old(repo.posts))
  {
    hide ProgressGood, ProgressEvolves;
    StoredPostGood(ViewOf(repo, publisher, relay), ask);
    ok := SavePost(repo, publisher, relay, ask, q);
  }

  // ---- the tick ----

  /** Forget what was pending; a closed turn also ends the row. */
  method Silence(repo: Repository, ghost publisher: Publisher, ghost relay: Relay, ask: AskId, closed: bool) returns (ok: bool)
    requires Coherent(repo, publisher, relay) && ask in repo.posts && (if closed then Over(repo.turns, ask) else Ask(ask) in repo.attempts)
    requires !repo.posts[ask].deletePending
    modifies repo`posts, repo`failures
    ensures old(repo.failures) + Misses(ok) <= repo.failures
    ensures Coherent(repo, publisher, relay)
    ensures ProgressEvolves(old(ViewOf(repo, publisher, relay)), ViewOf(repo, publisher, relay))
    ensures || repo.posts == old(repo.posts)[ask := old(repo.posts[ask]).(pending := None, ended := closed || old(repo.posts[ask]).ended)]
            || (!ok && repo.posts == old(repo.posts))
  {
    hide ProgressGood, ProgressEvolves;
    ProgressEvolvesReflexive(ViewOf(repo, publisher, relay));
    StoredPostGood(ViewOf(repo, publisher, relay), ask);
    var post := repo.posts[ask];
    if post.pending.Some? || closed {
      ok := SavePost(repo, publisher, relay, ask, post.(pending := None, ended := closed || post.ended));
    } else {
      ok := true;
      assert repo.posts == repo.posts[ask := post];
    }
  }

  lemma ClosedIsOver(v: View, ask: AskId)
    requires ProgressGood(v) && OfAsk(v.turns, ask).Some? && !v.turns[OfAsk(v.turns, ask).value].state.Open?
    ensures Over(v.turns, ask)
  {
    assert RowGood(v.turns[OfAsk(v.turns, ask).value]);
  }

  /** The clock of one stored row. */
  function StepOf(p: ProgressPost, now: int): ProgressStep {
    NextProgressStep(p.openedAt, p.lastSendAt, p.postEvent.Some?, p.pending.Some?, now)
  }

  /** Whether the tick may create the post of this row: a fixed create is redelivered at once. */
  predicate CreateDue(p: ProgressPost, now: int) {
    p.postEvent.None? && (p.prepared.Some? || (p.pending.Some? && now >= p.openedAt + INITIAL_HOLD_SECS))
  }

  /** Whether the tick may edit the post of this row. */
  predicate EditDue(p: ProgressPost, now: int) {
    p.postEvent.Some? && p.pending.Some? && (p.lastSendAt.Some? ==> now >= p.lastSendAt.value + EDIT_INTERVAL_SECS)
  }

  /** At most one relay action for one ask: delete, create or edit; nothing once progress is over. */
  method FlushProgress(repo: Repository, publisher: Publisher, relay: Relay, turn: Turn, ask: AskId, post: ProgressPost, now: int)
    returns (ok: bool, ghost handed: Option<Dispatch>)
    requires Coherent(repo, publisher, relay) && Current(repo.turns, ask, turn)
    requires ask in repo.posts && repo.posts[ask] == post
    modifies repo`posts, relay, publisher`sent, repo`failures
    ensures old(repo.failures) + Misses(ok) <= repo.failures
    ensures Coherent(repo, publisher, relay)
    ensures ProgressEvolves(old(ViewOf(repo, publisher, relay)), ViewOf(repo, publisher, relay))
    ensures old(relay.active) <= relay.active
    ensures OnlyDrops(old(relay.feed), relay.feed)
    ensures ask in repo.posts && repo.posts == old(repo.posts)[ask := repo.posts[ask]]
    ensures |publisher.sent| <= |old(publisher.sent)| + 1
    ensures |publisher.sent| > |old(publisher.sent)| ==>
              && !post.ended && turn.state.Open? && Ask(ask) !in repo.attempts && CreateDue(post, now)
              && publisher.sent[|old(publisher.sent)|].purpose == ForProgress(ask)
    ensures forall i :: |old(relay.feed)| <= i < |relay.feed| && relay.feed[i].EditIssued? ==>
              && !post.ended && turn.state.Open? && Ask(ask) !in repo.attempts && EditDue(post, now)
              && relay.feed[i].ask == ask
    ensures !post.ended && (!turn.state.Open? || Ask(ask) in repo.attempts) ==>
              && publisher.sent == old(publisher.sent) && relay.feed == old(relay.feed)
              && (ok ==> repo.posts[ask] == post.(pending := None, ended := !turn.state.Open?))
    ensures ok && !post.ended && turn.state.Open? && Ask(ask) !in repo.attempts && CreateDue(post, now) ==>
              repo.posts[ask].ended || |publisher.sent| > |old(publisher.sent)|
    ensures !post.ended && turn.state.Open? && Ask(ask) !in repo.attempts && EditDue(post, now) ==>
              handed.Some? && HandedEdit(relay.active, post, repo.posts[ask], ask, now, handed.value, ok)
    ensures post.deletePending ==> handed.Some? && HandedDelete(relay.active, relay.feed, repo.posts, ask, handed.value, ok)
  {
    hide ProgressGood, ProgressEvolves, PostGood, Editable;
    ghost var v := ViewOf(repo, publisher, relay);
    ProgressEvolvesReflexive(v);
    StoredPostIdentity(v, ask);
    StepMeansElapsed(post.openedAt, post.lastSendAt, post.postEvent.Some?, post.pending.Some?, now);
    handed := None;
    ghost var d: Dispatch;
    if post.deletePending {
      ok, d := SendDelete(repo, publisher, relay, ask, now);
      handed := Some(d);
    } else if post.ended {
      assert repo.posts == repo.posts[ask := post];
      ok := true;
    } else if !turn.state.Open? || Ask(ask) in repo.attempts {
      if !turn.state.Open? { ClosedIsOver(v, ask); }
      ok := Silence(repo, publisher, relay, ask, !turn.state.Open?);
    } else if post.prepared.Some? && post.postEvent.None? {
      ok := CreatePost(repo, publisher, relay, turn, ask, now);
    } else {
      match StepOf(post, now) {
        case Wait =>
          assert repo.posts == repo.posts[ask := post];
          ok := true;
        case Create =>
          ok := CreatePost(repo, publisher, relay, turn, ask, now);
        case Edit =>
          ok, d := EditPost(repo, publisher, relay, turn, ask, now);
          handed := Some(d);
      }
    }
    LogsGrow(v, ViewOf(repo, publisher, relay));
  }

  // ---- completions of the background worker ----

  /** The row after an edit that the relay accepted. */
  function AfterEdit(p: ProgressPost, shown: bool, at: int): ProgressPost {
    DroppedAtCap(p.(editCount := p.editCount + 1, lastSendAt := Some(at), retryNoticedAt := None,
                    pending := if shown then None else p.pending))
  }

  /** Whether the accepted content is the pending body. */
  predicate ShowsPending(turns: seq<Turn>, ask: AskId, p: ProgressPost, content: string) {
    OfAsk(turns, ask).Some? && p.pending.Some? && StampFor(turns, ask, p.pending.value) == content
  }

  /** The row a completion leaves. */
  function AfterCompletion(turns: seq<Turn>, p: ProgressPost, c: Completion): ProgressPost {
    match c
    case EditDone(ask, content, at, verdict, _) =>
      if verdict.Accepted? then AfterEdit(p, ShowsPending(turns, ask, p, content), at)
      else if NoticeDue(p, at) then p.(retryNoticedAt := Some(at)) else p
    case DeleteDone(_, at, verdict, _) =>
      match verdict
      case Accepted => p.(deletePending := false, retryNoticedAt := None)
      case Rejected => p.(deletePending := false)
      case NotAccepted => if NoticeDue(p, at) then p.(retryNoticedAt := Some(at)) else p
  }

  lemma AppliedPostGood(v: View, c: Completion)
    requires ProgressGood(v) && CompletionGood(c, v.posts, v.attempts, v.feed)
    ensures c.ask in v.posts
    ensures var q := AfterCompletion(v.turns, v.posts[c.ask], c);
            && PostGood(c.ask, q, v.turns, v.attempts, v.feed, v.sign)
            && PostEvolves(v.posts[c.ask], q) && DeletesOnlySettled(v.feed, c.ask, v.posts[c.ask], q)
            && RowExplained(c.ask, q, v.turns, v.attempts, v.feed) && q.prepared == v.posts[c.ask].prepared
            && MergedPost(Some(v.posts[c.ask]), q) == q
            && (c.DeleteDone? ==> KeepsFlight(v.posts[c.ask], q, Ask(c.ask) in v.attempts))
  {
    hide ProgressGood, PostGood, LastRan;
    StoredPostGood(v, c.ask);
    match c
    case EditDone(ask, content, at, verdict, ran) =>
      Flown(v, c);
      if verdict.Accepted? {
        AppliedEdit(v.posts[ask], v, ask, content, at);
      } else {
        Noticed(v.posts[ask], v, ask, AfterCompletion(v.turns, v.posts[ask], c));
      }
    case DeleteDone(ask, _, _, ran) =>
      RanEntryBacked(v, ran);
      Noticed(v.posts[ask], v, ask, AfterCompletion(v.turns, v.posts[ask], c));
  }

  /** Notices and settled deletes leave everything else of the row alone. */
  lemma Noticed(p: ProgressPost, v: View, ask: AskId, q: ProgressPost)
    requires PostGood(ask, p, v.turns, v.attempts, v.feed, v.sign)
    requires q == p.(retryNoticedAt := q.retryNoticedAt, deletePending := q.deletePending) && (q.deletePending ==> p.deletePending)
    ensures PostGood(ask, q, v.turns, v.attempts, v.feed, v.sign)
    ensures MergedPost(Some(p), q) == q
  {
  }

  lemma Flown(v: View, c: Completion)
    requires CompletionGood(c, v.posts, v.attempts, v.feed) && c.EditDone?
    ensures c.ask in v.posts
    ensures var p := v.posts[c.ask];
            && p.postEvent.Some? && p.editCount < EDIT_CAP && p.lastSendAt.Some? && c.completedAt >= p.lastSendAt.value + EDIT_INTERVAL_SECS
            && (!p.ended && Ask(c.ask) !in v.attempts ==> p.pending.Some?)
            && (c.verdict.Accepted? ==> LastEdit(v.feed, c.ask) == Some(c.content))
  {
    if c.verdict.Accepted? { LastEditAt(v.feed, c.ask, c.ran); }
  }

  lemma RanEntryBacked(v: View, ran: nat)
    requires ProgressGood(v) && ran < |v.feed|
    ensures EntryBacked(v.feed[ran], v.posts)
  {
  }

  lemma AppliedEdit(p: ProgressPost, v: View, ask: AskId, content: string, at: int)
    requires PostGood(ask, p, v.turns, v.attempts, v.feed, v.sign)
    requires p.postEvent.Some? && p.editCount < EDIT_CAP && p.lastSendAt.Some? && at >= p.lastSendAt.value + EDIT_INTERVAL_SECS
    requires LastEdit(v.feed, ask) == Some(content)
    requires !p.ended && Ask(ask) !in v.attempts ==> p.pending.Some?
    ensures var q := AfterEdit(p, ShowsPending(v.turns, ask, p, content), at);
            PostGood(ask, q, v.turns, v.attempts, v.feed, v.sign) && PostEvolves(p, q) && MergedPost(Some(p), q) == q && p.deletePending == q.deletePending
  {
  }

  /** An edit that is being applied is no longer in flight. */
  lemma Landed(queue: seq<Command>, completions: seq<Completion>, active: set<Operation>)
    requires FlightsApart(queue, completions, active) && completions != [] && completions[0].EditDone?
    ensures !EditQueued(queue, completions[0].ask) && !EditReported(completions[1..], completions[0].ask)
  {
  }

  /** The state while drained completions are still to be applied: they count as in flight. */
  ghost predicate Draining(repo: Repository, publisher: Publisher, relay: Relay, rest: seq<Completion>, active: set<Operation>)
    reads repo, publisher, relay
  {
    && ProgressGood(ViewOf(repo, publisher, relay).(completions := rest, active := active))
    && relay.completions == []
    && (forall i :: 0 <= i < |relay.queue| ==> OpOf(relay.queue[i]) in relay.active)
    && (!relay.background ==> relay.queue == [])
  }

  lemma ApplyStep(v: View)
    requires ProgressGood(v) && v.completions != []
    ensures v.completions[0].ask in v.posts
    ensures var c := v.completions[0];
            var forgotten := v.(completions := v.completions[1..]);
            var w := forgotten.(posts := v.posts[c.ask := AfterCompletion(v.turns, v.posts[c.ask], c)]);
            ProgressGood(forgotten) && ProgressGood(w) && ProgressEvolves(v, w) && ProgressEvolves(v, forgotten)
            && MergedPost(Some(v.posts[c.ask]), w.posts[c.ask]) == w.posts[c.ask]
  {
    hide ProgressEvolves, PostGood, CommandGood, EntryGood, PostEvolves, MergedPost, AfterCompletion, KeepsFlight,
         EntryBacked, CreateBacked;
    var c := v.completions[0];
    var forgotten := v.(completions := v.completions[1..]);
    assert CompletionGood(c, v.posts, v.attempts, v.feed);
    AppliedPostGood(v, c);
    StillActive(v);
    ForgetStep(v, v.queue, v.completions[1..], v.active);
    if c.EditDone? { Landed(v.queue, v.completions, v.active); }
    var q := AfterCompletion(v.turns, v.posts[c.ask], c);
    PostStep(forgotten, c.ask, q);
    ProgressEvolvesTransitive(v, forgotten, forgotten.(posts := v.posts[c.ask := q]));
  }

  lemma StillActive(v: View)
    requires FlightsApart(v.queue, v.completions, v.active)
    ensures forall i :: 0 <= i < |v.queue| ==> OpOf(v.queue[i]) in v.active
    ensures v.completions != [] ==> forall i :: 0 <= i < |v.completions[1..]| ==> OpDone(v.completions[1..][i]) in v.active
  {
  }

  /** Apply the oldest drained completion. */
  method ApplyCompletion(repo: Repository, ghost publisher: Publisher, ghost relay: Relay, c: Completion,
                         ghost rest: seq<Completion>, ghost active: set<Operation>) returns (ok: bool)
    requires Draining(repo, publisher, relay, [c] + rest, active)
    modifies repo`posts, repo`failures
    ensures old(repo.failures) + Misses(ok) <= repo.failures
    ensures Draining(repo, publisher, relay, rest, active)
    ensures ProgressEvolves(old(ViewOf(repo, publisher, relay)), ViewOf(repo, publisher, relay))
    ensures c.ask in old(repo.posts)
    ensures repo.posts == old(repo.posts)[c.ask := AfterCompletion(repo.turns, old(repo.posts[c.ask]), c)]
            || (!ok && repo.posts == old(repo.posts))
  {
    hide ProgressGood, ProgressEvolves, AfterCompletion, MergedPost;
    ghost var v := ViewOf(repo, publisher, relay).(completions := [c] + rest, active := active);
    assert v.completions[1..] == rest;
    ApplyStep(v);
    ok := true;
    if c.ask in repo.posts {
      var q := AfterCompletion(repo.turns, repo.posts[c.ask], c);
      if q == repo.posts[c.ask] {
        assert repo.posts == repo.posts[c.ask := q];
      } else {
        ok := repo.SaveProgressPost(c.ask, q);
      }
    }

    ghost var w := ViewOf(repo, publisher, relay).(completions := rest, active := active);
    assert w == v.(completions := rest) || w == v.(completions := rest, posts := v.posts[c.ask := AfterCompletion(v.turns, v.posts[c.ask], c)]);
    SameRows(v, w, old(ViewOf(repo, publisher, relay)), ViewOf(repo, publisher, relay));
  }

  /** Evolution does not speak about what is in flight. */
  lemma SameRows(v: View, w: View, v': View, w': View)
    requires ProgressEvolves(v, w)
    requires v' == v.(queue := v'.queue, completions := v'.completions, active := v'.active)
    requires w' == w.(queue := w'.queue, completions := w'.completions, active := w'.active)
    ensures ProgressEvolves(v', w')
  {
  }

  /** Apply every completion the worker reported; a failed write drops the rest. */
  method ApplyRelayCompletions(repo: Repository, ghost publisher: Publisher, relay: Relay) returns (ok: bool)
    requires Coherent(repo, publisher, relay)
    modifies repo`posts, relay`completions, relay`active, repo`failures
    ensures old(repo.failures) + Misses(ok) <= repo.failures
    ensures Coherent(repo, publisher, relay) && relay.completions == []
    ensures ProgressEvolves(old(ViewOf(repo, publisher, relay)), ViewOf(repo, publisher, relay))
  {
    hide ProgressGood, ProgressEvolves;
    ghost var v := ViewOf(repo, publisher, relay);
    ghost var active := relay.active;
    ProgressEvolvesReflexive(v);
    QueueOutlivesDrain(v);
    var drained := relay.DrainCompletions();
    var i := 0;
    ok := true;
    assert ViewOf(repo, publisher, relay).(completions := drained[i..], active := active) == v;
    SameRows(v, v, v, ViewOf(repo, publisher, relay));
    while i < |drained| && ok
      invariant 0 <= i <= |drained|
      invariant Draining(repo, publisher, relay, drained[i..], active)
      invariant old(repo.failures) + Misses(ok) <= repo.failures
      invariant ProgressEvolves(v, ViewOf(repo, publisher, relay))
    {
      ghost var w := ViewOf(repo, publisher, relay);
      assert drained[i..] == [drained[i]] + drained[i + 1..];
      ok := ApplyCompletion(repo, publisher, relay, drained[i], drained[i + 1..], active);
      ProgressEvolvesTransitive(v, w, ViewOf(repo, publisher, relay));
      i := i + 1;
    }
    ForgetStep(ViewOf(repo, publisher, relay).(completions := drained[i..], active := active), relay.queue, [], relay.active);
    assert ViewOf(repo, publisher, relay)
        == ViewOf(repo, publisher, relay).(completions := drained[i..], active := active).(completions := [], active := relay.active);
  }

  lemma QueueOutlivesDrain(v: View)
    requires ProgressGood(v)
    ensures forall i :: 0 <= i < |v.queue| ==>
              OpOf(v.queue[i]) in v.active - (set j | 0 <= j < |v.completions| :: OpDone(v.completions[j]))
  {
  }

  /** The worker runs alongside the host: any number of commands may run at any time. */
  method RunWorker(ghost repo: Repository, ghost publisher: Publisher, relay: Relay, now: int)
    requires Coherent(repo, publisher, relay)
    modifies relay
    ensures Coherent(repo, publisher, relay)
    ensures ProgressEvolves(old(ViewOf(repo, publisher, relay)), ViewOf(repo, publisher, relay))
    ensures old(relay.active) <= relay.active
    ensures NoneGivenUp(old(relay.feed), relay.feed)
  {
    hide ProgressGood, ProgressEvolves;
    ghost var v := ViewOf(repo, publisher, relay);
    ProgressEvolvesReflexive(v);
    var steps: nat := *;
    while steps > 0 && relay.queue != []
      invariant Coherent(repo, publisher, relay)
      invariant ProgressEvolves(v, ViewOf(repo, publisher, relay))
      invariant NoneGivenUp(v.feed, relay.feed) && relay.active == v.active
    {
      ghost var w := ViewOf(repo, publisher, relay);
      ghost var verdict := relay.WorkerStep(now);
      WorkerLemma(w, verdict, now);
      assert ViewOf(repo, publisher, relay)
          == w.(queue := w.queue[1..], feed := w.feed + [Ran(w.queue[0], verdict)],
                completions := w.completions + [Completed(w.queue[0], verdict, now, |w.feed|)]);
      ProgressEvolvesTransitive(v, w, ViewOf(repo, publisher, relay));
      steps := steps - 1;
    }
  }

  /** `progress_posts_pending_flush`: rows with relay work left. */
  predicate PendingFlush(p: ProgressPost) {
    (!p.ended && (p.pending.Some? || (p.prepared.Some? && p.postEvent.None?))) || p.deletePending
  }

  /** Every new send is the create of a progress post. */
  ghost predicate OnlyCreates(a: seq<Send>, b: seq<Send>) {
    a <= b && forall i :: |a| <= i < |b| ==> b[i].purpose.ForProgress?
  }

  /** The rows one tick of a bot looks at. */
  predicate Flushable(rows: map<AskId, ProgressPost>, turns: seq<Turn>, bot: BotId, ask: AskId) {
    && ask in rows && PendingFlush(rows[ask]) && OfAsk(turns, ask).Some?
    && turns[OfAsk(turns, ask).value].session.bot == bot
  }

  /** A row whose post the tick must create. */
  predicate MustCreate(rows: map<AskId, ProgressPost>, turns: seq<Turn>, attempts: map<Key, Attempt>, bot: BotId, ask: AskId, now: int) {
    && Flushable(rows, turns, bot, ask) && !rows[ask].ended && turns[OfAsk(turns, ask).value].state.Open?
    && Ask(ask) !in attempts && CreateDue(rows[ask], now)
  }

  /** The create was sent, or given up for good. */
  ghost predicate CreateTried(posts: map<AskId, ProgressPost>, sent: seq<Send>, from: nat, ask: AskId) {
    ask in posts && (posts[ask].ended || exists i :: from <= i < |sent| && sent[i].purpose == ForProgress(ask))
  }

  /** Every row outside `todo` whose post had to be created was tried. */
  ghost predicate CreatesTried(rows: map<AskId, ProgressPost>, turns: seq<Turn>, attempts: map<Key, Attempt>, posts: map<AskId, ProgressPost>,
                               sent: seq<Send>, from: nat, todo: set<AskId>, bot: BotId, now: int) {
    forall ask :: MustCreate(rows, turns, attempts, bot, ask, now) && ask !in todo ==> CreateTried(posts, sent, from, ask)
  }

  /** A row whose post the tick must edit. */
  predicate MustEdit(rows: map<AskId, ProgressPost>, turns: seq<Turn>, attempts: map<Key, Attempt>, bot: BotId, ask: AskId, now: int) {
    && Flushable(rows, turns, bot, ask) && !rows[ask].ended && turns[OfAsk(turns, ask).value].state.Open?
    && Ask(ask) !in attempts && EditDue(rows[ask], now)
  }

  /** The delete or edit that this row owed was handed to the relay. */
  ghost predicate RowHanded(rows: map<AskId, ProgressPost>, v: View, handed: map<AskId, Dispatch>, bot: BotId, ask: AskId, now: int) {
    && (Flushable(rows, v.turns, bot, ask) && rows[ask].deletePending ==>
          ask in handed && HandedDelete(v.active, v.feed, v.posts, ask, handed[ask], true))
    && (MustEdit(rows, v.turns, v.attempts, bot, ask, now) ==>
          ask in handed && ask in v.posts && HandedEdit(v.active, rows[ask], v.posts[ask], ask, now, handed[ask], true))
  }

  /** Every row outside `todo` was. */
  ghost predicate RowsHanded(rows: map<AskId, ProgressPost>, v: View, handed: map<AskId, Dispatch>, todo: set<AskId>, bot: BotId, now: int) {
    forall ask :: ask !in todo ==> RowHanded(rows, v, handed, bot, ask, now)
  }

  lemma HandedOne(rows: map<AskId, ProgressPost>, v: View, w: View, handed: map<AskId, Dispatch>, todo: set<AskId>, ask: AskId,
                  d: Option<Dispatch>, bot: BotId, now: int)
    requires w.turns == v.turns && w.attempts == v.attempts && v.feed <= w.feed && v.active <= w.active
    requires ask in w.posts && w.posts == v.posts[ask := w.posts[ask]]
    requires RowsHanded(rows, v, handed, todo, bot, now) && ask in rows && OfAsk(v.turns, ask).Some?
    requires rows[ask].deletePending ==> d.Some? && HandedDelete(w.active, w.feed, w.posts, ask, d.value, true)
    requires !rows[ask].ended && v.turns[OfAsk(v.turns, ask).value].state.Open? && Ask(ask) !in v.attempts && EditDue(rows[ask], now) ==>
               d.Some? && HandedEdit(w.active, rows[ask], w.posts[ask], ask, now, d.value, true)
    ensures RowsHanded(rows, w, WithHanded(handed, ask, d), todo - {ask}, bot, now)
  {
    hide HandedEdit, HandedDelete, EditDue, PendingFlush;
    var after := WithHanded(handed, ask, d);
    forall a | a !in todo - {ask} ensures RowHanded(rows, w, after, bot, a, now) {
      if a != ask {
        assert RowHanded(rows, v, handed, bot, a, now);
        HandedStays(v, w, a);
        if a in v.posts && a in rows && a in handed { HandedEditStays(v, w, rows[a], a, now, handed[a]); }
      }
    }
  }

  lemma HandedStays(v: View, w: View, ask: AskId)
    requires v.feed <= w.feed && v.active <= w.active
    requires ask in v.posts ==> ask in w.posts && w.posts[ask] == v.posts[ask]
    ensures forall d :: HandedDelete(v.active, v.feed, v.posts, ask, d, true) ==> HandedDelete(w.active, w.feed, w.posts, ask, d, true)
  {
    if ask in v.posts && v.posts[ask].prepared.Some? && DeleteSettled(v.feed, ask, v.posts[ask].prepared.value) {
      SettledStays(v.feed, w.feed, ask, v.posts[ask].prepared.value);
    }
  }

  lemma SettledStays(a: seq<Entry>, b: seq<Entry>, ask: AskId, target: EventId)
    requires a <= b && DeleteSettled(a, ask, target)
    ensures DeleteSettled(b, ask, target)
  {
    var i :| 0 <= i < |a| && a[i].DeleteRan? && a[i].ask == ask && a[i].target == target && !a[i].verdict.NotAccepted?;
    assert b[i] == a[i];
  }

  lemma HandedEditStays(v: View, w: View, p: ProgressPost, ask: AskId, now: int, d: Dispatch)
    requires v.active <= w.active && ask in v.posts && ask in w.posts && w.posts[ask] == v.posts[ask]
    ensures HandedEdit(v.active, p, v.posts[ask], ask, now, d, true) ==> HandedEdit(w.active, p, w.posts[ask], ask, now, d, true)
  {
  }

  lemma NothingHanded(rows: map<AskId, ProgressPost>, v: View, todo: set<AskId>, bot: BotId, now: int)
    requires forall ask :: ask in todo <==> Flushable(rows, v.turns, bot, ask)
    ensures RowsHanded(rows, v, map[], todo, bot, now)
  {
  }

  lemma FlushedOne(rows: map<AskId, ProgressPost>, v: View, w: View, from: nat, todo: set<AskId>, ask: AskId, bot: BotId, now: int)
    requires w.turns == v.turns && w.attempts == v.attempts && v.sent <= w.sent && ask in w.posts && w.posts == v.posts[ask := w.posts[ask]]
    requires CreatesTried(rows, v.turns, v.attempts, v.posts, v.sent, from, todo, bot, now)
    requires MustCreate(rows, v.turns, v.attempts, bot, ask, now) ==> CreateTried(w.posts, w.sent, from, ask)
    ensures CreatesTried(rows, w.turns, w.attempts, w.posts, w.sent, from, todo - {ask}, bot, now)
  {
  }

  lemma AllFlushable(rows: map<AskId, ProgressPost>, turns: seq<Turn>, attempts: map<Key, Attempt>, sent: seq<Send>, todo: set<AskId>, bot: BotId, now: int)
    requires forall ask :: ask in todo <==> Flushable(rows, turns, bot, ask)
    ensures CreatesTried(rows, turns, attempts, rows, sent, |sent|, todo, bot, now)
  {
  }

  /** What flushing one row did; the worker may have run in the meantime. */
  ghost predicate RowFlushed(v: View, w: View, ask: AskId, post: ProgressPost, d: Option<Dispatch>, now: int, ok: bool)
    requires OfAsk(v.turns, ask).Some?
  {
    var live := !post.ended && v.turns[OfAsk(v.turns, ask).value].state.Open? && Ask(ask) !in v.attempts;
    && ProgressEvolves(v, w) && w.turns == v.turns && w.attempts == v.attempts
    && v.active <= w.active && OnlyDrops(v.feed, w.feed) && OnlyCreates(v.sent, w.sent)
    && ask in w.posts && w.posts == v.posts[ask := w.posts[ask]]
    && (ok && live && CreateDue(post, now) ==>
          w.posts[ask].ended || (|w.sent| > |v.sent| && w.sent[|v.sent|].purpose == ForProgress(ask)))
    && (live && EditDue(post, now) ==> d.Some? && HandedEdit(w.active, post, w.posts[ask], ask, now, d.value, ok))
    && (post.deletePending ==> d.Some? && HandedDelete(w.active, w.feed, w.posts, ask, d.value, ok))
  }

  /** What holds of a tick that has `todo` still to flush. */
  ghost predicate Flushing(v: View, w: View, rows: map<AskId, ProgressPost>, handed: map<AskId, Dispatch>, todo: set<AskId>,
                           bot: BotId, now: int, ok: bool) {
    && ProgressEvolves(v, w) && OnlyDrops(v.feed, w.feed) && OnlyCreates(v.sent, w.sent)
    && (ok ==> RowsHanded(rows, w, handed, todo, bot, now))
    && (ok ==> CreatesTried(rows, w.turns, w.attempts, w.posts, w.sent, |v.sent|, todo, bot, now))
    && (forall ask :: ask in todo ==> ask in rows && ask in w.posts && w.posts[ask] == rows[ask] && OfAsk(w.turns, ask).Some?)
  }

  function WithHanded(handed: map<AskId, Dispatch>, ask: AskId, d: Option<Dispatch>): map<AskId, Dispatch> {
    if d.Some? then handed[ask := d.value] else handed
  }

  lemma FlushingStep(v: View, w: View, x: View, rows: map<AskId, ProgressPost>, handed: map<AskId, Dispatch>, todo: set<AskId>,
                     ask: AskId, d: Option<Dispatch>, bot: BotId, now: int, ok: bool)
    requires Flushing(v, w, rows, handed, todo, bot, now, true) && ask in todo && OfAsk(w.turns, ask).Some?
    requires ask in rows && RowFlushed(w, x, ask, rows[ask], d, now, ok)
    ensures Flushing(v, x, rows, if ok then WithHanded(handed, ask, d) else handed, todo - {ask}, bot, now, ok)
  {
    hide ProgressEvolves, OnlyDrops, OnlyCreates, RowsHanded, CreatesTried, HandedEdit, HandedDelete, CreateDue, EditDue, MustCreate;
    ProgressEvolvesTransitive(v, w, x);
    OnlyDropsTransitive(v.feed, w.feed, x.feed);
    OnlyCreatesTransitive(v.sent, w.sent, x.sent);
    LogsGrow(w, x);
    if ok {
      HandedOne(rows, w, x, handed, todo, ask, d, bot, now);
      MustBeTried(rows, w, x, |v.sent|, ask, bot, now);
      FlushedOne(rows, w, x, |v.sent|, todo, ask, bot, now);
    }
  }

  lemma FlushingStarts(v: View, w: View, todo: set<AskId>, bot: BotId, now: int)
    requires ProgressEvolves(v, w) && w.sent == v.sent && w.feed == v.feed
    requires forall ask :: ask in todo <==> Flushable(w.posts, w.turns, bot, ask)
    ensures Flushing(v, w, w.posts, map[], todo, bot, now, true)
  {
    hide ProgressEvolves;
    OnlyCreatesReflexive(w.sent);
    OnlyDropsReflexive(w.feed);
    NothingHanded(w.posts, w, todo, bot, now);
    AllFlushable(w.posts, w.turns, w.attempts, w.sent, todo, bot, now);
  }

  lemma FlushingRow(v: View, w: View, rows: map<AskId, ProgressPost>, handed: map<AskId, Dispatch>, todo: set<AskId>, ask: AskId,
                    bot: BotId, now: int)
    requires Flushing(v, w, rows, handed, todo, bot, now, true) && ask in todo
    ensures ask in rows && ask in w.posts && w.posts[ask] == rows[ask] && OfAsk(w.turns, ask).Some?
  {
  }

  /** The refresh tick of one bot: apply what the worker reported, then flush every pending row once. */
  method FlushTick(repo: Repository, publisher: Publisher, relay: Relay, bot: BotId, now: int)
    returns (ok: bool, ghost rows: map<AskId, ProgressPost>, ghost handed: map<AskId, Dispatch>)
    requires Coherent(repo, publisher, relay)
    modifies repo`posts, relay, publisher`sent, repo`failures
    ensures old(repo.failures) + Misses(ok) <= repo.failures
    ensures Coherent(repo, publisher, relay)
    ensures ProgressEvolves(old(ViewOf(repo, publisher, relay)), ViewOf(repo, publisher, relay))
    ensures OnlyDrops(old(relay.feed), relay.feed)
    ensures OnlyCreates(old(publisher.sent), publisher.sent)
    ensures ok ==> CreatesTried(rows, repo.turns, repo.attempts, repo.posts, publisher.sent, |old(publisher.sent)|, {}, bot, now)
    ensures ok ==> RowsHanded(rows, ViewOf(repo, publisher, relay), handed, {}, bot, now)
  {
    hide ProgressGood, Flushing, RowFlushed, Flushable;
    ghost var v := ViewOf(repo, publisher, relay);
    ok := ApplyRelayCompletions(repo, publisher, relay);
    var read := repo.posts;
    rows, handed := read, map[];
    var todo := set ask | ask in read && Flushable(read, repo.turns, bot, ask);
    FlushableRows(read, repo.turns, bot);
    FlushingStarts(v, ViewOf(repo, publisher, relay), todo, bot, now);
    Failing(v, ViewOf(repo, publisher, relay), rows, handed, todo, bot, now, ok);
    while ok && todo != {}
      invariant Coherent(repo, publisher, relay)
      invariant Flushing(v, ViewOf(repo, publisher, relay), rows, handed, todo, bot, now, ok)
      invariant old(repo.failures) + Misses(ok) <= repo.failures
      decreases |todo|
    {
      var ask :| ask in todo;
      ghost var w := ViewOf(repo, publisher, relay);
      FlushingRow(v, w, rows, handed, todo, ask, bot, now);
      ghost var d: Option<Dispatch>;
      ok, d := FlushRow(repo, publisher, relay, ask, read[ask], now);
      FlushingStep(v, w, ViewOf(repo, publisher, relay), rows, handed, todo, ask, d, bot, now, ok);
      handed := if ok then WithHanded(handed, ask, d) else handed;
      todo := todo - {ask};
    }
    Flushed(v, ViewOf(repo, publisher, relay), rows, handed, todo, bot, now, ok);
  }

  lemma Failing(v: View, w: View, rows: map<AskId, ProgressPost>, handed: map<AskId, Dispatch>, todo: set<AskId>, bot: BotId, now: int, ok: bool)
    requires Flushing(v, w, rows, handed, todo, bot, now, true)
    ensures Flushing(v, w, rows, handed, todo, bot, now, ok)
  {
  }

  lemma Flushed(v: View, w: View, rows: map<AskId, ProgressPost>, handed: map<AskId, Dispatch>, todo: set<AskId>, bot: BotId, now: int, ok: bool)
    requires Flushing(v, w, rows, handed, todo, bot, now, ok) && (ok ==> todo == {})
    ensures ProgressEvolves(v, w) && OnlyDrops(v.feed, w.feed) && OnlyCreates(v.sent, w.sent)
    ensures ok ==> CreatesTried(rows, w.turns, w.attempts, w.posts, w.sent, |v.sent|, {}, bot, now)
    ensures ok ==> RowsHanded(rows, w, handed, {}, bot, now)
  {
  }

  lemma FlushableRows(rows: map<AskId, ProgressPost>, turns: seq<Turn>, bot: BotId)
    ensures forall ask :: Flushable(rows, turns, bot, ask) ==> ask in rows && OfAsk(turns, ask).Some?
  {
  }

  lemma OnlyDropsReflexive(a: seq<Entry>)
    ensures OnlyDrops(a, a)
  {
  }

  lemma OnlyCreatesReflexive(a: seq<Send>)
    ensures OnlyCreates(a, a)
  {
  }

  lemma OnlyCreatesTransitive(a: seq<Send>, b: seq<Send>, c: seq<Send>)
    requires OnlyCreates(a, b) && OnlyCreates(b, c)
    ensures OnlyCreates(a, c) && |a| <= |b| && b <= c
  {
  }

  /** One row of the tick; the worker may have run in the meantime. */
  method FlushRow(repo: Repository, publisher: Publisher, relay: Relay, ask: AskId, post: ProgressPost, now: int)
    returns (ok: bool, ghost handed: Option<Dispatch>)
    requires Coherent(repo, publisher, relay) && OfAsk(repo.turns, ask).Some?
    requires ask in repo.posts && repo.posts[ask] == post
    modifies repo`posts, relay, publisher`sent, repo`failures
    ensures old(repo.failures) + Misses(ok) <= repo.failures
    ensures Coherent(repo, publisher, relay)
    ensures RowFlushed(old(ViewOf(repo, publisher, relay)), ViewOf(repo, publisher, relay), ask, post, handed, now, ok)
  {
    hide ProgressGood, ProgressEvolves, PostGood, HandedEdit, HandedDelete, CreateDue, EditDue, GivesUp;
    ghost var w := ViewOf(repo, publisher, relay);
    RunWorker(repo, publisher, relay, now);
    ghost var x := ViewOf(repo, publisher, relay);
    ok, handed := FlushProgress(repo, publisher, relay, repo.turns[OfAsk(repo.turns, ask).value], ask, post, now);
    ProgressEvolvesTransitive(w, x, ViewOf(repo, publisher, relay));
    LogsGrow(x, ViewOf(repo, publisher, relay));
  }

  lemma MustBeTried(rows: map<AskId, ProgressPost>, v: View, w: View, from: nat, ask: AskId, bot: BotId, now: int)
    requires ask in rows && ask in w.posts && OfAsk(v.turns, ask).Some? && from <= |v.sent|
    requires !rows[ask].ended && v.turns[OfAsk(v.turns, ask).value].state.Open? && Ask(ask) !in v.attempts && CreateDue(rows[ask], now) ==>
               w.posts[ask].ended || (|w.sent| > |v.sent| && w.sent[|v.sent|].purpose == ForProgress(ask))
    ensures MustCreate(rows, v.turns, v.attempts, bot, ask, now) ==> CreateTried(w.posts, w.sent, from, ask)
  {
  }

  lemma LogsGrow(v: View, w: View)
    requires ProgressEvolves(v, w)
    ensures v.sent <= w.sent && v.feed <= w.feed
  {
  }
}
