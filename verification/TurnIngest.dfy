/** What the actor does with a relay event: a trigger, an edit or delete of one, or a watch fire. */
module TurnIngest {
  import opened Wrappers
  import opened HostStore
  import opened RelayPublisher
  import opened ProgressRelay
  import opened ProgressTheory
  import opened Progress
  import opened OutboxTheory
  import opened Outbox
  import opened OutboxTells
  import opened TurnQueueTheory
  import opened TurnQueue

  /** No session with an open turn, and `event` is its oldest queued work. */
  predicate ShouldAsk(turns: seq<Turn>, session: Session, event: EventId) {
    && OpenOf(turns, session).None?
    && OldestQueued(turns, session).Some? && turns[OldestQueued(turns, session).value].event == event
  }

  // ---- statements ----

  /** Of the turns that were asked only the one named is cancelled, and no post is given up. */
  ghost predicate EndsOnly(before: Run, after: Run, row: Option<nat>) {
    && CancelsOnly(before.queue.turns, after.queue.turns, row)
    && NoneGivenUp(before.world.progress.feed, after.world.progress.feed)
  }

  /** The rest of a handler cancels nothing more. */
  lemma EndsRun(a: Run, b: Run, c: Run, row: Option<nat>)
    requires RunEvolves(a, b) && EndsOnly(a, b, row)
    requires RunAdvances(b, c) && NoneGivenUp(b.world.progress.feed, c.world.progress.feed)
    ensures RunEvolves(a, c) && EndsOnly(a, c, row)
  {
    hide RunEvolves, NoneGivenUp;
    RunEvolvesTransitive(a, b, c);
    NoneGivenUpTransitive(a.world.progress.feed, b.world.progress.feed, c.world.progress.feed);
    CancelsKept(a, b, c, row);
  }

  lemma CancelsKept(a: Run, b: Run, c: Run, row: Option<nat>)
    requires CancelsOnly(a.queue.turns, b.queue.turns, row) && NoneCancelled(b.queue.turns, c.queue.turns)
    ensures CancelsOnly(a.queue.turns, c.queue.turns, row)
  {
  }

  method EnqueueTrigger(repo: Repository, ghost publisher: Publisher, ghost relay: Relay, work: NewTurn)
    returns (ok: bool, isNew: bool)
    requires Serving(repo, publisher, relay) && Enqueueable(work) && work.event.Relay?
    modifies repo`turns, repo`processed, repo`failures
    ensures old(repo.failures) + Misses(ok) <= repo.failures
    ensures Serving(repo, publisher, relay)
    ensures RunAdvances(old(RunOf(repo, publisher, relay)), RunOf(repo, publisher, relay))
    ensures isNew == (work.event !in old(repo.processed))
    ensures || (repo.processed == old(repo.processed) + {work.event}
                && repo.turns == if isNew then Enqueued(old(repo.turns), work) else old(repo.turns))
            || (!ok && repo.processed == old(repo.processed) && repo.turns == old(repo.turns))
  {
    hide OutboxGood, ProgressGood, Evolves, QueueGood, QueueEvolves;
    ghost var w := WorldOf(repo, publisher, relay);
    ghost var q := QueueOf(repo);
    RunAdvancesReflexive(RunOf(repo, publisher, relay));
    ProcessedQueueStep(q, work.event);
    if work.event !in q.processed {
      TriggerQueueStep(q, work);
      QueueRun(w, q, q.(turns := Enqueued(q.turns, work), processed := q.processed + {work.event}));
    }
    ok, isNew := repo.EnqueueUnprocessedTurn(work);
    if repo.turns == q.turns {
      assert WorldOf(repo, publisher, relay) == w;
      assert QueueOf(repo) == q || QueueOf(repo) == q.(processed := q.processed + {work.event});
    } else {
      assert WorldOf(repo, publisher, relay) == World(w.outbox.(turns := repo.turns), w.progress.(turns := repo.turns));
      assert QueueOf(repo) == q.(turns := repo.turns, processed := repo.processed);
    }
  }

  lemma CancelCancels(turns: seq<Turn>, event: EventId)
    ensures CancelsOnly(turns, turns, UnclaimedOf(turns, event))
    ensures UnclaimedOf(turns, event).Some? ==>
              var i := UnclaimedOf(turns, event).value;
              CancelsOnly(turns, turns[i := turns[i].(state := Cancelled, claimed := false)], Some(i))
  {
  }

  method CancelUnclaimed(repo: Repository, ghost publisher: Publisher, ghost relay: Relay, event: EventId)
    returns (ok: bool, row: Option<nat>)
    requires Serving(repo, publisher, relay)
    modifies repo`turns, repo`failures
    ensures old(repo.failures) + Misses(ok) <= repo.failures
    ensures Serving(repo, publisher, relay)
    ensures RunEvolves(old(RunOf(repo, publisher, relay)), RunOf(repo, publisher, relay))
    ensures EndsOnly(old(RunOf(repo, publisher, relay)), RunOf(repo, publisher, relay), UnclaimedOf(old(repo.turns), event))
    ensures row == UnclaimedOf(old(repo.turns), event)
    ensures || (repo.turns == match row
                              case None => old(repo.turns)
                              case Some(i) => old(repo.turns)[i := old(repo.turns)[i].(state := Cancelled, claimed := false)])
            || (!ok && repo.turns == old(repo.turns))
  {
    hide OutboxGood, ProgressGood, Evolves, QueueGood, QueueEvolves, CancelsOnly;
    ghost var w := WorldOf(repo, publisher, relay);
    ghost var q := QueueOf(repo);
    RunEvolvesReflexive(RunOf(repo, publisher, relay));
    TurnsOf(w.outbox);
    CancelCancels(repo.turns, event);
    CancelStep(repo.turns, event);
    CloseQueueStep(q, CancelledUnclaimed(q.turns, event));
    QueueRun(w, q, q.(turns := CancelledUnclaimed(q.turns, event)));
    ok, row := repo.CancelUnclaimedTurn(event);
    assert repo.turns != q.turns ==> WorldOf(repo, publisher, relay) == World(w.outbox.(turns := repo.turns), w.progress.(turns := repo.turns));
    assert repo.turns != q.turns ==> QueueOf(repo) == q.(turns := repo.turns);
    assert repo.turns == q.turns ==> WorldOf(repo, publisher, relay) == w && QueueOf(repo) == q;
  }

  lemma ReplaceCancels(turns: seq<Turn>, work: NewTurn)
    ensures CancelsOnly(turns, turns, UnclaimedOf(turns, work.event))
    ensures UnclaimedOf(turns, work.event).Some? ==>
              var i := UnclaimedOf(turns, work.event).value;
              CancelsOnly(turns, Enqueued(turns[i := turns[i].(state := Cancelled, claimed := false)], work), Some(i))
  {
  }

  method ReplaceUnclaimed(repo: Repository, ghost publisher: Publisher, ghost relay: Relay, work: NewTurn)
    returns (ok: bool, row: Option<nat>)
    requires Serving(repo, publisher, relay) && Enqueueable(work)
    modifies repo`turns, repo`replaced, repo`failures
    ensures old(repo.failures) + Misses(ok) <= repo.failures
    ensures Serving(repo, publisher, relay)
    ensures RunEvolves(old(RunOf(repo, publisher, relay)), RunOf(repo, publisher, relay))
    ensures EndsOnly(old(RunOf(repo, publisher, relay)), RunOf(repo, publisher, relay), UnclaimedOf(old(repo.turns), work.event))
    ensures row == UnclaimedOf(old(repo.turns), work.event)
    ensures || (row.Some? && repo.replaced == old(repo.replaced) + multiset{work.event}
                && repo.turns == Enqueued(old(repo.turns)[row.value := old(repo.turns)[row.value].(state := Cancelled, claimed := false)], work))
            || ((row.None? || !ok) && repo.turns == old(repo.turns) && repo.replaced == old(repo.replaced))
  {
    hide OutboxGood, ProgressGood, Evolves, QueueGood, QueueEvolves, CancelsOnly, UnclaimedOf, LatestCancelled;
    ghost var w := WorldOf(repo, publisher, relay);
    ghost var q := QueueOf(repo);
    RunEvolvesReflexive(RunOf(repo, publisher, relay));
    TurnsOf(w.outbox);
    CancelStep(repo.turns, work.event);
    ghost var after := Enqueued(CancelledUnclaimed(q.turns, work.event), work);
    ReplaceCancels(repo.turns, work);
    if UnclaimedOf(q.turns, work.event).Some? {
      ReplaceQueueStep(q, work);
      QueueRun(w, q, q.(turns := after, replaced := q.replaced + multiset{work.event}));
    }
    ok, row := repo.ReplaceUnclaimedTurn(work);
    if repo.turns == q.turns && repo.replaced == q.replaced {
      assert WorldOf(repo, publisher, relay) == w && QueueOf(repo) == q;
    } else {
      assert WorldOf(repo, publisher, relay) == World(w.outbox.(turns := repo.turns), w.progress.(turns := repo.turns));
      assert QueueOf(repo) == q.(turns := repo.turns, replaced := repo.replaced);
    }
  }

  /** A wake is recorded before its turn is queued, and only a newly recorded wake is queued. */
  method RecordWake(repo: Repository, ghost publisher: Publisher, ghost relay: Relay, wake: EventId) returns (ok: bool, isNew: bool)
    requires Serving(repo, publisher, relay) && wake.Wake?
    modifies repo`wakes, repo`failures
    ensures old(repo.failures) + Misses(ok) <= repo.failures
    ensures Serving(repo, publisher, relay)
    ensures RunAdvances(old(RunOf(repo, publisher, relay)), RunOf(repo, publisher, relay))
    ensures isNew == (wake !in old(repo.wakes))
    ensures repo.wakes == old(repo.wakes) + {wake} || (!ok && repo.wakes == old(repo.wakes))
    ensures isNew ==> LiveOf(repo.turns, wake).None? && TurnCount(repo.turns, wake) == 0 && FailureNotice(wake) !in repo.attempts
  {
    hide OutboxGood, ProgressGood, Evolves, QueueGood, QueueEvolves;
    ghost var q := QueueOf(repo);
    RunAdvancesReflexive(RunOf(repo, publisher, relay));
    WakeQueueStep(q, wake);
    if wake !in q.wakes { FirstSeen(q, wake); }
    ok, isNew := repo.RecordWatchFire(wake);
    assert QueueOf(repo) == q || QueueOf(repo) == q.(wakes := q.wakes + {wake});
  }

  method EnqueueWake(repo: Repository, ghost publisher: Publisher, ghost relay: Relay, work: NewTurn) returns (ok: bool)
    requires Serving(repo, publisher, relay) && Enqueueable(work) && work.event.Wake? && work.event in repo.wakes
    requires LiveOf(repo.turns, work.event).None? && TurnCount(repo.turns, work.event) == 0 && FailureNotice(work.event) !in repo.attempts
    modifies repo`turns, repo`failures
    ensures old(repo.failures) + Misses(ok) <= repo.failures
    ensures Serving(repo, publisher, relay)
    ensures RunAdvances(old(RunOf(repo, publisher, relay)), RunOf(repo, publisher, relay))
    ensures repo.turns == Enqueued(old(repo.turns), work) || (!ok && repo.turns == old(repo.turns))
  {
    hide OutboxGood, ProgressGood, Evolves, QueueGood, QueueEvolves;
    ghost var w := WorldOf(repo, publisher, relay);
    ghost var q := QueueOf(repo);
    RunAdvancesReflexive(RunOf(repo, publisher, relay));
    EnqueueQueueStep(q, work, false);
    QueueRun(w, q, q.(turns := Enqueued(q.turns, work)));
    ok := repo.EnqueueTurn(work);
    assert repo.turns != q.turns ==> WorldOf(repo, publisher, relay) == World(w.outbox.(turns := repo.turns), w.progress.(turns := repo.turns));
    assert repo.turns != q.turns ==> QueueOf(repo) == q.(turns := repo.turns);
    assert repo.turns == q.turns ==> WorldOf(repo, publisher, relay) == w && QueueOf(repo) == q;
  }

  /** End the progress of a cancelled ask. */
  method EndProgress(repo: Repository, ghost publisher: Publisher, relay: Relay, ask: AskId, now: int) returns (ok: bool)
    requires Serving(repo, publisher, relay)
    modifies repo`posts, relay, repo`failures
    ensures old(repo.failures) + Misses(ok) <= repo.failures
    ensures Serving(repo, publisher, relay)
    ensures RunAdvances(old(RunOf(repo, publisher, relay)), RunOf(repo, publisher, relay))
    ensures NoneGivenUp(old(relay.feed), relay.feed)
    ensures ok ==> (Covered(repo.posts, relay.feed, ask) <==> !LetGo(old(repo.posts), old(relay.feed), ask))
  {
    hide OutboxGood, ProgressGood, OutboxEvolves, ProgressEvolves, QueueGood, QueueEvolves, Covered, LetGo;
    ghost var a := RunOf(repo, publisher, relay);
    RunAdvancesReflexive(a);
    ok := DeleteProgressPost(repo, publisher, relay, ask, now);
    assert WorldOf(repo, publisher, relay).outbox == a.world.outbox && QueueOf(repo) == a.queue;
  }

  // ---- triggers and wakes ----

  /** A new trigger or wake adds exactly one turn, at the end of the table; anything else adds none. */
  ghost predicate IngestOutcome(before: QueueView, after: QueueView, work: NewTurn, isNew: bool, r: Handled) {
    && before.replaced == after.replaced
    && (r.LeftQueued? || r.Asked? || r.KelpieError? ==>
          isNew && |after.turns| == |before.turns| + 1
          && after.turns[|before.turns|].event == work.event && after.turns[|before.turns|].session == work.session)
    && (r.LeftQueued? ==> !ShouldAsk(after.turns, work.session, work.event))
    && (r.Declined? || r.Duplicate? ==> after.turns == before.turns && after.openings == before.openings)
    && |after.turns| <= |before.turns| + 1
  }

  lemma EnqueuedShape(turns: seq<Turn>, work: NewTurn)
    ensures |Enqueued(turns, work)| == |turns| + 1
    ensures Enqueued(turns, work)[|turns|].event == work.event && Enqueued(turns, work)[|turns|].session == work.session
  {
  }

  /** The same rows, in the same places; work was started, or left queued. */
  ghost predicate StartOutcome(before: QueueView, after: QueueView, r: Handled) {
    && before.replaced == after.replaced && before.processed == after.processed
    && |after.turns| == |before.turns|
    && (forall i :: 0 <= i < |before.turns| ==>
          after.turns[i].event == before.turns[i].event && after.turns[i].session == before.turns[i].session)
    && (r.LeftQueued? || r.Asked? || r.KelpieError? || r.Interrupted?)
  }

  /** Ask the session's oldest work when that is `event` and nothing is open. */
  method StartOrLeave(repo: Repository, publisher: Publisher, ghost relay: Relay, session: Session, event: EventId, now: int)
    returns (r: Handled)
    requires Serving(repo, publisher, relay)
    modifies repo`turns, repo`openings, publisher`marked, repo`failures
    ensures old(repo.failures) + Misses(!r.Interrupted? && !r.CancelFailed?) <= repo.failures
    ensures Serving(repo, publisher, relay)
    ensures RunAdvances(old(RunOf(repo, publisher, relay)), RunOf(repo, publisher, relay))
    ensures StartOutcome(old(QueueOf(repo)), QueueOf(repo), r)
    ensures !r.Interrupted? && MarkersExact(old(repo.turns), old(publisher.marked)) ==> MarkersExact(repo.turns, publisher.marked)
    ensures r.LeftQueued? <==> !ShouldAsk(old(repo.turns), session, event)
    ensures r.LeftQueued? ==> QueueOf(repo) == old(QueueOf(repo))
  {
    hide OutboxGood, ProgressGood, Evolves, QueueGood, QueueEvolves, MarkersExact, RunAdvances;
    ghost var a := RunOf(repo, publisher, relay);
    RunAdvancesReflexive(a);
    if !ShouldAsk(repo.turns, session, event) {
      return LeftQueued;
    }
    r := AskOldestQueued(repo, publisher, relay, session, now);
    RowsKept(a, RunOf(repo, publisher, relay));
  }

  /** Persist a trigger and start the channel's occupant on it, or leave it queued. */
  method HandleTrigger(repo: Repository, publisher: Publisher, ghost relay: Relay, session: Session, id: nat, accepted: bool, now: int)
    returns (r: Handled)
    requires Serving(repo, publisher, relay)
    modifies repo`turns, repo`processed, repo`openings, publisher`marked, repo`failures
    ensures old(repo.failures) + Misses(!r.Interrupted? && !r.CancelFailed?) <= repo.failures
    ensures Serving(repo, publisher, relay)
    ensures RunAdvances(old(RunOf(repo, publisher, relay)), RunOf(repo, publisher, relay))
    ensures IngestOutcome(old(QueueOf(repo)), QueueOf(repo), NewTurn(session, Relay(id), Some(Relay(id))), Relay(id) !in old(repo.processed), r)
    ensures !r.Interrupted? ==> Relay(id) in repo.processed
    ensures !r.Interrupted? && MarkersExact(old(repo.turns), old(publisher.marked)) ==> MarkersExact(repo.turns, publisher.marked)
  {
    hide OutboxGood, ProgressGood, Evolves, QueueGood, QueueEvolves, MarkersExact, RunAdvances, LiveOf, Enqueued,
         ShouldAsk, SameLiveElsewhere, First, TurnCount;
    ghost var a := RunOf(repo, publisher, relay);
    var event := Relay(id);
    var ok: bool;
    if !accepted { // the author is not authorized
      ok := MarkProcessed(repo, publisher, relay, event);
      return if ok then Declined else Interrupted;
    }
    var work := NewTurn(session, event, Some(event));
    EnqueueMarks(repo.turns, work);
    EnqueuedShape(repo.turns, work);
    var isNew: bool;
    ok, isNew := EnqueueTrigger(repo, publisher, relay, work);
    if !ok {
      return Interrupted;
    }
    if !isNew {
      return Duplicate;
    }

    ghost var b := RunOf(repo, publisher, relay);
    if MarkersExact(a.queue.turns, publisher.marked) { Mark(a.queue.turns, repo.turns, event, publisher.marked); }
    publisher.AddMarker(event);
    r := StartOrLeave(repo, publisher, relay, session, event, now);
    RunAdvancesTransitive(a, b, RunOf(repo, publisher, relay));
  }

  lemma RowsKept(a: Run, b: Run)
    requires RunAdvances(a, b)
    ensures |a.queue.turns| <= |b.queue.turns|
    ensures forall i :: 0 <= i < |a.queue.turns| ==>
              b.queue.turns[i].event == a.queue.turns[i].event && b.queue.turns[i].session == a.queue.turns[i].session
  {
  }

  /** Queue a watch fire on its session; its answer is not published. */
  method HandleWatchFire(repo: Repository, publisher: Publisher, ghost relay: Relay, session: Session, id: nat, now: int)
    returns (r: Handled)
    requires Serving(repo, publisher, relay)
    modifies repo`turns, repo`wakes, repo`openings, publisher`marked, repo`failures
    ensures old(repo.failures) + Misses(!r.Interrupted? && !r.CancelFailed?) <= repo.failures
    ensures Serving(repo, publisher, relay)
    ensures RunAdvances(old(RunOf(repo, publisher, relay)), RunOf(repo, publisher, relay))
    ensures IngestOutcome(old(QueueOf(repo)), QueueOf(repo), NewTurn(session, Wake(id), None), Wake(id) !in old(repo.wakes), r)
    ensures !r.Interrupted? && MarkersExact(old(repo.turns), old(publisher.marked)) ==> MarkersExact(repo.turns, publisher.marked)
  {
    hide OutboxGood, ProgressGood, Evolves, QueueGood, QueueEvolves, MarkersExact, RunAdvances, LiveOf, Enqueued,
         ShouldAsk, SameLiveElsewhere, First, TurnCount;
    ghost var a := RunOf(repo, publisher, relay);
    var work := NewTurn(session, Wake(id), None);
    EnqueueMarks(repo.turns, work);
    EnqueuedShape(repo.turns, work);
    if MarkersExact(repo.turns, publisher.marked) { StayMarked(repo.turns, Enqueued(repo.turns, work), work.event, publisher.marked); }
    var ok, isNew := RecordWake(repo, publisher, relay, work.event);
    if !ok {
      return Interrupted;
    }
    if !isNew {
      return Duplicate;
    }

    ghost var b := RunOf(repo, publisher, relay);
    ok := EnqueueWake(repo, publisher, relay, work);
    ghost var c := RunOf(repo, publisher, relay);
    RunAdvancesTransitive(a, b, c);
    if !ok {
      return Interrupted;
    }
    r := StartOrLeave(repo, publisher, relay, session, work.event, now);
    RunAdvancesTransitive(a, c, RunOf(repo, publisher, relay));
  }

  // ---- edits and deletes of a trigger ----

  /** What cancelling or replacing did to the progress of the ask that was open, if one was. */
  ghost predicate ProgressOver(before: Run, after: Run, row: nat) {
    && row < |before.queue.turns|
    && (before.queue.turns[row].ask.Some? ==>
          var ask := before.queue.turns[row].ask.value;
          Covered(after.world.progress.posts, after.world.progress.feed, ask)
          <==> !LetGo(before.world.progress.posts, before.world.progress.feed, ask))
  }

  /** Tell the occupant, and end the ask's progress even when that fails. */
  method EndAsk(repo: Repository, ghost publisher: Publisher, relay: Relay, ask: Option<AskId>, now: int)
    returns (ok: bool, told: bool)
    requires Serving(repo, publisher, relay)
    modifies repo`posts, relay, repo`failures
    ensures old(repo.failures) + Misses(ok && told) <= repo.failures
    ensures Serving(repo, publisher, relay)
    ensures RunAdvances(old(RunOf(repo, publisher, relay)), RunOf(repo, publisher, relay))
    ensures NoneGivenUp(old(relay.feed), relay.feed)
    ensures ok && ask.Some? ==> (Covered(repo.posts, relay.feed, ask.value) <==> !LetGo(old(repo.posts), old(relay.feed), ask.value))
    ensures ask.None? ==> ok && told
  {
    hide Covered, LetGo;
    RunAdvancesReflexive(RunOf(repo, publisher, relay));
    ok, told := true, true;
    if ask.Some? {
      told := *;
      if !told { repo.LoseCancel(); }
      ok := EndProgress(repo, publisher, relay, ask.value, now);
    }
  }

  /** The rest of the queue changed; the posts did not. */
  lemma ProgressOverKept(a: Run, b: Run, c: Run, row: nat)
    requires ProgressOver(a, b, row)
    requires c.world.progress.posts == b.world.progress.posts && c.world.progress.feed == b.world.progress.feed
    ensures ProgressOver(a, c, row)
  {
  }

  /** How an edit or delete ended for the turn it named. */
  ghost predicate AbandonOutcome(before: Run, after: Run, target: EventId, r: Handled) {
    match UnclaimedOf(before.queue.turns, target)
    case None => (r.Declined? || r.Interrupted?) && after.queue.turns == before.queue.turns && after.world.progress == before.world.progress
    case Some(i) =>
      && !r.Declined?
      && (!r.Interrupted? ==> ProgressOver(before, after, i) && i < |after.queue.turns| && after.queue.turns[i].state.Cancelled?)
  }

  /**
   Cancel the unclaimed turn of an event. When the occupant could not be told, the marker stays
   up although nothing is in flight: that is the only way it is left behind.
   */
  method AbandonUnclaimed(repo: Repository, publisher: Publisher, relay: Relay, bot: BotId, event: EventId, target: EventId, now: int)
    returns (r: Handled)
    requires Serving(repo, publisher, relay)
    modifies repo`turns, repo`processed, repo`openings, repo`attempts, repo`posts, relay, publisher`marked, repo`failures
    ensures old(repo.failures) + Misses(!r.Interrupted? && !r.CancelFailed?) <= repo.failures
    ensures Serving(repo, publisher, relay)
    ensures RunEvolves(old(RunOf(repo, publisher, relay)), RunOf(repo, publisher, relay))
    ensures EndsOnly(old(RunOf(repo, publisher, relay)), RunOf(repo, publisher, relay), UnclaimedOf(old(repo.turns), target))
    ensures OnlyNotices(old(repo.attempts), repo.attempts)
    ensures AbandonOutcome(old(RunOf(repo, publisher, relay)), RunOf(repo, publisher, relay), target, r)
    ensures if r.CancelFailed? then repo.processed == old(repo.processed) else r.Interrupted? || event in repo.processed
    ensures !r.Interrupted? && !r.CancelFailed? && MarkersExact(old(repo.turns), old(publisher.marked)) ==>
              MarkersExact(repo.turns, publisher.marked)
    ensures r.CancelFailed? && target.Relay? && MarkersExact(old(repo.turns), old(publisher.marked)) ==>
              !MarkersExact(repo.turns, publisher.marked)
  {
    hide OutboxGood, ProgressGood, Evolves, QueueGood, QueueEvolves, RunEvolves, RunAdvances, EndsOnly, MarkersExact, ProgressOver,
         LiveOf, UnclaimedOf, SameLiveElsewhere, First, CancelledUnclaimed;
    ghost var a := RunOf(repo, publisher, relay);
    ghost var marked := publisher.marked;
    TurnsOf(a.world.outbox);
    var ok, row := CancelUnclaimed(repo, publisher, relay, target);
    if !ok {
      return Interrupted;
    }

    ghost var b := RunOf(repo, publisher, relay);
    if row.None? {
      ok := MarkProcessed(repo, publisher, relay, event);
      EndsRun(a, b, RunOf(repo, publisher, relay), None);
      return if ok then Declined else Interrupted;
    }
    CancelledRow(a.queue.turns, row.value, target, marked);
    var told: bool;
    ok, told := EndAsk(repo, publisher, relay, repo.turns[row.value].ask, now);
    ghost var c := RunOf(repo, publisher, relay);
    EndsRun(a, b, c, row);
    if !ok {
      return Interrupted;
    }
    ProgressOverBy(a, b, c, row.value);
    if !told {
      return CancelFailed;
    }
    r := AfterAbandon(repo, publisher, relay, bot, event, target, now);
    ghost var d := RunOf(repo, publisher, relay);
    EndsRun(a, c, d, row);
    CancelledForGood(c, d, row.value);
    ProgressOverKept(a, c, d, row.value);
  }

  /** The cancelled turn is out of the way: clear the marker and let the queue move. */
  method AfterAbandon(repo: Repository, publisher: Publisher, ghost relay: Relay, bot: BotId, event: EventId, target: EventId, now: int)
    returns (r: Handled)
    requires Serving(repo, publisher, relay)
    modifies repo`turns, repo`processed, repo`openings, repo`attempts, publisher`marked, repo`failures
    ensures old(repo.failures) + Misses(!r.Interrupted?) <= repo.failures
    ensures Serving(repo, publisher, relay)
    ensures RunAdvances(old(RunOf(repo, publisher, relay)), RunOf(repo, publisher, relay))
    ensures OnlyNotices(old(repo.attempts), repo.attempts)
    ensures r.Dropped? || r.KelpieError? || r.Interrupted?
    ensures !r.Interrupted? ==> event in repo.processed
    ensures !r.Interrupted? && MarkersExact(old(repo.turns), old(publisher.marked) - {target}) ==> MarkersExact(repo.turns, publisher.marked)
  {
    hide OutboxGood, ProgressGood, Evolves, QueueGood, QueueEvolves, RunAdvances, MarkersExact;
    ghost var a := RunOf(repo, publisher, relay);
    publisher.RemoveMarker(target);
    var ok := MarkProcessed(repo, publisher, relay, event);
    ghost var b := RunOf(repo, publisher, relay);
    if !ok {
      return Interrupted;
    }
    r := ResumeQueued(repo, publisher, relay, bot, now);
    RunAdvancesTransitive(a, b, RunOf(repo, publisher, relay));
    r := if r.Interrupted? then Interrupted else if r.KelpieError? then KelpieError else Dropped;
  }

  lemma ProgressOverBy(a: Run, b: Run, c: Run, row: nat)
    requires row < |a.queue.turns| == |b.queue.turns| && b.queue.turns[row].ask == a.queue.turns[row].ask
    requires b.world.progress.posts == a.world.progress.posts && b.world.progress.feed == a.world.progress.feed
    requires a.queue.turns[row].ask.Some? ==>
               var ask := a.queue.turns[row].ask.value;
               Covered(c.world.progress.posts, c.world.progress.feed, ask) <==> !LetGo(b.world.progress.posts, b.world.progress.feed, ask)
    ensures ProgressOver(a, c, row)
  {
  }

  /** A cancelled turn stays cancelled. */
  lemma CancelledForGood(a: Run, b: Run, row: nat)
    requires RunAdvances(a, b) && row < |a.queue.turns| && a.queue.turns[row].state.Cancelled?
    ensures row < |b.queue.turns| && b.queue.turns[row].state.Cancelled?
  {
  }

  lemma CancelledRow(turns: seq<Turn>, row: nat, target: EventId, marked: set<EventId>)
    requires TurnsGood(turns) && row < |turns| && Unclaimed(turns[row], target)
    ensures var after := turns[row := turns[row].(state := Cancelled, claimed := false)];
            && LiveOf(after, target).None?
            && (MarkersExact(turns, marked) ==> MarkersExact(after, marked - {target}))
            && (MarkersExact(turns, marked) && target.Relay? ==> !MarkersExact(after, marked))
  {
    var t := turns[row].(state := Cancelled, claimed := false);
    RowChanges(turns, row, t, target);
    LiveAt(turns, row);
    if MarkersExact(turns, marked) {
      Unmark(turns, turns[row := t], target, marked);
    }
  }

  /** A replaced turn is cancelled and queued again at the end of the table, under the same event. */
  ghost predicate EditOutcome(before: Run, after: Run, session: Session, target: EventId, r: Handled) {
    match UnclaimedOf(before.queue.turns, target)
    case None => (r.Declined? || r.Interrupted?) && after.queue.turns == before.queue.turns && after.world.progress == before.world.progress
    case Some(i) =>
      && !r.Declined?
      && (!r.Interrupted? ==>
            && ProgressOver(before, after, i)
            && i < |before.queue.turns| < |after.queue.turns| && after.queue.turns[i].state.Cancelled?
            && after.queue.turns[|before.queue.turns|].event == target && after.queue.turns[|before.queue.turns|].session == session
            && after.queue.replaced == before.queue.replaced + multiset{target})
  }

  /**
   An edit of a trigger. Without a request left, or without an authorized requester (a wake never
   has one), the turn is abandoned; otherwise it is replaced, and asked when its session is idle.
   The marker of the event stays up throughout.
   */
  method HandleEdit(repo: Repository, publisher: Publisher, relay: Relay, bot: BotId, event: EventId, target: EventId,
                    request: bool, authorized: bool, now: int) returns (r: Handled)
    requires Serving(repo, publisher, relay)
    modifies repo`turns, repo`processed, repo`openings, repo`replaced, repo`attempts, repo`posts, relay, publisher`marked, repo`failures
    ensures old(repo.failures) + Misses(!r.Interrupted? && !r.CancelFailed?) <= repo.failures
    ensures Serving(repo, publisher, relay)
    ensures RunEvolves(old(RunOf(repo, publisher, relay)), RunOf(repo, publisher, relay))
    ensures EndsOnly(old(RunOf(repo, publisher, relay)), RunOf(repo, publisher, relay), UnclaimedOf(old(repo.turns), target))
    ensures OnlyNotices(old(repo.attempts), repo.attempts)
    ensures request && authorized && target.Relay? && LiveOf(old(repo.turns), target).Some? ==>
              EditOutcome(old(RunOf(repo, publisher, relay)), RunOf(repo, publisher, relay),
                          Session(bot, old(repo.turns)[LiveOf(old(repo.turns), target).value].session.channel), target, r)
    ensures !(request && authorized && target.Relay? && LiveOf(old(repo.turns), target).Some?) ==>
              AbandonOutcome(old(RunOf(repo, publisher, relay)), RunOf(repo, publisher, relay), target, r)
    ensures if r.CancelFailed? then repo.processed == old(repo.processed) else r.Interrupted? || event in repo.processed
    ensures !r.Interrupted? && !r.CancelFailed? && MarkersExact(old(repo.turns), old(publisher.marked)) ==>
              MarkersExact(repo.turns, publisher.marked)
  {
    hide OutboxGood, ProgressGood, Evolves, QueueGood, QueueEvolves, RunEvolves, MarkersExact, ProgressOver, EditOutcome;
    if !request {
      r := AbandonUnclaimed(repo, publisher, relay, bot, event, target, now);
      return;
    }
    var active := LiveOf(repo.turns, target);
    if active.None? {
      NothingUnclaimed(repo.turns, target);
      var ok := MarkProcessed(repo, publisher, relay, event);
      return if ok then Declined else Interrupted;
    }
    if !authorized || !target.Relay? {
      r := AbandonUnclaimed(repo, publisher, relay, bot, event, target, now);
      return;
    }
    r := Replace(repo, publisher, relay, Session(bot, repo.turns[active.value].session.channel), event, target, now);
  }

  lemma NothingUnclaimed(turns: seq<Turn>, target: EventId)
    requires LiveOf(turns, target).None?
    ensures UnclaimedOf(turns, target).None?
  {
  }

  lemma ReplacedRow(turns: seq<Turn>, row: nat, work: NewTurn, marked: set<EventId>)
    requires TurnsGood(turns) && row < |turns| && Unclaimed(turns[row], work.event)
    ensures var after := Enqueued(turns[row := turns[row].(state := Cancelled, claimed := false)], work);
            MarkersExact(turns, marked) ==> MarkersExact(after, marked)
  {
    var cancelled := turns[row := turns[row].(state := Cancelled, claimed := false)];
    CancelledRow(turns, row, work.event, marked);
    EnqueueMarks(cancelled, work);
    LiveAt(turns, row);
    if MarkersExact(turns, marked) {
      if work.event.Relay? {
        Mark(cancelled, Enqueued(cancelled, work), work.event, marked - {work.event});
        assert marked - {work.event} + {work.event} == marked;
      } else {
        WakesUnmarked(turns, marked, work.event);
        StayMarked(cancelled, Enqueued(cancelled, work), work.event, marked);
      }
    }
  }

  /** The outcome of a replacement, once the rest of the handler is done. */
  lemma Replaced(a: Run, b: Run, c: Run, work: NewTurn, row: nat, r: Handled)
    requires UnclaimedOf(a.queue.turns, work.event) == Some(row) && ProgressOver(a, c, row)
    requires b.queue.turns == Enqueued(a.queue.turns[row := a.queue.turns[row].(state := Cancelled, claimed := false)], work)
    requires RunAdvances(b, c) && c.queue.replaced == a.queue.replaced + multiset{work.event} && !r.Declined?
    ensures EditOutcome(a, c, work.session, work.event, r)
  {
  }

  lemma EditOpen(a: Run, b: Run, session: Session, target: EventId)
    ensures UnclaimedOf(a.queue.turns, target).Some? ==> EditOutcome(a, b, session, target, Interrupted)
    ensures UnclaimedOf(a.queue.turns, target).None? && b.queue.turns == a.queue.turns && b.world.progress == a.world.progress ==>
              EditOutcome(a, b, session, target, Declined) && EditOutcome(a, b, session, target, Interrupted)
  {
  }

  method Replace(repo: Repository, publisher: Publisher, relay: Relay, session: Session, event: EventId, target: EventId, now: int)
    returns (r: Handled)
    requires Serving(repo, publisher, relay) && target.Relay?
    modifies repo`turns, repo`processed, repo`openings, repo`replaced, repo`attempts, repo`posts, relay, publisher`marked, repo`failures
    ensures old(repo.failures) + Misses(!r.Interrupted? && !r.CancelFailed?) <= repo.failures
    ensures Serving(repo, publisher, relay)
    ensures RunEvolves(old(RunOf(repo, publisher, relay)), RunOf(repo, publisher, relay))
    ensures EndsOnly(old(RunOf(repo, publisher, relay)), RunOf(repo, publisher, relay), UnclaimedOf(old(repo.turns), target))
    ensures OnlyNotices(old(repo.attempts), repo.attempts)
    ensures EditOutcome(old(RunOf(repo, publisher, relay)), RunOf(repo, publisher, relay), session, target, r)
    ensures if r.CancelFailed? then repo.processed == old(repo.processed) else r.Interrupted? || event in repo.processed
    ensures !r.Interrupted? && MarkersExact(old(repo.turns), old(publisher.marked)) ==> MarkersExact(repo.turns, publisher.marked)
  {
    hide OutboxGood, ProgressGood, Evolves, QueueGood, QueueEvolves, RunEvolves, RunAdvances, EndsOnly, MarkersExact, ProgressOver,
         EditOutcome, UnclaimedOf, CancelledUnclaimed, First;
    ghost var a := RunOf(repo, publisher, relay);
    TurnsOf(a.world.outbox);
    var work := NewTurn(session, target, Some(target));
    var ok, row := ReplaceUnclaimed(repo, publisher, relay, work);
    ghost var b := RunOf(repo, publisher, relay);
    EditOpen(a, b, session, target);
    if !ok {
      return Interrupted;
    }
    if row.None? {
      ok := MarkProcessed(repo, publisher, relay, event);
      EndsRun(a, b, RunOf(repo, publisher, relay), None);
      EditOpen(a, RunOf(repo, publisher, relay), session, target);
      return if ok then Declined else Interrupted;
    }
    ReplacedRow(a.queue.turns, row.value, work, publisher.marked);
    var told: bool;
    ok, told := EndAsk(repo, publisher, relay, repo.turns[row.value].ask, now);
    ghost var c := RunOf(repo, publisher, relay);
    EndsRun(a, b, c, row);
    if !ok {
      EditOpen(a, c, session, target);
      return Interrupted;
    }
    ReplacedProgress(a, b, c, row.value, work);
    if !told {
      Replaced(a, b, c, work, row.value, CancelFailed);
      return CancelFailed;
    }
    r := AfterReplace(repo, publisher, relay, session, event, target, now);
    ghost var d := RunOf(repo, publisher, relay);
    EndsRun(a, c, d, row);
    RunAdvancesTransitive(b, c, d);
    ProgressOverKept(a, c, d, row.value);
    Replaced(a, b, d, work, row.value, r);
  }

  lemma ReplacedProgress(a: Run, b: Run, c: Run, row: nat, work: NewTurn)
    requires row < |a.queue.turns| && b.queue.turns == Enqueued(a.queue.turns[row := a.queue.turns[row].(state := Cancelled, claimed := false)], work)
    requires b.world.progress.posts == a.world.progress.posts && b.world.progress.feed == a.world.progress.feed
    requires b.queue.turns[row].ask.Some? ==>
               var ask := b.queue.turns[row].ask.value;
               Covered(c.world.progress.posts, c.world.progress.feed, ask) <==> !LetGo(b.world.progress.posts, b.world.progress.feed, ask)
    ensures ProgressOver(a, c, row)
  {
  }

  /** The edit is processed; ask the replacement when it is next, else let the queue move. */
  method AfterReplace(repo: Repository, publisher: Publisher, ghost relay: Relay, session: Session, event: EventId, target: EventId, now: int)
    returns (r: Handled)
    requires Serving(repo, publisher, relay)
    modifies repo`turns, repo`processed, repo`openings, repo`attempts, publisher`marked, repo`failures
    ensures old(repo.failures) + Misses(!r.Interrupted? && !r.CancelFailed?) <= repo.failures
    ensures Serving(repo, publisher, relay)
    ensures RunAdvances(old(RunOf(repo, publisher, relay)), RunOf(repo, publisher, relay))
    ensures OnlyNotices(old(repo.attempts), repo.attempts)
    ensures !r.Declined? && !r.CancelFailed?
    ensures !r.Interrupted? ==> event in repo.processed
    ensures !r.Interrupted? && MarkersExact(old(repo.turns), old(publisher.marked)) ==> MarkersExact(repo.turns, publisher.marked)
  {
    hide OutboxGood, ProgressGood, Evolves, QueueGood, QueueEvolves, RunAdvances, MarkersExact;
    ghost var a := RunOf(repo, publisher, relay);
    var ok := MarkProcessed(repo, publisher, relay, event);
    ghost var b := RunOf(repo, publisher, relay);
    if !ok {
      return Interrupted;
    }
    if ShouldAsk(repo.turns, session, target) {
      r := AskOldestQueued(repo, publisher, relay, session, now);
    } else {
      r := ResumeQueued(repo, publisher, relay, session.bot, now);
    }
    RunAdvancesTransitive(a, b, RunOf(repo, publisher, relay));
  }
}
