/**
 The actor of one bot: triggers, watch fires, edits and deletes change the queue of turns;
 the oldest queued turn of an idle session is asked.

 `Interrupted` is a failed write: the store is as a crash at that write would leave it.
 The occupant runtime is an oracle, and so is the question whether queued work still has an
 askable body.
 */
module TurnQueue {
  import opened Wrappers
  import opened HostStore
  import opened RelayPublisher
  import opened ProgressPolicy
  import opened ProgressRelay
  import opened ProgressTheory
  import opened ProgressSteps
  import opened Progress
  import opened OutboxTheory
  import opened Outbox
  import opened OutboxTells
  import opened TurnQueueTheory

  const DISPATCH_FAILURE_BOUND_SECS := 600
  const DISPATCH_FAILURE_NOTICE := "I couldn't start my session to answer this. The operator has been notified and will follow up."

  /** `Asked` also covers a queued turn that had no body left and was cancelled instead.
      `CancelFailed`: the turn is cancelled here, but the occupant was not told. */
  datatype Handled = Declined | Duplicate | LeftQueued | Asked | Dropped | KelpieError | CancelFailed | Interrupted

  datatype AskReceipt = AskRefused | Receipt(ask: AskId, delivered: bool)

  // ---- the whole run ----

  datatype Run = Run(world: World, queue: QueueView)

  ghost function QueueOf(repo: Repository): QueueView
    reads repo
  {
    QueueView(repo.turns, repo.processed, repo.wakes, repo.openings, repo.replaced, repo.attempts.Keys)
  }

  ghost function RunOf(repo: Repository, publisher: Publisher, relay: Relay): Run
    reads repo, publisher, relay
  {
    Run(WorldOf(repo, publisher, relay), QueueOf(repo))
  }

  ghost predicate Serving(repo: Repository, publisher: Publisher, relay: Relay)
    reads repo, publisher, relay
  {
    HostGood(repo, publisher, relay) && QueueGood(QueueOf(repo))
  }

  ghost predicate RunEvolves(a: Run, b: Run) {
    Evolves(a.world, b.world) && QueueEvolves(a.queue, b.queue)
  }

  lemma RunEvolvesReflexive(a: Run)
    ensures RunEvolves(a, a)
  {
  }

  lemma RunEvolvesTransitive(a: Run, b: Run, c: Run)
    requires RunEvolves(a, b) && RunEvolves(b, c)
    ensures RunEvolves(a, c)
  {
    hide Evolves, QueueEvolves;
    EvolvesTransitive(a.world, b.world, c.world);
    QueueEvolvesTransitive(a.queue, b.queue, c.queue);
  }

  /** A step that cancels no turn that was asked. */
  ghost predicate RunAdvances(a: Run, b: Run) {
    RunEvolves(a, b) && NoneCancelled(a.queue.turns, b.queue.turns)
  }

  lemma RunAdvancesReflexive(a: Run)
    ensures RunAdvances(a, a)
  {
  }

  lemma RunAdvancesTransitive(a: Run, b: Run, c: Run)
    requires RunAdvances(a, b) && RunAdvances(b, c)
    ensures RunAdvances(a, c)
  {
    hide RunEvolves;
    RunEvolvesTransitive(a, b, c);
  }

  /** A step of the publish path is a step of the queue. */
  lemma AdvancesQueue(a: World, b: World, q: QueueView, r: QueueView)
    requires Advances(a, b) && QueueGood(q) && OutboxGood(b.outbox)
    requires q.turns == a.outbox.turns && r == q.(turns := b.outbox.turns, keys := r.keys)
    requires q.keys <= r.keys && forall k :: k in r.keys && k !in q.keys ==> !k.FailureNotice?
    ensures QueueGood(r) && QueueEvolves(q, r)
  {
    hide OutboxGood, QueueGood, QueueEvolves, OnlyCloses, NoneCancelled;
    TurnsOf(b.outbox);
    var s := q.(turns := b.outbox.turns);
    CloseQueueStep(q, b.outbox.turns);
    KeysQueueStep(s, r.keys);
    QueueEvolvesTransitive(q, s, r);
  }

  // ---- a change of the table of turns ----

  /** No turn becomes posted. */
  predicate NoNewAnswers(a: seq<Turn>, b: seq<Turn>) {
    forall i :: 0 <= i < |b| && b[i].state.Posted? ==> i < |a| && a[i].state.Posted?
  }

  /** No claim is released: an open turn without a claim was so before, or just opened. */
  predicate ClaimsKept(a: seq<Turn>, b: seq<Turn>) {
    forall i :: 0 <= i < |b| && b[i].state.Open? && !b[i].claimed ==>
      (i < |a| && a[i].state.Open? && !a[i].claimed) || (b[i].ask.Some? && OfAsk(a, b[i].ask.value).None?)
  }

  lemma TurnsWorld(w: World, turns: seq<Turn>)
    requires ProgressGood(w.progress) && OutboxGood(w.outbox) && w.progress.turns == w.outbox.turns
    requires TurnsGood(turns) && TurnsEvolve(w.outbox.turns, turns) && NoNewAnswers(w.outbox.turns, turns) && ClaimsKept(w.outbox.turns, turns)
    ensures OutboxGood(w.outbox.(turns := turns)) && ProgressGood(w.progress.(turns := turns))
    ensures Evolves(w, World(w.outbox.(turns := turns), w.progress.(turns := turns)))
  {
    hide OutboxGood, ProgressGood, Evolves;
    TurnsOf(w.outbox);
    forall i | 0 <= i < |turns| ensures TurnBacked(turns[i], w.outbox.attempts) {
      if turns[i].ask.Some? && Answered(w.outbox.attempts, turns[i].ask.value) { AttemptOfRow(w.outbox, turns[i].ask.value); }
      if i < |w.outbox.turns| {
        assert TurnBacked(w.outbox.turns[i], w.outbox.attempts);
        assert RowEvolves(w.outbox.turns[i], turns[i]);
        RowKeepsAsk(w.outbox, i);
      }
    }
    TurnsOutside(w, turns);
  }

  lemma AttemptOfRow(v: OutboxView, ask: AskId)
    requires OutboxGood(v) && Ask(ask) in v.attempts
    ensures OfAsk(v.turns, ask).Some?
  {
    StoredAttemptGood(v, Ask(ask));
  }

  lemma RowKeepsAsk(v: OutboxView, i: nat)
    requires OutboxGood(v) && i < |v.turns|
    ensures v.turns[i].state.Open? ==> v.turns[i].ask.Some?
  {
    assert RowGood(v.turns[i]);
  }

  /** Every statement of the queue changes the table of turns, and nothing the answers depend on. */
  lemma QueueRun(w: World, q: QueueView, r: QueueView)
    requires ProgressGood(w.progress) && OutboxGood(w.outbox) && QueueGood(q)
    requires w.progress.turns == w.outbox.turns == q.turns
    requires QueueGood(r) && QueueEvolves(q, r) && NoNewAnswers(q.turns, r.turns) && ClaimsKept(q.turns, r.turns)
    ensures var b := World(w.outbox.(turns := r.turns), w.progress.(turns := r.turns));
            && OutboxGood(b.outbox) && ProgressGood(b.progress)
            && RunEvolves(Run(w, q), Run(b, r))
  {
    hide OutboxGood, ProgressGood, Evolves;
    TurnsWorld(w, r.turns);
  }

  // ---- the in-flight marker ----

  ghost predicate SameLiveElsewhere(a: seq<Turn>, b: seq<Turn>, event: EventId) {
    forall e :: e != event ==> (LiveOf(a, e).Some? <==> LiveOf(b, e).Some?)
  }

  lemma LiveAt(turns: seq<Turn>, i: nat)
    requires i < |turns| && Live(turns[i])
    ensures LiveOf(turns, turns[i].event).Some?
  {
  }

  /** Only rows of one event change or are added. */
  lemma OneEventChanges(a: seq<Turn>, b: seq<Turn>, event: EventId)
    requires |a| <= |b|
    requires forall i :: 0 <= i < |b| && (b[i].event != event || (i < |a| && a[i].event != event)) ==> i < |a| && b[i].event == a[i].event && Live(b[i]) == Live(a[i])
    ensures SameLiveElsewhere(a, b, event)
  {
  }

  lemma Unmark(a: seq<Turn>, b: seq<Turn>, event: EventId, marked: set<EventId>)
    requires MarkersExact(a, marked) && SameLiveElsewhere(a, b, event) && LiveOf(b, event).None?
    ensures MarkersExact(b, marked - {event})
  {
  }

  lemma Mark(a: seq<Turn>, b: seq<Turn>, event: EventId, marked: set<EventId>)
    requires MarkersExact(a, marked) && SameLiveElsewhere(a, b, event) && LiveOf(b, event).Some? && event.Relay?
    ensures MarkersExact(b, marked + {event})
  {
  }

  lemma StayMarked(a: seq<Turn>, b: seq<Turn>, event: EventId, marked: set<EventId>)
    requires MarkersExact(a, marked) && SameLiveElsewhere(a, b, event)
    requires event.Relay? ==> (LiveOf(a, event).Some? <==> LiveOf(b, event).Some?)
    ensures MarkersExact(b, marked)
  {
  }

  /** One row of the table changes. */
  lemma RowChanges(turns: seq<Turn>, i: nat, t: Turn, event: EventId)
    requires TurnsGood(turns) && i < |turns| && turns[i].event == event == t.event && Live(turns[i])
    ensures SameLiveElsewhere(turns, turns[i := t], event)
    ensures LiveOf(turns[i := t], event).Some? <==> Live(t)
  {
    OneEventChanges(turns, turns[i := t], event);
    forall j | 0 <= j < |turns| && j != i && turns[j].event == event ensures !Live(turns[j]) {
      assert PairGood(turns[if i < j then i else j], turns[if i < j then j else i]);
    }
    if Live(t) { LiveAt(turns[i := t], i); }
  }

  lemma EnqueueMarks(turns: seq<Turn>, work: NewTurn)
    ensures SameLiveElsewhere(turns, Enqueued(turns, work), work.event)
    ensures LiveOf(Enqueued(turns, work), work.event).Some?
  {
    OneEventChanges(turns, Enqueued(turns, work), work.event);
    LiveAt(Enqueued(turns, work), |turns|);
  }

  // ---- single statements ----

  method MarkProcessed(repo: Repository, ghost publisher: Publisher, ghost relay: Relay, event: EventId) returns (ok: bool)
    requires Serving(repo, publisher, relay)
    modifies repo`processed, repo`failures
    ensures old(repo.failures) + Misses(ok) <= repo.failures
    ensures Serving(repo, publisher, relay)
    ensures RunAdvances(old(RunOf(repo, publisher, relay)), RunOf(repo, publisher, relay))
    ensures repo.processed == old(repo.processed) + {event} || (!ok && repo.processed == old(repo.processed))
  {
    hide OutboxGood, ProgressGood, Evolves, QueueGood, QueueEvolves;
    ghost var q := QueueOf(repo);
    RunAdvancesReflexive(RunOf(repo, publisher, relay));
    ProcessedQueueStep(q, event);
    ok := repo.MarkEventProcessed(event);
    assert QueueOf(repo) == q || QueueOf(repo) == q.(processed := q.processed + {event});
  }

  /** Close the queued turn of an event, for good or because it has no body left. */
  method CloseQueued(repo: Repository, ghost publisher: Publisher, ghost relay: Relay, event: EventId, to: TurnState)
    returns (ok: bool, changed: bool)
    requires Serving(repo, publisher, relay) && (to.Failed? || to.Cancelled?)
    modifies repo`turns, repo`failures
    ensures old(repo.failures) + Misses(ok) <= repo.failures
    ensures Serving(repo, publisher, relay)
    ensures RunAdvances(old(RunOf(repo, publisher, relay)), RunOf(repo, publisher, relay))
    ensures changed == QueuedOf(old(repo.turns), event).Some?
    ensures repo.turns == WithQueuedAs(old(repo.turns), event, to) || (!ok && repo.turns == old(repo.turns))
  {
    hide OutboxGood, ProgressGood, Evolves, QueueGood, QueueEvolves;
    ghost var w := WorldOf(repo, publisher, relay);
    ghost var q := QueueOf(repo);
    RunAdvancesReflexive(RunOf(repo, publisher, relay));
    TurnsOf(w.outbox);
    WithQueuedAsStep(repo.turns, event, to);
    CloseQueueStep(q, WithQueuedAs(q.turns, event, to));
    QueueRun(w, q, q.(turns := WithQueuedAs(q.turns, event, to)));
    ok, changed := repo.CloseQueuedTurn(event, to);
    assert repo.turns != q.turns ==> WorldOf(repo, publisher, relay) == World(w.outbox.(turns := repo.turns), w.progress.(turns := repo.turns));
    assert repo.turns != q.turns ==> QueueOf(repo) == q.(turns := repo.turns);
    assert repo.turns == q.turns ==> WorldOf(repo, publisher, relay) == w && QueueOf(repo) == q;
  }

  /** The failure clock of the queued turn of an event starts once. */
  method NoteDispatchFailure(repo: Repository, ghost publisher: Publisher, ghost relay: Relay, event: EventId, now: int)
    returns (ok: bool, since: Option<int>)
    requires Serving(repo, publisher, relay)
    modifies repo`turns, repo`failures
    ensures old(repo.failures) + Misses(ok) <= repo.failures
    ensures Serving(repo, publisher, relay)
    ensures RunAdvances(old(RunOf(repo, publisher, relay)), RunOf(repo, publisher, relay))
    ensures repo.turns == WithDispatchFailure(old(repo.turns), event, now) || (!ok && repo.turns == old(repo.turns))
    ensures ok ==> since == (if QueuedOf(repo.turns, event).Some? then repo.turns[QueuedOf(repo.turns, event).value].dispatchFailedAt else None)
  {
    hide OutboxGood, ProgressGood, Evolves, QueueGood, QueueEvolves;
    ghost var w := WorldOf(repo, publisher, relay);
    ghost var q := QueueOf(repo);
    RunAdvancesReflexive(RunOf(repo, publisher, relay));
    TurnsOf(w.outbox);
    WithDispatchFailureStep(repo.turns, event, now);
    CloseQueueStep(q, WithDispatchFailure(q.turns, event, now));
    QueueRun(w, q, q.(turns := WithDispatchFailure(q.turns, event, now)));
    ok, since := repo.RecordDispatchFailure(event, now);
    assert repo.turns != q.turns ==> WorldOf(repo, publisher, relay) == World(w.outbox.(turns := repo.turns), w.progress.(turns := repo.turns));
    assert repo.turns != q.turns ==> QueueOf(repo) == q.(turns := repo.turns);
    assert repo.turns == q.turns ==> WorldOf(repo, publisher, relay) == w && QueueOf(repo) == q;
  }

  lemma DispatchFailureKeepsMarkers(turns: seq<Turn>, event: EventId, now: int, marked: set<EventId>)
    requires TurnsGood(turns) && MarkersExact(turns, marked)
    ensures MarkersExact(WithDispatchFailure(turns, event, now), marked)
  {
  }

  lemma CloseQueuedUnmarks(turns: seq<Turn>, event: EventId, to: TurnState, marked: set<EventId>)
    requires TurnsGood(turns) && MarkersExact(turns, marked) && (to.Failed? || to.Cancelled?) && QueuedOf(turns, event).Some?
    ensures MarkersExact(WithQueuedAs(turns, event, to), marked - {event})
    ensures LiveOf(WithQueuedAs(turns, event, to), event).None?
  {
    var i := QueuedOf(turns, event).value;
    RowChanges(turns, i, turns[i].(state := to), event);
    Unmark(turns, WithQueuedAs(turns, event, to), event, marked);
  }

  /** Bind the ask to the oldest queued turn of an idle session. */
  method OpenOldest(repo: Repository, ghost publisher: Publisher, ghost relay: Relay, session: Session, ask: AskId, now: int)
    returns (ok: bool, row: Option<nat>)
    requires Serving(repo, publisher, relay)
    modifies repo`turns, repo`openings, repo`failures
    ensures old(repo.failures) + Misses(ok) <= repo.failures
    ensures Serving(repo, publisher, relay)
    ensures RunAdvances(old(RunOf(repo, publisher, relay)), RunOf(repo, publisher, relay))
    ensures row == if CanOpen(old(repo.turns), session, ask) then OldestQueued(old(repo.turns), session) else None
    ensures || (row.Some? && repo.turns == Opened(old(repo.turns), session, ask, now) && repo.openings == old(repo.openings) + [row.value])
            || ((row.None? || !ok) && repo.turns == old(repo.turns) && repo.openings == old(repo.openings))
  {
    hide OutboxGood, ProgressGood, Evolves, QueueGood, QueueEvolves;
    ghost var w := WorldOf(repo, publisher, relay);
    ghost var q := QueueOf(repo);
    RunAdvancesReflexive(RunOf(repo, publisher, relay));
    if CanOpen(q.turns, session, ask) {
      OpenQueueStep(q, session, ask, now);
      QueueRun(w, q, q.(turns := Opened(q.turns, session, ask, now), openings := q.openings + [OldestQueued(q.turns, session).value]));
    }
    ok, row := repo.OpenNextTurn(session, ask, now);
    if repo.turns == q.turns && repo.openings == q.openings {
      assert WorldOf(repo, publisher, relay) == w && QueueOf(repo) == q;
    } else {
      assert WorldOf(repo, publisher, relay) == World(w.outbox.(turns := repo.turns), w.progress.(turns := repo.turns));
      assert QueueOf(repo) == q.(turns := repo.turns, openings := repo.openings);
    }
  }

  lemma OpenKeepsMarkers(turns: seq<Turn>, session: Session, ask: AskId, now: int, marked: set<EventId>)
    requires TurnsGood(turns) && CanOpen(turns, session, ask) && MarkersExact(turns, marked)
    ensures MarkersExact(Opened(turns, session, ask, now), marked)
  {
    var i := OldestQueued(turns, session).value;
    var t := turns[i].(ask := Some(ask), state := Open, openedAt := Some(now));
    RowChanges(turns, i, t, t.event);
    LiveAt(turns, i);
    StayMarked(turns, Opened(turns, session, ask, now), t.event, marked);
  }

  // ---- dispatch ----

  /** What asking the oldest queued turn of a session did: it opened, or had no body left, or stayed queued. */
  ghost predicate AskOutcome(before: QueueView, after: QueueView, session: Session, r: Handled) {
    && before.processed == after.processed && before.replaced == after.replaced && before.keys == after.keys && before.wakes == after.wakes
    && |after.turns| == |before.turns|
    && (r.Asked? || r.KelpieError? || r.Interrupted?)
    && (forall j :: 0 <= j < |before.turns| && after.turns[j].state.Failed? ==> before.turns[j].state.Failed?)
    && (r.Asked? ==>
          && OldestQueued(before.turns, session).Some? && var i := OldestQueued(before.turns, session).value;
          && (forall j :: 0 <= j < |before.turns| && j != i ==> after.turns[j] == before.turns[j])
          && (if after.turns[i].state.Open? then OpenOf(before.turns, session).None? && after.openings == before.openings + [i]
              else after.turns[i].state.Cancelled? && after.openings == before.openings))
    && (r.KelpieError? ==> after == before)
  }

  method AskOldestQueued(repo: Repository, publisher: Publisher, ghost relay: Relay, session: Session, now: int)
    returns (r: Handled)
    requires Serving(repo, publisher, relay)
    modifies repo`turns, repo`openings, publisher`marked, repo`failures
    ensures old(repo.failures) + Misses(!r.Interrupted?) <= repo.failures
    ensures Serving(repo, publisher, relay)
    ensures RunAdvances(old(RunOf(repo, publisher, relay)), RunOf(repo, publisher, relay))
    ensures AskOutcome(old(QueueOf(repo)), QueueOf(repo), session, r)
    ensures !r.Interrupted? && MarkersExact(old(repo.turns), old(publisher.marked)) ==> MarkersExact(repo.turns, publisher.marked)
  {
    hide OutboxGood, ProgressGood, Evolves, QueueGood, QueueEvolves, MarkersExact, RunAdvances, LiveOf, First, SameLiveElsewhere, CancelsOnly;
    RunAdvancesReflexive(RunOf(repo, publisher, relay));
    TurnsOf(WorldOf(repo, publisher, relay).outbox);
    ghost var turns := repo.turns;
    ghost var marked := publisher.marked;
    var oldest := OldestQueued(repo.turns, session);
    if oldest.None? {
      return KelpieError;
    }
    var event := repo.turns[oldest.value].event;
    OneQueued(repo.turns, oldest.value);
    var askable: bool := *;
    if !askable {
      if MarkersExact(turns, marked) { CloseQueuedUnmarks(turns, event, Cancelled, marked); }
      var ok, changed := CloseQueued(repo, publisher, relay, event, Cancelled);
      if !ok {
        return Interrupted;
      }
      publisher.RemoveMarker(event);
      return Asked;
    }
    var receipt: AskReceipt := *;
    if !receipt.Receipt? || !receipt.delivered {
      return KelpieError;
    }
    if CanOpen(turns, session, receipt.ask) && MarkersExact(turns, marked) { OpenKeepsMarkers(turns, session, receipt.ask, now, marked); }
    var ok, row := OpenOldest(repo, publisher, relay, session, receipt.ask, now);
    if !ok {
      return Interrupted;
    }
    if row.None? {
      return KelpieError;
    }
    ok := repo.SaveSession();
    r := if ok then Asked else Interrupted;
  }

  /** A queued row is the queued row of its event. */
  lemma OneQueued(turns: seq<Turn>, i: nat)
    requires TurnsGood(turns) && i < |turns| && turns[i].state.Queued?
    ensures QueuedOf(turns, turns[i].event) == Some(i)
  {
  }

  // ---- queued work that cannot be dispatched ----

  function NoticeAttempt(turn: Turn): Attempt {
    Attempt(DISPATCH_FAILURE_NOTICE, turn.session.channel, Some(turn.event), None, "", None, None, None, false, Some(turn.session.bot), 0, None, None)
  }

  /** Tell the requester once. */
  method SaveNotice(repo: Repository, ghost publisher: Publisher, ghost relay: Relay, turn: Turn) returns (ok: bool)
    requires Serving(repo, publisher, relay) && FailureNotice(turn.event) !in repo.attempts
    requires turn.event.Relay? && turn.event in repo.processed && LiveOf(repo.turns, turn.event).None?
    modifies repo`attempts, repo`failures
    ensures old(repo.failures) + Misses(ok) <= repo.failures
    ensures Serving(repo, publisher, relay)
    ensures RunAdvances(old(RunOf(repo, publisher, relay)), RunOf(repo, publisher, relay))
    ensures repo.attempts == old(repo.attempts)[FailureNotice(turn.event) := NoticeAttempt(turn)] || (!ok && repo.attempts == old(repo.attempts))
  {
    hide OutboxGood, ProgressGood, Evolves, QueueGood, QueueEvolves;
    ghost var q := QueueOf(repo);
    QueueEvolvesReflexive(q);
    NoticeQueueStep(q, turn.event);
    ok := SaveAttempt(repo, publisher, relay, FailureNotice(turn.event), NoticeAttempt(turn));
    assert QueueOf(repo) == q || QueueOf(repo) == q.(keys := q.keys + {FailureNotice(turn.event)});
  }

  lemma QueuedUnnoticed(q: QueueView, event: EventId)
    requires QueueGood(q) && QueuedOf(q.turns, event).Some?
    ensures FailureNotice(event) !in q.keys
    ensures event.Relay? ==> event in q.processed
  {
  }

  /** Fail the queued turn, clear its marker, and leave one notice for its requester. */
  method FailUndispatched(repo: Repository, publisher: Publisher, ghost relay: Relay, turn: Turn) returns (ok: bool)
    requires Serving(repo, publisher, relay)
    requires turn.publishReplyTo == (if turn.event.Relay? then Some(turn.event) else None)
    modifies repo`turns, repo`attempts, publisher`marked, repo`failures
    ensures old(repo.failures) + Misses(ok) <= repo.failures
    ensures Serving(repo, publisher, relay)
    ensures RunAdvances(old(RunOf(repo, publisher, relay)), RunOf(repo, publisher, relay))
    ensures OnlyNotices(old(repo.attempts), repo.attempts)
    ensures repo.turns == WithQueuedAs(old(repo.turns), turn.event, Failed) || (!ok && repo.turns == old(repo.turns))
    ensures ok && turn.event.Relay? && QueuedOf(old(repo.turns), turn.event).Some? ==>
              repo.attempts == old(repo.attempts)[FailureNotice(turn.event) := NoticeAttempt(turn)]
    ensures ok && MarkersExact(old(repo.turns), old(publisher.marked)) ==> MarkersExact(repo.turns, publisher.marked)
  {
    hide OutboxGood, ProgressGood, Evolves, QueueGood, QueueEvolves, MarkersExact, RunAdvances, NoticeAttempt;
    ghost var turns := repo.turns;
    ghost var marked := publisher.marked;
    ghost var a := RunOf(repo, publisher, relay);
    TurnsOf(WorldOf(repo, publisher, relay).outbox);
    if QueuedOf(turns, turn.event).Some? {
      QueuedUnnoticed(QueueOf(repo), turn.event);
      if MarkersExact(turns, marked) {
        CloseQueuedUnmarks(turns, turn.event, Failed, marked);
        WakesUnmarked(turns, marked, turn.event);
      }
      QueuedCloses(turns, turn.event, Failed);
    }
    var changed: bool;
    ok, changed := CloseQueued(repo, publisher, relay, turn.event, Failed);
    if ok && changed && turn.publishReplyTo.Some? {
      ghost var b := RunOf(repo, publisher, relay);
      publisher.RemoveMarker(turn.event);
      ok := SaveNotice(repo, publisher, relay, turn);
      RunAdvancesTransitive(a, b, RunOf(repo, publisher, relay));
    }
  }

  lemma QueuedCloses(turns: seq<Turn>, event: EventId, to: TurnState)
    requires TurnsGood(turns) && (to.Failed? || to.Cancelled?) && QueuedOf(turns, event).Some?
    ensures LiveOf(WithQueuedAs(turns, event, to), event).None?
  {
  }

  /** A turn fails here only when its dispatch has been failing for the whole bound. */
  ghost predicate FailsOnlyLate(a: seq<Turn>, b: seq<Turn>, now: int) {
    forall i :: 0 <= i < |a| && i < |b| && b[i].state.Failed? && !a[i].state.Failed? ==>
      b[i].dispatchFailedAt.Some? && now - b[i].dispatchFailedAt.value >= DISPATCH_FAILURE_BOUND_SECS
  }

  lemma NotingFailsNothing(turns: seq<Turn>, event: EventId, now: int)
    ensures FailsOnlyLate(turns, WithDispatchFailure(turns, event, now), now) && FailsOnlyLate(turns, turns, now)
    ensures |WithDispatchFailure(turns, event, now)| == |turns|
  {
  }

  lemma LateClose(turns: seq<Turn>, event: EventId, since: int, now: int)
    requires QueuedOf(turns, event).Some? ==> turns[QueuedOf(turns, event).value].dispatchFailedAt == Some(since)
    requires SaturatingSub(now, since) >= DISPATCH_FAILURE_BOUND_SECS
    ensures FailsOnlyLate(turns, WithQueuedAs(turns, event, Failed), now) && FailsOnlyLate(turns, turns, now)
    ensures |WithQueuedAs(turns, event, Failed)| == |turns|
  {
  }

  /** Answers and tells are left alone. */
  ghost predicate OnlyNotices(a: map<Key, Attempt>, b: map<Key, Attempt>) {
    forall k: Key :: !k.FailureNotice? ==> (k in a <==> k in b) && (k in a && k in b ==> b[k] == a[k])
  }

  /** What one failed dispatch does: start the clock, and past the bound give the turn up. */
  method AfterFailedDispatch(repo: Repository, publisher: Publisher, ghost relay: Relay, turn: Turn, now: int) returns (ok: bool)
    requires Serving(repo, publisher, relay)
    requires turn.publishReplyTo == (if turn.event.Relay? then Some(turn.event) else None)
    modifies repo`turns, repo`attempts, publisher`marked, repo`failures
    ensures old(repo.failures) + Misses(ok) <= repo.failures
    ensures Serving(repo, publisher, relay)
    ensures RunAdvances(old(RunOf(repo, publisher, relay)), RunOf(repo, publisher, relay))
    ensures OnlyNotices(old(repo.attempts), repo.attempts)
    ensures |repo.turns| == |old(repo.turns)| && FailsOnlyLate(old(repo.turns), repo.turns, now)
    ensures ok && MarkersExact(old(repo.turns), old(publisher.marked)) ==> MarkersExact(repo.turns, publisher.marked)
  {
    hide OutboxGood, ProgressGood, Evolves, QueueGood, QueueEvolves, MarkersExact, RunAdvances, FailsOnlyLate,
         SaturatingSub, WithDispatchFailure, WithQueuedAs;
    ghost var a := RunOf(repo, publisher, relay);
    TurnsOf(WorldOf(repo, publisher, relay).outbox);
    NotingFailsNothing(repo.turns, turn.event, now);
    if MarkersExact(repo.turns, publisher.marked) { DispatchFailureKeepsMarkers(repo.turns, turn.event, now, publisher.marked); }
    var since: Option<int>;
    ok, since := NoteDispatchFailure(repo, publisher, relay, turn.event, now);
    if ok && since.Some? && SaturatingSub(now, since.value) >= DISPATCH_FAILURE_BOUND_SECS {
      ghost var b := RunOf(repo, publisher, relay);
      LateClose(repo.turns, turn.event, since.value, now);
      ok := FailUndispatched(repo, publisher, relay, turn);
      RunAdvancesTransitive(a, b, RunOf(repo, publisher, relay));
      FailsLateRun(a, b, RunOf(repo, publisher, relay), now);
    }
  }

  /** The sessions of a bot with queued or open work. */
  function PendingSessions(turns: seq<Turn>, bot: BotId): set<Session> {
    set i | 0 <= i < |turns| && Live(turns[i]) && turns[i].session.bot == bot :: turns[i].session
  }

  /** What a pass over the idle sessions may do to the queue. */
  ghost predicate ResumeOutcome(before: QueueView, after: QueueView, now: int, r: Handled) {
    && before.processed == after.processed && before.replaced == after.replaced && before.wakes == after.wakes
    && |after.turns| == |before.turns|
    && FailsOnlyLate(before.turns, after.turns, now)
    && (r.Asked? || r.LeftQueued? || r.KelpieError? || r.Interrupted?)
    && (!r.Interrupted? ==> |after.openings| <= |before.openings| + 1 && (|after.openings| > |before.openings| ==> r.Asked?))
  }

  /** What the sessions looked at so far have changed. */
  ghost predicate Resuming(a: Run, b: Run, now: int) {
    && RunAdvances(a, b) && OnlyNotices(a.world.outbox.attempts, b.world.outbox.attempts)
    && a.queue.processed == b.queue.processed && a.queue.replaced == b.queue.replaced && a.queue.wakes == b.queue.wakes
    && |b.queue.turns| == |a.queue.turns| && FailsOnlyLate(a.queue.turns, b.queue.turns, now)
  }

  lemma ResumingStep(a: Run, b: Run, c: Run, now: int, r: Handled)
    requires Resuming(a, b, now) && RunAdvances(b, c) && OnlyNotices(b.world.outbox.attempts, c.world.outbox.attempts)
    requires ResumeOutcome(b.queue, c.queue, now, r)
    ensures Resuming(a, c, now)
  {
    hide RunAdvances, FailsOnlyLate;
    RunAdvancesTransitive(a, b, c);
    FailsLateRun(a, b, c, now);
  }

  lemma ResumingStarts(a: Run, now: int)
    ensures Resuming(a, a, now)
  {
    RunAdvancesReflexive(a);
    FailsLateReflexive(a.queue.turns, now);
  }

  /** Ask the first idle session that can be asked; a session that cannot does not hold up the others. */
  method ResumeQueued(repo: Repository, publisher: Publisher, ghost relay: Relay, bot: BotId, now: int) returns (r: Handled)
    requires Serving(repo, publisher, relay)
    modifies repo`turns, repo`openings, repo`attempts, publisher`marked, repo`failures
    ensures old(repo.failures) + Misses(!r.Interrupted? && !r.CancelFailed?) <= repo.failures
    ensures Serving(repo, publisher, relay)
    ensures RunAdvances(old(RunOf(repo, publisher, relay)), RunOf(repo, publisher, relay))
    ensures OnlyNotices(old(repo.attempts), repo.attempts)
    ensures ResumeOutcome(old(QueueOf(repo)), QueueOf(repo), now, r)
    ensures !r.Interrupted? && MarkersExact(old(repo.turns), old(publisher.marked)) ==> MarkersExact(repo.turns, publisher.marked)
  {
    hide OutboxGood, ProgressGood, Evolves, QueueGood, QueueEvolves, MarkersExact, RunAdvances, FailsOnlyLate, PendingSessions, Resuming,
         ResumeOutcome, OnlyNotices;
    ghost var a := RunOf(repo, publisher, relay);
    ResumingStarts(a, now);
    var todo := PendingSessions(repo.turns, bot);
    var failed: bool := *; // recovery of a gone occupant
    var interrupted := false;
    r := LeftQueued;
    while todo != {} && !r.Asked? && !r.Interrupted?
      invariant Serving(repo, publisher, relay)
      invariant Resuming(a, RunOf(repo, publisher, relay), now)
      invariant old(repo.failures) + Misses(!interrupted && !r.Interrupted?) <= repo.failures
      invariant r.LeftQueued? || r.Asked? || r.Interrupted?
      invariant !interrupted && !r.Interrupted? ==> |repo.openings| <= |a.queue.openings| + 1
      invariant !interrupted && r.LeftQueued? ==> repo.openings == a.queue.openings
      invariant !interrupted && !r.Interrupted? && MarkersExact(a.queue.turns, old(publisher.marked)) ==> MarkersExact(repo.turns, publisher.marked)
      decreases |todo|
    {
      var session :| session in todo;
      todo := todo - {session};
      if OpenOf(repo.turns, session).None? && OldestQueued(repo.turns, session).Some? {
        ghost var b := RunOf(repo, publisher, relay);
        var asked := ResumeSession(repo, publisher, relay, session, now);
        ResumingStep(a, b, RunOf(repo, publisher, relay), now, asked);
        AskedOnce(b.queue, QueueOf(repo), now, asked);
        match asked {
          case Asked =>
            r := Asked;
          case Interrupted =>
            var crashed: bool := *; // a failed write may also be just an error of this session
            interrupted := true;
            if crashed { r := Interrupted; }
          case KelpieError =>
            failed := true;
          case _ =>
        }
      }
    }
    if interrupted {
      r := Interrupted;
    } else if failed && r.LeftQueued? {
      r := KelpieError;
    }
    Resumed(a, RunOf(repo, publisher, relay), now, r);
  }

  lemma AskedOnce(before: QueueView, after: QueueView, now: int, r: Handled)
    requires ResumeOutcome(before, after, now, r)
    ensures r.Asked? || r.LeftQueued? || r.KelpieError? || r.Interrupted?
    ensures !r.Interrupted? ==> |after.openings| <= |before.openings| + 1 && (|after.openings| > |before.openings| ==> r.Asked?)
  {
  }

  lemma Resumed(a: Run, b: Run, now: int, r: Handled)
    requires Resuming(a, b, now) && (r.Asked? || r.LeftQueued? || r.KelpieError? || r.Interrupted?)
    requires !r.Interrupted? ==>
               |b.queue.openings| <= |a.queue.openings| + 1 && (|b.queue.openings| > |a.queue.openings| ==> r.Asked?)
    ensures RunAdvances(a, b) && OnlyNotices(a.world.outbox.attempts, b.world.outbox.attempts)
    ensures ResumeOutcome(a.queue, b.queue, now, r)
  {
  }

  lemma FailsLateReflexive(turns: seq<Turn>, now: int)
    ensures FailsOnlyLate(turns, turns, now)
  {
  }

  lemma FailsLateRun(a: Run, b: Run, c: Run, now: int)
    requires FailsOnlyLate(a.queue.turns, b.queue.turns, now) && FailsOnlyLate(b.queue.turns, c.queue.turns, now)
    requires RunAdvances(a, b) && RunAdvances(b, c)
    ensures FailsOnlyLate(a.queue.turns, c.queue.turns, now)
  {
  }

  /** One idle session with queued work. */
  method ResumeSession(repo: Repository, publisher: Publisher, ghost relay: Relay, session: Session, now: int) returns (r: Handled)
    requires Serving(repo, publisher, relay) && OldestQueued(repo.turns, session).Some?
    modifies repo`turns, repo`openings, repo`attempts, publisher`marked, repo`failures
    ensures old(repo.failures) + Misses(!r.Interrupted?) <= repo.failures
    ensures Serving(repo, publisher, relay)
    ensures RunAdvances(old(RunOf(repo, publisher, relay)), RunOf(repo, publisher, relay))
    ensures OnlyNotices(old(repo.attempts), repo.attempts)
    ensures ResumeOutcome(old(QueueOf(repo)), QueueOf(repo), now, r)
    ensures !r.Interrupted? && !r.Asked? ==> repo.openings == old(repo.openings)
    ensures !r.Interrupted? && MarkersExact(old(repo.turns), old(publisher.marked)) ==> MarkersExact(repo.turns, publisher.marked)
  {
    hide OutboxGood, ProgressGood, Evolves, QueueGood, QueueEvolves, MarkersExact, RunAdvances, LiveOf, First, SameLiveElsewhere;
    ghost var a := RunOf(repo, publisher, relay);
    ghost var marked := publisher.marked;
    TurnsOf(WorldOf(repo, publisher, relay).outbox);
    var oldest := OldestQueued(repo.turns, session).value;
    var turn := repo.turns[oldest];
    OneQueued(repo.turns, oldest);
    QueuedRow(repo.turns, oldest);
    var askable: bool := *;
    if !askable {
      if MarkersExact(repo.turns, marked) { CloseQueuedUnmarks(repo.turns, turn.event, Cancelled, marked); }
      var ok, changed := CloseQueued(repo, publisher, relay, turn.event, Cancelled);
      if !ok {
        return Interrupted;
      }
      publisher.RemoveMarker(turn.event);
      return LeftQueued;
    }
    r := AskOldestQueued(repo, publisher, relay, session, now);
    var crashed: bool := *;
    if r.Asked? || (r.Interrupted? && crashed) {
      return;
    }

    ghost var b := RunOf(repo, publisher, relay);
    var ok := AfterFailedDispatch(repo, publisher, relay, turn, now);
    RunAdvancesTransitive(a, b, RunOf(repo, publisher, relay));
    FailsLateRun(a, b, RunOf(repo, publisher, relay), now);
    if !ok { r := Interrupted; }
  }

  lemma QueuedRow(turns: seq<Turn>, i: nat)
    requires TurnsGood(turns) && i < |turns|
    ensures turns[i].publishReplyTo == (if turns[i].event.Relay? then Some(turns[i].event) else None)
  {
  }
}
