/**
 The drain of undispatched attempts: pace, count, resend under the recorded event id, and
 give up at the bound.
 */
module OutboxRetry {
  import opened Wrappers
  import opened HostStore
  import opened RelayPublisher
  import opened ProgressPolicy
  import opened ProgressRelay
  import opened ProgressTheory
  import opened Progress
  import opened OutboxTheory
  import opened Outbox
  import opened OutboxTells

  /** `outbound_retry_due`. */
  predicate RetryDue(a: Attempt, now: int) {
    !Closed(a) && (a.lastRetryAt.None? || SaturatingSub(now, a.lastRetryAt.value) >= RETRY_INTERVAL_SECS)
  }

  /** `pending_outbound_attempts`. */
  predicate PendingFor(a: Attempt, bot: BotId) {
    a.bot == Some(bot) && !Closed(a)
  }

  /** How many more completed due ticks an attempt can live through. */
  function RetriesLeft(a: Attempt): int {
    if Closed(a) then 0 else RETRY_CAP + 1 - a.retryCount
  }

  /** No path gives an attempt back any of its retries, or reopens it. */
  lemma RetriesOnlyShrink(a: Attempt, b: Attempt)
    requires AttemptEvolves(a, b) && b.retryCount <= RETRY_CAP && a.retryCount <= RETRY_CAP
    ensures 0 <= RetriesLeft(b) <= RetriesLeft(a)
    ensures Closed(a) ==> Closed(b)
  {
  }

  /** The answer is given up, and its turn still waits for it. */
  predicate Stranded(v: OutboxView, ask: AskId) {
    AbandonedIn(v.attempts, ask) && OfAsk(v.turns, ask).Some? && RowOf(v.turns, ask).state.Open?
  }

  /** The next due tick gives this attempt up without a send. */
  predicate LastChance(a: Attempt) {
    a.retryCount >= RETRY_CAP || Legacy(a)
  }

  /** What one tick does to one pending attempt. `live` says that it still owes an answer to an open turn,
      or that it answers no turn. */
  ghost predicate RetryOutcome(before: OutboxView, after: OutboxView, key: Key, now: int, outcome: Outcome) {
    && key in before.attempts && key in after.attempts
    && RowOnly(before.attempts, after.attempts, key)
    && before.sent <= after.sent && |after.sent| <= |before.sent| + 1
    && (|after.sent| > |before.sent| ==>
          && after.sent[|before.sent|].purpose == ForAttempt(key)
          && CarriesCount(after.sent[|before.sent|], before.attempts[key].retryCount + 1))
    && (!outcome.Aborted? ==>
          && RetriesLeft(after.attempts[key]) < RetriesLeft(before.attempts[key])
          && (key.Ask? && Closed(after.attempts[key]) && OfAsk(before.turns, key.ask).Some? ==>
                OfAsk(after.turns, key.ask).Some? && !RowOf(after.turns, key.ask).state.Open?))
    && (forall ask :: Stranded(after, ask) && !AbandonedIn(before.attempts, ask) ==> key == Ask(ask) && LastChance(before.attempts[key]))
  }

  /** The same, for the attempt after its retry was counted. */
  ghost predicate ResendOutcome(before: OutboxView, after: OutboxView, key: Key, outcome: Outcome) {
    && key in before.attempts && (key in after.attempts || outcome.Aborted?)
    && RowOnly(before.attempts, after.attempts, key)
    && before.sent <= after.sent && |after.sent| <= |before.sent| + 1
    && (|after.sent| > |before.sent| ==>
          && after.sent[|before.sent|].purpose == ForAttempt(key)
          && CarriesCount(after.sent[|before.sent|], before.attempts[key].retryCount))
    && (!outcome.Aborted? && key.Ask? && Decided(after.attempts, key) && OfAsk(before.turns, key.ask).Some? ==>
          OfAsk(after.turns, key.ask).Some? && !RowOf(after.turns, key.ask).state.Open?)
    && (forall ask :: Stranded(after, ask) ==> AbandonedIn(before.attempts, ask))
  }

  lemma CountedRetry(before: OutboxView, paced: OutboxView, after: OutboxView, key: Key, now: int, outcome: Outcome)
    requires key in before.attempts && before.attempts[key].retryCount < RETRY_CAP && !Closed(before.attempts[key])
    requires key in paced.attempts && paced == before.(attempts := before.attempts[key := paced.attempts[key]])
    requires paced.attempts[key] == Paced(before.attempts[key], now)
    requires OutboxGood(after) && OutboxEvolves(paced, after) && ResendOutcome(paced, after, key, outcome)
    ensures RetryOutcome(before, after, key, now, outcome)
    ensures CancelWon(paced, after, key, outcome) ==> CancelWon(before, after, key, outcome)
  {
    CountedOnce(paced, after, key);
    PacedAlike(before, paced, after, key);
    hide OutboxGood, OutboxEvolves, OfAsk, First, Stranded, AbandonedIn, RowOnly, Paced, LastChance;
  }

  lemma PacedAlike(before: OutboxView, paced: OutboxView, after: OutboxView, key: Key)
    requires key in before.attempts && !Closed(before.attempts[key]) && key in paced.attempts
    requires paced.attempts == before.attempts[key := paced.attempts[key]] && !Closed(paced.attempts[key])
    ensures forall ask :: AbandonedIn(paced.attempts, ask) ==> AbandonedIn(before.attempts, ask)
    ensures RowOnly(paced.attempts, after.attempts, key) ==> RowOnly(before.attempts, after.attempts, key)
  {
  }

  lemma CountedOnce(paced: OutboxView, after: OutboxView, key: Key)
    requires key in paced.attempts && OutboxGood(after) && OutboxEvolves(paced, after)
    ensures key in after.attempts && paced.attempts[key].retryCount <= after.attempts[key].retryCount <= RETRY_CAP
  {
    hide OutboxGood;
    assert AttemptEvolves(paced.attempts[key], after.attempts[key]);
    CountBounded(after, key);
  }

  /** A cancel won between two ticks: the next tick abandons without a send. */
  ghost predicate CancelWon(before: OutboxView, after: OutboxView, key: Key, outcome: Outcome) {
    key.Ask? && OfAsk(before.turns, key.ask).Some? && !RowOf(before.turns, key.ask).state.Open? ==>
      && after.sent == before.sent && after.turns == before.turns
      && (!outcome.Aborted? ==> key in after.attempts && after.attempts[key].abandonedAt.Some?)
  }

  function Abandoned(a: Attempt, now: int): Attempt {
    a.(abandonedAt := Some(now))
  }

  function Paced(a: Attempt, now: int): Attempt {
    a.(retryCount := a.retryCount + 1, lastRetryAt := Some(now))
  }

  lemma AbandonedGood(v: OutboxView, key: Key, now: int)
    requires OutboxGood(v) && key in v.attempts && !Closed(v.attempts[key])
    ensures var b := Abandoned(v.attempts[key], now);
            && AttemptGood(key, b, v.turns, v.indexed, v.sign) && AttemptEvolves(v.attempts[key], b)
            && MergedAttempt(Some(v.attempts[key]), b) == b
  {
  }

  lemma PacedGood(v: OutboxView, key: Key, now: int)
    requires OutboxGood(v) && key in v.attempts && RetryDue(v.attempts[key], now) && v.attempts[key].retryCount < RETRY_CAP
    ensures var b := Paced(v.attempts[key], now);
            && AttemptGood(key, b, v.turns, v.indexed, v.sign) && AttemptEvolves(v.attempts[key], b)
            && MergedAttempt(Some(v.attempts[key]), b) == b && RetriesLeft(b) < RetriesLeft(v.attempts[key])
  {
  }

  lemma CountBounded(v: OutboxView, key: Key)
    requires OutboxGood(v) && key in v.attempts
    ensures 0 <= v.attempts[key].retryCount <= RETRY_CAP
    ensures key.Ask? ==> OfAsk(v.turns, key.ask).Some? && (v.attempts[key].bot.Some? ==> v.attempts[key].bot.value == RowOf(v.turns, key.ask).session.bot)
    ensures key.Tell? && v.attempts[key].bot.Some? ==> v.attempts[key].bot.value == key.bot
  {
  }

  method SaveAbandoned(repo: Repository, ghost publisher: Publisher, ghost relay: Relay, key: Key, attempt: Attempt, now: int)
    returns (ok: bool)
    requires HostGood(repo, publisher, relay) && key in repo.attempts && repo.attempts[key] == attempt && !Closed(attempt)
    modifies repo`attempts, repo`failures
    ensures old(repo.failures) + Misses(ok) <= repo.failures
    ensures HostGood(repo, publisher, relay)
    ensures Evolves(old(WorldOf(repo, publisher, relay)), WorldOf(repo, publisher, relay))
    ensures repo.attempts == old(repo.attempts)[key := Abandoned(attempt, now)] || (!ok && repo.attempts == old(repo.attempts))
  {
    hide OutboxGood, OutboxEvolves, ProgressGood, ProgressEvolves, AttemptGood, AttemptEvolves;
    AbandonedGood(WorldOf(repo, publisher, relay).outbox, key, now);
    ok := SaveAttempt(repo, publisher, relay, key, Abandoned(attempt, now));
  }

  /**
   Give up: stamp the attempt, then fail the open turn it answers. `stamped` and `closed` say which
   of the two writes is durable; the answer is stranded exactly when the first is and the second is not.
   */
  method AbandonOutbound(repo: Repository, publisher: Publisher, ghost relay: Relay, key: Key, attempt: Attempt, now: int)
    returns (ok: bool, ghost stamped: bool, ghost closed: bool)
    requires HostGood(repo, publisher, relay) && key in repo.attempts && repo.attempts[key] == attempt && !Closed(attempt)
    modifies repo`turns, repo`attempts, publisher`marked, repo`failures
    ensures old(repo.failures) + Misses(ok) <= repo.failures
    ensures HostGood(repo, publisher, relay)
    ensures Advances(old(WorldOf(repo, publisher, relay)), WorldOf(repo, publisher, relay))
    ensures repo.attempts == if stamped then old(repo.attempts)[key := Abandoned(attempt, now)] else old(repo.attempts)
    ensures !stamped ==> !ok && !closed && repo.turns == old(repo.turns) && publisher.marked == old(publisher.marked)
    ensures key.Ask? ==>
              && OfAsk(old(repo.turns), key.ask).Some? && OfAsk(repo.turns, key.ask).Some?
              && (closed <==> RowOf(old(repo.turns), key.ask).state.Open? && RowOf(repo.turns, key.ask).state.Failed?)
              && (Stranded(WorldOf(repo, publisher, relay).outbox, key.ask) <==> RowOf(old(repo.turns), key.ask).state.Open? && stamped && !closed)
              && (Stranded(WorldOf(repo, publisher, relay).outbox, key.ask) ==> !ok && publisher.marked == old(publisher.marked))
              && (!RowOf(old(repo.turns), key.ask).state.Open? ==> repo.turns == old(repo.turns))
    ensures ok && MarkersExact(old(repo.turns), old(publisher.marked)) ==> MarkersExact(repo.turns, publisher.marked)
  {
    hide OutboxGood, OutboxEvolves, ProgressGood, ProgressEvolves, MarkersExact, Closes, TurnsGood, OfAsk, First;
    ghost var w := WorldOf(repo, publisher, relay);
    ClosesReflexive(repo.turns);
    CountBounded(w.outbox, key);
    ok := SaveAbandoned(repo, publisher, relay, key, attempt, now);
    stamped, closed := repo.attempts != w.outbox.attempts, false;
    if ok && key.Ask? && RowOf(repo.turns, key.ask).state.Open? {
      ghost var x := WorldOf(repo, publisher, relay);
      ok := FailAbandoned(repo, publisher, relay, RowOf(repo.turns, key.ask), key.ask);
      closed := RowOf(repo.turns, key.ask).state.Failed?;
      EvolvesTransitive(w, x, WorldOf(repo, publisher, relay));
    }
  }

  /** Release the claim of an open turn, then fail it. */
  method FailAbandoned(repo: Repository, publisher: Publisher, ghost relay: Relay, turn: Turn, ask: AskId) returns (ok: bool)
    requires HostGood(repo, publisher, relay) && Current(repo.turns, ask, turn) && turn.state.Open? && !Answered(repo.attempts, ask)
    modifies repo`turns, publisher`marked, repo`failures
    ensures old(repo.failures) + Misses(ok) <= repo.failures
    ensures HostGood(repo, publisher, relay)
    ensures Advances(old(WorldOf(repo, publisher, relay)), WorldOf(repo, publisher, relay))
    ensures OfAsk(repo.turns, ask).Some?
    ensures RowOf(repo.turns, ask).state.Failed? || (RowOf(repo.turns, ask).state.Open? && !ok && publisher.marked == old(publisher.marked))
    ensures ok && MarkersExact(old(repo.turns), old(publisher.marked)) ==> MarkersExact(repo.turns, publisher.marked)
  {
    hide OutboxGood, OutboxEvolves, ProgressGood, ProgressEvolves, MarkersExact, Closes, TurnsGood, OfAsk, First, WithState, WithClaim, CanSet;
    ghost var x := WorldOf(repo, publisher, relay);
    TurnsOf(x.outbox);
    ReleasedRow(repo.turns, ask);
    if MarkersExact(repo.turns, publisher.marked) { ClaimKeepsMarkers(repo.turns, ask, false, publisher.marked); }
    var changed: bool;
    ok, changed := SetClaim(repo, publisher, relay, ask, false);
    ghost var y := WorldOf(repo, publisher, relay);
    if ok {
      ReadRow(x.outbox.turns, repo.turns, ask);
      TurnsOf(y.outbox);
      CloseRow(repo.turns, ask, Failed);
      var outcome := CloseTurn(repo, publisher, relay, turn, ask, Failed);
      ok := outcome.Ack?;
      AdvancesTransitive(x, y, WorldOf(repo, publisher, relay));
    }
  }

  /** What was read of a turn stays true of its row. */
  lemma ReadRow(a: seq<Turn>, b: seq<Turn>, ask: AskId)
    requires TurnsGood(a) && OfAsk(a, ask).Some? && Closes(a, b) && OfAsk(b, ask) == OfAsk(a, ask)
    ensures ReadFrom(b, ask, RowOf(a, ask))
  {
  }

  /** The bound is reached, or nothing may be sent again: what `AbandonOutbound` did. */
  lemma GaveUp(w: World, x: World, key: Key, now: int, outcome: Outcome, stamped: bool)
    requires OutboxGood(w.outbox) && key in w.outbox.attempts && !Closed(w.outbox.attempts[key]) && LastChance(w.outbox.attempts[key])
    requires Advances(w, x) && x.outbox.sent == w.outbox.sent
    requires x.outbox.attempts == if stamped then w.outbox.attempts[key := Abandoned(w.outbox.attempts[key], now)] else w.outbox.attempts
    requires outcome.Ack? || outcome.Aborted?
    requires outcome.Ack? ==> stamped
    requires !stamped ==> x.outbox.turns == w.outbox.turns
    requires key.Ask? ==>
               && OfAsk(w.outbox.turns, key.ask).Some? && OfAsk(x.outbox.turns, key.ask).Some?
               && (outcome.Ack? ==> !RowOf(x.outbox.turns, key.ask).state.Open?)
               && (!RowOf(w.outbox.turns, key.ask).state.Open? ==> x.outbox.turns == w.outbox.turns)
    ensures RetryOutcome(w.outbox, x.outbox, key, now, outcome) && CancelWon(w.outbox, x.outbox, key, outcome)
  {
    hide OutboxEvolves, ProgressEvolves, Closes;
    CountBounded(w.outbox, key);
    hide OutboxGood;
  }

  lemma NotPaced(w: World, x: World, key: Key, now: int)
    requires key in w.outbox.attempts && x.outbox.turns == w.outbox.turns && x.outbox.sent == w.outbox.sent
    requires x.outbox.attempts == w.outbox.attempts || x.outbox.attempts == w.outbox.attempts[key := Paced(w.outbox.attempts[key], now)]
    ensures RetryOutcome(w.outbox, x.outbox, key, now, Aborted) && CancelWon(w.outbox, x.outbox, key, Aborted)
  {
  }

  /** Resend one pending attempt that is due; the retry is counted before anything is sent. */
  method RetryUndispatched(repo: Repository, publisher: Publisher, ghost relay: Relay, key: Key, attempt: Attempt, bot: BotId, now: int)
    returns (outcome: Outcome)
    requires HostGood(repo, publisher, relay) && key in repo.attempts && repo.attempts[key] == attempt
    requires PendingFor(attempt, bot) && RetryDue(attempt, now)
    modifies repo`turns, repo`attempts, repo`posts, publisher`sent, publisher`marked, repo`failures
    ensures old(repo.failures) + Misses(!outcome.Aborted?) <= repo.failures
    ensures HostGood(repo, publisher, relay)
    ensures Advances(old(WorldOf(repo, publisher, relay)), WorldOf(repo, publisher, relay))
    ensures RetryOutcome(old(WorldOf(repo, publisher, relay).outbox), WorldOf(repo, publisher, relay).outbox, key, now, outcome)
    ensures CancelWon(old(WorldOf(repo, publisher, relay).outbox), WorldOf(repo, publisher, relay).outbox, key, outcome)
    ensures !outcome.Aborted? && MarkersExact(old(repo.turns), old(publisher.marked)) ==> MarkersExact(repo.turns, publisher.marked)
  {
    hide OutboxGood, OutboxEvolves, ProgressGood, ProgressEvolves, AttemptGood, AttemptEvolves, MarkersExact,
         Closes, TurnsGood, MergedAttempt, RetryOutcome, CancelWon, ResendOutcome;
    ghost var w := WorldOf(repo, publisher, relay);
    ClosesReflexive(repo.turns);
    CountBounded(w.outbox, key);
    if LastChance(attempt) {
      var gone, stamped, closed := AbandonOutbound(repo, publisher, relay, key, attempt, now);
      outcome := if gone then Ack else Aborted;
      GaveUp(w, WorldOf(repo, publisher, relay), key, now, outcome, stamped);
      return;
    }
    PacedGood(w.outbox, key, now);
    var paced := Paced(attempt, now);
    var ok := SaveAttempt(repo, publisher, relay, key, paced);
    ghost var x := WorldOf(repo, publisher, relay);
    if !ok {
      NotPaced(w, x, key, now);
      return Aborted;
    }
    outcome := Resend(repo, publisher, relay, key, paced, bot, now);
    CountedRetry(w.outbox, x.outbox, WorldOf(repo, publisher, relay).outbox, key, now, outcome);
    AdvancesTransitive(w, x, WorldOf(repo, publisher, relay));
  }

  /** Send the counted attempt: through its turn while that is open, directly when it answers no turn. */
  method Resend(repo: Repository, publisher: Publisher, ghost relay: Relay, key: Key, paced: Attempt, bot: BotId, now: int)
    returns (outcome: Outcome)
    requires HostGood(repo, publisher, relay) && key in repo.attempts && repo.attempts[key] == paced
    requires PendingFor(paced, bot) && !Legacy(paced)
    modifies repo`turns, repo`attempts, repo`posts, publisher`sent, publisher`marked, repo`failures
    ensures old(repo.failures) + Misses(!outcome.Aborted?) <= repo.failures
    ensures HostGood(repo, publisher, relay)
    ensures Advances(old(WorldOf(repo, publisher, relay)), WorldOf(repo, publisher, relay))
    ensures ResendOutcome(old(WorldOf(repo, publisher, relay).outbox), WorldOf(repo, publisher, relay).outbox, key, outcome)
    ensures CancelWon(old(WorldOf(repo, publisher, relay).outbox), WorldOf(repo, publisher, relay).outbox, key, outcome)
    ensures !outcome.Aborted? && MarkersExact(old(repo.turns), old(publisher.marked)) ==> MarkersExact(repo.turns, publisher.marked)
  {
    hide OutboxGood, OutboxEvolves, ProgressGood, ProgressEvolves, AttemptGood, AttemptEvolves, MarkersExact, Closes, TurnsGood, CancelsOnly;
    ghost var w := WorldOf(repo, publisher, relay);
    ClosesReflexive(repo.turns);
    CountBounded(w.outbox, key);
    if !key.Ask? {
      outcome := SendTell(repo, publisher, relay, key, bot, now);
    } else if RowOf(repo.turns, key.ask).state.Open? {
      outcome := CompleteOutbound(repo, publisher, relay, RowOf(repo.turns, key.ask), key.ask, None, "", now);
    } else {
      var ok := SaveAbandoned(repo, publisher, relay, key, paced, now);
      outcome := if ok then Ack else Aborted;
    }
  }

  // ---- abandoned answers ----

  /** An abandoned answer's turn is not open any more. */
  ghost predicate AbandonedOver(v: OutboxView) {
    forall ask :: !Stranded(v, ask)
  }

  /** No turn reopens: what was over stays over. */
  lemma StaysOver(v: OutboxView, w: OutboxView, ask: AskId)
    requires OutboxGood(v) && OutboxGood(w) && OutboxEvolves(v, w) && !Stranded(v, ask) && AbandonedIn(v.attempts, ask)
    ensures !Stranded(w, ask)
  {
    CountBounded(v, Ask(ask));
    OfAskStable(v.turns, w.turns, ask);
  }

  /** No answer is newly stranded. */
  ghost predicate StrandsNone(v: OutboxView, w: OutboxView) {
    forall ask :: Stranded(w, ask) ==> Stranded(v, ask)
  }

  /** A step that gives no answer up strands none. */
  lemma AbandonsNone(v: OutboxView, w: OutboxView)
    requires OutboxGood(v) && OutboxGood(w) && OutboxEvolves(v, w) && NoneAbandoned(v.attempts, w.attempts)
    ensures StrandsNone(v, w)
  {
    hide OutboxGood, OutboxEvolves;
    forall ask | Stranded(w, ask) ensures Stranded(v, ask) {
      if !Stranded(v, ask) { StaysOver(v, w, ask); }
    }
  }

  /** A completed retry gives an answer up only with its turn. */
  lemma RetryStrandsNone(v: OutboxView, w: OutboxView, key: Key, now: int, outcome: Outcome)
    requires OutboxGood(v) && OutboxGood(w) && OutboxEvolves(v, w)
    requires RetryOutcome(v, w, key, now, outcome) && !outcome.Aborted?
    ensures StrandsNone(v, w)
  {
    hide OutboxGood, OutboxEvolves;
    CountBounded(v, key);
    forall ask | Stranded(w, ask) ensures Stranded(v, ask) {
      if AbandonedIn(v.attempts, ask) && !Stranded(v, ask) { StaysOver(v, w, ask); }
    }
  }

  /** The attempts one tick of `bot` may send. */
  predicate DueFor(attempts: map<Key, Attempt>, key: Key, bot: BotId, now: int) {
    key in attempts && PendingFor(attempts[key], bot) && RetryDue(attempts[key], now)
  }

  /** Every send of a tick is for a due attempt, and no attempt is sent twice. */
  ghost predicate SentOncePerTick(rows: map<Key, Attempt>, sent: seq<Send>, from: nat, bot: BotId, now: int) {
    && from <= |sent|
    && (forall i :: from <= i < |sent| ==> sent[i].purpose.ForAttempt? && DueFor(rows, sent[i].purpose.key, bot, now))
    && (forall i, j :: from <= i < j < |sent| ==> sent[i].purpose != sent[j].purpose)
  }

  /** Every due attempt outside `todo` has used up a retry. */
  ghost predicate TickProgress(rows: map<Key, Attempt>, attempts: map<Key, Attempt>, todo: set<Key>, bot: BotId, now: int) {
    forall key :: DueFor(rows, key, bot, now) && key !in todo ==> key in attempts && RetriesLeft(attempts[key]) < RetriesLeft(rows[key])
  }

  /** The rows of `todo` are as they were read, and nothing was sent for them. */
  ghost predicate Untouched(rows: map<Key, Attempt>, v: OutboxView, from: nat, todo: set<Key>) {
    && (forall key :: key in todo ==> key in rows && key in v.attempts && v.attempts[key] == rows[key])
    && (forall i :: from <= i < |v.sent| ==> v.sent[i].purpose.ForAttempt? && v.sent[i].purpose.key !in todo)
  }

  lemma TickStep(rows: map<Key, Attempt>, before: OutboxView, after: OutboxView, from: nat, todo: set<Key>, key: Key,
                 bot: BotId, now: int, outcome: Outcome)
    requires RetryOutcome(before, after, key, now, outcome) && key !in todo && DueFor(rows, key, bot, now)
    requires Untouched(rows, before, from, todo + {key})
    requires SentOncePerTick(rows, before.sent, from, bot, now)
    requires TickProgress(rows, before.attempts, todo + {key}, bot, now)
    ensures Untouched(rows, after, from, todo)
    ensures SentOncePerTick(rows, after.sent, from, bot, now)
    ensures !outcome.Aborted? ==> TickProgress(rows, after.attempts, todo, bot, now)
  {
    hide DueFor;
    forall i | from <= i < |after.sent|
      ensures after.sent[i].purpose.ForAttempt? && after.sent[i].purpose.key !in todo && DueFor(rows, after.sent[i].purpose.key, bot, now)
    {
      if i < |before.sent| { assert after.sent[i] == before.sent[i]; }
    }
    forall i, j | from <= i < j < |after.sent| ensures after.sent[i].purpose != after.sent[j].purpose {
      assert after.sent[i] == before.sent[i];
      if j < |before.sent| { assert after.sent[j] == before.sent[j]; }
    }
  }

  /** A tick strands an answer only at its last chance. */
  ghost predicate StrandsAtLast(rows: map<Key, Attempt>, v: OutboxView, bot: BotId, now: int) {
    forall ask :: Stranded(v, ask) && !AbandonedIn(rows, ask) ==>
      DueFor(rows, Ask(ask), bot, now) && LastChance(rows[Ask(ask)])
  }

  lemma StrandStep(rows: map<Key, Attempt>, before: World, after: World, key: Key, bot: BotId, now: int, outcome: Outcome)
    requires OutboxGood(before.outbox) && OutboxGood(after.outbox) && Advances(before, after)
    requires RetryOutcome(before.outbox, after.outbox, key, now, outcome)
    requires DueFor(rows, key, bot, now) && key in before.outbox.attempts && before.outbox.attempts[key] == rows[key]
    requires StrandsAtLast(rows, before.outbox, bot, now)
    ensures StrandsAtLast(rows, after.outbox, bot, now)
  {
    hide OutboxGood, OutboxEvolves, ProgressEvolves, Closes, PendingFor, RetryDue;
    forall ask | Stranded(after.outbox, ask) && !AbandonedIn(rows, ask) ensures DueFor(rows, Ask(ask), bot, now) && LastChance(rows[Ask(ask)]) {
      if AbandonedIn(before.outbox.attempts, ask) && !Stranded(before.outbox, ask) {
        StaysOver(before.outbox, after.outbox, ask);
      }
    }
  }

  lemma NoneStranded(v: OutboxView, bot: BotId, now: int)
    ensures StrandsAtLast(v.attempts, v, bot, now)
  {
  }

  /** What holds of a tick that has `todo` still to look at. */
  ghost predicate Ticking(w: World, x: World, rows: map<Key, Attempt>, todo: set<Key>, bot: BotId, now: int, ok: bool) {
    && Advances(w, x) && x.outbox.attempts.Keys == rows.Keys
    && Untouched(rows, x.outbox, |w.outbox.sent|, todo)
    && SentOncePerTick(rows, x.outbox.sent, |w.outbox.sent|, bot, now)
    && StrandsAtLast(rows, x.outbox, bot, now)
    && (ok ==> TickProgress(rows, x.outbox.attempts, todo, bot, now))
    && (ok ==> StrandsNone(w.outbox, x.outbox))
  }

  lemma TickAdvance(w: World, x: World, y: World, rows: map<Key, Attempt>, todo: set<Key>, key: Key, bot: BotId, now: int, outcome: Outcome)
    requires OutboxGood(x.outbox) && OutboxGood(y.outbox) && Ticking(w, x, rows, todo + {key}, bot, now, true)
    requires Advances(x, y) && RetryOutcome(x.outbox, y.outbox, key, now, outcome) && DueFor(rows, key, bot, now) && key !in todo
    ensures Ticking(w, y, rows, todo, bot, now, !outcome.Aborted?)
  {
    hide OutboxGood, Advances, RetryOutcome, SentOncePerTick, TickProgress, StrandsAtLast, Stranded, DueFor;
    assert key in todo + {key};
    AdvancesTransitive(w, x, y);
    TickStep(rows, x.outbox, y.outbox, |w.outbox.sent|, todo, key, bot, now, outcome);
    StrandStep(rows, x, y, key, bot, now, outcome);
    SameKeys(x.outbox, y.outbox, key, now, outcome);
    if !outcome.Aborted? { StrandsNoneAdvance(x, y, key, now, outcome); }
  }

  lemma TickSkip(w: World, x: World, rows: map<Key, Attempt>, todo: set<Key>, key: Key, bot: BotId, now: int)
    requires Ticking(w, x, rows, todo + {key}, bot, now, true) && !DueFor(rows, key, bot, now)
    ensures Ticking(w, x, rows, todo, bot, now, true)
  {
    hide Advances, SentOncePerTick, TickProgress, StrandsAtLast, Stranded, DueFor;
    NotDue(rows, x.outbox.attempts, todo, key, bot, now);
  }

  lemma TickStarts(w: World, bot: BotId, now: int)
    ensures Ticking(w, w, w.outbox.attempts, (set key | key in w.outbox.attempts && PendingFor(w.outbox.attempts[key], bot)), bot, now, true)
  {
    AdvancesReflexive(w);
    NoneStranded(w.outbox, bot, now);
    TickStart(w.outbox.attempts, w.outbox.sent, bot, now);
  }

  lemma StillThere(w: World, x: World, rows: map<Key, Attempt>, todo: set<Key>, key: Key, bot: BotId, now: int)
    requires Ticking(w, x, rows, todo, bot, now, true) && key in todo
    ensures key in rows && key in x.outbox.attempts && x.outbox.attempts[key] == rows[key]
  {
  }

  /** One drain tick of one bot. Its attempts were read once; one retryable failure does not skip the rest. */
  method OutboundTick(repo: Repository, publisher: Publisher, ghost relay: Relay, bot: BotId, now: int)
    returns (ok: bool, resume: bool)
    requires HostGood(repo, publisher, relay)
    modifies repo`turns, repo`attempts, repo`posts, publisher`sent, publisher`marked, repo`failures
    ensures old(repo.failures) + Misses(ok) <= repo.failures
    ensures HostGood(repo, publisher, relay)
    ensures Advances(old(WorldOf(repo, publisher, relay)), WorldOf(repo, publisher, relay))
    ensures repo.attempts.Keys == old(repo.attempts).Keys
    ensures SentOncePerTick(old(repo.attempts), publisher.sent, |old(publisher.sent)|, bot, now)
    ensures ok ==> TickProgress(old(repo.attempts), repo.attempts, {}, bot, now)
    ensures StrandsAtLast(old(repo.attempts), WorldOf(repo, publisher, relay).outbox, bot, now)
    ensures ok && MarkersExact(old(repo.turns), old(publisher.marked)) ==> MarkersExact(repo.turns, publisher.marked)
    ensures ok ==> StrandsNone(old(WorldOf(repo, publisher, relay).outbox), WorldOf(repo, publisher, relay).outbox)
  {
    hide OutboxGood, ProgressGood, OutboxEvolves, ProgressEvolves, MarkersExact, Closes, RetryOutcome, CancelWon,
         Ticking, SentOncePerTick, TickProgress, StrandsAtLast, Advances, StrandsNone;
    ghost var w := WorldOf(repo, publisher, relay);
    var rows := repo.attempts;
    var todo := set key | key in rows && PendingFor(rows[key], bot);
    TickStarts(w, bot, now);
    ok, resume := true, false;
    while ok && todo != {}
      invariant HostGood(repo, publisher, relay)
      invariant forall key :: key in todo ==> key in rows && PendingFor(rows[key], bot)
      invariant Ticking(w, WorldOf(repo, publisher, relay), rows, todo, bot, now, ok)
      invariant old(repo.failures) + Misses(ok) <= repo.failures
      invariant ok && MarkersExact(w.outbox.turns, old(publisher.marked)) ==> MarkersExact(repo.turns, publisher.marked)
      decreases |todo|
    {
      var key :| key in todo;
      ghost var x := WorldOf(repo, publisher, relay);
      StillThere(w, x, rows, todo, key, bot, now);
      assert todo == (todo - {key}) + {key};
      todo := todo - {key};
      if RetryDue(rows[key], now) {
        var outcome := RetryUndispatched(repo, publisher, relay, key, rows[key], bot, now);
        TickAdvance(w, x, WorldOf(repo, publisher, relay), rows, todo, key, bot, now, outcome);
        if outcome.Ack? && key.Ask? {
          var turn := StoredState(repo.turns, key.ask);
          resume := resume || turn == Some(Posted) || turn == Some(Failed);
        }
        ok := !outcome.Aborted?;
      } else {
        TickSkip(w, x, rows, todo, key, bot, now);
      }
    }
    TickEnds(w, WorldOf(repo, publisher, relay), rows, todo, bot, now, ok);
  }

  lemma TickEnds(w: World, x: World, rows: map<Key, Attempt>, todo: set<Key>, bot: BotId, now: int, ok: bool)
    requires Ticking(w, x, rows, todo, bot, now, ok) && (ok ==> todo == {})
    ensures Advances(w, x) && x.outbox.attempts.Keys == rows.Keys
    ensures SentOncePerTick(rows, x.outbox.sent, |w.outbox.sent|, bot, now) && StrandsAtLast(rows, x.outbox, bot, now)
    ensures ok ==> TickProgress(rows, x.outbox.attempts, {}, bot, now)
    ensures ok ==> StrandsNone(w.outbox, x.outbox)
  {
  }

  lemma StrandsNoneAdvance(x: World, y: World, key: Key, now: int, outcome: Outcome)
    requires OutboxGood(x.outbox) && OutboxGood(y.outbox) && Advances(x, y)
    requires RetryOutcome(x.outbox, y.outbox, key, now, outcome) && !outcome.Aborted?
    ensures StrandsNone(x.outbox, y.outbox)
  {
    RetryStrandsNone(x.outbox, y.outbox, key, now, outcome);
  }

  function StoredState(turns: seq<Turn>, ask: AskId): Option<TurnState> {
    if OfAsk(turns, ask).Some? then Some(RowOf(turns, ask).state) else None
  }

  lemma TickStart(rows: map<Key, Attempt>, sent: seq<Send>, bot: BotId, now: int)
    ensures SentOncePerTick(rows, sent, |sent|, bot, now)
    ensures TickProgress(rows, rows, (set key | key in rows && PendingFor(rows[key], bot)), bot, now)
  {
  }

  lemma NotDue(rows: map<Key, Attempt>, attempts: map<Key, Attempt>, todo: set<Key>, key: Key, bot: BotId, now: int)
    requires TickProgress(rows, attempts, todo + {key}, bot, now) && !DueFor(rows, key, bot, now)
    ensures TickProgress(rows, attempts, todo, bot, now)
  {
  }

  lemma SameKeys(before: OutboxView, after: OutboxView, key: Key, now: int, outcome: Outcome)
    requires RetryOutcome(before, after, key, now, outcome)
    ensures after.attempts.Keys == before.attempts.Keys
  {
  }
}
