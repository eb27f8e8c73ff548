/**
 What holds of every run of the host. The theorems about two states take their outbox or progress
 parts, the earlier one first; `StateParts`, `RunParts` and `RunsForward` give their requirements
 for any two states of `Server.Serve`. The theorems about whole runs take the inputs of `Serve`
 and the states it went through.
 */
module RunTheorems {
  import opened Wrappers
  import opened Stamping
  import opened HostStore
  import opened RelayPublisher
  import opened ProgressPolicy
  import opened ProgressRelay
  import opened ProgressTheory
  import opened ProgressSteps
  import opened Progress
  import opened OutboxTheory
  import opened Outbox
  import opened OutboxRetry
  import opened Delivery
  import opened TurnQueueTheory
  import opened TurnQueue
  import opened Host

  lemma StateParts(r: Run)
    requires RunGood(r)
    ensures OutboxGood(r.world.outbox) && SendsBacked(r.world.outbox.sent, r.world.outbox.attempts)
    ensures CreatesBacked(r.world.outbox.sent, r.world.progress.posts) && FeedGood(r.world.progress.feed)
    ensures PostsGood(r.world.progress.posts, r.world.progress.turns, r.world.progress.attempts, r.world.progress.feed, r.world.progress.sign)
    ensures QueueGood(r.queue) && ProgressGood(r.world.progress)
  {
  }

  lemma RunParts(a: Run, b: Run)
    requires RunEvolves(a, b)
    ensures OutboxEvolves(a.world.outbox, b.world.outbox) && ProgressEvolves(a.world.progress, b.world.progress)
    ensures PostsKept(a.world.progress, b.world.progress) && QueueEvolves(a.queue, b.queue)
  {
  }

  /** Nothing moves backward between any two states of a run. */
  lemma {:induction false} RunsForward(inputs: seq<(Input, int)>, states: seq<Snapshot>, m: nat, n: nat)
    requires RanThrough(inputs, states) && m <= n < |states|
    ensures RunEvolves(states[m].run, states[n].run) && states[m].failures <= states[n].failures
    decreases n - m
  {
    hide RunGood, RunEvolves, Tidy;
    if m == n {
      RunEvolvesReflexive(states[m].run);
    } else {
      RunsForward(inputs, states, m, n - 1);
      assert Serves(inputs[n - 1].0, inputs[n - 1].1, states[n - 1], states[n]);
      RunEvolvesTransitive(states[m].run, states[n - 1].run, states[n].run);
    }
  }

  // ---- runs without failures ----

  /** What a host that started tidy is like while no write has failed and no cancel was lost. */
  lemma {:induction false} StaysTidyThroughout(inputs: seq<(Input, int)>, states: seq<Snapshot>, n: nat)
    requires RanThrough(inputs, states) && n < |states| && Tidy(states[0]) && states[n].failures == states[0].failures
    ensures Tidy(states[n])
  {
    hide RunGood, RunEvolves, Tidy, StrandsRarely, Ticks, Unstrands, GivesUpOnly, RefusalsClose;
    if n > 0 {
      RunsForward(inputs, states, 0, n - 1);
      assert Serves(inputs[n - 1].0, inputs[n - 1].1, states[n - 1], states[n]);
      StaysTidyThroughout(inputs, states, n - 1);
    }
  }

  /** The in-flight marker is up exactly on the trigger events with queued or open work. */
  lemma MarkersInFlight(inputs: seq<(Input, int)>, states: seq<Snapshot>, n: nat, event: EventId)
    requires RanThrough(inputs, states) && n < |states| && Tidy(states[0]) && states[n].failures == states[0].failures
    ensures event in states[n].marked <==>
              event.Relay? && exists i :: OfEvent(states[n].run.queue.turns, i, event) && Live(states[n].run.queue.turns[i])
  {
    StaysTidyThroughout(inputs, states, n);
    var turns := states[n].run.queue.turns;
    if LiveOf(turns, event).Some? { assert OfEvent(turns, LiveOf(turns, event).value, event); }
  }

  /** The post of a cancelled ask is deleted, or its delete is owed for the one event it was created
      under, unless its create was refused or rejected. */
  lemma CancelledPostsCovered(inputs: seq<(Input, int)>, states: seq<Snapshot>, n: nat, ask: AskId)
    requires RanThrough(inputs, states) && n < |states| && Tidy(states[0]) && states[n].failures == states[0].failures
    requires CancelledAsk(states[n].run.queue.turns, ask) && Created(states[n].run.world.progress.posts, ask)
    ensures var v := states[n].run.world.progress;
            || PostDropped(ask) in v.feed
            || (v.posts[ask].ended && (v.posts[ask].deletePending || DeleteSettled(v.feed, ask, v.posts[ask].prepared.value)))
  {
    StaysTidyThroughout(inputs, states, n);
  }

  // ---- one event per answer ----

  /** The rows stored when `e` was sent already held this event id. */
  predicate RecordedBefore(e: Send, id: EventId) {
    match e.purpose
    case ForAttempt(_) => e.attempt.Some? && e.attempt.value.prepared == Some(id)
    case ForProgress(_) => e.post.Some? && e.post.value.prepared == Some(id)
  }

  /** However often an answer, tell or progress create is sent, it is one event, recorded before each send. */
  lemma OneEvent(sent: seq<Send>, attempts: map<Key, Attempt>, posts: map<AskId, ProgressPost>, i: nat, j: nat)
    requires SendsBacked(sent, attempts) && CreatesBacked(sent, posts)
    requires i < |sent| && j < |sent| && sent[i].purpose == sent[j].purpose
    ensures sent[i].id == sent[j].id && sent[i].payload == sent[j].payload
    ensures RecordedBefore(sent[i], sent[j].id)
  {
    assert SendBacked(sent[i], attempts) && SendBacked(sent[j], attempts);
    assert CreateBacked(sent[i], posts) && CreateBacked(sent[j], posts);
  }

  // ---- finals ----

  /** A posted turn's answer is on the relay, under the id its attempt prepared. */
  lemma PostedMeansAccepted(v: OutboxView, i: nat)
    requires OutboxGood(v) && i < |v.turns| && v.turns[i].state.Posted?
    ensures v.turns[i].ask.Some? && Ask(v.turns[i].ask.value) in v.attempts
    ensures var a := v.attempts[Ask(v.turns[i].ask.value)];
            a.outbound.Some? && a.outbound == a.prepared && AcceptedBy(v.sent, Ask(v.turns[i].ask.value), a.outbound.value)
  {
    assert TurnBacked(v.turns[i], v.attempts);
    StoredAttemptGood(v, Ask(v.turns[i].ask.value));
  }

  /** From the moment an accepted answer is stored no cancel can win: its turn stays reserved until it is posted. */
  lemma AcceptedStaysReserved(v: OutboxView, ask: AskId)
    requires OutboxGood(v) && Answered(v.attempts, ask)
    ensures OfAsk(v.turns, ask).Some?
    ensures RowOf(v.turns, ask).state.Open? ==> RowOf(v.turns, ask).claimed
    ensures UnclaimedOf(v.turns, RowOf(v.turns, ask).event) != OfAsk(v.turns, ask)
  {
    StoredAttemptGood(v, Ask(ask));
    assert TurnBacked(RowOf(v.turns, ask), v.attempts);
    assert RowGood(RowOf(v.turns, ask));
  }

  /** Every final was sent while its turn was open and reserved, and none is sent once its turn is over. */
  lemma FinalsReserved(a: OutboxView, b: OutboxView, i: nat, k: nat)
    requires SendsBacked(b.sent, b.attempts) && OutboxEvolves(a, b)
    requires i < |b.sent| && k < |a.turns| && FinalOf(b.sent[i], a.turns[k])
    ensures b.sent[i].turn.Some? && b.sent[i].turn.value.state.Open? && b.sent[i].turn.value.claimed
    ensures Terminal(a.turns[k].state) ==> i < |a.sent|
  {
    assert SendBacked(b.sent[i], b.attempts);
  }

  /** A decided attempt stays decided and is never sent again. */
  lemma DecidedForGood(a: OutboxView, b: OutboxView, key: Key)
    requires OutboxEvolves(a, b) && Decided(a.attempts, key)
    ensures Decided(b.attempts, key)
    ensures forall i :: |a.sent| <= i < |b.sent| ==> b.sent[i].purpose != ForAttempt(key)
  {
    assert AttemptEvolves(a.attempts[key], b.attempts[key]);
  }

  /** `n` counted retries after the first one take at least `n` intervals; there are at most RETRY_CAP. */
  lemma RetrySpan(a: OutboxView, b: OutboxView, key: Key)
    requires OutboxGood(a) && OutboxGood(b) && OutboxEvolves(a, b) && key in a.attempts
    ensures key in b.attempts
    ensures var p, q := a.attempts[key], b.attempts[key];
            && 0 <= p.retryCount <= q.retryCount <= RETRY_CAP
            && (p.retryCount >= 1 ==>
                  && p.lastRetryAt.Some? && q.lastRetryAt.Some?
                  && q.lastRetryAt.value - p.lastRetryAt.value >= RETRY_INTERVAL_SECS * (q.retryCount - p.retryCount))
  {
    assert AttemptEvolves(a.attempts[key], b.attempts[key]);
    StoredAttemptGood(a, key);
    StoredAttemptGood(b, key);
  }

  /** The tick at `k` ran without a failure while the attempt was due. */
  ghost predicate TickedAt(inputs: seq<(Input, int)>, states: seq<Snapshot>, key: Key, k: nat)
    requires |states| == |inputs| + 1 && k < |inputs|
  {
    && inputs[k].0.OutboundTicked? && Undisturbed(states[k], states[k + 1])
    && DueFor(states[k].run.world.outbox.attempts, key, inputs[k].0.bot, inputs[k].1)
  }

  /** How many of the first `n` inputs were completed ticks at which the attempt was due. */
  ghost function DueTicks(inputs: seq<(Input, int)>, states: seq<Snapshot>, key: Key, n: nat): nat
    requires |states| == |inputs| + 1 && n <= |inputs|
  {
    if n == 0 then 0 else DueTicks(inputs, states, key, n - 1) + (if TickedAt(inputs, states, key, n - 1) then 1 else 0)
  }

  /** Every completed due tick costs the attempt one of its lives. */
  lemma {:induction false} TicksSpend(inputs: seq<(Input, int)>, states: seq<Snapshot>, key: Key, n: nat)
    requires RanThrough(inputs, states) && n <= |inputs|
    ensures var attempts := states[n].run.world.outbox.attempts;
            if key in attempts then DueTicks(inputs, states, key, n) + RetriesLeft(attempts[key]) <= RETRY_CAP + 1
            else DueTicks(inputs, states, key, n) == 0
  {
    hide RunGood, RunEvolves, Tidy, RetriesLeft, DueFor;
    if n > 0 {
      TicksSpend(inputs, states, key, n - 1);
      assert Serves(inputs[n - 1].0, inputs[n - 1].1, states[n - 1], states[n]);
      assert RunGood(states[n - 1].run) && RunGood(states[n].run);
      SpendsOne(inputs[n - 1].0, inputs[n - 1].1, states[n - 1], states[n], key);
    } else {
      FullLives(states[0].run, key);
    }
  }

  lemma FullLives(r: Run, key: Key)
    requires RunGood(r)
    ensures key in r.world.outbox.attempts ==> RetriesLeft(r.world.outbox.attempts[key]) <= RETRY_CAP + 1
  {
    StateParts(r);
    if key in r.world.outbox.attempts { CountBounded(r.world.outbox, key); }
  }

  lemma SpendsOne(input: Input, now: int, a: Snapshot, b: Snapshot, key: Key)
    requires RunGood(a.run) && RunGood(b.run) && Serves(input, now, a, b)
    ensures key in a.run.world.outbox.attempts ==>
              && key in b.run.world.outbox.attempts
              && RetriesLeft(b.run.world.outbox.attempts[key]) <= RetriesLeft(a.run.world.outbox.attempts[key])
    ensures input.OutboundTicked? && Undisturbed(a, b) && DueFor(a.run.world.outbox.attempts, key, input.bot, now) ==>
              RetriesLeft(b.run.world.outbox.attempts[key]) < RetriesLeft(a.run.world.outbox.attempts[key])
    ensures key !in a.run.world.outbox.attempts && key in b.run.world.outbox.attempts ==>
              RetriesLeft(b.run.world.outbox.attempts[key]) <= RETRY_CAP + 1
    ensures !DueFor(a.run.world.outbox.attempts, key, if input.OutboundTicked? then input.bot else "", now)
            || key in a.run.world.outbox.attempts
  {
    hide RunGood, Tidy, RetriesLeft, PendingFor, RetryDue, OutboxGood, ProgressEvolves, QueueEvolves;
    FullLives(b.run, key);
    StateParts(a.run);
    StateParts(b.run);
    if key in a.run.world.outbox.attempts {
      assert AttemptEvolves(a.run.world.outbox.attempts[key], b.run.world.outbox.attempts[key]);
      CountBounded(a.run.world.outbox, key);
      CountBounded(b.run.world.outbox, key);
      RetriesOnlyShrink(a.run.world.outbox.attempts[key], b.run.world.outbox.attempts[key]);
    }
  }

  /** The tick at `k` failed when it was about to give the answer up. */
  ghost predicate FailedAtLast(inputs: seq<(Input, int)>, states: seq<Snapshot>, ask: AskId, k: nat)
    requires |states| == |inputs| + 1 && k < |inputs|
  {
    && inputs[k].0.OutboundTicked? && !Undisturbed(states[k], states[k + 1])
    && DueFor(states[k].run.world.outbox.attempts, Ask(ask), inputs[k].0.bot, inputs[k].1)
    && LastChance(states[k].run.world.outbox.attempts[Ask(ask)])
  }

  /** An answer is stranded only by a tick that failed at its last chance. */
  lemma {:induction false} StrandedByFailure(inputs: seq<(Input, int)>, states: seq<Snapshot>, ask: AskId, n: nat)
    requires RanThrough(inputs, states) && n <= |inputs|
    requires !Stranded(states[0].run.world.outbox, ask) && Stranded(states[n].run.world.outbox, ask)
    ensures exists k: nat :: k < n && FailedAtLast(inputs, states, ask, k)
  {
    hide RunGood, RunEvolves, Tidy, Stranded, DueFor, LastChance;
    if Stranded(states[n - 1].run.world.outbox, ask) {
      StrandedByFailure(inputs, states, ask, n - 1);
    } else {
      var a, b := states[n - 1], states[n];
      assert Serves(inputs[n - 1].0, inputs[n - 1].1, a, b);
      assert RunGood(a.run) && RunGood(b.run);
      StateParts(a.run);
      StateParts(b.run);
      RunParts(a.run, b.run);
      if AbandonedIn(a.run.world.outbox.attempts, ask) { StaysOver(a.run.world.outbox, b.run.world.outbox, ask); }
      assert FailedAtLast(inputs, states, ask, n - 1);
    }
  }

  /** A final that is handled to the end unstrands its answer, for good. */
  lemma FinalUnstrandsForGood(inputs: seq<(Input, int)>, states: seq<Snapshot>, k: nat, n: nat)
    requires RanThrough(inputs, states) && k < n <= |inputs|
    requires inputs[k].0.Delivered? && AFinal(inputs[k].0.delivery) && Undisturbed(states[k], states[k + 1])
    requires AbandonedIn(states[k].run.world.outbox.attempts, inputs[k].0.delivery.ask.value)
    ensures !Stranded(states[n].run.world.outbox, inputs[k].0.delivery.ask.value)
  {
    hide RunGood, RunEvolves, Tidy, Stranded, OutboxEvolves, OutboxGood;
    var ask := inputs[k].0.delivery.ask.value;
    assert Serves(inputs[k].0, inputs[k].1, states[k], states[k + 1]);
    RunsForward(inputs, states, k + 1, n);
    RunParts(states[k].run, states[k + 1].run);
    RunParts(states[k + 1].run, states[n].run);
    StateParts(states[k + 1].run);
    StateParts(states[n].run);
    AbandonedStays(states[k].run.world.outbox, states[k + 1].run.world.outbox, ask);
    StaysOver(states[k + 1].run.world.outbox, states[n].run.world.outbox, ask);
  }

  lemma AbandonedStays(v: OutboxView, w: OutboxView, ask: AskId)
    requires OutboxEvolves(v, w) && AbandonedIn(v.attempts, ask)
    ensures AbandonedIn(w.attempts, ask)
  {
    assert AttemptEvolves(v.attempts[Ask(ask)], w.attempts[Ask(ask)]);
  }

  /**
   No attempt lives through more than RETRY_CAP + 1 completed due ticks. An answer that was never
   accepted is then abandoned, and its turn is not open any more, unless a tick failed when it was
   about to give the answer up.
   */
  lemma RetriesEnd(inputs: seq<(Input, int)>, states: seq<Snapshot>, key: Key, n: nat)
    requires RanThrough(inputs, states) && n <= |inputs|
    ensures DueTicks(inputs, states, key, n) <= RETRY_CAP + 1
    ensures DueTicks(inputs, states, key, n) == RETRY_CAP + 1 ==> Decided(states[n].run.world.outbox.attempts, key)
    ensures var v := states[n].run.world.outbox;
            DueTicks(inputs, states, key, n) == RETRY_CAP + 1 && key.Ask? && v.attempts[key].outbound.None? ==>
              && AbandonedIn(v.attempts, key.ask) && OfAsk(v.turns, key.ask).Some?
              && (!Stranded(states[0].run.world.outbox, key.ask) && (forall k: nat :: k < n ==> !FailedAtLast(inputs, states, key.ask, k)) ==>
                    !RowOf(v.turns, key.ask).state.Open?)
  {
    assert |states| == |inputs| + 1;
    hide RunGood, RanThrough, DueTicks, FailedAtLast, TickedAt;
    TicksSpend(inputs, states, key, n);
    Alive(inputs, states, n, key);
    if key.Ask? && !Stranded(states[0].run.world.outbox, key.ask) && Stranded(states[n].run.world.outbox, key.ask) {
      StrandedByFailure(inputs, states, key.ask, n);
    }
  }

  lemma Alive(inputs: seq<(Input, int)>, states: seq<Snapshot>, n: nat, key: Key)
    requires RanThrough(inputs, states) && n <= |inputs|
    ensures var v := states[n].run.world.outbox;
            key in v.attempts ==>
              && 0 <= RetriesLeft(v.attempts[key]) && (RetriesLeft(v.attempts[key]) == 0 ==> Closed(v.attempts[key]))
              && (key.Ask? ==> OfAsk(v.turns, key.ask).Some?)
  {
    assert RunGood(states[n].run);
    StateParts(states[n].run);
    if key in states[n].run.world.outbox.attempts { CountBounded(states[n].run.world.outbox, key); }
  }

  // Turn 7 is open, and its answer has used up its retries.
  const LAST_TURNS := [Turn(Session("bot", "general"), Relay(1), Some(Relay(1)), Some(7), Open, true, Some(0), None)]

  function LastAttempt(sign: (Payload, int) -> EventId): Attempt {
    var payload := Payload("**[bot]**: done", "general", Some(Relay(1)), None, "");
    Attempt(payload.body, payload.channel, payload.replyTo, None, "", None, Some(sign(payload, 20)), Some(20), false, Some("bot"),
            RETRY_CAP, Some(600), None)
  }

  /**
   The host stops between the two writes that give an answer up: the answer is stranded, no tick
   ever takes it up again, and the state is as good as any. Only a final that is delivered again
   closes the turn (`FinalUnstrandsForGood`).
   */
  lemma StrandedAnswer(sign: (Payload, int) -> EventId)
    ensures var before := OutboxView(LAST_TURNS, map[Ask(7) := LastAttempt(sign)], map[], [], sign);
            var after := before.(attempts := before.attempts[Ask(7) := Abandoned(LastAttempt(sign), 610)]);
            && OutboxGood(before) && LastChance(before.attempts[Ask(7)]) && DueFor(before.attempts, Ask(7), "bot", 610)
            && OutboxGood(after) && OutboxEvolves(before, after) && Stranded(after, 7)
            && forall bot, now :: !DueFor(after.attempts, Ask(7), bot, now)
  {
    var a := LastAttempt(sign);
    var before := OutboxView(LAST_TURNS, map[Ask(7) := a], map[], [], sign);
    assert OfAsk(LAST_TURNS, 7) == Some(0);
    LastAttemptStamped(sign);
    assert AttemptGood(Ask(7), a, LAST_TURNS, map[], sign);
    AbandonedGood(before, Ask(7), 610);
    AttemptStep(before, Ask(7), Abandoned(a, 610));
  }

  lemma LastAttemptStamped(sign: (Payload, int) -> EventId)
    ensures LastAttempt(sign).body == Stamp(LastAttempt(sign).body, OutboundPrefix("bot"))
  {
    StampIdempotent("done", "bot");
    assert Stamp("done", OutboundPrefix("bot")) == LastAttempt(sign).body;
  }

  // ---- progress ----

  /** The position of the newest recorded body of an ask, or -1. */
  function NewestAt(feed: seq<Entry>, ask: AskId): (n: int)
    ensures -1 <= n < |feed|
  {
    if feed == [] then -1
    else if feed[|feed| - 1].Recorded? && feed[|feed| - 1].ask == ask then |feed| - 1
    else NewestAt(feed[..|feed| - 1], ask)
  }

  lemma {:induction false} NewestAtContent(feed: seq<Entry>, ask: AskId)
    ensures Newest(feed, ask).Some? ==> NewestAt(feed, ask) >= 0 && feed[NewestAt(feed, ask)] == Recorded(ask, Newest(feed, ask).value)
  {
    if feed != [] {
      NewestAtContent(feed[..|feed| - 1], ask);
    }
  }

  lemma {:induction false} NewestAtGrows(feed: seq<Entry>, ask: AskId, m: nat, n: nat)
    requires m <= n <= |feed|
    ensures NewestAt(feed[..m], ask) <= NewestAt(feed[..n], ask)
  {
    if m < n {
      NewestAtGrows(feed, ask, m, n - 1);
      assert feed[..n][..n - 1] == feed[..n - 1];
    }
  }

  /** An entry that may have put a body of this ask in front of readers. */
  predicate Shows(feed: seq<Entry>, i: nat, ask: AskId) {
    i < |feed| && feed[i].ask == ask && (feed[i].PostFixed? || feed[i].EditRan?)
  }

  /** When its content was chosen. */
  function ChosenAt(feed: seq<Entry>, i: nat): nat
    requires i < |feed|
  {
    if feed[i].EditRan? then feed[i].issue else i
  }

  /** The recorded body it shows. */
  function SourceOf(feed: seq<Entry>, i: nat, ask: AskId): int
    requires i < |feed| && ChosenAt(feed, i) <= |feed|
  {
    NewestAt(feed[..ChosenAt(feed, i)], ask)
  }

  lemma ShownIsNewest(feed: seq<Entry>, ask: AskId, i: nat)
    requires FeedGood(feed) && Shows(feed, i, ask)
    ensures ChosenAt(feed, i) <= i && 0 <= SourceOf(feed, i, ask) < ChosenAt(feed, i)
    ensures feed[SourceOf(feed, i, ask)] == Recorded(ask, feed[i].content)
    ensures feed[i].EditRan? ==> WasFixed(feed[..feed[i].issue], ask)
  {
    assert EntryGood(feed[..i], feed[i]);
    var t := ChosenAt(feed, i);
    if feed[i].EditRan? {
      assert feed[..i][t] == feed[t];
      assert EntryGood(feed[..t], feed[t]);
    }
    NewestAtContent(feed[..t], ask);
  }

  lemma NoLaterFix(feed: seq<Entry>, ask: AskId, i: nat, j: nat)
    requires FeedGood(feed) && i < j < |feed| && feed[i].PostFixed? && feed[i].ask == ask
    ensures !(feed[j].PostFixed? && feed[j].ask == ask)
  {
    assert EntryGood(feed[..j], feed[j]);
    assert feed[..j][i] == feed[i];
  }

  lemma FixedOnce(feed: seq<Entry>, ask: AskId, i: nat, j: nat)
    requires FeedGood(feed) && i < |feed| && j < |feed|
    requires feed[i].PostFixed? && feed[j].PostFixed? && feed[i].ask == feed[j].ask == ask
    ensures i == j
  {
    if i < j {
      NoLaterFix(feed, ask, i, j);
    } else if j < i {
      NoLaterFix(feed, ask, j, i);
    }
  }

  /** The create comes before every edit is issued. */
  lemma FixedFirst(feed: seq<Entry>, ask: AskId, i: nat, j: nat)
    requires FeedGood(feed) && Shows(feed, i, ask) && Shows(feed, j, ask) && feed[i].PostFixed? && feed[j].EditRan?
    ensures i < feed[j].issue <= j
  {
    ShownIsNewest(feed, ask, j);
    var k :| 0 <= k < feed[j].issue && feed[..feed[j].issue][k].PostFixed? && feed[..feed[j].issue][k].ask == ask;
    FixedOnce(feed, ask, i, k);
  }

  lemma ChosenInOrder(feed: seq<Entry>, ask: AskId, i: nat, j: nat)
    requires FeedGood(feed) && i < j && Shows(feed, i, ask) && Shows(feed, j, ask)
    ensures ChosenAt(feed, i) < ChosenAt(feed, j)
  {
    if feed[i].PostFixed? && feed[j].PostFixed? {
      FixedOnce(feed, ask, i, j);
    } else if feed[i].PostFixed? {
      FixedFirst(feed, ask, i, j);
    } else if feed[j].PostFixed? {
      FixedFirst(feed, ask, j, i);
    } else {
      assert EntryGood(feed[..j], feed[j]);
      assert feed[..j][i] == feed[i];
    }
  }

  /**
   Coalescing: the create and the edits of a post show recorded bodies in the order they were
   recorded, each the newest when it was chosen; an older body never follows a newer one.
   */
  lemma ShownInOrder(feed: seq<Entry>, ask: AskId, i: nat, j: nat)
    requires FeedGood(feed) && i < j && Shows(feed, i, ask) && Shows(feed, j, ask)
    ensures ChosenAt(feed, i) < ChosenAt(feed, j) <= j
    ensures 0 <= SourceOf(feed, i, ask) <= SourceOf(feed, j, ask)
    ensures feed[SourceOf(feed, i, ask)] == Recorded(ask, feed[i].content)
    ensures feed[SourceOf(feed, j, ask)] == Recorded(ask, feed[j].content)
  {
    hide FeedGood;
    ShownIsNewest(feed, ask, i);
    ShownIsNewest(feed, ask, j);
    ChosenInOrder(feed, ask, i, j);
    NewestAtGrows(feed, ask, ChosenAt(feed, i), ChosenAt(feed, j));
  }

  /** When nothing is pending, nothing failed to land and nothing stopped the post, readers see the newest body. */
  lemma SettledShowsNewest(v: View, ask: AskId)
    requires PostsGood(v.posts, v.turns, v.attempts, v.feed, v.sign)
    requires ask in v.posts && Settled(v.posts[ask]) && Ask(ask) !in v.attempts
    ensures Shown(v.feed, ask, v.posts[ask]) == Newest(v.feed, ask)
  {
    assert PostGood(ask, v.posts[ask], v.turns, v.attempts, v.feed, v.sign);
  }

  /** Every counted edit of a live post took its interval since the create was accepted. */
  lemma EditsTakeTime(v: View, ask: AskId)
    requires ProgressGood(v) && ask in v.posts && v.posts[ask].postEvent.Some?
    ensures v.posts[ask].lastSendAt.Some? && v.posts[ask].editCount <= EDIT_CAP
    ensures exists at :: PostLive(ask, at) in v.feed
    ensures forall at :: PostLive(ask, at) in v.feed ==>
              v.posts[ask].lastSendAt.value >= at + EDIT_INTERVAL_SECS * v.posts[ask].editCount
  {
    hide ProgressGood;
    StoredPostGood(v, ask);
    FeedOf(v);
    var at :| PostLive(ask, at) in v.feed && v.posts[ask].lastSendAt.value >= at + EDIT_INTERVAL_SECS * v.posts[ask].editCount;
    forall other | PostLive(ask, other) in v.feed ensures other == at { AcceptedOnce(v.feed, ask, at, other); }
  }

  lemma FeedOf(v: View)
    requires ProgressGood(v)
    ensures FeedGood(v.feed)
  {
  }

  lemma AcceptedOnce(feed: seq<Entry>, ask: AskId, a: int, b: int)
    requires FeedGood(feed) && PostLive(ask, a) in feed && PostLive(ask, b) in feed
    ensures a == b
  {
    var i :| 0 <= i < |feed| && feed[i] == PostLive(ask, a);
    var j :| 0 <= j < |feed| && feed[j] == PostLive(ask, b);
    if i < j {
      NoLaterAcceptance(feed, ask, i, j);
    } else if j < i {
      NoLaterAcceptance(feed, ask, j, i);
    }
  }

  lemma NoLaterAcceptance(feed: seq<Entry>, ask: AskId, i: nat, j: nat)
    requires FeedGood(feed) && i < j < |feed| && feed[i].PostLive? && feed[i].ask == ask
    ensures !(feed[j].PostLive? && feed[j].ask == ask)
  {
    assert EntryGood(feed[..j], feed[j]);
    assert feed[..j][i] == feed[i];
  }

  /** At most EDIT_CAP edits are ever counted, each at least an interval after the send before it. */
  lemma EditBudget(a: View, b: View, ask: AskId)
    requires PostsGood(a.posts, a.turns, a.attempts, a.feed, a.sign) && PostsGood(b.posts, b.turns, b.attempts, b.feed, b.sign)
    requires PostsKept(a, b) && ask in a.posts && a.posts[ask].postEvent.Some?
    ensures ask in b.posts
    ensures var p, q := a.posts[ask], b.posts[ask];
            && p.lastSendAt.Some? && q.lastSendAt.Some? && p.editCount <= q.editCount <= EDIT_CAP
            && (q.pending.Some? ==> q.editCount < EDIT_CAP)
            && q.lastSendAt.value >= p.lastSendAt.value + EDIT_INTERVAL_SECS * (q.editCount - p.editCount)
  {
    assert PostGood(ask, a.posts[ask], a.turns, a.attempts, a.feed, a.sign);
    assert PostGood(ask, b.posts[ask], b.turns, b.attempts, b.feed, b.sign);
    assert PostEvolves(a.posts[ask], b.posts[ask]);
  }

  /** Once the final has reached the host, or the row has ended, nothing of this ask is recorded, created or edited. */
  lemma SilentForGood(a: View, b: View, ask: AskId)
    requires ProgressEvolves(a, b) && Quiet(a, ask)
    ensures Quiet(b, ask)
    ensures ask in a.posts && a.posts[ask].ended ==> ask in b.posts && b.posts[ask].ended
    ensures forall i :: |a.feed| <= i < |b.feed| && Issues(b.feed[i]) ==> b.feed[i].ask != ask
    ensures forall i :: |a.sent| <= i < |b.sent| ==> b.sent[i].purpose != ForProgress(ask)
  {
    if ask in a.posts {
      assert PostEvolves(a.posts[ask], b.posts[ask]);
    }
  }

  /** A delete that is owed stays owed, for the same event, until it is accepted or refused for good. */
  lemma DeleteStaysOwed(a: View, b: View, ask: AskId)
    requires PostsGood(a.posts, a.turns, a.attempts, a.feed, a.sign) && PostsKept(a, b)
    requires ask in a.posts && a.posts[ask].deletePending
    ensures a.posts[ask].prepared.Some? && ask in b.posts && b.posts[ask].ended && b.posts[ask].prepared == a.posts[ask].prepared
    ensures b.posts[ask].deletePending || DeleteSettled(b.feed, ask, a.posts[ask].prepared.value)
  {
    assert PostGood(ask, a.posts[ask], a.turns, a.attempts, a.feed, a.sign);
    assert PostEvolves(a.posts[ask], b.posts[ask]);
  }

  /** No edit of an ask runs after a delete of it. */
  lemma NoEditAfterDelete(feed: seq<Entry>, i: nat, j: nat)
    requires FeedGood(feed) && i < j < |feed| && feed[i].DeleteRan? && feed[j].EditRan?
    ensures feed[i].ask != feed[j].ask
  {
    assert EntryGood(feed[..j], feed[j]);
    assert feed[..j][i] == feed[i];
  }

  // ---- where a post can be forgotten ----

  /** A cancel is found only once: when the host stops between the cancel and the delete, nothing repeats the delete. */
  lemma CancelFoundOnce(turns: seq<Turn>, event: EventId)
    requires TurnsGood(turns)
    ensures UnclaimedOf(CancelledUnclaimed(turns, event), event).None?
  {
  }

  /** An entry joined the feed at some input. */
  lemma {:induction false} JoinedAt(inputs: seq<(Input, int)>, states: seq<Snapshot>, e: Entry, n: nat) returns (k: nat)
    requires RanThrough(inputs, states) && n <= |inputs|
    requires e !in states[0].run.world.progress.feed && e in states[n].run.world.progress.feed
    ensures k < n && e !in states[k].run.world.progress.feed && e in states[k + 1].run.world.progress.feed
  {
    hide RunGood, Serves;
    if e in states[n - 1].run.world.progress.feed {
      k := JoinedAt(inputs, states, e, n - 1);
    } else {
      k := n - 1;
    }
  }

  lemma JoinedBy(input: Input, a: seq<Entry>, b: seq<Entry>, e: Entry)
    requires GivesUpOnly(input, a, b) && e !in a && e in b
    ensures MayGiveUp(input, e)
  {
    var i :| 0 <= i < |b| && b[i] == e;
    assert i >= |a|;
  }

  /** The input at `k` refused the final of this ask, and failed before it closed the turn. */
  ghost predicate RefusedHalfway(inputs: seq<(Input, int)>, states: seq<Snapshot>, ask: AskId, k: nat)
    requires |states| == |inputs| + 1 && k < |inputs|
  {
    && inputs[k].0.Delivered? && inputs[k].0.refused && AFinal(inputs[k].0.delivery) && inputs[k].0.delivery.ask == Some(ask)
    && !Undisturbed(states[k], states[k + 1])
  }

  /** A tick of progress at `k` ended the row because its create was refused or rejected. */
  ghost predicate DroppedAt(inputs: seq<(Input, int)>, states: seq<Snapshot>, ask: AskId, k: nat)
    requires |states| == |inputs| + 1 && k < |inputs|
  {
    && inputs[k].0.ProgressTicked?
    && PostDropped(ask) !in states[k].run.world.progress.feed && PostDropped(ask) in states[k + 1].run.world.progress.feed
  }

  /**
   The only steps that let go the post of an ask whose turn is open and can still be cancelled: a
   create that is refused or rejected, and a refused final that fails before it closes the turn.
   */
  lemma LetGoBy(inputs: seq<(Input, int)>, states: seq<Snapshot>, ask: AskId, n: nat)
    requires RanThrough(inputs, states) && n <= |inputs| && states[0].run.world.progress.feed == []
    requires LetGo(states[n].run.world.progress.posts, states[n].run.world.progress.feed, ask)
    requires OpenAsk(states[n].run.queue.turns, ask) && !RowOf(states[n].run.queue.turns, ask).claimed
    ensures exists k: nat :: k < n && (DroppedAt(inputs, states, ask, k) || RefusedHalfway(inputs, states, ask, k))
  {
    hide RunGood, RunEvolves, Tidy, LetGo, OpenAsk, StrandsRarely, Ticks, Unstrands, GivesUpOnly;
    assert RunGood(states[n].run);
    WhyLetGo(states[n].run, ask);
    var e := if PostDropped(ask) in states[n].run.world.progress.feed then PostDropped(ask) else FinalRefused(ask);
    var k := JoinedAt(inputs, states, e, n);
    assert Serves(inputs[k].0, inputs[k].1, states[k], states[k + 1]);
    JoinedBy(inputs[k].0, states[k].run.world.progress.feed, states[k + 1].run.world.progress.feed, e);
    if e.FinalRefused? {
      StillOpenBefore(inputs, states, ask, k + 1, n);
      assert RefusedHalfway(inputs, states, ask, k);
    } else {
      assert DroppedAt(inputs, states, ask, k);
    }
  }

  /** A turn that is open now was not over before. */
  lemma StillOpenBefore(inputs: seq<(Input, int)>, states: seq<Snapshot>, ask: AskId, m: nat, n: nat)
    requires RanThrough(inputs, states) && m <= n < |states| && OpenAsk(states[n].run.queue.turns, ask)
    requires FinalRefused(ask) in states[m].run.world.progress.feed
    ensures OpenAsk(states[m].run.queue.turns, ask)
  {
    hide RunEvolves, OpenAsk, Serves;
    assert RunGood(states[m].run) && RunGood(states[n].run);
    RunsForward(inputs, states, m, n);
    TurnsOfRun(states[m].run);
    TurnsOfRun(states[n].run);
    TurnsOfEvolution(states[m].run, states[n].run);
    RefusedRow(states[m].run.world.progress, ask);
    if !OpenAsk(states[m].run.queue.turns, ask) { ClosedStays(states[m].run.queue.turns, states[n].run.queue.turns, ask); }
  }

  // ---- the three ways to let a created post go, step by step ----

  // The first turn of an empty table, asked as ask 7.
  const EXAMPLE_TURN := Turn(Session("bot", "general"), Relay(1), Some(Relay(1)), Some(7), Open, false, Some(0), None)

  function ExampleStart(sign: (Payload, int) -> EventId): View {
    View([EXAMPLE_TURN], map[], map[], [], [], [], [], {}, sign)
  }

  /** A body is recorded. */
  function ExampleRecorded(v: View): View {
    var q := NewProgressPost(EXAMPLE_TURN, map[], 0).(pending := Some("working"));
    v.(posts := v.posts[7 := q], feed := v.feed + [Recorded(7, Stamp("working", OutboundPrefix("bot")))])
  }

  /** The create is fixed, sent, and not accepted: it may be on the relay. */
  function ExampleSent(v: View): View
    requires 7 in v.posts
  {
    var stamped := Stamp("working", OutboundPrefix("bot"));
    var id := v.sign(CreateRequest(v.posts[7], stamped), 20);
    var q := Fixed(v.posts[7], stamped, id, 20);
    var w := v.(posts := v.posts[7 := q], feed := v.feed + [PostFixed(7, stamped)]);
    w.(sent := w.sent + [Logged(ForProgress(7), id, CreateRequest(q, stamped), NotAccepted, w.turns, w.attempts, w.posts)])
  }

  datatype Way = CreateGivenUp | FinalRefusedHalfway | CancelInterrupted

  function EndedRow(p: ProgressPost): ProgressPost {
    p.(pending := None, ended := true)
  }

  /** The redelivered create is refused; or a refused final ends the row and the host stops; or a
      cancel is stored, the host stops, and the next tick ends the row. */
  function LetGoThrough(v: View, way: Way): View
    requires 7 in v.posts
  {
    var ended := v.posts[7 := EndedRow(v.posts[7])];
    match way
    case CreateGivenUp => v.(posts := ended, feed := v.feed + [PostDropped(7)])
    case FinalRefusedHalfway => v.(posts := ended, feed := v.feed + [FinalRefused(7)])
    case CancelInterrupted => v.(posts := ended, turns := CancelledUnclaimed(v.turns, Relay(1)))
  }

  lemma ExampleTurns()
    ensures var queued := Enqueued([], NewTurn(EXAMPLE_TURN.session, Relay(1), Some(Relay(1))));
            CanOpen(queued, EXAMPLE_TURN.session, 7) && [EXAMPLE_TURN] == Opened(queued, EXAMPLE_TURN.session, 7, 0)
    ensures TurnsGood([EXAMPLE_TURN]) && OfAsk([EXAMPLE_TURN], 7) == Some(0)
    ensures UnclaimedOf([EXAMPLE_TURN], Relay(1)) == Some(0)
  {
  }

  lemma ExampleStartGood(sign: (Payload, int) -> EventId)
    ensures ProgressGood(ExampleStart(sign))
  {
    ExampleTurns();
  }

  lemma ExampleRecords(sign: (Payload, int) -> EventId)
    ensures var v := ExampleStart(sign);
            && ProgressGood(ExampleRecorded(v)) && ProgressEvolves(v, ExampleRecorded(v))
  {
    hide ProgressGood, ProgressEvolves;
    ExampleTurns();
    ExampleStartGood(sign);
    var v := ExampleStart(sign);
    RecordStep(v, 7, NewProgressPost(EXAMPLE_TURN, map[], 0).(pending := Some("working")));
  }

  lemma ExampleSends(sign: (Payload, int) -> EventId)
    ensures var v := ExampleRecorded(ExampleStart(sign));
            && ProgressGood(ExampleSent(v)) && ProgressEvolves(v, ExampleSent(v))
  {
    hide ProgressGood, ProgressEvolves;
    ExampleTurns();
    ExampleRecords(sign);
    var v := ExampleRecorded(ExampleStart(sign));
    var stamped := Stamp("working", OutboundPrefix("bot"));
    var id := sign(CreateRequest(v.posts[7], stamped), 20);
    var q := Fixed(v.posts[7], stamped, id, 20);
    FixStep(v, 7, q);
    var w := v.(posts := v.posts[7 := q], feed := v.feed + [PostFixed(7, stamped)]);
    CreateStep(w, Logged(ForProgress(7), id, CreateRequest(q, stamped), NotAccepted, w.turns, w.attempts, w.posts));
    ProgressEvolvesTransitive(v, w, ExampleSent(v));
  }

  /** Every step is one the host takes, and leaves a state as good as any. */
  lemma ExampleEnds(sign: (Payload, int) -> EventId, way: Way)
    ensures var v := ExampleSent(ExampleRecorded(ExampleStart(sign)));
            && ProgressGood(LetGoThrough(v, way)) && ProgressEvolves(v, LetGoThrough(v, way))
  {
    hide ProgressGood, ProgressEvolves, PostGood, RowExplained;
    ExampleTurns();
    ExampleSends(sign);
    var v := ExampleSent(ExampleRecorded(ExampleStart(sign)));
    var p := v.posts[7];
    match way
    case CreateGivenUp =>
      CreateEndStep(v, 7, EndedRow(p), PostDropped(7));
    case FinalRefusedHalfway =>
      var w := v.(feed := v.feed + [FinalRefused(7)]);
      FeedStep(v, FinalRefused(7));
      EndsRow(w);
      ProgressEvolvesTransitive(v, w, LetGoThrough(v, way));
    case CancelInterrupted =>
      var w := v.(turns := CancelledUnclaimed(v.turns, Relay(1)));
      CancelStep(v.turns, Relay(1));
      OutsideStep(v, w);
      assert Over(w.turns, 7);
      EndsRow(w);
      ProgressEvolvesTransitive(v, w, LetGoThrough(v, way));
  }

  lemma EndsRow(v: View)
    requires ProgressGood(v) && 7 in v.posts && !v.posts[7].ended && v.posts[7].postEvent.None?
    requires Over(v.turns, 7) || FinalRefused(7) in v.feed
    ensures var w := v.(posts := v.posts[7 := EndedRow(v.posts[7])]);
            ProgressGood(w) && ProgressEvolves(v, w)
  {
    hide ProgressGood, ProgressEvolves;
    StoredPostGood(v, 7);
    Uncreated(v, 7);
    PostStep(v, 7, EndedRow(v.posts[7]));
  }

  /**
   A created post can be let go in three ways, each reached from an empty table by steps of the
   host. The first needs no failure at all: a create that was not accepted may have landed, and its
   redelivery is refused. After the first two the turn can still be cancelled, and the cancel
   leaves the post standing (`TurnIngest.EndProgress`); `LetGoBy` says that there is no other way.
   */
  lemma ForgottenPost(sign: (Payload, int) -> EventId, way: Way)
    ensures var v := ExampleSent(ExampleRecorded(ExampleStart(sign)));
            var w := LetGoThrough(v, way);
            && ProgressGood(v) && ProgressGood(w) && ProgressEvolves(ExampleStart(sign), v) && ProgressEvolves(v, w)
            && |v.sent| == 1 && v.sent[0].verdict.NotAccepted?
            && !LetGo(v.posts, v.feed, 7) && LetGo(w.posts, w.feed, 7) && !Covered(w.posts, w.feed, 7)
            && (if way.CancelInterrupted? then CancelledAsk(w.turns, 7) else UnclaimedOf(w.turns, Relay(1)) == Some(0))
  {
    hide ProgressGood, ProgressEvolves;
    var start := ExampleStart(sign);
    ExampleRecords(sign);
    ExampleSends(sign);
    ExampleEnds(sign, way);
    ProgressEvolvesTransitive(start, ExampleRecorded(start), ExampleSent(ExampleRecorded(start)));
    ExampleTurns();
    ExampleStands(sign, way);
  }

  lemma ExampleStands(sign: (Payload, int) -> EventId, way: Way)
    ensures var v := ExampleSent(ExampleRecorded(ExampleStart(sign)));
            var w := LetGoThrough(v, way);
            && |v.sent| == 1 && v.sent[0].verdict.NotAccepted?
            && !LetGo(v.posts, v.feed, 7) && LetGo(w.posts, w.feed, 7) && !Covered(w.posts, w.feed, 7)
            && (if way.CancelInterrupted? then CancelledAsk(w.turns, 7) else UnclaimedOf(w.turns, Relay(1)) == Some(0))
  {
    ExampleTurns();
    assert CancelledUnclaimed([EXAMPLE_TURN], Relay(1)) == [EXAMPLE_TURN.(state := Cancelled, claimed := false)];
  }
}
