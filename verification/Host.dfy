/**
 The host: any sequence of relay events, deliveries, ticks, background work and crashes.
 Whatever the sequence, every invariant holds after each step and rows only move forward; and
 what an input does beyond that is stated of the states before and after it.
 */
module Host {
  import opened Wrappers
  import opened Stamping
  import opened HostStore
  import opened RelayPublisher
  import opened ProgressRelay
  import opened ProgressTheory
  import opened ProgressSteps
  import opened Progress
  import opened OutboxTheory
  import opened Outbox
  import opened OutboxTells
  import opened OutboxRetry
  import opened Delivery
  import opened TurnQueueTheory
  import opened TurnQueue
  import opened TurnIngest

  datatype Input =
    | Triggered(session: Session, id: nat, accepted: bool)
    | TriggerEdited(bot: BotId, event: EventId, target: EventId, request: bool, authorized: bool)
    | TriggerDeleted(bot: BotId, event: EventId, target: EventId)
    | WatchFired(session: Session, id: nat)
    | Delivered(bot: BotId, delivery: InboxDelivery, refused: bool, mention: string)
    | Told(bot: BotId, message: nat, channel: string, body: string, mention: string)
    | OutboundTicked(bot: BotId)
    | ProgressTicked(bot: BotId)
    | WorkerRan
    | QueueResumed(bot: BotId)
    | Indexed(event: EventId, content: IndexedEvent)
    | Crashed

  /** The whole state between two inputs; `failures` counts failed writes and lost cancels so far. */
  datatype Snapshot = Snapshot(run: Run, marked: set<EventId>, failures: nat)

  /** No write failed and no cancel was lost on the way from `a` to `b`. */
  predicate Undisturbed(a: Snapshot, b: Snapshot) {
    a.failures == b.failures
  }

  /** What is true of a state the host can be in. */
  ghost predicate RunGood(r: Run) {
    && ProgressGood(r.world.progress) && OutboxGood(r.world.outbox) && QueueGood(r.queue)
    && r.queue.turns == r.world.outbox.turns == r.world.progress.turns
    && r.world.progress.attempts == r.world.outbox.attempts && r.queue.keys == r.world.outbox.attempts.Keys
    && r.world.progress.sent == r.world.outbox.sent
  }

  // ---- what undisturbed inputs keep ----

  predicate CancelledAsk(turns: seq<Turn>, ask: AskId) {
    OfAsk(turns, ask).Some? && RowOf(turns, ask).state.Cancelled?
  }

  predicate OpenAsk(turns: seq<Turn>, ask: AskId) {
    OfAsk(turns, ask).Some? && RowOf(turns, ask).state.Open?
  }

  /** A refused final has closed its turn. */
  ghost predicate RefusalsOver(v: View) {
    forall ask :: FinalRefused(ask) in v.feed ==> !OpenAsk(v.turns, ask)
  }

  /** The post of a cancelled ask is deleted, or its delete is owed; only a create that was refused
      or rejected leaves it alone. */
  ghost predicate CancelsCovered(v: View) {
    forall ask :: CancelledAsk(v.turns, ask) ==> Covered(v.posts, v.feed, ask) || PostDropped(ask) in v.feed
  }

  /** The markers say what is in flight, no open turn waits for an abandoned or refused answer, and
      no cancelled ask has a post that is forgotten. */
  ghost predicate Tidy(s: Snapshot) {
    && MarkersExact(s.run.queue.turns, s.marked)
    && AbandonedOver(s.run.world.outbox)
    && RefusalsOver(s.run.world.progress)
    && CancelsCovered(s.run.world.progress)
  }

  lemma RefusedRow(v: View, ask: AskId)
    requires ProgressGood(v) && FinalRefused(ask) in v.feed
    ensures OfAsk(v.turns, ask).Some?
  {
    var i :| 0 <= i < |v.feed| && v.feed[i] == FinalRefused(ask);
    assert EntryBacked(v.feed[i], v.posts);
    StoredPostGood(v, ask);
  }

  lemma ClosedStays(a: seq<Turn>, b: seq<Turn>, ask: AskId)
    requires TurnsGood(a) && TurnsGood(b) && TurnsEvolve(a, b) && OfAsk(a, ask).Some? && !OpenAsk(a, ask)
    ensures !OpenAsk(b, ask)
  {
    OfAskStable(a, b, ask);
    assert RowGood(RowOf(a, ask));
  }

  lemma TurnsOfRun(r: Run)
    requires RunGood(r)
    ensures TurnsGood(r.queue.turns) && TurnsGood(r.world.progress.turns)
  {
  }

  lemma TurnsOfEvolution(a: Run, b: Run)
    requires RunEvolves(a, b)
    ensures TurnsEvolve(a.queue.turns, b.queue.turns) && ProgressEvolves(a.world.progress, b.world.progress)
    ensures OutboxEvolves(a.world.outbox, b.world.outbox)
  {
  }

  lemma RefusalsKept(a: Run, b: Run)
    requires RunGood(a) && RunGood(b) && RunEvolves(a, b) && RefusalsOver(a.world.progress)
    requires forall ask :: FinalRefused(ask) in b.world.progress.feed ==>
               FinalRefused(ask) in a.world.progress.feed || !OpenAsk(b.world.progress.turns, ask)
    ensures RefusalsOver(b.world.progress)
  {
    hide OpenAsk, RunEvolves;
    TurnsOfRun(a);
    TurnsOfRun(b);
    TurnsOfEvolution(a, b);
    forall ask | FinalRefused(ask) in b.world.progress.feed ensures !OpenAsk(b.world.progress.turns, ask) {
      if FinalRefused(ask) in a.world.progress.feed {
        RefusedRow(a.world.progress, ask);
        ClosedStays(a.queue.turns, b.queue.turns, ask);
      }
    }
  }

  /** What covers a post goes on covering it, and no post is created once the turn is over. */
  lemma CoveredStays(v: View, w: View, ask: AskId)
    requires ProgressGood(v) && ProgressEvolves(v, w) && Over(v.turns, ask) && Covered(v.posts, v.feed, ask)
    ensures Covered(w.posts, w.feed, ask)
  {
    assert Quiet(v, ask);
    if Created(v.posts, ask) {
      assert PostEvolves(v.posts[ask], w.posts[ask]);
      if DeleteSettled(v.feed, ask, v.posts[ask].prepared.value) {
        var i :| 0 <= i < |v.feed| && v.feed[i].DeleteRan? && v.feed[i].ask == ask
                 && v.feed[i].target == v.posts[ask].prepared.value && !v.feed[i].verdict.NotAccepted?;
        assert w.feed[i] == v.feed[i];
      }
    } else {
      assert !Created(w.posts, ask);
    }
  }

  /** A turn that was cancelled before, or is the one named now. */
  lemma CancelledBefore(a: seq<Turn>, b: seq<Turn>, row: Option<nat>, ask: AskId)
    requires TurnsGood(a) && CancelsOnly(a, b, row) && CancelledAsk(b, ask)
    ensures row == OfAsk(b, ask) || (CancelledAsk(a, ask) && Over(a, ask))
  {
    var i := OfAsk(b, ask).value;
    if row != Some(i) {
      OfAskUnique(a, i, ask);
    }
  }

  lemma CancelsStay(a: Run, b: Run, row: Option<nat>)
    requires RunGood(a) && RunGood(b) && RunEvolves(a, b) && CancelsCovered(a.world.progress)
    requires CancelsOnly(a.queue.turns, b.queue.turns, row)
    requires forall ask :: CancelledAsk(b.queue.turns, ask) && row == OfAsk(b.queue.turns, ask) ==>
               Covered(b.world.progress.posts, b.world.progress.feed, ask) || PostDropped(ask) in b.world.progress.feed
    ensures CancelsCovered(b.world.progress)
  {
    hide CancelledAsk, Covered, RunEvolves, CancelsOnly, ProgressGood, OutboxGood, QueueGood, ProgressEvolves;
    TurnsOfRun(a);
    TurnsOfEvolution(a, b);
    LogsGrow(a.world.progress, b.world.progress);
    forall ask | CancelledAsk(b.queue.turns, ask)
      ensures Covered(b.world.progress.posts, b.world.progress.feed, ask) || PostDropped(ask) in b.world.progress.feed
    {
      CancelledBefore(a.queue.turns, b.queue.turns, row, ask);
      if row != OfAsk(b.queue.turns, ask) && Covered(a.world.progress.posts, a.world.progress.feed, ask) {
        CoveredStays(a.world.progress, b.world.progress, ask);
      }
    }
  }

  lemma StrandsNoneOver(v: OutboxView, w: OutboxView)
    requires StrandsNone(v, w) && AbandonedOver(v)
    ensures AbandonedOver(w)
  {
  }

  /** An input that strands and cancels nothing, and refuses no final of an open turn. */
  lemma StaysTidy(a: Snapshot, b: Snapshot)
    requires RunGood(a.run) && RunGood(b.run) && RunAdvances(a.run, b.run) && Tidy(a)
    requires MarkersExact(b.run.queue.turns, b.marked) && StrandsNone(a.run.world.outbox, b.run.world.outbox)
    requires forall ask :: FinalRefused(ask) in b.run.world.progress.feed ==>
               FinalRefused(ask) in a.run.world.progress.feed || !OpenAsk(b.run.world.progress.turns, ask)
    ensures Tidy(b)
  {
    hide RunGood, RunEvolves, MarkersExact, CancelsOnly, CancelsCovered, RefusalsOver, OpenAsk, StrandsNone, AbandonedOver;
    RefusalsKept(a.run, b.run);
    CancelsStay(a.run, b.run, None);
    StrandsNoneOver(a.run.world.outbox, b.run.world.outbox);
  }

  lemma GivenUpBefore(a: seq<Entry>, b: seq<Entry>, e: Entry)
    requires NoneGivenUp(a, b) && e in b && GivesUp(e)
    ensures e in a
  {
  }

  lemma GrownFeed(a: seq<Entry>, b: seq<Entry>, e: Entry)
    requires a <= b && e in a
    ensures e in b
  {
  }

  /** The row of an open, unreserved turn is let go only by a create that was given up, or by a refused final. */
  lemma WhyLetGo(r: Run, ask: AskId)
    requires RunGood(r) && LetGo(r.world.progress.posts, r.world.progress.feed, ask)
    requires OpenAsk(r.queue.turns, ask) && !RowOf(r.queue.turns, ask).claimed
    ensures PostDropped(ask) in r.world.progress.feed || FinalRefused(ask) in r.world.progress.feed
  {
    StoredPostGood(r.world.progress, ask);
    assert TurnBacked(RowOf(r.queue.turns, ask), r.world.outbox.attempts);
  }

  /** The turn a cancel names was open and unreserved, so its post is covered or was dropped. */
  lemma NamedCovered(a: Run, b: Run, row: nat, ask: AskId, target: EventId)
    requires RunGood(a) && RefusalsOver(a.world.progress) && ProgressOver(a, b, row)
    requires UnclaimedOf(a.queue.turns, target) == Some(row) && a.queue.turns[row].ask == Some(ask)
    requires a.world.progress.feed <= b.world.progress.feed
    ensures Covered(b.world.progress.posts, b.world.progress.feed, ask) || PostDropped(ask) in b.world.progress.feed
  {
    hide Covered, LetGo, ProgressGood, OutboxGood;
    NamedOpen(a, row, ask, target);
    if LetGo(a.world.progress.posts, a.world.progress.feed, ask) {
      WhyLetGo(a, ask);
      GrownFeed(a.world.progress.feed, b.world.progress.feed, PostDropped(ask));
    }
  }

  lemma NamedOpen(a: Run, row: nat, ask: AskId, target: EventId)
    requires RunGood(a) && UnclaimedOf(a.queue.turns, target) == Some(row) && a.queue.turns[row].ask == Some(ask)
    ensures OpenAsk(a.queue.turns, ask) && !RowOf(a.queue.turns, ask).claimed
  {
    TurnsOfRun(a);
    OfAskUnique(a.queue.turns, row, ask);
    assert RowGood(a.queue.turns[row]);
  }

  /** An edit or delete whose cancel was told. */
  lemma EndsTidy(a: Snapshot, b: Snapshot, target: EventId)
    requires RunGood(a.run) && RunGood(b.run) && RunEvolves(a.run, b.run) && Tidy(a)
    requires EndsOnly(a.run, b.run, UnclaimedOf(a.run.queue.turns, target))
    requires UnclaimedOf(a.run.queue.turns, target).Some? ==> ProgressOver(a.run, b.run, UnclaimedOf(a.run.queue.turns, target).value)
    requires MarkersExact(b.run.queue.turns, b.marked) && StrandsNone(a.run.world.outbox, b.run.world.outbox)
    ensures Tidy(b)
  {
    hide RunGood, RunEvolves, MarkersExact, CancelsOnly, CancelsCovered, RefusalsOver, OpenAsk, StrandsNone, AbandonedOver, Covered,
         ProgressOver, NoneGivenUp, CancelledAsk, UnclaimedOf;
    var p, q, row := a.run.world.progress, b.run.world.progress, UnclaimedOf(a.run.queue.turns, target);
    forall ask | FinalRefused(ask) in q.feed ensures FinalRefused(ask) in p.feed { GivenUpBefore(p.feed, q.feed, FinalRefused(ask)); }
    RefusalsKept(a.run, b.run);
    FeedKept(a.run, b.run);
    forall ask | CancelledAsk(b.run.queue.turns, ask) && row == OfAsk(b.run.queue.turns, ask)
      ensures Covered(q.posts, q.feed, ask) || PostDropped(ask) in q.feed
    {
      NamedAsked(a.run.queue.turns, b.run.queue.turns, row, ask);
      NamedCovered(a.run, b.run, row.value, ask, target);
    }
    CancelsStay(a.run, b.run, row);
    StrandsNoneOver(a.run.world.outbox, b.run.world.outbox);
  }

  lemma NamedAsked(a: seq<Turn>, b: seq<Turn>, row: Option<nat>, ask: AskId)
    requires CancelsOnly(a, b, row) && CancelledAsk(b, ask) && row == OfAsk(b, ask)
    ensures row.Some? && row.value < |a| && a[row.value].ask == Some(ask)
  {
  }

  lemma FeedKept(a: Run, b: Run)
    requires RunEvolves(a, b)
    ensures a.world.progress.feed <= b.world.progress.feed
  {
  }

  // ---- what one input does ----

  /** Every input: rows move forward, failures add up, and an undisturbed input leaves a tidy host tidy. */
  ghost predicate Proceeds(a: Snapshot, b: Snapshot) {
    && RunEvolves(a.run, b.run) && a.failures <= b.failures
    && (Undisturbed(a, b) && Tidy(a) ==> Tidy(b))
  }

  lemma ProceedsTransitive(a: Snapshot, b: Snapshot, c: Snapshot)
    requires Proceeds(a, b) && Proceeds(b, c)
    ensures Proceeds(a, c)
  {
    hide RunEvolves, Tidy;
    RunEvolvesTransitive(a.run, b.run, c.run);
  }

  /** An answer is stranded only by a tick that failed at the attempt's last chance. */
  ghost predicate StrandsRarely(input: Input, now: int, a: Snapshot, b: Snapshot) {
    || StrandsNone(a.run.world.outbox, b.run.world.outbox)
    || (input.OutboundTicked? && !Undisturbed(a, b) && StrandsAtLast(a.run.world.outbox.attempts, b.run.world.outbox, input.bot, now))
  }

  /** A completed tick takes a life of every due attempt. */
  ghost predicate Ticks(input: Input, now: int, a: Snapshot, b: Snapshot) {
    input.OutboundTicked? && Undisturbed(a, b) ==>
      TickProgress(a.run.world.outbox.attempts, b.run.world.outbox.attempts, {}, input.bot, now)
  }

  predicate AFinal(d: InboxDelivery) {
    d.kind.FinalReply? && d.ask.Some? && Trim(d.body) != ""
  }

  /** A final that is handled to the end leaves no stranded answer behind. */
  ghost predicate Unstrands(input: Input, a: Snapshot, b: Snapshot) {
    input.Delivered? && AFinal(input.delivery) && Undisturbed(a, b) ==> !Stranded(b.run.world.outbox, input.delivery.ask.value)
  }

  /** Posts are given up only by a create on a tick, and by a refused final of their ask. */
  predicate MayGiveUp(input: Input, e: Entry) {
    match e
    case PostDropped(_) => input.ProgressTicked?
    case FinalRefused(ask) => input.Delivered? && input.refused && AFinal(input.delivery) && input.delivery.ask == Some(ask)
    case _ => true
  }

  ghost predicate GivesUpOnly(input: Input, a: seq<Entry>, b: seq<Entry>) {
    a <= b && forall i :: |a| <= i < |b| ==> MayGiveUp(input, b[i])
  }

  /** A final whose refusal is handled to the end closes its turn. */
  ghost predicate RefusalsClose(a: Snapshot, b: Snapshot) {
    Undisturbed(a, b) ==>
      forall ask :: FinalRefused(ask) in b.run.world.progress.feed ==>
        FinalRefused(ask) in a.run.world.progress.feed || !OpenAsk(b.run.queue.turns, ask)
  }

  ghost predicate Serves(input: Input, now: int, a: Snapshot, b: Snapshot) {
    && Proceeds(a, b)
    && StrandsRarely(input, now, a, b)
    && Ticks(input, now, a, b)
    && Unstrands(input, a, b)
    && RefusalsClose(a, b)
    && (input.WorkerRan? || input.Crashed? ==> Undisturbed(a, b))
    && GivesUpOnly(input, a.run.world.progress.feed, b.run.world.progress.feed)
  }

  lemma NoneGivenUpOnly(input: Input, a: seq<Entry>, b: seq<Entry>)
    requires NoneGivenUp(a, b)
    ensures GivesUpOnly(input, a, b)
  {
  }

  /** A step that strands nothing, gives no post up, and is neither a tick nor a final. */
  lemma Plain(input: Input, now: int, a: Snapshot, b: Snapshot)
    requires Proceeds(a, b) && StrandsNone(a.run.world.outbox, b.run.world.outbox)
    requires NoneGivenUp(a.run.world.progress.feed, b.run.world.progress.feed)
    requires !input.OutboundTicked? && !input.Delivered? && (input.WorkerRan? || input.Crashed? ==> Undisturbed(a, b))
    ensures Serves(input, now, a, b)
  {
    hide Proceeds, StrandsNone, NoneGivenUp, TickProgress, OpenAsk;
    NoneGivenUpOnly(input, a.run.world.progress.feed, b.run.world.progress.feed);
    forall ask | FinalRefused(ask) in b.run.world.progress.feed ensures FinalRefused(ask) in a.run.world.progress.feed {
      GivenUpBefore(a.run.world.progress.feed, b.run.world.progress.feed, FinalRefused(ask));
    }
  }

  // ---- parts of the host that have no handler of their own ----

  lemma IndexOutside(w: World, event: EventId, e: IndexedEvent)
    requires OutboxGood(w.outbox) && event !in w.outbox.indexed
    ensures var b := World(w.outbox.(indexed := w.outbox.indexed[event := e]), w.progress);
            OutboxGood(b.outbox) && Evolves(w, b)
  {
    hide OutboxGood, OutboxEvolves, ProgressEvolves;
    IndexStep(w.outbox, event, e);
    ProgressEvolvesReflexive(w.progress);
  }

  method IndexEvent(repo: Repository, ghost publisher: Publisher, ghost relay: Relay, event: EventId, e: IndexedEvent)
    returns (ok: bool)
    requires Serving(repo, publisher, relay)
    modifies repo`indexed, repo`failures
    ensures old(repo.failures) + Misses(ok) <= repo.failures
    ensures Serving(repo, publisher, relay)
    ensures RunAdvances(old(RunOf(repo, publisher, relay)), RunOf(repo, publisher, relay))
  {
    hide OutboxGood, ProgressGood, Evolves, QueueGood, QueueEvolves;
    ghost var a := RunOf(repo, publisher, relay);
    RunAdvancesReflexive(a);
    if event !in repo.indexed { IndexOutside(a.world, event, e); }
    ok := repo.IndexEvent(event, e);
    assert QueueOf(repo) == a.queue;
    assert repo.indexed == a.world.outbox.indexed ==> WorldOf(repo, publisher, relay) == a.world;
    assert repo.indexed != a.world.outbox.indexed ==>
        WorldOf(repo, publisher, relay) == World(a.world.outbox.(indexed := repo.indexed), a.world.progress);
  }

  /** A step inside the progress tables and the relay. */
  lemma ProgressRun(a: Run, b: Run)
    requires b.queue == a.queue && b.world.outbox == a.world.outbox && ProgressEvolves(a.world.progress, b.world.progress)
    ensures RunAdvances(a, b)
  {
  }

  /** A tick of progress also logs its creates. */
  lemma CreatesOutside(a: OutboxView, b: OutboxView)
    requires OutboxGood(a) && b == a.(sent := b.sent) && OnlyCreates(a.sent, b.sent)
    ensures OutboxGood(b) && OutboxEvolves(a, b)
  {
    forall key | key in a.attempts && a.attempts[key].outbound.Some? ensures AcceptedBy(b.sent, key, a.attempts[key].outbound.value) {
      var i :| 0 <= i < |a.sent| && a.sent[i].purpose == ForAttempt(key) && a.sent[i].id == a.attempts[key].outbound.value && a.sent[i].verdict.Accepted?;
      assert b.sent[i] == a.sent[i];
    }
    forall i | 0 <= i < |b.sent| ensures SendBacked(b.sent[i], b.attempts) {
      if i < |a.sent| { assert SendBacked(a.sent[i], a.attempts); }
    }
    AttemptsSame(a.attempts);
  }

  /** The publish path and the queue agree after a step of the publish path. */
  lemma ServedByAdvance(a: Run, b: Run)
    requires Advances(a.world, b.world) && OutboxGood(b.world.outbox) && QueueGood(a.queue)
    requires a.queue.turns == a.world.outbox.turns && b.queue == a.queue.(turns := b.world.outbox.turns, keys := b.queue.keys)
    requires a.queue.keys <= b.queue.keys && forall k :: k in b.queue.keys && k !in a.queue.keys ==> !k.FailureNotice?
    ensures QueueGood(b.queue) && RunAdvances(a, b)
  {
    hide OutboxGood, QueueGood, Evolves, QueueEvolves, OnlyCloses, CancelsOnly;
    AdvancesQueue(a.world, b.world, a.queue, b.queue);
  }

  // ---- each kind of input ----

  /** The queue leaves answers alone. */
  lemma QueueStrandsNone(a: Run, b: Run)
    requires RunGood(a) && RunGood(b) && RunEvolves(a, b) && OnlyNotices(a.world.outbox.attempts, b.world.outbox.attempts)
    ensures StrandsNone(a.world.outbox, b.world.outbox)
  {
    hide ProgressGood, OutboxGood, QueueGood, OutboxEvolves, ProgressEvolves, QueueEvolves;
    AbandonsNone(a.world.outbox, b.world.outbox);
  }

  lemma RunStrandsNone(a: Run, b: Run)
    requires RunGood(a) && RunGood(b) && RunEvolves(a, b) && NoneAbandoned(a.world.outbox.attempts, b.world.outbox.attempts)
    ensures StrandsNone(a.world.outbox, b.world.outbox)
  {
    hide ProgressGood, OutboxGood, QueueGood, OutboxEvolves, ProgressEvolves, QueueEvolves;
    AbandonsNone(a.world.outbox, b.world.outbox);
  }

  /** A step that gives up neither an answer nor a post. */
  lemma Quietly(a: Snapshot, b: Snapshot)
    requires RunGood(a.run) && RunGood(b.run) && RunAdvances(a.run, b.run) && a.failures <= b.failures
    requires NoneAbandoned(a.run.world.outbox.attempts, b.run.world.outbox.attempts)
    requires NoneGivenUp(a.run.world.progress.feed, b.run.world.progress.feed)
             || OnlyDrops(a.run.world.progress.feed, b.run.world.progress.feed)
    requires Undisturbed(a, b) && MarkersExact(a.run.queue.turns, a.marked) ==> MarkersExact(b.run.queue.turns, b.marked)
    ensures Proceeds(a, b) && StrandsNone(a.run.world.outbox, b.run.world.outbox)
  {
    hide RunGood, RunEvolves, MarkersExact, StrandsNone, NoneAbandoned, CancelsOnly, AbandonedOver, RefusalsOver, CancelsCovered;
    RunStrandsNone(a.run, b.run);
    if Tidy(a) && Undisturbed(a, b) { StaysTidy(a, b); }
  }

  /** A delivery before the queue moves on. */
  lemma DeliveryProceeds(a: Snapshot, b: Snapshot, d: InboxDelivery, refused: bool, outcome: Outcome)
    requires RunGood(a.run) && RunGood(b.run) && RunAdvances(a.run, b.run) && a.failures + Misses(!outcome.Aborted?) <= b.failures
    requires DeliveryOutcome(a.run.world, b.run.world, d, refused, outcome)
    requires GivesUpOnlyRefused(a.run.world.progress.feed, b.run.world.progress.feed, a.run.queue.turns, d, refused)
    requires NoneAbandoned(a.run.world.outbox.attempts, b.run.world.outbox.attempts)
    requires !outcome.Aborted? && MarkersExact(a.run.queue.turns, a.marked) ==> MarkersExact(b.run.queue.turns, b.marked)
    ensures Proceeds(a, b) && StrandsNone(a.run.world.outbox, b.run.world.outbox)
    ensures !outcome.Aborted? && AFinal(d) ==> !Stranded(b.run.world.outbox, d.ask.value)
    ensures !outcome.Aborted? ==> RefusalsClose(a, b)
  {
    hide ProgressGood, OutboxGood, QueueGood, RunEvolves, MarkersExact, StrandsNone, NoneAbandoned, CancelsOnly, AbandonedOver, RefusalsOver,
         CancelsCovered, DeliveryOutcome, GivesUpOnlyRefused, AFinal, OpenAsk;
    RunStrandsNone(a.run, b.run);
    if !outcome.Aborted? {
      RefusedCloses(a.run, b.run, d, refused, outcome);
      if Tidy(a) { StaysTidy(a, b); }
      if AFinal(d) { FinalUnstrands(a.run, b.run, d, refused, outcome); }
    }
  }

  lemma RefusedCloses(a: Run, b: Run, d: InboxDelivery, refused: bool, outcome: Outcome)
    requires DeliveryOutcome(a.world, b.world, d, refused, outcome) && !outcome.Aborted?
    requires a.queue.turns == a.world.outbox.turns && b.world.outbox.turns == b.world.progress.turns
    requires GivesUpOnlyRefused(a.world.progress.feed, b.world.progress.feed, a.queue.turns, d, refused)
    ensures forall ask :: FinalRefused(ask) in b.world.progress.feed ==>
              FinalRefused(ask) in a.world.progress.feed || !OpenAsk(b.world.progress.turns, ask)
  {
    forall ask | FinalRefused(ask) in b.world.progress.feed && FinalRefused(ask) !in a.world.progress.feed
      ensures !OpenAsk(b.world.progress.turns, ask)
    {
      var i :| 0 <= i < |b.world.progress.feed| && b.world.progress.feed[i] == FinalRefused(ask);
      assert i >= |a.world.progress.feed|;
    }
  }

  lemma FinalUnstrands(a: Run, b: Run, d: InboxDelivery, refused: bool, outcome: Outcome)
    requires RunGood(a) && RunGood(b) && RunEvolves(a, b) && StrandsNone(a.world.outbox, b.world.outbox)
    requires DeliveryOutcome(a.world, b.world, d, refused, outcome) && !outcome.Aborted? && AFinal(d)
    ensures !Stranded(b.world.outbox, d.ask.value)
  {
    hide ProgressGood, QueueGood, ProgressEvolves, QueueEvolves, OutboxGood;
    var ask := d.ask.value;
    if Stranded(a.world.outbox, ask) {
      assert Decided(a.world.outbox.attempts, Ask(ask));
    }
  }

  /** What a completed tick and the pass over the queue after it do together. */
  lemma TickThenQueue(a: Snapshot, b: Snapshot, c: Snapshot, bot: BotId, now: int)
    requires RunGood(b.run) && RunGood(c.run) && Proceeds(a, b) && Proceeds(b, c) && StrandsNone(b.run.world.outbox, c.run.world.outbox)
    requires Undisturbed(a, b) ==>
               && StrandsNone(a.run.world.outbox, b.run.world.outbox)
               && TickProgress(a.run.world.outbox.attempts, b.run.world.outbox.attempts, {}, bot, now)
    requires StrandsAtLast(a.run.world.outbox.attempts, b.run.world.outbox, bot, now)
    requires b.run.world.progress.feed == a.run.world.progress.feed && c.run.world.progress.feed == b.run.world.progress.feed
    ensures Serves(OutboundTicked(bot), now, a, c)
  {
    ProceedsTransitive(a, b, c);
    if Undisturbed(a, b) { TickProgressKept(a.run, b.run, c.run, bot, now); }
    TickStrands(a.run.world.outbox, b.run.world.outbox, c.run.world.outbox, bot, now);
    NoneGivenUpOnly(OutboundTicked(bot), a.run.world.progress.feed, c.run.world.progress.feed);
    hide Proceeds, RunEvolves, StrandsNone, StrandsAtLast, TickProgress, RunGood, OpenAsk;
    assert a.failures <= b.failures <= c.failures;
  }

  lemma TickStrands(u: OutboxView, v: OutboxView, w: OutboxView, bot: BotId, now: int)
    requires StrandsNone(v, w)
    ensures StrandsNone(u, v) ==> StrandsNone(u, w)
    ensures StrandsAtLast(u.attempts, v, bot, now) ==> StrandsAtLast(u.attempts, w, bot, now)
  {
    hide Stranded, DueFor, LastChance;
  }

  lemma TickProgressKept(a: Run, b: Run, c: Run, bot: BotId, now: int)
    requires RunGood(b) && RunGood(c) && RunEvolves(b, c) && TickProgress(a.world.outbox.attempts, b.world.outbox.attempts, {}, bot, now)
    ensures TickProgress(a.world.outbox.attempts, c.world.outbox.attempts, {}, bot, now)
  {
    hide ProgressGood, OutboxGood, QueueGood, ProgressEvolves, QueueEvolves, PendingFor, RetryDue, RetriesLeft;
    forall key | DueFor(a.world.outbox.attempts, key, bot, now)
      ensures key in c.world.outbox.attempts && RetriesLeft(c.world.outbox.attempts[key]) < RetriesLeft(a.world.outbox.attempts[key])
    {
      assert AttemptEvolves(b.world.outbox.attempts[key], c.world.outbox.attempts[key]);
      CountBounded(b.world.outbox, key);
      CountBounded(c.world.outbox, key);
      RetriesOnlyShrink(b.world.outbox.attempts[key], c.world.outbox.attempts[key]);
    }
  }

  class Server {
    const repo: Repository
    const publisher: Publisher
    const relay: Relay

    ghost predicate Valid()
      reads this, repo, publisher, relay
    {
      Serving(repo, publisher, relay)
    }

    ghost function Now(): Snapshot
      reads this, repo, publisher, relay
    {
      Snapshot(RunOf(repo, publisher, relay), publisher.marked, repo.failures)
    }

    constructor (sign: (Payload, int) -> EventId, background: bool)
      ensures Valid() && fresh(repo) && fresh(publisher) && fresh(relay)
      ensures Tidy(Now()) && Now().failures == 0 && relay.feed == []
      ensures publisher.sent == [] && repo.turns == [] && repo.attempts == map[] && publisher.sign == sign
    {
      repo := new Repository();
      publisher := new Publisher(sign);
      relay := new Relay(background);
    }

    lemma ServedGood()
      requires Valid()
      ensures RunGood(Now().run)
    {
    }

    method Deliver(bot: BotId, d: InboxDelivery, refused: bool, mention: string, now: int)
      requires Valid()
      modifies repo, publisher, relay
      ensures Valid() && Serves(Delivered(bot, d, refused, mention), now, old(Now()), Now())
    {
      hide OutboxGood, ProgressGood, Evolves, QueueGood, QueueEvolves, MarkersExact, RunAdvances, RunGood, DeliveryOutcome,
           GivesUpOnlyRefused, NoneAbandoned, Closes, ResumeOutcome, Proceeds, StrandsNone, Stranded;
      ghost var a := Now();
      ServedGood();
      var outcome := HandleDelivery(repo, publisher, relay, d, refused, mention, now);
      ghost var b := Now();
      ServedByAdvance(a.run, b.run);
      ServedGood();
      DeliveryProceeds(a, b, d, refused, outcome);
      DeliveryGivesUp(a.run, b.run, bot, d, refused, mention);
      StaysPut(b);
      if outcome.Ack? && d.ask.Some? && StoredState(repo.turns, d.ask.value) == Some(Posted) {
        var r := ResumeQueued(repo, publisher, relay, bot, now);
        ServedGood();
        QueueOnly(b.run, Now().run);
        Quietly(b, Now());
      }
      Delivers(Delivered(bot, d, refused, mention), now, a, b, Now());
    }

    method PublishTell(bot: BotId, message: nat, channel: string, body: string, mention: string, now: int)
      requires Valid()
      modifies repo, publisher, relay
      ensures Valid() && Serves(Told(bot, message, channel, body, mention), now, old(Now()), Now())
    {
      hide OutboxGood, ProgressGood, Evolves, QueueGood, QueueEvolves, MarkersExact, RunAdvances, RunGood, Closes, Proceeds, StrandsNone,
           Serves;
      ghost var a := Now();
      ServedGood();
      var outcome := PublishInitiated(repo, publisher, relay, bot, message, channel, body, mention, now);
      ServedByAdvance(a.run, Now().run);
      ServedGood();
      TellOnly(a.run, Now().run, HostStore.Tell(bot, message), outcome);
      Quietly(a, Now());
      Plain(Told(bot, message, channel, body, mention), now, a, Now());
    }

    method DrainOutbound(bot: BotId, now: int)
      requires Valid()
      modifies repo, publisher, relay
      ensures Valid() && Serves(OutboundTicked(bot), now, old(Now()), Now())
    {
      hide OutboxGood, ProgressGood, Evolves, QueueGood, QueueEvolves, MarkersExact, RunAdvances, RunGood, Closes, Proceeds, StrandsNone,
           StrandsAtLast, TickProgress, SentOncePerTick, ResumeOutcome, Serves;
      ghost var a := Now();
      ServedGood();
      var ok, resume := OutboundTick(repo, publisher, relay, bot, now);
      ghost var b := Now();
      ServedByAdvance(a.run, b.run);
      ServedGood();
      TickTidy(a, b);
      StaysPut(b);
      if ok && resume {
        var r := ResumeQueued(repo, publisher, relay, bot, now);
        ServedGood();
        QueueOnly(b.run, Now().run);
        Quietly(b, Now());
      }
      TickThenQueue(a, b, Now(), bot, now);
    }

    method DrainProgress(bot: BotId, now: int)
      requires Valid()
      modifies repo, publisher, relay
      ensures Valid() && Serves(ProgressTicked(bot), now, old(Now()), Now())
    {
      hide OutboxGood, ProgressGood, OutboxEvolves, ProgressEvolves, QueueGood, QueueEvolves, MarkersExact, Proceeds, StrandsNone,
           Serves, CreatesTried, RowsHanded, OnlyCreates, OnlyDrops, NoneAbandoned;
      ghost var a := Now();
      ServedGood();
      QueueEvolvesReflexive(a.run.queue);
      ghost var rows: map<AskId, ProgressPost>;
      ghost var handed: map<AskId, Dispatch>;
      var ok: bool;
      ok, rows, handed := FlushTick(repo, publisher, relay, bot, now);
      CreatesOutside(a.run.world.outbox, Now().run.world.outbox);
      assert Now().run.queue == a.run.queue;
      SameAttempts(a.run, Now().run);
      ServedGood();
      Quietly(a, Now());
      Drops(bot, now, a, Now());
    }

    method Restart(now: int)
      requires Valid()
      modifies relay
      ensures Valid() && Serves(Crashed, now, old(Now()), Now())
    {
      hide OutboxGood, ProgressGood, Evolves, QueueGood, MarkersExact, Proceeds, StrandsNone, RunGood, RunAdvances, Serves, NoneAbandoned;
      ghost var a := Now();
      ServedGood();
      relay.Restart();
      ForgetStep(a.run.world.progress, [], [], {});
      assert Now().run.world.progress == a.run.world.progress.(queue := [], completions := [], active := {});
      ProgressRun(a.run, Now().run);
      ServedGood();
      SameAttempts(a.run, Now().run);
      Quietly(a, Now());
      Plain(Crashed, now, a, Now());
    }

    method RunBackground(now: int)
      requires Valid()
      modifies relay
      ensures Valid() && Serves(WorkerRan, now, old(Now()), Now())
    {
      hide OutboxGood, ProgressGood, ProgressEvolves, OutboxEvolves, QueueGood, QueueEvolves, MarkersExact, Proceeds, StrandsNone,
           RunGood, RunAdvances, Serves, NoneAbandoned;
      ghost var a := Now();
      ServedGood();
      RunWorker(repo, publisher, relay, now);
      ProgressRun(a.run, Now().run);
      ServedGood();
      SameAttempts(a.run, Now().run);
      Quietly(a, Now());
      Plain(WorkerRan, now, a, Now());
    }

    method Index(event: EventId, content: IndexedEvent, now: int)
      requires Valid()
      modifies repo
      ensures Valid() && Serves(Indexed(event, content), now, old(Now()), Now())
    {
      hide OutboxGood, ProgressGood, Evolves, QueueGood, MarkersExact, Proceeds, StrandsNone, RunGood, RunAdvances, Serves, NoneAbandoned;
      ghost var a := Now();
      ServedGood();
      var ok := IndexEvent(repo, publisher, relay, event, content);
      ServedGood();
      SameAttempts(a.run, Now().run);
      Quietly(a, Now());
      Plain(Indexed(event, content), now, a, Now());
    }

    /** A trigger, a watch fire or a pass over the queue. */
    method Start(input: Input, now: int)
      requires Valid() && (input.Triggered? || input.WatchFired? || input.QueueResumed?)
      modifies repo, publisher, relay
      ensures Valid() && Serves(input, now, old(Now()), Now())
    {
      hide OutboxGood, ProgressGood, Evolves, QueueGood, QueueEvolves, MarkersExact, Proceeds, StrandsNone, RunGood, RunAdvances, Serves,
           NoneAbandoned, ResumeOutcome, IngestOutcome;
      ghost var a := Now();
      ServedGood();
      var r: Handled;
      match input {
        case Triggered(session, id, accepted) =>
          r := HandleTrigger(repo, publisher, relay, session, id, accepted, now);
          SameAttempts(a.run, Now().run);
        case WatchFired(session, id) =>
          r := HandleWatchFire(repo, publisher, relay, session, id, now);
          SameAttempts(a.run, Now().run);
        case QueueResumed(bot) =>
          r := ResumeQueued(repo, publisher, relay, bot, now);
          QueueOnly(a.run, Now().run);
      }
      ServedGood();
      Quietly(a, Now());
      Plain(input, now, a, Now());
    }

    /** An edit or delete of a trigger. */
    method End(input: Input, now: int)
      requires Valid() && (input.TriggerEdited? || input.TriggerDeleted?)
      modifies repo, publisher, relay
      ensures Valid() && Serves(input, now, old(Now()), Now())
    {
      hide OutboxGood, ProgressGood, Evolves, QueueGood, QueueEvolves, MarkersExact, Proceeds, StrandsNone, RunGood, RunEvolves, Serves,
           EndsOnly, AbandonOutcome, EditOutcome, ProgressOver, UnclaimedOf, LiveOf;
      ghost var a := Now();
      ServedGood();
      var r: Handled;
      match input {
        case TriggerEdited(bot, event, target, request, authorized) =>
          r := HandleEdit(repo, publisher, relay, bot, event, target, request, authorized, now);
          if !r.Interrupted? { EditEnds(a.run, Now().run, bot, target, request, authorized, r); }
        case TriggerDeleted(bot, event, target) =>
          r := AbandonUnclaimed(repo, publisher, relay, bot, event, target, now);
          if !r.Interrupted? { AbandonEnds(a.run, Now().run, target, r); }
      }
      ServedGood();
      EndsServes(input, now, a, Now());
    }

    /** One input. The clock is whatever it reads: no order between the times of two inputs is assumed. */
    method Handle(input: Input, now: int)
      requires Valid()
      modifies repo, publisher, relay
      ensures Valid() && Serves(input, now, old(Now()), Now())
    {
      hide Valid, Serves;
      match input {
        case Delivered(bot, delivery, refused, mention) =>
          Deliver(bot, delivery, refused, mention, now);
        case Told(bot, message, channel, body, mention) =>
          PublishTell(bot, message, channel, body, mention, now);
        case OutboundTicked(bot) =>
          DrainOutbound(bot, now);
        case ProgressTicked(bot) =>
          DrainProgress(bot, now);
        case WorkerRan =>
          RunBackground(now);
        case Indexed(event, content) =>
          Index(event, content, now);
        case Crashed =>
          Restart(now);
        case TriggerEdited(_, _, _, _, _) =>
          End(input, now);
        case TriggerDeleted(_, _, _) =>
          End(input, now);
        case _ =>
          Start(input, now);
      }
    }

    /** Any run: every state is good, and each input does what `Serves` says of the states around it. */
    method Serve(inputs: seq<(Input, int)>) returns (ghost states: seq<Snapshot>)
      requires Valid()
      modifies repo, publisher, relay
      ensures Valid()
      ensures RanThrough(inputs, states) && states[0] == old(Now()) && states[|inputs|] == Now()
    {
      hide Valid, Serves, RunGood;
      states := [Now()];
      ServedGood();
      for n := 0 to |inputs|
        invariant Valid()
        invariant RanThrough(inputs[..n], states) && states[0] == old(Now()) && states[n] == Now()
      {
        Handle(inputs[n].0, inputs[n].1);
        ServedGood();
        assert inputs[..n + 1] == inputs[..n] + [inputs[n]];
        states := states + [Now()];
      }
      assert inputs[..|inputs|] == inputs;
    }
  }

  /** The states before, between and after a sequence of inputs. */
  ghost predicate RanThrough(inputs: seq<(Input, int)>, states: seq<Snapshot>) {
    && |states| == |inputs| + 1
    && (forall n :: 0 <= n < |states| ==> RunGood(states[n].run))
    && (forall n :: 0 <= n < |inputs| ==> Serves(inputs[n].0, inputs[n].1, states[n], states[n + 1]))
  }

  lemma StaysPut(a: Snapshot)
    ensures Proceeds(a, a) && StrandsNone(a.run.world.outbox, a.run.world.outbox)
  {
    RunEvolvesReflexive(a.run);
  }

  lemma QueueOnly(a: Run, b: Run)
    requires OnlyNotices(a.world.outbox.attempts, b.world.outbox.attempts) && b.world.progress.feed == a.world.progress.feed
    ensures NoneAbandoned(a.world.outbox.attempts, b.world.outbox.attempts)
    ensures NoneGivenUp(a.world.progress.feed, b.world.progress.feed)
  {
  }

  lemma SameAttempts(a: Run, b: Run)
    requires b.world.outbox.attempts == a.world.outbox.attempts
    ensures NoneAbandoned(a.world.outbox.attempts, b.world.outbox.attempts)
    ensures b.world.progress.feed == a.world.progress.feed ==> NoneGivenUp(a.world.progress.feed, b.world.progress.feed)
  {
  }

  lemma TellOnly(a: Run, b: Run, key: Key, outcome: Outcome)
    requires TellOutcome(a.world.outbox, b.world.outbox, key, outcome) && !key.Ask? && b.world.progress.feed == a.world.progress.feed
    ensures NoneAbandoned(a.world.outbox.attempts, b.world.outbox.attempts)
    ensures NoneGivenUp(a.world.progress.feed, b.world.progress.feed)
  {
  }

  lemma DeliveryGivesUp(a: Run, b: Run, bot: BotId, d: InboxDelivery, refused: bool, mention: string)
    requires GivesUpOnlyRefused(a.world.progress.feed, b.world.progress.feed, a.queue.turns, d, refused)
    ensures GivesUpOnly(Delivered(bot, d, refused, mention), a.world.progress.feed, b.world.progress.feed)
  {
  }

  lemma Delivers(input: Input, now: int, a: Snapshot, b: Snapshot, c: Snapshot)
    requires input.Delivered? && Proceeds(a, b) && Proceeds(b, c)
    requires StrandsNone(a.run.world.outbox, b.run.world.outbox) && StrandsNone(b.run.world.outbox, c.run.world.outbox)
    requires Undisturbed(a, b) && AFinal(input.delivery) ==> !Stranded(b.run.world.outbox, input.delivery.ask.value)
    requires GivesUpOnly(input, a.run.world.progress.feed, b.run.world.progress.feed)
    requires c.run.world.progress.feed == b.run.world.progress.feed
    requires Undisturbed(a, b) ==> RefusalsClose(a, b)
    requires RunGood(b.run) && RunGood(c.run)
    ensures Serves(input, now, a, c)
  {
    ProceedsTransitive(a, b, c);
    if Undisturbed(a, c) { RefusalsStayClosed(a, b, c); }
    hide RunEvolves, Tidy, Stranded, GivesUpOnly, RefusalsClose, RunGood;
  }

  lemma RefusalsStayClosed(a: Snapshot, b: Snapshot, c: Snapshot)
    requires RefusalsClose(a, b) && Undisturbed(a, b) && RunGood(b.run) && RunGood(c.run) && RunEvolves(b.run, c.run)
    requires c.run.world.progress.feed == b.run.world.progress.feed
    ensures RefusalsClose(a, c)
  {
    hide OpenAsk, RunEvolves;
    TurnsOfRun(b.run);
    TurnsOfRun(c.run);
    TurnsOfEvolution(b.run, c.run);
    forall ask | FinalRefused(ask) in c.run.world.progress.feed && FinalRefused(ask) !in a.run.world.progress.feed
      ensures !OpenAsk(c.run.queue.turns, ask)
    {
      RefusedRow(b.run.world.progress, ask);
      ClosedStays(b.run.queue.turns, c.run.queue.turns, ask);
    }
  }

  lemma Drops(bot: BotId, now: int, a: Snapshot, b: Snapshot)
    requires Proceeds(a, b) && StrandsNone(a.run.world.outbox, b.run.world.outbox)
    requires OnlyDrops(a.run.world.progress.feed, b.run.world.progress.feed)
    ensures Serves(ProgressTicked(bot), now, a, b)
  {
    hide Proceeds, StrandsNone, TickProgress, OpenAsk;
    var p, q := a.run.world.progress.feed, b.run.world.progress.feed;
    forall ask | FinalRefused(ask) in q ensures FinalRefused(ask) in p {
      var i :| 0 <= i < |q| && q[i] == FinalRefused(ask);
      assert q[i] == p[i];
    }
  }

  /** What a tick of outbound attempts keeps, before the queue moves on. */
  lemma TickTidy(a: Snapshot, b: Snapshot)
    requires RunGood(a.run) && RunGood(b.run) && RunAdvances(a.run, b.run) && a.failures <= b.failures
    requires Undisturbed(a, b) ==> StrandsNone(a.run.world.outbox, b.run.world.outbox)
    requires b.run.world.progress.feed == a.run.world.progress.feed
    requires Undisturbed(a, b) && MarkersExact(a.run.queue.turns, a.marked) ==> MarkersExact(b.run.queue.turns, b.marked)
    ensures Proceeds(a, b)
  {
    hide RunGood, RunEvolves, MarkersExact, StrandsNone, CancelsOnly, AbandonedOver, RefusalsOver, CancelsCovered;
    if Tidy(a) && Undisturbed(a, b) { StaysTidy(a, b); }
  }

  lemma AbandonEnds(a: Run, b: Run, target: EventId, r: Handled)
    requires AbandonOutcome(a, b, target, r) && !r.Interrupted?
    ensures UnclaimedOf(a.queue.turns, target).Some? ==> ProgressOver(a, b, UnclaimedOf(a.queue.turns, target).value)
  {
  }

  lemma EditEnds(a: Run, b: Run, bot: BotId, target: EventId, request: bool, authorized: bool, r: Handled)
    requires request && authorized && target.Relay? && LiveOf(a.queue.turns, target).Some? ==>
               EditOutcome(a, b, Session(bot, a.queue.turns[LiveOf(a.queue.turns, target).value].session.channel), target, r)
    requires !(request && authorized && target.Relay? && LiveOf(a.queue.turns, target).Some?) ==> AbandonOutcome(a, b, target, r)
    requires !r.Interrupted?
    ensures UnclaimedOf(a.queue.turns, target).Some? ==> ProgressOver(a, b, UnclaimedOf(a.queue.turns, target).value)
  {
  }

  lemma EndsServes(input: Input, now: int, a: Snapshot, b: Snapshot)
    requires RunGood(a.run) && RunGood(b.run) && RunEvolves(a.run, b.run) && a.failures <= b.failures
    requires input.TriggerEdited? || input.TriggerDeleted?
    requires EndsOnly(a.run, b.run, UnclaimedOf(a.run.queue.turns, input.target))
    requires OnlyNotices(a.run.world.outbox.attempts, b.run.world.outbox.attempts)
    requires Undisturbed(a, b) && UnclaimedOf(a.run.queue.turns, input.target).Some? ==>
               ProgressOver(a.run, b.run, UnclaimedOf(a.run.queue.turns, input.target).value)
    requires Undisturbed(a, b) && MarkersExact(a.run.queue.turns, a.marked) ==> MarkersExact(b.run.queue.turns, b.marked)
    ensures Serves(input, now, a, b)
  {
    hide RunGood, RunEvolves, MarkersExact, StrandsNone, CancelsOnly, AbandonedOver, RefusalsOver, CancelsCovered, ProgressOver, UnclaimedOf,
         OnlyNotices, NoneGivenUp, TickProgress;
    QueueStrandsNone(a.run, b.run);
    if Tidy(a) && Undisturbed(a, b) { EndsTidy(a, b, input.target); }
    Plain(input, now, a, b);
  }
}
