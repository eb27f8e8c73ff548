/**
 The publish path: classify inbox deliveries, record one attempt per answer, send it under
 one event id, close the turn, and only then acknowledge.

 `Aborted` is a failed write. The store is then as a crash at that write would leave it,
 and every contract holds of that state too.
 */
module Outbox {
  import opened Wrappers
  import opened Stamping
  import opened HostStore
  import opened RelayPublisher
  import opened ProgressRelay
  import opened ProgressTheory
  import opened ProgressSteps
  import opened Progress
  import opened OutboxTheory

  datatype Outcome = Ack | Hold | PublishFailed | Aborted

  /** Everything a run of the host is judged by. */
  datatype World = World(outbox: OutboxView, progress: View)

  ghost function WorldOf(repo: Repository, publisher: Publisher, relay: Relay): World
    reads repo, publisher, relay
  {
    World(OutboxView(repo.turns, repo.attempts, repo.indexed, publisher.sent, publisher.sign), ViewOf(repo, publisher, relay))
  }

  ghost predicate HostGood(repo: Repository, publisher: Publisher, relay: Relay)
    reads repo, publisher, relay
  {
    Coherent(repo, publisher, relay) && OutboxGood(WorldOf(repo, publisher, relay).outbox)
  }

  ghost predicate Evolves(a: World, b: World) {
    OutboxEvolves(a.outbox, b.outbox) && ProgressEvolves(a.progress, b.progress)
  }

  lemma EvolvesReflexive(a: World)
    ensures Evolves(a, a)
  {
  }

  lemma EvolvesTransitive(a: World, b: World, c: World)
    requires Evolves(a, b) && Evolves(b, c)
    ensures Evolves(a, c)
  {
    OutboxEvolvesTransitive(a.outbox, b.outbox, c.outbox);
    ProgressEvolvesTransitive(a.progress, b.progress, c.progress);
  }

  /** `turn` was read from the row of `ask`; its state columns may be out of date. */
  predicate ReadFrom(turns: seq<Turn>, ask: AskId, turn: Turn) {
    && OfAsk(turns, ask).Some? && var row := turns[OfAsk(turns, ask).value];
    && turn.session == row.session && turn.event == row.event && turn.publishReplyTo == row.publishReplyTo
  }

  function RowOf(turns: seq<Turn>, ask: AskId): Turn
    requires OfAsk(turns, ask).Some?
  {
    turns[OfAsk(turns, ask).value]
  }

  // ---- single writes ----

  method SaveAttempt(repo: Repository, ghost publisher: Publisher, ghost relay: Relay, key: Key, b: Attempt) returns (ok: bool)
    requires HostGood(repo, publisher, relay)
    requires AttemptGood(key, b, repo.turns, repo.indexed, publisher.sign)
    requires key in repo.attempts ==> AttemptEvolves(repo.attempts[key], b)
    requires MergedAttempt(Lookup(repo.attempts, key), b) == b
    requires b.outbound.Some? ==> AcceptedBy(publisher.sent, key, b.outbound.value)
    requires b.outbound.Some? && key.Ask? ==> Reserved(repo.turns, key.ask)
    modifies repo`attempts, repo`failures
    ensures old(repo.failures) + Misses(ok) <= repo.failures
    ensures HostGood(repo, publisher, relay)
    ensures Evolves(old(WorldOf(repo, publisher, relay)), WorldOf(repo, publisher, relay))
    ensures repo.attempts == old(repo.attempts)[key := b] || (!ok && repo.attempts == old(repo.attempts))
  {
    hide OutboxGood, OutboxEvolves, ProgressGood, ProgressEvolves, AttemptGood, AttemptEvolves;
    ghost var w := WorldOf(repo, publisher, relay);
    EvolvesReflexive(w);
    AttemptStep(w.outbox, key, b);
    AttemptOutside(w, key, b);
    ok := repo.SaveOutboundAttempt(key, b);
    assert repo.attempts == w.outbox.attempts[key := b] ==>
             WorldOf(repo, publisher, relay) == World(w.outbox.(attempts := w.outbox.attempts[key := b]), w.progress.(attempts := w.outbox.attempts[key := b]));
    assert repo.attempts == w.outbox.attempts ==> WorldOf(repo, publisher, relay) == w;
  }

  lemma AttemptOutside(w: World, key: Key, b: Attempt)
    requires ProgressGood(w.progress) && w.progress.attempts == w.outbox.attempts
    requires key in w.outbox.attempts ==> AttemptEvolves(w.outbox.attempts[key], b)
    ensures var p := w.progress.(attempts := w.outbox.attempts[key := b]);
            ProgressGood(p) && ProgressEvolves(w.progress, p)
  {
    hide ProgressGood, ProgressEvolves;
    TurnsOfView(w.progress);
    OutsideStep(w.progress, w.progress.(attempts := w.outbox.attempts[key := b]));
  }

  lemma TurnsOfView(v: View)
    requires ProgressGood(v)
    ensures TurnsGood(v.turns) && TurnsEvolve(v.turns, v.turns)
  {
  }

  /** Both views accept the same new table of turns. */
  lemma TurnsOutside(w: World, turns: seq<Turn>)
    requires ProgressGood(w.progress) && OutboxGood(w.outbox) && w.progress.turns == w.outbox.turns
    requires TurnsGood(turns) && TurnsEvolve(w.outbox.turns, turns) && TurnsBacked(turns, w.outbox.attempts)
    ensures OutboxGood(w.outbox.(turns := turns)) && ProgressGood(w.progress.(turns := turns))
    ensures Evolves(w, World(w.outbox.(turns := turns), w.progress.(turns := turns)))
  {
    hide OutboxGood, ProgressGood, OutboxEvolves, ProgressEvolves;
    TurnStep(w.outbox, turns);
    OutsideStep(w.progress, w.progress.(turns := turns));
  }

  lemma TurnsOf(v: OutboxView)
    requires OutboxGood(v)
    ensures TurnsGood(v.turns) && TurnsBacked(v.turns, v.attempts)
  {
  }

  method SetState(repo: Repository, ghost publisher: Publisher, ghost relay: Relay, ask: AskId, to: TurnState) returns (ok: bool)
    requires HostGood(repo, publisher, relay) && Terminal(to) && !to.Cancelled?
    requires to.Posted? ==> Ask(ask) in repo.attempts && repo.attempts[Ask(ask)].outbound.Some?
    modifies repo`turns, repo`failures
    ensures old(repo.failures) + Misses(ok) <= repo.failures
    ensures HostGood(repo, publisher, relay)
    ensures Evolves(old(WorldOf(repo, publisher, relay)), WorldOf(repo, publisher, relay))
    ensures Closes(old(repo.turns), repo.turns)
    ensures repo.turns == WithState(old(repo.turns), ask, to) || (!ok && repo.turns == old(repo.turns))
  {
    hide OutboxGood, OutboxEvolves, ProgressGood, ProgressEvolves;
    ghost var w := WorldOf(repo, publisher, relay);
    EvolvesReflexive(w);
    TurnsOf(w.outbox);
    WithStateStep(repo.turns, ask, to);
    TurnsOutside(w, WithState(repo.turns, ask, to));
    ok := repo.SetTurnState(ask, to);
    assert WorldOf(repo, publisher, relay) == World(w.outbox.(turns := repo.turns), w.progress.(turns := repo.turns));
  }

  method SetClaim(repo: Repository, ghost publisher: Publisher, ghost relay: Relay, ask: AskId, to: bool)
    returns (ok: bool, changed: bool)
    requires HostGood(repo, publisher, relay) && (!to ==> !Answered(repo.attempts, ask))
    modifies repo`turns, repo`failures
    ensures old(repo.failures) + Misses(ok) <= repo.failures
    ensures HostGood(repo, publisher, relay)
    ensures Evolves(old(WorldOf(repo, publisher, relay)), WorldOf(repo, publisher, relay))
    ensures Closes(old(repo.turns), repo.turns)
    ensures changed == CanClaim(old(repo.turns), ask, to)
    ensures repo.turns == WithClaim(old(repo.turns), ask, to) || (!ok && repo.turns == old(repo.turns))
  {
    hide OutboxGood, OutboxEvolves, ProgressGood, ProgressEvolves;
    ghost var w := WorldOf(repo, publisher, relay);
    EvolvesReflexive(w);
    TurnsOf(w.outbox);
    WithClaimStep(repo.turns, ask, to);
    TurnsOutside(w, WithClaim(repo.turns, ask, to));
    ok, changed := repo.SetClaim(ask, to);
    assert WorldOf(repo, publisher, relay) == World(w.outbox.(turns := repo.turns), w.progress.(turns := repo.turns));
  }

  // ---- prepare, record, send ----

  datatype SendOutcome = SentAccepted(id: EventId) | PrepareFailed | SentRejected | SentRetry | SendAborted

  /** The attempt as it is published: stamped, and attributed to its bot. */
  function ToPublish(a: Attempt, bot: BotId): Attempt {
    a.(body := Stamp(a.body, OutboundPrefix(bot)), bot := Some(bot))
  }

  /** A stored attempt that may be sent now; a final also needs its turn open and claimed. */
  predicate Sendable(v: OutboxView, key: Key, bot: BotId) {
    && key in v.attempts && !Closed(v.attempts[key]) && !Legacy(v.attempts[key])
    && (v.attempts[key].bot.Some? ==> v.attempts[key].bot.value == bot)
    && match key
       case Ask(ask) =>
         OfAsk(v.turns, ask).Some? && RowOf(v.turns, ask).state.Open? && RowOf(v.turns, ask).claimed
         && RowOf(v.turns, ask).session.bot == bot
       case Tell(b, _) => b == bot
       case FailureNotice(_) => true
  }

  lemma StampedGood(v: OutboxView, key: Key, bot: BotId)
    requires OutboxGood(v) && Sendable(v, key, bot)
    ensures var a := ToPublish(v.attempts[key], bot);
            && (a.prepared.Some? ==> a == v.attempts[key] && a.createdAt.Some? && a.prepared.value == v.sign(PayloadOf(a), a.createdAt.value))
            && (a.prepared.None? ==> a.createdAt.None?)
  {
  }

  /** The row that records the prepared event, before anything is sent. */
  lemma PreparedGood(v: OutboxView, key: Key, bot: BotId, id: EventId, createdAt: int, dispatched: bool)
    requires OutboxGood(v) && Sendable(v, key, bot)
    requires v.attempts[key].prepared.Some? ==> v.attempts[key].prepared == Some(id) && v.attempts[key].createdAt == Some(createdAt)
    requires id == v.sign(PayloadOf(ToPublish(v.attempts[key], bot)), createdAt)
    ensures var b := ToPublish(v.attempts[key], bot).(prepared := Some(id), createdAt := Some(createdAt), dispatched := dispatched);
            && AttemptGood(key, b, v.turns, v.indexed, v.sign) && AttemptEvolves(v.attempts[key], b)
            && MergedAttempt(Some(v.attempts[key]), b) == b && !Closed(b) && !Legacy(b)
            && b.retryCount == v.attempts[key].retryCount && b.lastRetryAt == v.attempts[key].lastRetryAt
  {
    hide OutboxGood;
    StoredAttemptGood(v, key);
    StampIdempotent(v.attempts[key].body, bot);
  }

  /** The retry count was stored before the event was sent. */
  predicate CarriesCount(e: Send, count: int) {
    e.attempt.Some? && e.attempt.value.retryCount == count
  }

  function CountOf(attempts: map<Key, Attempt>, key: Key): int {
    if key in attempts then attempts[key].retryCount else 0
  }

  /** What one send of an attempt does to its row and to the log. */
  ghost predicate SentOnce(before: OutboxView, after: OutboxView, key: Key) {
    && after.turns == before.turns
    && key in before.attempts && key in after.attempts
    && after.attempts == before.attempts[key := after.attempts[key]]
    && after.attempts[key].retryCount == before.attempts[key].retryCount
    && after.attempts[key].lastRetryAt == before.attempts[key].lastRetryAt
    && !Closed(after.attempts[key])
    && (after.sent == before.sent
        || (|after.sent| == |before.sent| + 1 && after.sent[..|before.sent|] == before.sent
            && after.sent[|before.sent|].purpose == ForAttempt(key)
            && after.attempts[key].prepared == Some(after.sent[|before.sent|].id)
            && CarriesCount(after.sent[|before.sent|], before.attempts[key].retryCount)))
  }

  predicate OutcomeMatches(outcome: SendOutcome, verdict: Verdict) {
    match outcome
    case SentAccepted(_) => verdict.Accepted?
    case PrepareFailed => false
    case SentRejected => verdict.Rejected?
    case SentRetry => verdict.NotAccepted?
    case SendAborted => true
  }

  method RecordAndSend(repo: Repository, publisher: Publisher, ghost relay: Relay, key: Key, bot: BotId, now: int)
    returns (outcome: SendOutcome)
    requires HostGood(repo, publisher, relay) && Sendable(WorldOf(repo, publisher, relay).outbox, key, bot)
    modifies repo`attempts, publisher`sent, repo`failures
    ensures old(repo.failures) + Misses(!outcome.SendAborted?) <= repo.failures
    ensures HostGood(repo, publisher, relay)
    ensures Evolves(old(WorldOf(repo, publisher, relay)), WorldOf(repo, publisher, relay))
    ensures SentOnce(old(WorldOf(repo, publisher, relay).outbox), WorldOf(repo, publisher, relay).outbox, key)
    ensures publisher.sent != old(publisher.sent) ==> OutcomeMatches(outcome, publisher.sent[|old(publisher.sent)|].verdict)
    ensures publisher.sent == old(publisher.sent) ==> outcome.PrepareFailed? || outcome.SendAborted?
    ensures outcome.SentAccepted? ==>
              repo.attempts[key].prepared == Some(outcome.id) && AcceptedBy(publisher.sent, key, outcome.id)
    ensures publisher.sent != old(publisher.sent) ==>
              repo.attempts[key].bot == Some(bot) && publisher.sent[|old(publisher.sent)|].payload == PayloadOf(ToPublish(old(repo.attempts[key]), bot))
    ensures outcome.PrepareFailed? ==> repo.attempts == old(repo.attempts)
  {
    hide OutboxGood, OutboxEvolves, ProgressGood, ProgressEvolves, AttemptGood, AttemptEvolves;
    ghost var w := WorldOf(repo, publisher, relay);
    EvolvesReflexive(w);
    StampedGood(w.outbox, key, bot);
    var a := ToPublish(repo.attempts[key], bot);
    var r := publisher.Prepare(PayloadOf(a), a.prepared, a.createdAt, now);
    match r {
      case Mismatch =>
        assert false;
      case Refused =>
        outcome := PrepareFailed;
      case Prepared(id, createdAt) =>
        PreparedGood(w.outbox, key, bot, id, createdAt, true);
        var ok := SaveAttempt(repo, publisher, relay, key, a.(prepared := Some(id), createdAt := Some(createdAt), dispatched := true));
        if ok {
          ghost var x := WorldOf(repo, publisher, relay);
          outcome := SendPrepared(repo, publisher, relay, key, id);
          EvolvesTransitive(w, x, WorldOf(repo, publisher, relay));
        } else {
          outcome := SendAborted;
        }
    }
  }

  method SendPrepared(repo: Repository, publisher: Publisher, ghost relay: Relay, key: Key, id: EventId)
    returns (outcome: SendOutcome)
    requires HostGood(repo, publisher, relay) && key in repo.attempts
    requires repo.attempts[key].bot.Some? && Sendable(WorldOf(repo, publisher, relay).outbox, key, repo.attempts[key].bot.value)
    requires repo.attempts[key].prepared == Some(id)
    modifies repo`attempts, publisher`sent, repo`failures
    ensures old(repo.failures) + Misses(!outcome.SendAborted?) <= repo.failures
    ensures HostGood(repo, publisher, relay)
    ensures Evolves(old(WorldOf(repo, publisher, relay)), WorldOf(repo, publisher, relay))
    ensures SentOnce(old(WorldOf(repo, publisher, relay).outbox), WorldOf(repo, publisher, relay).outbox, key)
    ensures publisher.sent != old(publisher.sent) && publisher.sent[|old(publisher.sent)|].payload == PayloadOf(old(repo.attempts[key]))
    ensures OutcomeMatches(outcome, publisher.sent[|old(publisher.sent)|].verdict)
    ensures outcome.SentAccepted? ==> outcome.id == id && AcceptedBy(publisher.sent, key, id)
    ensures repo.attempts[key].prepared == Some(id) && repo.attempts[key].bot == old(repo.attempts[key].bot)
  {
    hide OutboxGood, OutboxEvolves, ProgressGood, ProgressEvolves, AttemptGood, AttemptEvolves;
    ghost var w := WorldOf(repo, publisher, relay);
    var verdict := publisher.Publish(ForAttempt(key), id, PayloadOf(repo.attempts[key]), repo);
    ghost var e := Logged(ForAttempt(key), id, PayloadOf(repo.attempts[key]), verdict, repo.turns, repo.attempts, repo.posts);
    SendStep(w.outbox, e);
    SendOutside(w, e);
    ghost var x := WorldOf(repo, publisher, relay);
    assert x == World(w.outbox.(sent := w.outbox.sent + [e]), w.progress.(sent := w.outbox.sent + [e]));
    match verdict {
      case Accepted =>
        outcome := SentAccepted(id);
      case Rejected =>
        outcome := SentRejected;
      case NotAccepted =>
        UndispatchedGood(x.outbox, key);
        var ok := SaveAttempt(repo, publisher, relay, key, repo.attempts[key].(dispatched := false));
        outcome := if ok then SentRetry else SendAborted;
        EvolvesTransitive(w, x, WorldOf(repo, publisher, relay));
    }
  }

  lemma UndispatchedGood(v: OutboxView, key: Key)
    requires OutboxGood(v) && key in v.attempts && v.attempts[key].prepared.Some?
    ensures var b := v.attempts[key].(dispatched := false);
            AttemptGood(key, b, v.turns, v.indexed, v.sign) && AttemptEvolves(v.attempts[key], b) && MergedAttempt(Some(v.attempts[key]), b) == b
  {
  }

  lemma SendOutside(w: World, e: Send)
    requires ProgressGood(w.progress) && w.progress.sent == w.outbox.sent && e.purpose.ForAttempt?
    ensures ProgressGood(w.progress.(sent := w.outbox.sent + [e])) && ProgressEvolves(w.progress, w.progress.(sent := w.outbox.sent + [e]))
  {
    hide ProgressGood, ProgressEvolves;
    TurnsOfView(w.progress);
    OutsideStep(w.progress, w.progress.(sent := w.outbox.sent + [e]));
  }

  // ---- closing a turn ----

  /** The in-flight marker is up exactly on the trigger events with queued or open work. */
  ghost predicate MarkersExact(turns: seq<Turn>, marked: set<EventId>) {
    forall e :: e in marked <==> e.Relay? && LiveOf(turns, e).Some?
  }

  /** The only live turn of an event closed; no other event is affected. */
  lemma ClosingUnmarks(turns: seq<Turn>, ask: AskId, to: TurnState, marked: set<EventId>)
    requires TurnsGood(turns) && Terminal(to) && OfAsk(turns, ask).Some? && RowOf(turns, ask).state.Open? && CanSet(turns, ask, to)
    requires MarkersExact(turns, marked)
    ensures MarkersExact(WithState(turns, ask, to), marked - {RowOf(turns, ask).event})
  {
    var i := OfAsk(turns, ask).value;
    var after := WithState(turns, ask, to);
    forall j | 0 <= j < |turns| && j != i && turns[j].event == turns[i].event ensures !Live(turns[j]) {
      assert PairGood(turns[if i < j then i else j], turns[if i < j then j else i]);
    }
    forall e ensures e in marked - {turns[i].event} <==> e.Relay? && LiveOf(after, e).Some? {
      if e != turns[i].event && LiveOf(turns, e).Some? {
        assert after[LiveOf(turns, e).value] == turns[LiveOf(turns, e).value];
      }
      if LiveOf(after, e).Some? {
        assert after[LiveOf(after, e).value] == turns[LiveOf(after, e).value];
      }
    }
  }

  /** End the turn, then clear the marker of the event it answers. */
  method CloseTurn(repo: Repository, publisher: Publisher, ghost relay: Relay, turn: Turn, ask: AskId, to: TurnState)
    returns (outcome: Outcome)
    requires HostGood(repo, publisher, relay) && ReadFrom(repo.turns, ask, turn) && Terminal(to) && !to.Cancelled?
    requires to.Posted? ==> Ask(ask) in repo.attempts && repo.attempts[Ask(ask)].outbound.Some?
    modifies repo`turns, publisher`marked, repo`failures
    ensures old(repo.failures) + Misses(!outcome.Aborted?) <= repo.failures
    ensures HostGood(repo, publisher, relay)
    ensures Evolves(old(WorldOf(repo, publisher, relay)), WorldOf(repo, publisher, relay))
    ensures Closes(old(repo.turns), repo.turns)
    ensures repo.turns == WithState(old(repo.turns), ask, to) || (outcome.Aborted? && repo.turns == old(repo.turns))
    ensures outcome.Ack? || outcome.Aborted?
    ensures outcome.Aborted? ==> publisher.marked == old(publisher.marked)
    ensures outcome.Ack? ==> OfAsk(repo.turns, ask).Some? && Terminal(RowOf(repo.turns, ask).state)
    ensures outcome.Ack? && RowOf(old(repo.turns), ask).state.Open? ==> RowOf(repo.turns, ask).state == to
    ensures outcome.Ack? && RowOf(old(repo.turns), ask).state.Open? && MarkersExact(old(repo.turns), old(publisher.marked)) ==>
              MarkersExact(repo.turns, publisher.marked)
  {
    hide OutboxGood, OutboxEvolves, ProgressGood, ProgressEvolves, MarkersExact;
    TurnsOf(WorldOf(repo, publisher, relay).outbox);
    ghost var before := repo.turns;
    ghost var marked := publisher.marked;
    CloseRow(before, ask, to);
    var ok := SetState(repo, publisher, relay, ask, to);
    if !ok {
      return Aborted;
    }
    if turn.publishReplyTo.Some? {
      publisher.RemoveMarker(turn.publishReplyTo.value);
    }
    if RowOf(before, ask).state.Open? && MarkersExact(before, marked) {
      ClosingUnmarks(before, ask, to, marked);
      WakesUnmarked(before, marked, RowOf(before, ask).event);
    }
    outcome := Ack;
  }

  lemma WakesUnmarked(turns: seq<Turn>, marked: set<EventId>, event: EventId)
    requires MarkersExact(turns, marked)
    ensures !event.Relay? ==> marked - {event} == marked
  {
  }

  lemma CloseRow(turns: seq<Turn>, ask: AskId, to: TurnState)
    requires TurnsGood(turns) && OfAsk(turns, ask).Some? && Terminal(to) && !to.Cancelled?
    ensures RowGood(RowOf(turns, ask))
    ensures var after := WithState(turns, ask, to);
            && OfAsk(after, ask) == OfAsk(turns, ask)
            && Terminal(RowOf(after, ask).state)
            && (RowOf(turns, ask).state.Open? ==> CanSet(turns, ask, to) && RowOf(after, ask).state == to)
  {
  }

  /** A final landed: drop pending progress, post the turn, clear the marker. */
  method MarkPosted(repo: Repository, publisher: Publisher, ghost relay: Relay, turn: Turn, ask: AskId) returns (outcome: Outcome)
    requires HostGood(repo, publisher, relay) && ReadFrom(repo.turns, ask, turn)
    requires Ask(ask) in repo.attempts && repo.attempts[Ask(ask)].outbound.Some?
    modifies repo`turns, repo`posts, publisher`marked, repo`failures
    ensures old(repo.failures) + Misses(!outcome.Aborted?) <= repo.failures
    ensures HostGood(repo, publisher, relay)
    ensures Evolves(old(WorldOf(repo, publisher, relay)), WorldOf(repo, publisher, relay))
    ensures Closes(old(repo.turns), repo.turns)
    ensures outcome.Ack? || outcome.Aborted?
    ensures outcome.Aborted? ==> repo.turns == old(repo.turns) || repo.turns == WithState(old(repo.turns), ask, Posted)
    ensures outcome.Ack? ==>
              && OfAsk(repo.turns, ask).Some? && Terminal(RowOf(repo.turns, ask).state)
              && (RowOf(old(repo.turns), ask).state.Open? ==> RowOf(repo.turns, ask).state.Posted?)
              && Quieted(repo.posts, ask)
    ensures outcome.Ack? && RowOf(old(repo.turns), ask).state.Open? && MarkersExact(old(repo.turns), old(publisher.marked)) ==>
              MarkersExact(repo.turns, publisher.marked)
  {
    hide OutboxGood, OutboxEvolves, ProgressGood, ProgressEvolves, MarkersExact;
    ghost var w := WorldOf(repo, publisher, relay);
    OutboxEvolvesReflexive(w.outbox);
    EndedWithout(w.progress, ask);
    ClosesReflexive(repo.turns);
    var ok := DiscardPending(repo, publisher, relay, ask);
    ghost var x := WorldOf(repo, publisher, relay);
    assert x.outbox == w.outbox;
    if !ok {
      return Aborted;
    }
    outcome := CloseTurn(repo, publisher, relay, turn, ask, Posted);
    EvolvesTransitive(w, x, WorldOf(repo, publisher, relay));
  }

  /** Progress of this ask is over, and nothing of it waits. */
  predicate Quieted(posts: map<AskId, ProgressPost>, ask: AskId) {
    ask in posts ==> posts[ask].ended && posts[ask].pending.None?
  }

  lemma ClosesReflexive(turns: seq<Turn>)
    ensures Closes(turns, turns)
  {
  }

  lemma EndedWithout(v: View, ask: AskId)
    requires ProgressGood(v)
    ensures ask in v.posts && v.posts[ask].ended ==> v.posts[ask].pending.None?
  {
  }

  // ---- an occupant's final ----

  /** At most the row of `key` changed. */
  ghost predicate RowOnly(a: map<Key, Attempt>, b: map<Key, Attempt>, key: Key) {
    && a.Keys <= b.Keys <= a.Keys + {key}
    && forall k :: k in a && k != key ==> b[k] == a[k]
  }

  /** The answer of this ask was given up. */
  predicate AbandonedIn(attempts: map<Key, Attempt>, ask: AskId) {
    Ask(ask) in attempts && attempts[Ask(ask)].abandonedAt.Some?
  }

  ghost predicate NoneAbandoned(a: map<Key, Attempt>, b: map<Key, Attempt>) {
    forall ask :: AbandonedIn(b, ask) ==> AbandonedIn(a, ask)
  }

  /** The thread root a reply of this turn carries. */
  function TurnRoot(turn: Turn, indexed: map<EventId, IndexedEvent>): Option<EventId> {
    if turn.publishReplyTo.Some? then RootOf(indexed, turn.publishReplyTo.value) else None
  }

  /** The attempt a final is recorded as: a prepared payload is frozen, an unprepared one follows the newest final. */
  function FinalAttempt(stored: Option<Attempt>, turn: Turn, body: Option<string>, mention: string, root: Option<EventId>): Attempt {
    var a := stored.GetOr(Attempt(body.GetOr(""), turn.session.channel, turn.publishReplyTo, root, mention,
                                  None, None, None, false, Some(turn.session.bot), 0, None, None));
    if !Mutable(a) then a
    else a.(body := body.GetOr(a.body), channel := turn.session.channel, replyTo := turn.publishReplyTo, root := root,
            mention := if body.Some? then mention else a.mention)
  }

  /** What is sent for a final: the recorded event again, or the newest body as the bot publishes it,
      in reply to the trigger and in its thread. */
  lemma FinalPayload(v: OutboxView, ask: AskId, turn: Turn, body: string, mention: string)
    requires OutboxGood(v) && ReadFrom(v.turns, ask, turn)
    ensures var stored := Lookup(v.attempts, Ask(ask));
            var sent := PayloadOf(ToPublish(FinalAttempt(stored, turn, Some(body), mention, TurnRoot(turn, v.indexed)), turn.session.bot));
            && (stored.Some? && stored.value.prepared.Some? ==> sent == PayloadOf(stored.value))
            && (stored.None? || Mutable(stored.value) ==>
                  sent == Payload(Stamp(body, OutboundPrefix(turn.session.bot)), turn.session.channel, turn.publishReplyTo,
                                  TurnRoot(turn, v.indexed), mention))
  {
  }

  lemma FinalAttemptGood(v: OutboxView, ask: AskId, turn: Turn, body: Option<string>, mention: string)
    requires OutboxGood(v) && ReadFrom(v.turns, ask, turn)
    ensures var a := FinalAttempt(Lookup(v.attempts, Ask(ask)), turn, body, mention, TurnRoot(turn, v.indexed));
            && AttemptGood(Ask(ask), a, v.turns, v.indexed, v.sign)
            && (Ask(ask) in v.attempts ==>
                  && AttemptEvolves(v.attempts[Ask(ask)], a) && a.abandonedAt == v.attempts[Ask(ask)].abandonedAt
                  && a.outbound == v.attempts[Ask(ask)].outbound && Legacy(a) == Legacy(v.attempts[Ask(ask)]))
            && (Ask(ask) !in v.attempts ==> !Closed(a) && !Legacy(a))
            && a.retryCount == CountOf(v.attempts, Ask(ask))
            && MergedAttempt(Lookup(v.attempts, Ask(ask)), a) == a
            && (a.outbound.Some? ==> AcceptedBy(v.sent, Ask(ask), a.outbound.value) && Reserved(v.turns, ask))
            && (a.bot.Some? ==> a.bot.value == turn.session.bot)
  {
    if Ask(ask) in v.attempts { StoredAttemptGood(v, Ask(ask)); }
  }

  /** What the sends of one call mean for the turn it answers. */
  ghost predicate FinalOutcome(before: OutboxView, after: OutboxView, ask: AskId, outcome: Outcome) {
    && OfAsk(after.turns, ask).Some?
    && (outcome.Ack? ==> Terminal(RowOf(after.turns, ask).state))
    && before.sent <= after.sent && |after.sent| <= |before.sent| + 1
    && (|after.sent| == |before.sent| ==> outcome.Ack? || outcome.Aborted?)
    && (|after.sent| > |before.sent| ==>
          && after.sent[|before.sent|].purpose == ForAttempt(Ask(ask))
          && CarriesCount(after.sent[|before.sent|], CountOf(before.attempts, Ask(ask)))
          && match after.sent[|before.sent|].verdict
             case Accepted => outcome.Aborted? || (outcome.Ack? && RowOf(after.turns, ask).state.Posted?)
             case Rejected => outcome.Aborted? || (outcome.Ack? && RowOf(after.turns, ask).state.Failed?)
             case NotAccepted => outcome.Aborted? || (outcome.PublishFailed? && RowOf(after.turns, ask).state.Open? && !Decided(after.attempts, Ask(ask))))
  }

  lemma ClaimedRow(turns: seq<Turn>, ask: AskId)
    requires TurnsGood(turns) && OfAsk(turns, ask).Some?
    ensures var after := WithClaim(turns, ask, true);
            && OfAsk(after, ask) == OfAsk(turns, ask)
            && RowOf(after, ask) == RowOf(turns, ask).(claimed := RowOf(after, ask).claimed)
            && (RowOf(turns, ask).state.Open? ==> RowOf(after, ask).claimed)
            && (!RowOf(turns, ask).state.Open? ==> after == turns && Terminal(RowOf(turns, ask).state))
  {
    WithClaimStep(turns, ask, true);
    OfAskStable(turns, WithClaim(turns, ask, true), ask);
    assert RowGood(turns[OfAsk(turns, ask).value]);
  }

  lemma ReleasedRow(turns: seq<Turn>, ask: AskId)
    requires TurnsGood(turns) && OfAsk(turns, ask).Some?
    ensures var after := WithClaim(turns, ask, false);
            OfAsk(after, ask) == OfAsk(turns, ask) && RowOf(after, ask).state == RowOf(turns, ask).state
  {
    WithClaimStep(turns, ask, false);
    OfAskStable(turns, WithClaim(turns, ask, false), ask);
  }

  /** Claims are invisible to the marker. */
  lemma ClaimKeepsMarkers(turns: seq<Turn>, ask: AskId, to: bool, marked: set<EventId>)
    requires MarkersExact(turns, marked)
    ensures MarkersExact(WithClaim(turns, ask, to), marked)
  {
  }

  method SaveAccepted(repo: Repository, ghost publisher: Publisher, ghost relay: Relay, key: Key, id: EventId) returns (ok: bool)
    requires HostGood(repo, publisher, relay)
    requires key in repo.attempts && repo.attempts[key].outbound.None? && repo.attempts[key].prepared == Some(id)
    requires AcceptedBy(publisher.sent, key, id) && (key.Ask? ==> Reserved(repo.turns, key.ask))
    modifies repo`attempts, repo`failures
    ensures old(repo.failures) + Misses(ok) <= repo.failures
    ensures HostGood(repo, publisher, relay)
    ensures Evolves(old(WorldOf(repo, publisher, relay)), WorldOf(repo, publisher, relay))
    ensures repo.attempts == old(repo.attempts)[key := old(repo.attempts[key]).(outbound := Some(id))]
            || (!ok && repo.attempts == old(repo.attempts))
  {
    hide OutboxGood, OutboxEvolves, ProgressGood, ProgressEvolves;
    ghost var w := WorldOf(repo, publisher, relay);
    EvolvesReflexive(w);
    StoredAttemptGood(w.outbox, key);
    ghost var b := repo.attempts[key].(outbound := Some(id));
    AttemptStep(w.outbox, key, b);
    AttemptOutside(w, key, b);
    var changed: bool;
    ok, changed := repo.MarkOutboundAccepted(key, id);
    assert repo.attempts == w.outbox.attempts[key := b] ==>
             WorldOf(repo, publisher, relay) == World(w.outbox.(attempts := w.outbox.attempts[key := b]), w.progress.(attempts := w.outbox.attempts[key := b]));
    assert repo.attempts == w.outbox.attempts ==> WorldOf(repo, publisher, relay) == w;
  }

  /** Reserve the turn, then send: a cancel that won the race leaves nothing to send. */
  method ClaimAndSend(repo: Repository, publisher: Publisher, ghost relay: Relay, turn: Turn, ask: AskId, now: int)
    returns (outcome: Outcome)
    requires HostGood(repo, publisher, relay) && ReadFrom(repo.turns, ask, turn)
    requires Ask(ask) in repo.attempts && !Closed(repo.attempts[Ask(ask)]) && !Legacy(repo.attempts[Ask(ask)])
    requires repo.attempts[Ask(ask)].bot.Some? ==> repo.attempts[Ask(ask)].bot.value == turn.session.bot
    modifies repo`turns, repo`attempts, repo`posts, publisher`sent, publisher`marked, repo`failures
    ensures old(repo.failures) + Misses(!outcome.Aborted?) <= repo.failures
    ensures HostGood(repo, publisher, relay)
    ensures Evolves(old(WorldOf(repo, publisher, relay)), WorldOf(repo, publisher, relay))
    ensures Closes(old(repo.turns), repo.turns)
    ensures AbandonedIn(repo.attempts, ask) ==> AbandonedIn(old(repo.attempts), ask)
    ensures FinalOutcome(old(WorldOf(repo, publisher, relay).outbox), WorldOf(repo, publisher, relay).outbox, ask, outcome)
    ensures Ask(ask) in repo.attempts && RowOnly(old(repo.attempts), repo.attempts, Ask(ask))
    ensures |publisher.sent| > |old(publisher.sent)| ==>
              publisher.sent[|old(publisher.sent)|].payload == PayloadOf(ToPublish(old(repo.attempts[Ask(ask)]), turn.session.bot))
    ensures outcome.Ack? && |publisher.sent| > |old(publisher.sent)| && publisher.sent[|old(publisher.sent)|].verdict.Accepted? ==>
              Quieted(repo.posts, ask)
    ensures !RowOf(old(repo.turns), ask).state.Open? ==> publisher.sent == old(publisher.sent)
    ensures RowOf(old(repo.turns), ask).state.Open? && !outcome.Aborted? ==>
              |publisher.sent| > |old(publisher.sent)| || RowOf(repo.turns, ask).state.Failed?
    ensures RowOf(old(repo.turns), ask).state.Open? && !outcome.Aborted? && MarkersExact(old(repo.turns), old(publisher.marked)) ==>
              MarkersExact(repo.turns, publisher.marked)
  {
    hide OutboxGood, OutboxEvolves, ProgressGood, ProgressEvolves, MarkersExact, Closes, TurnsGood, OfAsk, First,
         WithState, WithClaim, CanSet;
    ghost var w := WorldOf(repo, publisher, relay);
    TurnsOf(w.outbox);
    ClaimedRow(repo.turns, ask);
    if MarkersExact(repo.turns, publisher.marked) { ClaimKeepsMarkers(repo.turns, ask, true, publisher.marked); }
    var ok, claimed := SetClaim(repo, publisher, relay, ask, true);
    if !ok {
      return Aborted;
    }
    var stillOpen := RowOf(repo.turns, ask).state.Open?;
    if !claimed && !stillOpen {
      if turn.publishReplyTo.Some? {
        publisher.RemoveMarker(turn.publishReplyTo.value);
      }
      return Ack;
    }

    ghost var x := WorldOf(repo, publisher, relay);
    outcome := SendClaimed(repo, publisher, relay, turn, ask, now);
    EvolvesTransitive(w, x, WorldOf(repo, publisher, relay));
    ClosesTransitive(w.outbox.turns, x.outbox.turns, repo.turns);
  }

  /** What became of the send is what the call reports. */
  lemma FinalSent(w: OutboxView, x: OutboxView, y: OutboxView, ask: AskId, send: SendOutcome, outcome: Outcome)
    requires SentOnce(w, x, Ask(ask)) && y.sent == x.sent && OfAsk(y.turns, ask).Some?
    requires x.sent != w.sent ==> OutcomeMatches(send, x.sent[|w.sent|].verdict)
    requires x.sent == w.sent ==> send.PrepareFailed? || send.SendAborted?
    requires var row := RowOf(y.turns, ask);
             match send
             case SendAborted => outcome.Aborted?
             case SentRetry => outcome.PublishFailed? && row.state.Open? && y.attempts == x.attempts
             case SentAccepted(_) => outcome.Aborted? || (outcome.Ack? && row.state.Posted?)
             case _ => outcome.Aborted? || (outcome.Ack? && row.state.Failed?)
    ensures FinalOutcome(w, y, ask, outcome)
    ensures !outcome.Aborted? ==> |y.sent| > |w.sent| || RowOf(y.turns, ask).state.Failed?
  {
    hide OfAsk, First;
  }

  /** The turn is open and claimed: send its final and record what became of it. */
  method SendClaimed(repo: Repository, publisher: Publisher, ghost relay: Relay, turn: Turn, ask: AskId, now: int)
    returns (outcome: Outcome)
    requires HostGood(repo, publisher, relay) && ReadFrom(repo.turns, ask, turn)
    requires Sendable(WorldOf(repo, publisher, relay).outbox, Ask(ask), turn.session.bot)
    modifies repo`turns, repo`attempts, repo`posts, publisher`sent, publisher`marked, repo`failures
    ensures old(repo.failures) + Misses(!outcome.Aborted?) <= repo.failures
    ensures HostGood(repo, publisher, relay)
    ensures Evolves(old(WorldOf(repo, publisher, relay)), WorldOf(repo, publisher, relay))
    ensures Closes(old(repo.turns), repo.turns)
    ensures AbandonedIn(repo.attempts, ask) ==> AbandonedIn(old(repo.attempts), ask)
    ensures FinalOutcome(old(WorldOf(repo, publisher, relay).outbox), WorldOf(repo, publisher, relay).outbox, ask, outcome)
    ensures Ask(ask) in repo.attempts && RowOnly(old(repo.attempts), repo.attempts, Ask(ask))
    ensures |publisher.sent| > |old(publisher.sent)| ==>
              publisher.sent[|old(publisher.sent)|].payload == PayloadOf(ToPublish(old(repo.attempts[Ask(ask)]), turn.session.bot))
    ensures outcome.Ack? && |publisher.sent| > |old(publisher.sent)| && publisher.sent[|old(publisher.sent)|].verdict.Accepted? ==>
              Quieted(repo.posts, ask)
    ensures !outcome.Aborted? ==> |publisher.sent| > |old(publisher.sent)| || RowOf(repo.turns, ask).state.Failed?
    ensures !outcome.Aborted? && MarkersExact(old(repo.turns), old(publisher.marked)) ==> MarkersExact(repo.turns, publisher.marked)
  {
    hide OutboxGood, OutboxEvolves, ProgressGood, ProgressEvolves, MarkersExact, Closes, TurnsGood, AcceptedBy, FinalOutcome,
         TurnsBacked, OfAsk, First, WithState, WithClaim, CanSet, CanClaim;
    ghost var w := WorldOf(repo, publisher, relay);
    ClosesReflexive(repo.turns);
    var send := RecordAndSend(repo, publisher, relay, Ask(ask), turn.session.bot, now);
    ghost var x := WorldOf(repo, publisher, relay);
    TurnsOf(x.outbox);
    EvolvesReflexive(x);
    if send.SendAborted? {
      outcome := Aborted;
    } else if send.SentRetry? {
      ReleasedRow(repo.turns, ask);
      if MarkersExact(repo.turns, publisher.marked) { ClaimKeepsMarkers(repo.turns, ask, false, publisher.marked); }
      var ok, changed := SetClaim(repo, publisher, relay, ask, false);
      outcome := PublishFailed;
    } else if send.SentAccepted? {
      outcome := RecordAccepted(repo, publisher, relay, turn, ask, send.id);
    } else {
      outcome := CloseTurn(repo, publisher, relay, turn, ask, Failed);
    }
    AskKept(x.outbox.turns, repo.turns, ask);
    FinalSent(w.outbox, x.outbox, WorldOf(repo, publisher, relay).outbox, ask, send, outcome);
    EvolvesTransitive(w, x, WorldOf(repo, publisher, relay));
  }

  /** The relay took the final: store the accepted id, then post the turn. */
  method RecordAccepted(repo: Repository, publisher: Publisher, ghost relay: Relay, turn: Turn, ask: AskId, id: EventId)
    returns (outcome: Outcome)
    requires HostGood(repo, publisher, relay) && ReadFrom(repo.turns, ask, turn)
    requires Ask(ask) in repo.attempts && repo.attempts[Ask(ask)].outbound.None? && repo.attempts[Ask(ask)].prepared == Some(id)
    requires AcceptedBy(publisher.sent, Ask(ask), id) && Reserved(repo.turns, ask)
    modifies repo`turns, repo`attempts, repo`posts, publisher`marked, repo`failures
    ensures old(repo.failures) + Misses(!outcome.Aborted?) <= repo.failures
    ensures HostGood(repo, publisher, relay)
    ensures Evolves(old(WorldOf(repo, publisher, relay)), WorldOf(repo, publisher, relay))
    ensures Closes(old(repo.turns), repo.turns)
    ensures AbandonedIn(repo.attempts, ask) ==> AbandonedIn(old(repo.attempts), ask)
    ensures repo.attempts == old(repo.attempts)[Ask(ask) := old(repo.attempts[Ask(ask)]).(outbound := Some(id))]
            || (outcome.Aborted? && repo.attempts == old(repo.attempts))
    ensures outcome.Ack? || outcome.Aborted?
    ensures outcome.Ack? ==>
              && OfAsk(repo.turns, ask).Some? && Terminal(RowOf(repo.turns, ask).state)
              && (RowOf(old(repo.turns), ask).state.Open? ==> RowOf(repo.turns, ask).state.Posted?)
              && Quieted(repo.posts, ask)
    ensures outcome.Ack? && RowOf(old(repo.turns), ask).state.Open? && MarkersExact(old(repo.turns), old(publisher.marked)) ==>
              MarkersExact(repo.turns, publisher.marked)
  {
    hide OutboxGood, OutboxEvolves, ProgressGood, ProgressEvolves, MarkersExact, Closes;
    ghost var w := WorldOf(repo, publisher, relay);
    ClosesReflexive(repo.turns);
    var ok := SaveAccepted(repo, publisher, relay, Ask(ask), id);
    if !ok {
      return Aborted;
    }

    ghost var x := WorldOf(repo, publisher, relay);
    outcome := MarkPosted(repo, publisher, relay, turn, ask);
    EvolvesTransitive(w, x, WorldOf(repo, publisher, relay));
  }

  lemma AskKept(a: seq<Turn>, b: seq<Turn>, ask: AskId)
    requires TurnsGood(a) && OfAsk(a, ask).Some? && Closes(a, b)
    ensures OfAsk(b, ask).Some?
  {
  }

  /** Finish publish of a turn; `body` is None when the stored attempt is retried. */
  method CompleteOutbound(repo: Repository, publisher: Publisher, ghost relay: Relay, turn: Turn, ask: AskId,
                          body: Option<string>, mention: string, now: int) returns (outcome: Outcome)
    requires HostGood(repo, publisher, relay) && ReadFrom(repo.turns, ask, turn)
    modifies repo`turns, repo`attempts, repo`posts, publisher`sent, publisher`marked, repo`failures
    ensures old(repo.failures) + Misses(!outcome.Aborted?) <= repo.failures
    ensures HostGood(repo, publisher, relay)
    ensures Evolves(old(WorldOf(repo, publisher, relay)), WorldOf(repo, publisher, relay))
    ensures Closes(old(repo.turns), repo.turns)
    ensures AbandonedIn(repo.attempts, ask) ==> AbandonedIn(old(repo.attempts), ask)
    ensures FinalOutcome(old(WorldOf(repo, publisher, relay).outbox), WorldOf(repo, publisher, relay).outbox, ask, outcome)
    ensures Ask(ask) in repo.attempts || outcome.Aborted?
    ensures RowOnly(old(repo.attempts), repo.attempts, Ask(ask))
    ensures |publisher.sent| > |old(publisher.sent)| ==>
              publisher.sent[|old(publisher.sent)|].payload
              == PayloadOf(ToPublish(FinalAttempt(Lookup(old(repo.attempts), Ask(ask)), turn, body, mention, TurnRoot(turn, repo.indexed)), turn.session.bot))
    ensures outcome.Ack? && |publisher.sent| > |old(publisher.sent)| && publisher.sent[|old(publisher.sent)|].verdict.Accepted? ==>
              Quieted(repo.posts, ask)
    ensures !RowOf(old(repo.turns), ask).state.Open? ==> publisher.sent == old(publisher.sent)
    ensures RowOf(old(repo.turns), ask).state.Open? && !Decided(old(repo.attempts), Ask(ask))
            && (Ask(ask) in old(repo.attempts) ==> !Legacy(old(repo.attempts[Ask(ask)]))) && !outcome.Aborted? ==>
              |publisher.sent| > |old(publisher.sent)| || RowOf(repo.turns, ask).state.Failed?
    ensures RowOf(old(repo.turns), ask).state.Open? && !outcome.Aborted? && MarkersExact(old(repo.turns), old(publisher.marked)) ==>
              MarkersExact(repo.turns, publisher.marked)
  {
    hide OutboxGood, OutboxEvolves, ProgressGood, ProgressEvolves, AttemptGood, AttemptEvolves, MarkersExact,
         MergedAttempt, Closes, FinalAttempt, TurnsGood, AcceptedBy, OfAsk, First, WithState, CancelsOnly, ToPublish;
    ghost var w := WorldOf(repo, publisher, relay);
    FinalAttemptGood(w.outbox, ask, turn, body, mention);
    var attempt := FinalAttempt(Lookup(repo.attempts, Ask(ask)), turn, body, mention, TurnRoot(turn, repo.indexed));
    var ok := SaveAttempt(repo, publisher, relay, Ask(ask), attempt);
    ghost var x := WorldOf(repo, publisher, relay);
    ClosesReflexive(repo.turns);
    if !ok {
      return Aborted;
    }
    if attempt.abandonedAt.Some? {
      outcome := CloseTurn(repo, publisher, relay, turn, ask, Failed);
    } else if attempt.outbound.Some? {
      outcome := MarkPosted(repo, publisher, relay, turn, ask);
    } else if Legacy(attempt) {
      outcome := CloseTurn(repo, publisher, relay, turn, ask, Failed);
    } else {
      outcome := ClaimAndSend(repo, publisher, relay, turn, ask, now);
    }
    TurnsOf(w.outbox);
    AskKept(w.outbox.turns, repo.turns, ask);
    EvolvesTransitive(w, x, WorldOf(repo, publisher, relay));
  }
}
