/**
 What is true of outbound attempts between any two durable writes, how they may change
 over a run, and one lemma for every kind of change.
 */
module OutboxTheory {
  import opened Wrappers
  import opened Stamping
  import opened HostStore
  import opened RelayPublisher

  /** Drain retries after the first send, and the seconds between two of them. */
  const RETRY_CAP := 30
  const RETRY_INTERVAL_SECS := 10

  datatype OutboxView = OutboxView(
    turns: seq<Turn>, attempts: map<Key, Attempt>, indexed: map<EventId, IndexedEvent>, sent: seq<Send>,
    sign: (Payload, int) -> EventId)

  function PayloadOf(a: Attempt): Payload {
    Payload(a.body, a.channel, a.replyTo, a.root, a.mention)
  }

  /** Nothing of this attempt can have reached the relay yet. */
  predicate Mutable(a: Attempt) {
    a.outbound.None? && a.prepared.None? && !a.dispatched
  }

  /** Recorded before prepared ids existed: a send may have landed and must not be repeated. */
  predicate Legacy(a: Attempt) {
    a.dispatched && a.prepared.None?
  }

  /** The attempt is decided: no path sends it again. */
  predicate Closed(a: Attempt) {
    a.outbound.Some? || a.abandonedAt.Some?
  }

  // ---- the invariant ----

  /** Where an attempt comes from; an unprepared one still answers what its origin answers. */
  predicate OriginGood(key: Key, a: Attempt, turns: seq<Turn>, indexed: map<EventId, IndexedEvent>) {
    match key
    case Ask(ask) =>
      && OfAsk(turns, ask).Some? && var t := turns[OfAsk(turns, ask).value];
      && (a.bot.Some? ==> a.bot.value == t.session.bot)
      && (Mutable(a) ==>
            && a.replyTo == t.publishReplyTo
            && (a.root.Some? ==> a.replyTo.Some? && RootOf(indexed, a.replyTo.value) == a.root))
    case Tell(bot, _) => (a.bot.Some? ==> a.bot.value == bot) && (Mutable(a) ==> a.root.None?)
    case FailureNotice(_) => true
  }

  predicate AttemptGood(key: Key, a: Attempt, turns: seq<Turn>, indexed: map<EventId, IndexedEvent>, sign: (Payload, int) -> EventId) {
    && (a.prepared.Some? <==> a.createdAt.Some?)
    && (a.prepared.Some? ==>
          && a.bot.Some? && a.body == Stamp(a.body, OutboundPrefix(a.bot.value))
          && a.prepared.value == sign(PayloadOf(a), a.createdAt.value))
    && (a.outbound.Some? ==> a.outbound == a.prepared)
    && 0 <= a.retryCount <= RETRY_CAP && (a.retryCount > 0 ==> a.lastRetryAt.Some?)
    && OriginGood(key, a, turns, indexed)
  }

  /** A send carries the one recorded event of an undecided attempt; a final was sent while its
      turn was open and claimed. */
  predicate SendBacked(e: Send, attempts: map<Key, Attempt>) {
    e.purpose.ForAttempt? ==>
      && e.purpose.key in attempts && var a := attempts[e.purpose.key];
      && a.prepared == Some(e.id) && PayloadOf(a) == e.payload
      && e.attempt.Some? && !Closed(e.attempt.value) && e.attempt.value.prepared == Some(e.id)
      && (e.purpose.key.Ask? ==> e.turn.Some? && e.turn.value.state.Open? && e.turn.value.claimed)
  }

  ghost predicate AcceptedBy(sent: seq<Send>, key: Key, id: EventId) {
    exists i :: 0 <= i < |sent| && sent[i].purpose == ForAttempt(key) && sent[i].id == id && sent[i].verdict.Accepted?
  }

  /** A posted turn's answer is on the relay under the id its attempt recorded; while a turn
      whose answer is on the relay is still open, it stays reserved. */
  predicate TurnBacked(t: Turn, attempts: map<Key, Attempt>) {
    && (t.state.Posted? ==> t.ask.Some? && Answered(attempts, t.ask.value))
    && (t.state.Open? && t.ask.Some? && Answered(attempts, t.ask.value) ==> t.claimed)
  }

  /** No cancel can win against this ask: its turn is reserved, or over, or not there. */
  predicate Reserved(turns: seq<Turn>, ask: AskId) {
    OfAsk(turns, ask).Some? ==> var t := turns[OfAsk(turns, ask).value]; t.state.Open? ==> t.claimed
  }

  ghost predicate AttemptsGood(attempts: map<Key, Attempt>, turns: seq<Turn>, indexed: map<EventId, IndexedEvent>, sign: (Payload, int) -> EventId) {
    forall key :: key in attempts ==> AttemptGood(key, attempts[key], turns, indexed, sign)
  }

  ghost predicate SendsBacked(sent: seq<Send>, attempts: map<Key, Attempt>) {
    forall i :: 0 <= i < |sent| ==> SendBacked(sent[i], attempts)
  }

  ghost predicate AcceptancesLogged(attempts: map<Key, Attempt>, sent: seq<Send>) {
    forall key :: key in attempts && attempts[key].outbound.Some? ==> AcceptedBy(sent, key, attempts[key].outbound.value)
  }

  ghost predicate TurnsBacked(turns: seq<Turn>, attempts: map<Key, Attempt>) {
    forall i :: 0 <= i < |turns| ==> TurnBacked(turns[i], attempts)
  }

  ghost predicate OutboxGood(v: OutboxView) {
    && TurnsGood(v.turns)
    && AttemptsGood(v.attempts, v.turns, v.indexed, v.sign)
    && SendsBacked(v.sent, v.attempts)
    && AcceptancesLogged(v.attempts, v.sent)
    && TurnsBacked(v.turns, v.attempts)
  }

  // ---- change over a run ----

  predicate AttemptEvolves(a: Attempt, b: Attempt) {
    && (a.prepared.Some? ==> b.prepared == a.prepared && b.createdAt == a.createdAt && PayloadOf(b) == PayloadOf(a))
    && (a.outbound.Some? ==> b.outbound == a.outbound)
    && (a.abandonedAt.Some? ==> b.abandonedAt == a.abandonedAt)
    && (a.bot.Some? ==> b.bot == a.bot)
    && a.retryCount <= b.retryCount
    && (a.retryCount == b.retryCount ==> a.lastRetryAt == b.lastRetryAt)
    && (a.lastRetryAt.Some? ==>
          b.lastRetryAt.Some? && b.lastRetryAt.value >= a.lastRetryAt.value + RETRY_INTERVAL_SECS * (b.retryCount - a.retryCount))
  }

  ghost predicate AttemptsKept(a: map<Key, Attempt>, b: map<Key, Attempt>) {
    forall key :: key in a ==> key in b && AttemptEvolves(a[key], b[key])
  }

  predicate Decided(attempts: map<Key, Attempt>, key: Key) {
    key in attempts && Closed(attempts[key])
  }

  /** New sends are only for attempts that were undecided. */
  ghost predicate SendsOpen(v: OutboxView, w: OutboxView) {
    forall i :: |v.sent| <= i < |w.sent| && w.sent[i].purpose.ForAttempt? ==> !Decided(v.attempts, w.sent[i].purpose.key)
  }

  /** `e` carries the final of this turn. */
  predicate FinalOf(e: Send, t: Turn) {
    e.purpose.ForAttempt? && e.purpose.key.Ask? && t.ask == Some(e.purpose.key.ask)
  }

  /** A turn that is over at `v` gets no final after `v`. */
  ghost predicate SendsLive(v: OutboxView, w: OutboxView) {
    forall i, k :: |v.sent| <= i < |w.sent| && 0 <= k < |v.turns| && FinalOf(w.sent[i], v.turns[k]) ==> !Terminal(v.turns[k].state)
  }

  ghost predicate OutboxEvolves(v: OutboxView, w: OutboxView) {
    && TurnsEvolve(v.turns, w.turns)
    && AttemptsKept(v.attempts, w.attempts)
    && v.sent <= w.sent && v.sign == w.sign
    && (forall e :: e in v.indexed ==> e in w.indexed && w.indexed[e] == v.indexed[e])
    && SendsOpen(v, w) && SendsLive(v, w)
  }

  lemma OutboxEvolvesReflexive(v: OutboxView)
    ensures OutboxEvolves(v, v)
  {
  }

  lemma OutboxEvolvesTransitive(u: OutboxView, v: OutboxView, w: OutboxView)
    requires OutboxEvolves(u, v) && OutboxEvolves(v, w)
    ensures OutboxEvolves(u, w)
  {
    TurnsEvolveTransitive(u.turns, v.turns, w.turns);
    forall key | key in u.attempts ensures key in w.attempts && AttemptEvolves(u.attempts[key], w.attempts[key]) {
      assert AttemptEvolves(u.attempts[key], v.attempts[key]) && AttemptEvolves(v.attempts[key], w.attempts[key]);
    }
    SendsLiveTransitive(u, v, w);
    forall key | Decided(u.attempts, key) ensures Decided(v.attempts, key) {
      assert AttemptEvolves(u.attempts[key], v.attempts[key]);
    }
    forall i | |u.sent| <= i < |w.sent| && w.sent[i].purpose.ForAttempt?
      ensures !Decided(u.attempts, w.sent[i].purpose.key)
    {
      if i < |v.sent| { assert w.sent[i] == v.sent[i]; }
    }
  }

  lemma SendsLiveTransitive(u: OutboxView, v: OutboxView, w: OutboxView)
    requires SendsLive(u, v) && SendsLive(v, w) && TurnsEvolve(u.turns, v.turns) && v.sent <= w.sent && u.sent <= v.sent
    ensures SendsLive(u, w)
  {
  }

  // ---- the steps ----

  lemma StoredAttemptGood(v: OutboxView, key: Key)
    requires OutboxGood(v) && key in v.attempts
    ensures AttemptGood(key, v.attempts[key], v.turns, v.indexed, v.sign)
    ensures v.attempts[key].outbound.Some? ==> AcceptedBy(v.sent, key, v.attempts[key].outbound.value)
  {
  }

  /** A row is inserted or moves forward. */
  lemma AttemptStep(v: OutboxView, key: Key, b: Attempt)
    requires OutboxGood(v) && AttemptGood(key, b, v.turns, v.indexed, v.sign)
    requires key in v.attempts ==> AttemptEvolves(v.attempts[key], b)
    requires b.outbound.Some? ==> AcceptedBy(v.sent, key, b.outbound.value)
    requires b.outbound.Some? && key.Ask? ==> Reserved(v.turns, key.ask)
    ensures OutboxGood(v.(attempts := v.attempts[key := b])) && OutboxEvolves(v, v.(attempts := v.attempts[key := b]))
  {
    hide AttemptGood;
    AttemptKept(v, key, b);
    forall i | 0 <= i < |v.sent| ensures SendBacked(v.sent[i], v.attempts[key := b]) {
      assert SendBacked(v.sent[i], v.attempts);
    }
    forall i | 0 <= i < |v.turns| ensures TurnBacked(v.turns[i], v.attempts[key := b]) {
      assert TurnBacked(v.turns[i], v.attempts);
    }
  }

  lemma AttemptKept(v: OutboxView, key: Key, b: Attempt)
    requires key in v.attempts ==> AttemptEvolves(v.attempts[key], b)
    ensures AttemptsKept(v.attempts, v.attempts[key := b])
  {
  }

  /** Turns move forward; a turn is posted only with its accepted answer. */
  lemma TurnStep(v: OutboxView, turns: seq<Turn>)
    requires OutboxGood(v) && TurnsGood(turns) && TurnsEvolve(v.turns, turns)
    requires TurnsBacked(turns, v.attempts)
    ensures OutboxGood(v.(turns := turns)) && OutboxEvolves(v, v.(turns := turns))
  {
    forall key | key in v.attempts ensures AttemptGood(key, v.attempts[key], turns, v.indexed, v.sign) {
      assert AttemptGood(key, v.attempts[key], v.turns, v.indexed, v.sign);
      if key.Ask? { OfAskStable(v.turns, turns, key.ask); }
    }
    AttemptsSame(v.attempts);
  }

  lemma AttemptsSame(attempts: map<Key, Attempt>)
    ensures AttemptsKept(attempts, attempts)
  {
  }

  /** One event joins the index. */
  lemma IndexStep(v: OutboxView, event: EventId, e: IndexedEvent)
    requires OutboxGood(v) && event !in v.indexed
    ensures OutboxGood(v.(indexed := v.indexed[event := e])) && OutboxEvolves(v, v.(indexed := v.indexed[event := e]))
  {
    var w := v.(indexed := v.indexed[event := e]);
    forall key | key in v.attempts ensures AttemptGood(key, w.attempts[key], w.turns, w.indexed, w.sign) {
      assert AttemptGood(key, v.attempts[key], v.turns, v.indexed, v.sign);
    }
    AttemptsSame(v.attempts);
  }

  /** An event is sent. */
  lemma SendStep(v: OutboxView, e: Send)
    requires OutboxGood(v) && SendBacked(e, v.attempts)
    requires e.purpose.ForAttempt? ==> !Decided(v.attempts, e.purpose.key) && e.turn == TurnRow(v.turns, AskOf(e.purpose))
    ensures OutboxGood(v.(sent := v.sent + [e])) && OutboxEvolves(v, v.(sent := v.sent + [e]))
    ensures e.purpose.ForAttempt? && e.verdict.Accepted? ==> AcceptedBy(v.sent + [e], e.purpose.key, e.id)
  {
    hide AttemptGood;
    AttemptsSame(v.attempts);
    SentLive(v, e);
    forall key | key in v.attempts && v.attempts[key].outbound.Some?
      ensures AcceptedBy(v.sent + [e], key, v.attempts[key].outbound.value)
    {
      AcceptedLonger(v.sent, e, key, v.attempts[key].outbound.value);
    }
    assert (v.sent + [e])[|v.sent|] == e;
  }

  lemma SentLive(v: OutboxView, e: Send)
    requires TurnsGood(v.turns) && SendBacked(e, v.attempts)
    requires e.purpose.ForAttempt? ==> e.turn == TurnRow(v.turns, AskOf(e.purpose))
    ensures SendsLive(v, v.(sent := v.sent + [e]))
  {
  }

  lemma AcceptedLonger(sent: seq<Send>, e: Send, key: Key, id: EventId)
    requires AcceptedBy(sent, key, id)
    ensures AcceptedBy(sent + [e], key, id)
  {
    var i :| 0 <= i < |sent| && sent[i].purpose == ForAttempt(key) && sent[i].id == id && sent[i].verdict.Accepted?;
    assert (sent + [e])[i] == sent[i];
  }
}
