/**
 Initiated publishes: an occupant's tell, and the resend of any attempt that has no turn.
 A tell is acknowledged only when its attempt is decided.
 */
module OutboxTells {
  import opened Wrappers
  import opened Stamping
  import opened HostStore
  import opened RelayPublisher
  import opened ProgressRelay
  import opened ProgressTheory
  import opened Progress
  import opened OutboxTheory
  import opened Outbox

  /** One step of the publish path: rows move forward, and no turn is added or opened. */
  ghost predicate Advances(a: World, b: World) {
    Evolves(a, b) && Closes(a.outbox.turns, b.outbox.turns)
  }

  lemma AdvancesReflexive(a: World)
    ensures Advances(a, a)
  {
  }

  lemma AdvancesTransitive(a: World, b: World, c: World)
    requires Advances(a, b) && Advances(b, c)
    ensures Advances(a, c)
  {
    hide Evolves, Closes;
    EvolvesTransitive(a, b, c);
    ClosesTransitive(a.outbox.turns, b.outbox.turns, c.outbox.turns);
  }

  /** What one call did to an attempt that answers no turn: it was decided, or sent once and must be retried. */
  ghost predicate TellOutcome(before: OutboxView, after: OutboxView, key: Key, outcome: Outcome) {
    && after.turns == before.turns
    && RowOnly(before.attempts, after.attempts, key)
    && before.sent <= after.sent && |after.sent| <= |before.sent| + 1
    && !outcome.Hold?
    && (outcome.Ack? ==> key in after.attempts && (Closed(after.attempts[key]) || (Legacy(after.attempts[key]) && after.sent == before.sent)))
    && (outcome.PublishFailed? ==> key in after.attempts && !Closed(after.attempts[key]) && |after.sent| == |before.sent| + 1)
    && (|after.sent| > |before.sent| ==>
          && after.sent[|before.sent|].purpose == ForAttempt(key)
          && key in after.attempts && CarriesCount(after.sent[|before.sent|], CountOf(before.attempts, key))
          && match after.sent[|before.sent|].verdict
             case Accepted => outcome.Aborted? || (outcome.Ack? && after.attempts[key].outbound == Some(after.sent[|before.sent|].id))
             case Rejected => outcome.Aborted? || (outcome.Ack? && after.attempts[key].outbound.None?)
             case NotAccepted => outcome.Aborted? || outcome.PublishFailed?)
  }

  /** The row a terminal failure leaves. */
  function Stopped(a: Attempt, bot: BotId, now: int): Attempt {
    ToPublish(a, bot).(abandonedAt := Some(now))
  }

  lemma StoppedGood(v: OutboxView, key: Key, bot: BotId, now: int)
    requires OutboxGood(v) && Sendable(v, key, bot)
    ensures var b := Stopped(v.attempts[key], bot, now);
            && AttemptGood(key, b, v.turns, v.indexed, v.sign) && AttemptEvolves(v.attempts[key], b)
            && MergedAttempt(Some(v.attempts[key]), b) == b && b.outbound.None?
  {
  }

  /** `stop_tell_retries`. */
  method StopTellRetries(repo: Repository, ghost publisher: Publisher, ghost relay: Relay, key: Key, bot: BotId, now: int)
    returns (ok: bool)
    requires HostGood(repo, publisher, relay) && Sendable(WorldOf(repo, publisher, relay).outbox, key, bot)
    modifies repo`attempts, repo`failures
    ensures old(repo.failures) + Misses(ok) <= repo.failures
    ensures HostGood(repo, publisher, relay)
    ensures Evolves(old(WorldOf(repo, publisher, relay)), WorldOf(repo, publisher, relay))
    ensures repo.attempts == old(repo.attempts)[key := Stopped(old(repo.attempts[key]), bot, now)]
            || (!ok && repo.attempts == old(repo.attempts))
    ensures ok ==> Closed(repo.attempts[key]) && repo.attempts[key].outbound.None?
  {
    hide OutboxGood, OutboxEvolves, ProgressGood, ProgressEvolves, AttemptGood, AttemptEvolves;
    StoppedGood(WorldOf(repo, publisher, relay).outbox, key, bot, now);
    ok := SaveAttempt(repo, publisher, relay, key, Stopped(repo.attempts[key], bot, now));
  }

  /** Send an undecided attempt that answers no turn, and decide it unless the send may be repeated. */
  method SendTell(repo: Repository, publisher: Publisher, ghost relay: Relay, key: Key, bot: BotId, now: int)
    returns (outcome: Outcome)
    requires HostGood(repo, publisher, relay) && !key.Ask?
    requires Sendable(WorldOf(repo, publisher, relay).outbox, key, bot)
    modifies repo`attempts, publisher`sent, repo`failures
    ensures old(repo.failures) + Misses(!outcome.Aborted?) <= repo.failures
    ensures HostGood(repo, publisher, relay)
    ensures Advances(old(WorldOf(repo, publisher, relay)), WorldOf(repo, publisher, relay))
    ensures TellOutcome(old(WorldOf(repo, publisher, relay).outbox), WorldOf(repo, publisher, relay).outbox, key, outcome)
    ensures outcome.Ack? ==> Closed(repo.attempts[key])
    ensures |publisher.sent| > |old(publisher.sent)| ==>
              publisher.sent[|old(publisher.sent)|].payload == PayloadOf(ToPublish(old(repo.attempts[key]), bot))
  {
    hide OutboxGood, OutboxEvolves, ProgressGood, ProgressEvolves, AttemptGood, AttemptEvolves, AcceptedBy, Closes,
         OfAsk, First, PayloadOf, ToPublish, Stopped;
    ghost var w := WorldOf(repo, publisher, relay);
    ClosesReflexive(repo.turns);
    var send := RecordAndSend(repo, publisher, relay, key, bot, now);
    ghost var x := WorldOf(repo, publisher, relay);
    EvolvesReflexive(x);
    if send.SendAborted? {
      outcome := Aborted;
    } else if send.SentRetry? {
      outcome := PublishFailed;
    } else {
      var ok: bool;
      if send.SentAccepted? {
        ok := SaveAccepted(repo, publisher, relay, key, send.id);
      } else {
        if send.SentRejected? { SentSendable(w.outbox, x.outbox, key, bot); }
        ok := StopTellRetries(repo, publisher, relay, key, bot, now);
      }
      outcome := if ok then Ack else Aborted;
    }
    EvolvesTransitive(w, x, WorldOf(repo, publisher, relay));
  }

  /** A prepared, undecided attempt stays sendable by its bot. */
  lemma SentSendable(v: OutboxView, w: OutboxView, key: Key, bot: BotId)
    requires Sendable(v, key, bot) && SentOnce(v, w, key) && w.sent != v.sent && OutboxGood(w) && OutboxEvolves(v, w) && !key.Ask?
    requires w.attempts[key].bot == Some(bot)
    ensures Sendable(w, key, bot)
  {
  }

  /** The attempt a tell is recorded as. */
  function TellAttempt(stored: Option<Attempt>, bot: BotId, channel: string, body: string, mention: string): Attempt {
    var a := stored.GetOr(Attempt(body, channel, None, None, "", None, None, None, false, Some(bot), 0, None, None));
    if Mutable(a) then a.(body := body, channel := channel, replyTo := None, root := None, mention := mention) else a
  }

  /** What is sent for a tell: the recorded event again, or the newest body as a top-level message of its channel. */
  lemma TellPayload(v: OutboxView, bot: BotId, message: nat, channel: string, body: string, mention: string)
    requires OutboxGood(v)
    ensures var stored := Lookup(v.attempts, Tell(bot, message));
            var sent := PayloadOf(ToPublish(TellAttempt(stored, bot, channel, body, mention), bot));
            && (stored.Some? && stored.value.prepared.Some? ==> sent == PayloadOf(stored.value))
            && (stored.None? || Mutable(stored.value) ==> sent == Payload(Stamp(body, OutboundPrefix(bot)), channel, None, None, mention))
  {
  }

  lemma TellAttemptGood(v: OutboxView, bot: BotId, message: nat, channel: string, body: string, mention: string)
    requires OutboxGood(v)
    ensures var key := Tell(bot, message);
            var a := TellAttempt(Lookup(v.attempts, key), bot, channel, body, mention);
            && AttemptGood(key, a, v.turns, v.indexed, v.sign)
            && (key in v.attempts ==> AttemptEvolves(v.attempts[key], a))
            && MergedAttempt(Lookup(v.attempts, key), a) == a
            && (a.outbound.Some? ==> AcceptedBy(v.sent, key, a.outbound.value))
            && (a.bot.Some? ==> a.bot.value == bot)
  {
  }

  /** Record a screened tell, and send it unless it is decided. */
  method PublishInitiated(repo: Repository, publisher: Publisher, ghost relay: Relay, bot: BotId, message: nat, channel: string,
                          body: string, mention: string, now: int) returns (outcome: Outcome)
    requires HostGood(repo, publisher, relay)
    modifies repo`attempts, publisher`sent, repo`failures
    ensures old(repo.failures) + Misses(!outcome.Aborted?) <= repo.failures
    ensures HostGood(repo, publisher, relay)
    ensures Advances(old(WorldOf(repo, publisher, relay)), WorldOf(repo, publisher, relay))
    ensures TellOutcome(old(WorldOf(repo, publisher, relay).outbox), WorldOf(repo, publisher, relay).outbox, Tell(bot, message), outcome)
    ensures Decided(old(repo.attempts), Tell(bot, message)) && !outcome.Aborted? ==> outcome.Ack? && publisher.sent == old(publisher.sent)
    ensures Tell(bot, message) !in old(repo.attempts) && outcome.Ack? ==> Closed(repo.attempts[Tell(bot, message)])
    ensures |publisher.sent| > |old(publisher.sent)| ==>
              publisher.sent[|old(publisher.sent)|].payload
              == PayloadOf(ToPublish(TellAttempt(Lookup(old(repo.attempts), Tell(bot, message)), bot, channel, body, mention), bot))
  {
    hide OutboxGood, OutboxEvolves, ProgressGood, ProgressEvolves, AttemptGood, AttemptEvolves, AcceptedBy, Closes,
         MergedAttempt, OfAsk, First;
    ghost var w := WorldOf(repo, publisher, relay);
    ClosesReflexive(repo.turns);
    var key := Tell(bot, message);
    TellAttemptGood(w.outbox, bot, message, channel, body, mention);
    var attempt := TellAttempt(Lookup(repo.attempts, key), bot, channel, body, mention);
    var ok := SaveAttempt(repo, publisher, relay, key, attempt);
    ghost var x := WorldOf(repo, publisher, relay);
    if !ok {
      return Aborted;
    }
    EvolvesReflexive(x);
    if Closed(attempt) || Legacy(attempt) {
      outcome := Ack;
    } else {
      outcome := SendTell(repo, publisher, relay, key, bot, now);
    }
    AdvancesTransitive(w, x, WorldOf(repo, publisher, relay));
  }
}
