/**
 Inbox deliveries: decide what one means for the turn it answers, do it, and only then
 answer Ack. An empty final leaves the obligation open.
 */
module Delivery {
  import opened Wrappers
  import opened Stamping
  import opened HostStore
  import opened RelayPublisher
  import opened ProgressPolicy
  import opened ProgressRelay
  import opened ProgressTheory
  import opened ProgressSteps
  import opened Progress
  import opened OutboxTheory
  import opened Outbox
  import opened OutboxTells

  datatype Kind = FinalReply | ProgressReply | OtherReply | NotAReply

  /** `ask` is the message the delivery answers, if it answers one. */
  datatype InboxDelivery = InboxDelivery(kind: Kind, ask: Option<AskId>, body: string)

  datatype Decision = AckWithoutPublish | HoldOpen | PublishFinal | RecordBody

  function Decide(kind: Kind, body: string, turn: Option<Turn>): Decision {
    if turn.None? then HoldOpen
    else if kind.ProgressReply? then RecordBody
    else if kind.NotAReply? then AckWithoutPublish
    else if kind.OtherReply? then HoldOpen
    else if Trim(body) == "" then
      if turn.value.state.Posted? then AckWithoutPublish else HoldOpen
    else match turn.value.state
         case Open => PublishFinal
         case Queued => HoldOpen
         case _ => AckWithoutPublish
  }

  function StoredTurn(turns: seq<Turn>, ask: AskId): Option<Turn> {
    TurnRow(turns, Some(ask))
  }

  /** What handling one delivery did. `refused` is the verdict of the output screen. */
  ghost predicate DeliveryOutcome(before: World, after: World, d: InboxDelivery, refused: bool, outcome: Outcome) {
    if d.ask.None? then
      outcome.Ack? && after == before
    else
      var ask := d.ask.value;
      match Decide(d.kind, d.body, StoredTurn(before.outbox.turns, ask))
      case HoldOpen => outcome.Hold? && after == before
      case AckWithoutPublish => outcome.Ack? && after == before
      case RecordBody =>
        && (outcome.Ack? || outcome.Aborted?)
        && after.outbox == before.outbox
        && (refused ==> after == before)
        && (outcome.Ack? && !refused
            && Records(StoredTurn(before.outbox.turns, ask).value, ask, d.body, before.outbox.attempts, before.progress.posts) ==>
              ask in after.progress.posts && after.progress.posts[ask].pending == Capped(d.body))
      case PublishFinal =>
        if refused then
          && (outcome.Ack? || outcome.Aborted?)
          && after.outbox == before.outbox.(turns := after.outbox.turns)
          && (outcome.Ack? ==> OfAsk(after.outbox.turns, ask).Some? && RowOf(after.outbox.turns, ask).state.Failed?)
        else
          FinalOutcome(before.outbox, after.outbox, ask, outcome)
  }

  /** A delivery gives a post up only when it is a refused final, and only the post of its ask. */
  ghost predicate GivesUpOnlyRefused(a: seq<Entry>, b: seq<Entry>, before: seq<Turn>, d: InboxDelivery, refused: bool) {
    && a <= b
    && forall i :: |a| <= i < |b| && GivesUp(b[i]) ==>
         && refused && d.ask.Some? && b[i] == FinalRefused(d.ask.value)
         && Decide(d.kind, d.body, StoredTurn(before, d.ask.value)).PublishFinal?
  }

  /**
   The acknowledgement is last: once a non-empty final for a known ask is acknowledged, its
   turn is closed. What was sent, was sent for the open turn of that ask and was not refused.
   */
  lemma AckIsLast(before: World, after: World, d: InboxDelivery, refused: bool, outcome: Outcome)
    requires DeliveryOutcome(before, after, d, refused, outcome)
    requires d.kind.FinalReply? && d.ask.Some? && Trim(d.body) != "" && OfAsk(before.outbox.turns, d.ask.value).Some?
    ensures outcome.Ack? ==>
              OfAsk(after.outbox.turns, d.ask.value).Some? && Terminal(RowOf(after.outbox.turns, d.ask.value).state)
    ensures after.outbox.sent != before.outbox.sent ==>
              !refused && RowOf(before.outbox.turns, d.ask.value).state.Open?
              && |after.outbox.sent| == |before.outbox.sent| + 1
              && after.outbox.sent[|before.outbox.sent|].purpose == ForAttempt(Ask(d.ask.value))
    ensures outcome.Hold? <==> RowOf(before.outbox.turns, d.ask.value).state.Queued?
  {
  }

  /** An empty final is acknowledged only after the answer was posted; otherwise nothing changes. */
  lemma EmptyFinalStaysOwed(before: World, after: World, d: InboxDelivery, refused: bool, outcome: Outcome)
    requires DeliveryOutcome(before, after, d, refused, outcome)
    requires d.kind.FinalReply? && d.ask.Some? && Trim(d.body) == ""
    ensures after == before
    ensures outcome.Ack? <==> OfAsk(before.outbox.turns, d.ask.value).Some? && RowOf(before.outbox.turns, d.ask.value).state.Posted?
    ensures !outcome.Ack? <==> outcome.Hold?
  {
  }

  /** The refusal is logged, specification only, before it ends the row. */
  method NoteRefusal(ghost repo: Repository, ghost publisher: Publisher, relay: Relay, ask: AskId)
    requires HostGood(repo, publisher, relay) && ask in repo.posts
    modifies relay`feed
    ensures HostGood(repo, publisher, relay)
    ensures Evolves(old(WorldOf(repo, publisher, relay)), WorldOf(repo, publisher, relay))
    ensures relay.feed == old(relay.feed) + [FinalRefused(ask)]
  {
    hide OutboxGood, OutboxEvolves, ProgressGood, ProgressEvolves;
    ghost var w := WorldOf(repo, publisher, relay);
    OutboxEvolvesReflexive(w.outbox);
    FeedStep(w.progress, FinalRefused(ask));
    relay.Note(FinalRefused(ask));
    assert ViewOf(repo, publisher, relay) == w.progress.(feed := w.progress.feed + [FinalRefused(ask)]);
  }

  /** A refused final closes its turn without a send. */
  method RefuseFinal(repo: Repository, publisher: Publisher, relay: Relay, turn: Turn, ask: AskId) returns (outcome: Outcome)
    requires HostGood(repo, publisher, relay) && ReadFrom(repo.turns, ask, turn) && RowOf(repo.turns, ask).state.Open?
    modifies repo`turns, repo`posts, relay`feed, publisher`marked, repo`failures
    ensures old(repo.failures) + Misses(!outcome.Aborted?) <= repo.failures
    ensures HostGood(repo, publisher, relay)
    ensures Advances(old(WorldOf(repo, publisher, relay)), WorldOf(repo, publisher, relay))
    ensures outcome.Ack? || outcome.Aborted?
    ensures outcome.Ack? ==>
              && OfAsk(repo.turns, ask).Some? && RowOf(repo.turns, ask).state.Failed?
              && Quieted(repo.posts, ask)
    ensures outcome.Ack? && MarkersExact(old(repo.turns), old(publisher.marked)) ==> MarkersExact(repo.turns, publisher.marked)
    ensures relay.feed == old(relay.feed) || relay.feed == old(relay.feed) + [FinalRefused(ask)]
  {
    hide OutboxGood, OutboxEvolves, ProgressGood, ProgressEvolves, MarkersExact, Closes;
    ghost var w := WorldOf(repo, publisher, relay);
    EvolvesReflexive(w);
    EndedWithout(w.progress, ask);
    ClosesReflexive(repo.turns);
    if ask in repo.posts {
      NoteRefusal(repo, publisher, relay, ask);
    }
    ghost var x := WorldOf(repo, publisher, relay);
    OutboxEvolvesReflexive(x.outbox);
    var ok := DiscardPending(repo, publisher, relay, ask);
    ghost var y := WorldOf(repo, publisher, relay);
    assert y.outbox == x.outbox;
    EvolvesTransitive(w, x, y);
    if !ok {
      return Aborted;
    }
    outcome := CloseTurn(repo, publisher, relay, turn, ask, Failed);
    EvolvesTransitive(w, y, WorldOf(repo, publisher, relay));
  }

  /** A non-empty final for an open turn: refuse it, or publish it. */
  method DeliverFinal(repo: Repository, publisher: Publisher, relay: Relay, turn: Turn, ask: AskId, body: string, refused: bool,
                      mention: string, now: int) returns (outcome: Outcome)
    requires HostGood(repo, publisher, relay) && ReadFrom(repo.turns, ask, turn) && RowOf(repo.turns, ask).state.Open?
    modifies repo`turns, repo`attempts, repo`posts, relay`feed, publisher`sent, publisher`marked, repo`failures
    ensures old(repo.failures) + Misses(!outcome.Aborted?) <= repo.failures
    ensures HostGood(repo, publisher, relay)
    ensures Advances(old(WorldOf(repo, publisher, relay)), WorldOf(repo, publisher, relay))
    ensures if refused then
              && (outcome.Ack? || outcome.Aborted?)
              && WorldOf(repo, publisher, relay).outbox == old(WorldOf(repo, publisher, relay)).outbox.(turns := repo.turns)
              && (outcome.Ack? ==> OfAsk(repo.turns, ask).Some? && RowOf(repo.turns, ask).state.Failed?)
            else
              FinalOutcome(old(WorldOf(repo, publisher, relay)).outbox, WorldOf(repo, publisher, relay).outbox, ask, outcome)
    ensures relay.feed == old(relay.feed) || (refused && relay.feed == old(relay.feed) + [FinalRefused(ask)])
    ensures RowOnly(old(repo.attempts), repo.attempts, Ask(ask)) && NoneAbandoned(old(repo.attempts), repo.attempts)
    ensures !outcome.Aborted? && MarkersExact(old(repo.turns), old(publisher.marked)) ==> MarkersExact(repo.turns, publisher.marked)
  {
    hide OutboxGood, ProgressGood, MarkersExact, FinalOutcome, Evolves, OnlyCloses, CancelsOnly;
    if refused {
      outcome := RefuseFinal(repo, publisher, relay, turn, ask);
    } else {
      outcome := CompleteOutbound(repo, publisher, relay, turn, ask, Some(body), mention, now);
    }
  }

  method HandleDelivery(repo: Repository, publisher: Publisher, relay: Relay, d: InboxDelivery, refused: bool, mention: string, now: int)
    returns (outcome: Outcome)
    requires HostGood(repo, publisher, relay)
    modifies repo`turns, repo`attempts, repo`posts, relay`feed, publisher`sent, publisher`marked, repo`failures
    ensures old(repo.failures) + Misses(!outcome.Aborted?) <= repo.failures
    ensures HostGood(repo, publisher, relay)
    ensures Advances(old(WorldOf(repo, publisher, relay)), WorldOf(repo, publisher, relay))
    ensures GivesUpOnlyRefused(old(relay.feed), relay.feed, old(repo.turns), d, refused)
    ensures DeliveryOutcome(old(WorldOf(repo, publisher, relay)), WorldOf(repo, publisher, relay), d, refused, outcome)
    ensures d.ask.None? ==> repo.attempts == old(repo.attempts)
    ensures d.ask.Some? ==> RowOnly(old(repo.attempts), repo.attempts, Ask(d.ask.value))
    ensures NoneAbandoned(old(repo.attempts), repo.attempts)
    ensures !outcome.Aborted? && MarkersExact(old(repo.turns), old(publisher.marked)) ==> MarkersExact(repo.turns, publisher.marked)
  {
    hide OutboxGood, ProgressGood, MarkersExact, FinalOutcome, Records, Evolves, Closes;
    ghost var w := WorldOf(repo, publisher, relay);
    AdvancesReflexive(w);
    if d.ask.None? {
      return Ack;
    }
    var ask := d.ask.value;
    var turn := StoredTurn(repo.turns, ask);
    match Decide(d.kind, d.body, turn) {
      case HoldOpen =>
        outcome := Hold;
      case AckWithoutPublish =>
        outcome := Ack;
      case RecordBody =>
        if refused {
          outcome := Ack;
        } else {
          var ok := RecordProgress(repo, publisher, relay, turn.value, ask, d.body, now);
          EvolvesInside(w, WorldOf(repo, publisher, relay));
          outcome := if ok then Ack else Aborted;
        }
      case PublishFinal =>
        outcome := DeliverFinal(repo, publisher, relay, turn.value, ask, d.body, refused, mention, now);
    }
  }

  /** A step inside the progress tables is a step of the host. */
  lemma EvolvesInside(a: World, b: World)
    requires b.outbox == a.outbox && ProgressEvolves(a.progress, b.progress)
    ensures Advances(a, b)
  {
  }
}
