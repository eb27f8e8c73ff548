/**
 What is true of the queue of turns between any two durable writes: replay-proof trigger
 processing, first-in-first-out dispatch, and single failure notices.
 */
module TurnQueueTheory {
  import opened Wrappers
  import opened HostStore

  datatype QueueView = QueueView(
    turns: seq<Turn>, processed: set<EventId>, wakes: set<EventId>, openings: seq<nat>,
    replaced: multiset<EventId>, keys: set<Key>)

  /** How many turns an event has had. */
  function TurnCount(turns: seq<Turn>, event: EventId): nat {
    if turns == [] then 0
    else TurnCount(turns[..|turns| - 1], event) + (if turns[|turns| - 1].event == event then 1 else 0)
  }

  /** A turn exists only for a processed trigger or a recorded wake. */
  predicate Sourced(t: Turn, processed: set<EventId>, wakes: set<EventId>) {
    match t.event
    case Relay(_) => t.event in processed
    case Wake(_) => t.event in wakes
  }

  ghost predicate AllSourced(turns: seq<Turn>, processed: set<EventId>, wakes: set<EventId>) {
    forall i :: 0 <= i < |turns| ==> Sourced(turns[i], processed, wakes)
  }

  /** An event has no turn, or one plus one for every replacement. */
  ghost predicate Counted(turns: seq<Turn>, replaced: multiset<EventId>) {
    forall e :: if TurnCount(turns, e) == 0 then replaced[e] == 0 else TurnCount(turns, e) == 1 + replaced[e]
  }

  /** The log names rows that were opened, in row order per session, and no queued row is passed over. */
  ghost predicate OpenedInOrder(turns: seq<Turn>, openings: seq<nat>) {
    && (forall k :: 0 <= k < |openings| ==> openings[k] < |turns| && turns[openings[k]].ask.Some?)
    && (forall a, b :: 0 <= a < b < |openings| && turns[openings[a]].session == turns[openings[b]].session ==>
          openings[a] < openings[b])
    && (forall k, i :: 0 <= k < |openings| && 0 <= i < |turns| && turns[i].state.Queued? && turns[i].session == turns[openings[k]].session ==>
          openings[k] < i)
  }

  /** Every row that ever bound an ask is in the log. */
  ghost predicate OpeningsLogged(turns: seq<Turn>, openings: seq<nat>) {
    forall i :: 0 <= i < |turns| && turns[i].ask.Some? ==> i in openings
  }

  /** A failure notice is for an event whose work is over. */
  ghost predicate NoticesFinal(turns: seq<Turn>, processed: set<EventId>, keys: set<Key>) {
    forall e :: FailureNotice(e) in keys ==> e.Relay? && e in processed && forall i :: 0 <= i < |turns| && turns[i].event == e ==> Terminal(turns[i].state)
  }

  ghost predicate QueueGood(q: QueueView) {
    && TurnsGood(q.turns)
    && AllSourced(q.turns, q.processed, q.wakes)
    && Counted(q.turns, q.replaced)
    && OpenedInOrder(q.turns, q.openings)
    && OpeningsLogged(q.turns, q.openings)
    && NoticesFinal(q.turns, q.processed, q.keys)
  }

  /** Nothing is unprocessed, forgotten, or taken out of the log. */
  ghost predicate QueueEvolves(q: QueueView, r: QueueView) {
    && TurnsEvolve(q.turns, r.turns)
    && q.processed <= r.processed && q.wakes <= r.wakes && q.openings <= r.openings
    && q.replaced <= r.replaced && q.keys <= r.keys
  }

  lemma QueueEvolvesReflexive(q: QueueView)
    ensures QueueEvolves(q, q)
  {
  }

  lemma QueueEvolvesTransitive(q: QueueView, r: QueueView, s: QueueView)
    requires QueueEvolves(q, r) && QueueEvolves(r, s)
    ensures QueueEvolves(q, s)
  {
  }

  // ---- what the invariant says ----

  predicate InSession(turns: seq<Turn>, i: int, session: Session) {
    0 <= i < |turns| && turns[i].session == session
  }

  predicate OfEvent(turns: seq<Turn>, i: int, event: EventId) {
    0 <= i < |turns| && turns[i].event == event
  }

  /** Per session: at most one open turn, it precedes every queued one, turns open in row order,
      and none is passed over. */
  lemma FirstInFirstOut(q: QueueView, session: Session)
    requires QueueGood(q)
    ensures forall i, j :: InSession(q.turns, i, session) && InSession(q.turns, j, session) && q.turns[i].state.Open? && Live(q.turns[j]) ==>
              i == j || (i < j && q.turns[j].state.Queued?)
    ensures forall a, b :: 0 <= a < b < |q.openings| && InSession(q.turns, q.openings[a], session) && InSession(q.turns, q.openings[b], session) ==>
              q.openings[a] < q.openings[b]
    ensures forall i, j :: InSession(q.turns, i, session) && InSession(q.turns, j, session) && i < j && q.turns[j].ask.Some? ==>
              !q.turns[i].state.Queued?
  {
  }

  /** However often a trigger is ingested: one turn plus its replacements, at most one of them live. */
  lemma ReplayProof(q: QueueView, event: EventId)
    requires QueueGood(q)
    ensures if TurnCount(q.turns, event) == 0 then q.replaced[event] == 0 else TurnCount(q.turns, event) == 1 + q.replaced[event]
    ensures forall i, j :: OfEvent(q.turns, i, event) && OfEvent(q.turns, j, event) && Live(q.turns[i]) && Live(q.turns[j]) ==> i == j
  {
  }

  // ---- counting ----

  lemma {:induction false} CountSame(a: seq<Turn>, b: seq<Turn>, event: EventId)
    requires |a| == |b| && forall i :: 0 <= i < |a| ==> a[i].event == b[i].event
    ensures TurnCount(a, event) == TurnCount(b, event)
  {
    if a != [] {
      var n := |a| - 1;
      assert forall i :: 0 <= i < n ==> a[..n][i].event == a[i].event && b[..n][i].event == b[i].event;
      CountSame(a[..n], b[..n], event);
    }
  }

  lemma {:induction false} CountPositive(turns: seq<Turn>, event: EventId)
    ensures TurnCount(turns, event) > 0 <==> exists i :: 0 <= i < |turns| && turns[i].event == event
  {
    if turns != [] {
      var n := |turns| - 1;
      CountPositive(turns[..n], event);
      if i :| 0 <= i < |turns| && turns[i].event == event {
        assert i < n ==> turns[..n][i] == turns[i];
      }
    }
  }

  // ---- the steps ----

  /** Work closed; nothing was added. */
  lemma CloseQueueStep(q: QueueView, turns: seq<Turn>)
    requires QueueGood(q) && TurnsGood(turns) && TurnsEvolve(q.turns, turns) && OnlyCloses(q.turns, turns)
    ensures QueueGood(q.(turns := turns)) && QueueEvolves(q, q.(turns := turns))
  {
    ClosedSourced(q.turns, turns, q.processed, q.wakes);
    ClosedCounted(q.turns, turns, q.replaced);
    ClosedOrder(q.turns, turns, q.openings);
    ClosedFinal(q.turns, turns, q.processed, q.keys);
  }

  lemma ClosedSourced(a: seq<Turn>, b: seq<Turn>, processed: set<EventId>, wakes: set<EventId>)
    requires OnlyCloses(a, b) && AllSourced(a, processed, wakes)
    ensures AllSourced(b, processed, wakes)
  {
  }

  lemma ClosedCounted(a: seq<Turn>, b: seq<Turn>, replaced: multiset<EventId>)
    requires OnlyCloses(a, b) && Counted(a, replaced)
    ensures Counted(b, replaced)
  {
    forall i | 0 <= i < |a| ensures a[i].event == b[i].event { assert RowEvolves(a[i], b[i]); }
    forall e ensures TurnCount(a, e) == TurnCount(b, e) { CountSame(a, b, e); }
  }

  lemma ClosedOrder(a: seq<Turn>, b: seq<Turn>, openings: seq<nat>)
    requires OnlyCloses(a, b) && OpenedInOrder(a, openings) && OpeningsLogged(a, openings)
    ensures OpenedInOrder(b, openings) && OpeningsLogged(b, openings)
  {
  }

  lemma ClosedFinal(a: seq<Turn>, b: seq<Turn>, processed: set<EventId>, keys: set<Key>)
    requires OnlyCloses(a, b) && NoticesFinal(a, processed, keys)
    ensures NoticesFinal(b, processed, keys)
  {
  }

  /** Attempts of asks and tells joined the store. */
  lemma KeysQueueStep(q: QueueView, keys: set<Key>)
    requires QueueGood(q) && q.keys <= keys && forall k :: k in keys && k !in q.keys ==> !k.FailureNotice?
    ensures QueueGood(q.(keys := keys)) && QueueEvolves(q, q.(keys := keys))
  {
  }

  /** The notice of an event that failed for good joined the store. */
  lemma NoticeQueueStep(q: QueueView, event: EventId)
    requires QueueGood(q) && event.Relay? && event in q.processed && LiveOf(q.turns, event).None?
    ensures QueueGood(q.(keys := q.keys + {FailureNotice(event)})) && QueueEvolves(q, q.(keys := q.keys + {FailureNotice(event)}))
  {
  }

  lemma ProcessedQueueStep(q: QueueView, event: EventId)
    requires QueueGood(q)
    ensures QueueGood(q.(processed := q.processed + {event})) && QueueEvolves(q, q.(processed := q.processed + {event}))
  {
  }

  lemma WakeQueueStep(q: QueueView, wake: EventId)
    requires QueueGood(q)
    ensures QueueGood(q.(wakes := q.wakes + {wake})) && QueueEvolves(q, q.(wakes := q.wakes + {wake}))
  {
  }

  /** The turn of an event that never had one, or whose last turn was just replaced. */
  predicate Enqueueable(work: NewTurn) {
    work.publishReplyTo == (if work.event.Relay? then Some(work.event) else None)
  }

  /** A sourced event without live work is queued; `again` says that this replaces an earlier turn. */
  lemma EnqueueQueueStep(q: QueueView, work: NewTurn, again: bool)
    requires QueueGood(q) && Enqueueable(work) && LiveOf(q.turns, work.event).None?
    requires again <==> TurnCount(q.turns, work.event) > 0
    requires if work.event.Relay? then work.event in q.processed else work.event in q.wakes
    requires FailureNotice(work.event) !in q.keys
    ensures var r := q.(turns := Enqueued(q.turns, work), replaced := if again then q.replaced + multiset{work.event} else q.replaced);
            QueueGood(r) && QueueEvolves(q, r)
  {
    var t := Turn(work.session, work.event, work.publishReplyTo, None, Queued, false, None, None);
    EnqueueStep(q.turns, work);
    assert Enqueued(q.turns, work) == q.turns + [t];
    EnqueuedCounted(q.turns, t, q.replaced, again);
    EnqueuedOrder(q.turns, t, q.openings);
    forall i | 0 <= i < |q.turns| + 1 ensures Sourced((q.turns + [t])[i], q.processed, q.wakes) {
      if i < |q.turns| { assert Sourced(q.turns[i], q.processed, q.wakes); }
    }
  }

  lemma EnqueuedCounted(turns: seq<Turn>, t: Turn, replaced: multiset<EventId>, again: bool)
    requires Counted(turns, replaced) && (again <==> TurnCount(turns, t.event) > 0)
    ensures Counted(turns + [t], if again then replaced + multiset{t.event} else replaced)
  {
  }

  lemma EnqueuedOrder(turns: seq<Turn>, t: Turn, openings: seq<nat>)
    requires OpenedInOrder(turns, openings) && OpeningsLogged(turns, openings) && t.ask.None?
    ensures OpenedInOrder(turns + [t], openings) && OpeningsLogged(turns + [t], openings)
  {
  }

  /** A trigger seen for the first time is marked processed and queued, at once. */
  lemma TriggerQueueStep(q: QueueView, work: NewTurn)
    requires QueueGood(q) && Enqueueable(work) && work.event.Relay? && work.event !in q.processed
    ensures LiveOf(q.turns, work.event).None?
    ensures var r := q.(turns := Enqueued(q.turns, work), processed := q.processed + {work.event});
            QueueGood(r) && QueueEvolves(q, r)
  {
    FirstSeen(q, work.event);
    var marked := q.(processed := q.processed + {work.event});
    ProcessedQueueStep(q, work.event);
    EnqueueQueueStep(marked, work, false);
    QueueEvolvesTransitive(q, marked, marked.(turns := Enqueued(q.turns, work)));
  }

  lemma FirstSeen(q: QueueView, event: EventId)
    requires QueueGood(q) && (if event.Relay? then event !in q.processed else event !in q.wakes)
    ensures LiveOf(q.turns, event).None? && TurnCount(q.turns, event) == 0
    ensures FailureNotice(event) !in q.keys
  {
    CountPositive(q.turns, event);
    forall i | 0 <= i < |q.turns| ensures q.turns[i].event != event {
      assert Sourced(q.turns[i], q.processed, q.wakes);
    }
  }

  /** The unclaimed turn of an event is cancelled and queued again. */
  lemma ReplaceQueueStep(q: QueueView, work: NewTurn)
    requires QueueGood(q) && Enqueueable(work) && UnclaimedOf(q.turns, work.event).Some?
    ensures var r := q.(turns := Enqueued(CancelledUnclaimed(q.turns, work.event), work), replaced := q.replaced + multiset{work.event});
            QueueGood(r) && QueueEvolves(q, r) && LiveOf(r.turns, work.event).Some?
  {
    var cancelled := CancelledUnclaimed(q.turns, work.event);
    var r := q.(turns := cancelled);
    CancelStep(q.turns, work.event);
    CloseQueueStep(q, cancelled);
    HadLiveTurn(q, work.event, cancelled);
    EnqueueQueueStep(r, work, true);
    QueueEvolvesTransitive(q, r, r.(turns := Enqueued(cancelled, work), replaced := q.replaced + multiset{work.event}));
    assert Live(Enqueued(cancelled, work)[|cancelled|]);
  }

  lemma HadLiveTurn(q: QueueView, event: EventId, after: seq<Turn>)
    requires QueueGood(q) && UnclaimedOf(q.turns, event).Some? && OnlyCloses(q.turns, after)
    ensures TurnCount(after, event) > 0 && FailureNotice(event) !in q.keys
    ensures if event.Relay? then event in q.processed else event in q.wakes
  {
    var row := UnclaimedOf(q.turns, event).value;
    assert RowEvolves(q.turns[row], after[row]);
    CountPositive(after, event);
    assert Sourced(q.turns[row], q.processed, q.wakes);
    assert !Terminal(q.turns[row].state);
  }

  /** The oldest queued turn of a session opens, and is logged. */
  lemma OpenQueueStep(q: QueueView, session: Session, ask: AskId, now: int)
    requires QueueGood(q) && CanOpen(q.turns, session, ask)
    ensures var r := q.(turns := Opened(q.turns, session, ask, now), openings := q.openings + [OldestQueued(q.turns, session).value]);
            QueueGood(r) && QueueEvolves(q, r)
  {
    var i := OldestQueued(q.turns, session).value;
    var after := Opened(q.turns, session, ask, now);
    OpenStep(q.turns, session, ask, now);
    forall k | 0 <= k < |after| ensures after[k].event == q.turns[k].event && after[k].session == q.turns[k].session {}
    forall e ensures TurnCount(after, e) == TurnCount(q.turns, e) { CountSame(after, q.turns, e); }
    forall k | 0 <= k < |after| ensures Sourced(after[k], q.processed, q.wakes) { assert Sourced(q.turns[k], q.processed, q.wakes); }
    OpenedOrder(q.turns, after, q.openings, i);
    OpenedFinal(q, after, i);
  }

  lemma OpenedOrder(turns: seq<Turn>, after: seq<Turn>, openings: seq<nat>, i: nat)
    requires i < |turns| == |after| && OpenedInOrder(turns, openings) && OpeningsLogged(turns, openings)
    requires turns[i].state.Queued? && forall k :: 0 <= k < i ==> !(turns[k].session == turns[i].session && turns[k].state.Queued?)
    requires forall k :: 0 <= k < |after| ==> after[k].session == turns[k].session && (k != i ==> after[k] == turns[k])
    requires after[i].ask.Some? && !after[i].state.Queued?
    ensures OpenedInOrder(after, openings + [i]) && OpeningsLogged(after, openings + [i])
  {
  }

  lemma OpenedFinal(q: QueueView, after: seq<Turn>, i: nat)
    requires NoticesFinal(q.turns, q.processed, q.keys) && i < |q.turns| == |after| && q.turns[i].state.Queued?
    requires forall k :: 0 <= k < |after| ==> after[k].event == q.turns[k].event && (k != i ==> after[k] == q.turns[k])
    ensures NoticesFinal(after, q.processed, q.keys)
  {
  }
}
