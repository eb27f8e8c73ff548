/**
 The host's durable store: the tables behind `HostRepository` and the statements the
 handlers run on them.

 Every statement is modelled by a function on the table it writes. The class
 `Repository` executes them; a write may fail, and a failed write may or may not have
 reached the disk. A handler that stops at a failed write therefore leaves the store as a
 crash at that point would.
 */
module HostStore {
  import opened Wrappers

  type BotId = string
  type AskId = nat

  /** Relay event ids and the synthetic ids of host wakes never coincide: both are hashes. */
  datatype EventId = Relay(id: nat) | Wake(id: nat)

  datatype Session = Session(bot: BotId, channel: string)

  datatype TurnState = Queued | Open | Posted | Failed | Cancelled

  predicate Terminal(s: TurnState) {
    s.Posted? || s.Failed? || s.Cancelled?
  }

  /** `TurnTransition::parse`. */
  predicate Legal(from: TurnState, to: TurnState) {
    (from.Queued? && (to.Open? || to.Failed? || to.Cancelled?))
    || (from.Open? && Terminal(to))
  }

  /** What any number of legal transitions can reach. */
  predicate Reaches(from: TurnState, to: TurnState) {
    from == to || from.Queued? || (from.Open? && Terminal(to))
  }

  datatype NewTurn = NewTurn(session: Session, event: EventId, publishReplyTo: Option<EventId>)

  /** One row of `turns`; its sequence is its position in the table. */
  datatype Turn = Turn(
    session: Session, event: EventId, publishReplyTo: Option<EventId>, ask: Option<AskId>,
    state: TurnState, claimed: bool, openedAt: Option<int>, dispatchFailedAt: Option<int>)

  predicate Live(t: Turn) {
    t.state.Queued? || t.state.Open?
  }

  /** Rows are keyed by an ask id, by an occupant tell, or by a failed turn's event. */
  datatype Key = Ask(ask: AskId) | Tell(bot: BotId, message: nat) | FailureNotice(event: EventId)

  /** One row of `outbound_attempts`. */
  datatype Attempt = Attempt(
    body: string, channel: string, replyTo: Option<EventId>, root: Option<EventId>, mention: string,
    outbound: Option<EventId>, prepared: Option<EventId>, createdAt: Option<int>, dispatched: bool,
    bot: Option<BotId>, retryCount: int, lastRetryAt: Option<int>, abandonedAt: Option<int>)

  /** One row of `progress_posts`. */
  datatype ProgressPost = ProgressPost(
    channel: string, replyTo: EventId, root: Option<EventId>, openedAt: int,
    pending: Option<string>, postBody: Option<string>, prepared: Option<EventId>, createdAt: Option<int>,
    postEvent: Option<EventId>, editCount: nat, lastSendAt: Option<int>, ended: bool, capNoticed: bool,
    retryNoticedAt: Option<int>, deletePending: bool)

  /** What the index keeps of a relay event: its author and the thread root of a reply to it. */
  datatype IndexedEvent = IndexedEvent(author: string, root: Option<EventId>)

  /** `thread_root_for`. */
  function RootOf(indexed: map<EventId, IndexedEvent>, event: EventId): Option<EventId> {
    if event in indexed then indexed[event].root else None
  }

  // ---- statements on `turns` ----

  /** The first row that satisfies `p`, if any. */
  function First(turns: seq<Turn>, p: Turn -> bool): (r: Option<nat>)
    ensures r.Some? ==> r.value < |turns| && p(turns[r.value]) && forall i :: 0 <= i < r.value ==> !p(turns[i])
    ensures r.None? ==> forall i :: 0 <= i < |turns| ==> !p(turns[i])
  {
    if turns == [] then None
    else if p(turns[0]) then Some(0)
    else
      var rest := First(turns[1..], p);
      assert forall i :: 1 <= i < |turns| ==> turns[i] == turns[1..][i - 1];
      if rest.Some? then Some(rest.value + 1) else None
  }

  /** The last row that satisfies `p`, if any. */
  function Last(turns: seq<Turn>, p: Turn -> bool): (r: Option<nat>)
    ensures r.Some? ==> r.value < |turns| && p(turns[r.value]) && forall i :: r.value < i < |turns| ==> !p(turns[i])
    ensures r.None? ==> forall i :: 0 <= i < |turns| ==> !p(turns[i])
  {
    if turns == [] then None
    else
      var n := |turns| - 1;
      if p(turns[n]) then Some(n)
      else
        assert forall i :: 0 <= i < n ==> turns[i] == turns[..n][i];
        Last(turns[..n], p)
  }

  function OfAsk(turns: seq<Turn>, ask: AskId): (r: Option<nat>)
    ensures r.Some? ==> r.value < |turns| && turns[r.value].ask == Some(ask)
    ensures r.None? ==> forall i :: 0 <= i < |turns| ==> turns[i].ask != Some(ask)
  {
    First(turns, (t: Turn) => t.ask == Some(ask))
  }

  /** `active_turn_for_event`. */
  function LiveOf(turns: seq<Turn>, event: EventId): (r: Option<nat>)
    ensures r.Some? ==> r.value < |turns| && turns[r.value].event == event && Live(turns[r.value])
    ensures r.None? ==> forall i :: 0 <= i < |turns| ==> !(turns[i].event == event && Live(turns[i]))
  {
    First(turns, (t: Turn) => t.event == event && Live(t))
  }

  function OpenOf(turns: seq<Turn>, session: Session): (r: Option<nat>)
    ensures r.Some? ==> r.value < |turns| && turns[r.value].session == session && turns[r.value].state.Open?
    ensures r.None? ==> forall i :: 0 <= i < |turns| ==> !(turns[i].session == session && turns[i].state.Open?)
  {
    First(turns, (t: Turn) => t.session == session && t.state.Open?)
  }

  /** The lowest-sequence queued turn of a session. */
  function OldestQueued(turns: seq<Turn>, session: Session): (r: Option<nat>)
    ensures r.Some? ==> r.value < |turns| && turns[r.value].session == session && turns[r.value].state.Queued?
    ensures r.Some? ==> forall i :: 0 <= i < r.value ==> !(turns[i].session == session && turns[i].state.Queued?)
    ensures r.None? ==> forall i :: 0 <= i < |turns| ==> !(turns[i].session == session && turns[i].state.Queued?)
  {
    First(turns, (t: Turn) => t.session == session && t.state.Queued?)
  }

  function Enqueued(turns: seq<Turn>, work: NewTurn): seq<Turn> {
    turns + [Turn(work.session, work.event, work.publishReplyTo, None, Queued, false, None, None)]
  }

  /** `open_next_turn`: no open sibling, lowest sequence first, and the ask id is unused (UNIQUE). */
  predicate CanOpen(turns: seq<Turn>, session: Session, ask: AskId) {
    OpenOf(turns, session).None? && OldestQueued(turns, session).Some? && OfAsk(turns, ask).None?
  }

  function Opened(turns: seq<Turn>, session: Session, ask: AskId, now: int): seq<Turn>
    requires CanOpen(turns, session, ask)
  {
    var i := OldestQueued(turns, session).value;
    turns[i := turns[i].(ask := Some(ask), state := Open, openedAt := Some(now))]
  }

  /** `set_turn_state`: only a legal transition, and a claimed turn is never cancelled. */
  predicate CanSet(turns: seq<Turn>, ask: AskId, to: TurnState) {
    var i := OfAsk(turns, ask);
    i.Some? && Legal(turns[i.value].state, to) && (to.Cancelled? ==> !turns[i.value].claimed)
  }

  function WithState(turns: seq<Turn>, ask: AskId, to: TurnState): seq<Turn> {
    if CanSet(turns, ask, to) then
      var i := OfAsk(turns, ask).value;
      turns[i := turns[i].(state := to, claimed := false)]
    else turns
  }

  /** `claim_turn_for_publish` (to = true) and `release_publish_claim` (to = false). */
  predicate CanClaim(turns: seq<Turn>, ask: AskId, to: bool) {
    var i := OfAsk(turns, ask);
    i.Some? && turns[i.value].state.Open? && turns[i.value].claimed != to
  }

  function WithClaim(turns: seq<Turn>, ask: AskId, to: bool): seq<Turn> {
    if CanClaim(turns, ask, to) then
      var i := OfAsk(turns, ask).value;
      turns[i := turns[i].(claimed := to)]
    else turns
  }

  /** The rows `cancel_unclaimed_turn` and `replace_unclaimed_turn` cancel. */
  predicate Unclaimed(t: Turn, event: EventId) {
    t.event == event && (t.state.Queued? || (t.state.Open? && !t.claimed))
  }

  function UnclaimedOf(turns: seq<Turn>, event: EventId): (r: Option<nat>)
    ensures r.Some? ==> r.value < |turns| && Unclaimed(turns[r.value], event)
    ensures r.None? ==> forall i :: 0 <= i < |turns| ==> !Unclaimed(turns[i], event)
  {
    First(turns, (t: Turn) => Unclaimed(t, event))
  }

  /** `UPDATE turns SET state = 'cancelled' ...` over every matching row. */
  function CancelledUnclaimed(turns: seq<Turn>, event: EventId): seq<Turn> {
    seq(|turns|, i requires 0 <= i < |turns| =>
      if Unclaimed(turns[i], event) then turns[i].(state := Cancelled, claimed := false) else turns[i])
  }

  /** The row the cancelling statements return: the latest cancelled turn of the event. */
  function LatestCancelled(turns: seq<Turn>, event: EventId): (r: Option<nat>)
    ensures r.Some? ==> r.value < |turns| && turns[r.value].event == event && turns[r.value].state.Cancelled?
    ensures r.Some? ==> forall i :: r.value < i < |turns| ==> !(turns[i].event == event && turns[i].state.Cancelled?)
    ensures r.None? ==> forall i :: 0 <= i < |turns| ==> !(turns[i].event == event && turns[i].state.Cancelled?)
  {
    Last(turns, (t: Turn) => t.event == event && t.state.Cancelled?)
  }

  function QueuedOf(turns: seq<Turn>, event: EventId): (r: Option<nat>)
    ensures r.Some? ==> r.value < |turns| && turns[r.value].event == event && turns[r.value].state.Queued?
    ensures r.None? ==> forall i :: 0 <= i < |turns| ==> !(turns[i].event == event && turns[i].state.Queued?)
  {
    First(turns, (t: Turn) => t.event == event && t.state.Queued?)
  }

  /** `cancel_queued_turn` and `fail_queued_turn`. */
  function WithQueuedAs(turns: seq<Turn>, event: EventId, to: TurnState): seq<Turn> {
    var i := QueuedOf(turns, event);
    if i.Some? then turns[i.value := turns[i.value].(state := to)] else turns
  }

  /** `record_dispatch_failure` keeps the first stamp. */
  function WithDispatchFailure(turns: seq<Turn>, event: EventId, now: int): seq<Turn> {
    var i := QueuedOf(turns, event);
    if i.Some? && turns[i.value].dispatchFailedAt.None?
    then turns[i.value := turns[i.value].(dispatchFailedAt := Some(now))] else turns
  }

  // ---- statements on `outbound_attempts` and `progress_posts` ----

  /** The upsert of `save_outbound_attempt`. */
  function MergedAttempt(stored: Option<Attempt>, a: Attempt): Attempt {
    match stored
    case None => a
    case Some(s) => a.(
      root := Coalesce(s.root, a.root),
      outbound := Coalesce(s.outbound, a.outbound),
      prepared := Coalesce(s.prepared, a.prepared),
      createdAt := Coalesce(s.createdAt, a.createdAt),
      bot := Coalesce(a.bot, s.bot),
      abandonedAt := Coalesce(s.abandonedAt, a.abandonedAt))
  }

  function Lookup<K, V>(m: map<K, V>, k: K): Option<V> {
    if k in m then Some(m[k]) else None
  }

  /** The final of this ask was accepted, and that was stored. */
  predicate Answered(attempts: map<Key, Attempt>, ask: AskId) {
    Ask(ask) in attempts && attempts[Ask(ask)].outbound.Some?
  }

  /** The upsert of `save_progress_post`: the identity columns are written once. */
  function MergedPost(stored: Option<ProgressPost>, p: ProgressPost): ProgressPost {
    match stored
    case None => p
    case Some(s) => p.(
      channel := s.channel, replyTo := s.replyTo, root := s.root, openedAt := s.openedAt,
      postBody := Coalesce(s.postBody, p.postBody),
      prepared := Coalesce(s.prepared, p.prepared),
      createdAt := Coalesce(s.createdAt, p.createdAt),
      postEvent := Coalesce(s.postEvent, p.postEvent))
  }

  /** `mark_outbound_accepted` writes the id unless a different one is stored. */
  predicate CanAccept(attempts: map<Key, Attempt>, key: Key, id: EventId) {
    key in attempts && (attempts[key].outbound.None? || attempts[key].outbound == Some(id))
  }

  // ---- invariant of `turns` ----

  /** Only a relay event has a publish target: the event itself. */
  predicate RowGood(t: Turn) {
    && (t.state.Queued? ==> t.ask.None?)
    && (t.state.Open? ==> t.ask.Some?)
    && (t.claimed ==> t.state.Open?)
    && t.publishReplyTo == (if t.event.Relay? then Some(t.event) else None)
  }

  /** `a` precedes `b` in the table. */
  predicate PairGood(a: Turn, b: Turn) {
    && (a.ask.Some? ==> a.ask != b.ask)
    && (a.event == b.event ==> Terminal(a.state))
    && (a.session == b.session && b.state.Open? ==> Terminal(a.state))
  }

  /** Ask ids are unique, only the latest turn of an event may be live, and a session's open
      turn precedes all its queued ones and is its only open one. */
  ghost predicate TurnsGood(turns: seq<Turn>) {
    && (forall i :: 0 <= i < |turns| ==> RowGood(turns[i]))
    && (forall i, j :: 0 <= i < j < |turns| ==> PairGood(turns[i], turns[j]))
  }

  /** The columns no statement rewrites, and the state columns only move forward. */
  predicate RowEvolves(a: Turn, b: Turn) {
    && a.session == b.session && a.event == b.event && a.publishReplyTo == b.publishReplyTo
    && (a.ask.Some? ==> b.ask == a.ask && b.openedAt == a.openedAt)
    && Reaches(a.state, b.state)
    && (a.dispatchFailedAt.Some? ==> b.dispatchFailedAt == a.dispatchFailedAt)
  }

  ghost predicate TurnsEvolve(a: seq<Turn>, b: seq<Turn>) {
    |a| <= |b| && forall i :: 0 <= i < |a| ==> RowEvolves(a[i], b[i])
  }

  lemma TurnsEvolveTransitive(a: seq<Turn>, b: seq<Turn>, c: seq<Turn>)
    requires TurnsEvolve(a, b) && TurnsEvolve(b, c)
    ensures TurnsEvolve(a, c)
  {
  }

  /** Work may end, and claims may change, but nothing opens and no row is added. */
  ghost predicate OnlyCloses(a: seq<Turn>, b: seq<Turn>) {
    |a| == |b| && forall i :: 0 <= i < |a| ==>
      && RowEvolves(a[i], b[i]) && b[i].ask == a[i].ask
      && (b[i].state == a[i].state || Terminal(b[i].state))
  }

  /** Of the turns that were asked, at most `row` is newly cancelled. */
  ghost predicate CancelsOnly(a: seq<Turn>, b: seq<Turn>, row: Option<nat>) {
    forall i :: 0 <= i < |b| && b[i].state.Cancelled? && b[i].ask.Some? ==>
      i < |a| && a[i].ask == b[i].ask && (a[i].state.Cancelled? || row == Some(i))
  }

  ghost predicate NoneCancelled(a: seq<Turn>, b: seq<Turn>) {
    CancelsOnly(a, b, None)
  }

  /** Work is closed by its answer: nothing is cancelled. */
  ghost predicate Closes(a: seq<Turn>, b: seq<Turn>) {
    OnlyCloses(a, b) && NoneCancelled(a, b)
  }

  lemma ClosesTransitive(a: seq<Turn>, b: seq<Turn>, c: seq<Turn>)
    requires Closes(a, b) && Closes(b, c)
    ensures Closes(a, c)
  {
  }

  /** A row may change in place when it stays well formed and does not open. */
  lemma RowStep(turns: seq<Turn>, i: nat, t: Turn)
    requires TurnsGood(turns) && i < |turns|
    requires RowEvolves(turns[i], t) && RowGood(t) && t.ask == turns[i].ask
    requires t.state.Open? ==> turns[i].state.Open?
    ensures TurnsGood(turns[i := t]) && TurnsEvolve(turns, turns[i := t])
  {
  }

  lemma OfAskUnique(turns: seq<Turn>, i: nat, ask: AskId)
    requires TurnsGood(turns) && i < |turns| && turns[i].ask == Some(ask)
    ensures OfAsk(turns, ask) == Some(i)
  {
  }

  /** Once an ask id is bound, it stays bound to the same row. */
  lemma OfAskStable(a: seq<Turn>, b: seq<Turn>, ask: AskId)
    requires TurnsGood(a) && TurnsGood(b) && TurnsEvolve(a, b) && OfAsk(a, ask).Some?
    ensures OfAsk(b, ask) == OfAsk(a, ask)
    ensures RowEvolves(a[OfAsk(a, ask).value], b[OfAsk(a, ask).value])
  {
  }

  lemma WithStateStep(turns: seq<Turn>, ask: AskId, to: TurnState)
    requires TurnsGood(turns) && Terminal(to)
    ensures TurnsGood(WithState(turns, ask, to)) && TurnsEvolve(turns, WithState(turns, ask, to))
    ensures OnlyCloses(turns, WithState(turns, ask, to))
  {
    if CanSet(turns, ask, to) {
      var i := OfAsk(turns, ask).value;
      RowStep(turns, i, turns[i].(state := to, claimed := false));
    }
  }

  lemma WithClaimStep(turns: seq<Turn>, ask: AskId, to: bool)
    requires TurnsGood(turns)
    ensures TurnsGood(WithClaim(turns, ask, to)) && TurnsEvolve(turns, WithClaim(turns, ask, to))
    ensures OnlyCloses(turns, WithClaim(turns, ask, to))
  {
    if CanClaim(turns, ask, to) {
      var i := OfAsk(turns, ask).value;
      RowStep(turns, i, turns[i].(claimed := to));
    }
  }

  lemma WithQueuedAsStep(turns: seq<Turn>, event: EventId, to: TurnState)
    requires TurnsGood(turns) && (to.Failed? || to.Cancelled?)
    ensures TurnsGood(WithQueuedAs(turns, event, to)) && TurnsEvolve(turns, WithQueuedAs(turns, event, to))
    ensures OnlyCloses(turns, WithQueuedAs(turns, event, to)) && NoneCancelled(turns, WithQueuedAs(turns, event, to))
  {
    var i := QueuedOf(turns, event);
    if i.Some? {
      RowStep(turns, i.value, turns[i.value].(state := to));
    }
  }

  lemma WithDispatchFailureStep(turns: seq<Turn>, event: EventId, now: int)
    requires TurnsGood(turns)
    ensures TurnsGood(WithDispatchFailure(turns, event, now))
    ensures TurnsEvolve(turns, WithDispatchFailure(turns, event, now)) && OnlyCloses(turns, WithDispatchFailure(turns, event, now))
    ensures NoneCancelled(turns, WithDispatchFailure(turns, event, now))
  {
  }

  /** The unconditional UPDATE hits at most one row, and the row returned is that one. */
  lemma CancelStep(turns: seq<Turn>, event: EventId)
    requires TurnsGood(turns)
    ensures var after := CancelledUnclaimed(turns, event);
            TurnsGood(after) && TurnsEvolve(turns, after) && OnlyCloses(turns, after)
            && match UnclaimedOf(turns, event)
               case None => after == turns
               case Some(i) => after == turns[i := turns[i].(state := Cancelled, claimed := false)]
                               && LatestCancelled(after, event) == Some(i) && LiveOf(after, event).None?
  {
    var after := CancelledUnclaimed(turns, event);
    match UnclaimedOf(turns, event)
    case None =>
      assert after == turns;
    case Some(i) =>
      forall j | 0 <= j < |turns| && j != i && turns[j].event == event ensures !Live(turns[j]) && j < i {
        assert PairGood(turns[if i < j then i else j], turns[if i < j then j else i]);
      }
      assert after == turns[i := turns[i].(state := Cancelled, claimed := false)];
      RowStep(turns, i, turns[i].(state := Cancelled, claimed := false));
  }

  lemma EnqueueStep(turns: seq<Turn>, work: NewTurn)
    requires TurnsGood(turns) && LiveOf(turns, work.event).None?
    requires work.publishReplyTo == (if work.event.Relay? then Some(work.event) else None)
    ensures TurnsGood(Enqueued(turns, work)) && TurnsEvolve(turns, Enqueued(turns, work))
    ensures NoneCancelled(turns, Enqueued(turns, work))
  {
  }

  lemma OpenStep(turns: seq<Turn>, session: Session, ask: AskId, now: int)
    requires TurnsGood(turns) && CanOpen(turns, session, ask)
    ensures TurnsGood(Opened(turns, session, ask, now)) && TurnsEvolve(turns, Opened(turns, session, ask, now))
    ensures OfAsk(Opened(turns, session, ask, now), ask) == OldestQueued(turns, session)
    ensures NoneCancelled(turns, Opened(turns, session, ask, now))
  {
  }

  // ---- the repository ----

  /** How many of one write fail. */
  function Misses(ok: bool): nat {
    if ok then 0 else 1
  }

  class Repository {
    var turns: seq<Turn>
    var processed: set<EventId>
    var attempts: map<Key, Attempt>
    var posts: map<AskId, ProgressPost>
    var indexed: map<EventId, IndexedEvent>
    /** The fire ledger of host watches. */
    var wakes: set<EventId>
    /** Specification only: the rows opened so far, oldest first. */
    ghost var openings: seq<nat>
    /** Specification only: the events whose turn was replaced, once per replacement. */
    ghost var replaced: multiset<EventId>
    /** Specification only: the writes that reported an error so far, and the asks whose cancel was lost. */
    ghost var failures: nat

    constructor ()
      ensures turns == [] && processed == {} && attempts == map[] && posts == map[] && indexed == map[]
      ensures wakes == {} && openings == [] && replaced == multiset{} && failures == 0
    {
      turns, processed, attempts, posts, indexed, wakes := [], {}, map[], map[], map[], {};
      openings, replaced, failures := [], multiset{}, 0;
    }

    /** The outcome of one write: reported, and durable. A reported write is durable. */
    method Commit() returns (ok: bool, durable: bool)
      modifies `failures
      ensures ok ==> durable
      ensures failures == old(failures) + Misses(ok)
    {
      durable := *;
      ok := *;
      ok := ok && durable;
      if !ok { failures := failures + 1; }
    }

    /** The session row is written; of its columns only the context cursor is modelled, in `AskContext`. */
    method SaveSession() returns (ok: bool)
      modifies `failures
      ensures failures == old(failures) + Misses(ok)
    {
      var durable: bool;
      ok, durable := Commit();
    }

    /** Specification only: the occupant could not be told that its ask is cancelled. */
    ghost method LoseCancel()
      modifies `failures
      ensures failures == old(failures) + 1
    {
      failures := failures + 1;
    }

    method SetTurnState(ask: AskId, to: TurnState) returns (ok: bool)
      modifies `turns, `failures
      ensures failures == old(failures) + Misses(ok)
      ensures turns == WithState(old(turns), ask, to) || (!ok && turns == old(turns))
    {
      var durable: bool;
      ok, durable := Commit();
      if durable { turns := WithState(turns, ask, to); }
    }

    method SetClaim(ask: AskId, to: bool) returns (ok: bool, changed: bool)
      modifies `turns, `failures
      ensures failures == old(failures) + Misses(ok)
      ensures turns == WithClaim(old(turns), ask, to) || (!ok && turns == old(turns))
      ensures changed == CanClaim(old(turns), ask, to)
    {
      var durable: bool;
      ok, durable := Commit();
      changed := CanClaim(turns, ask, to);
      if durable { turns := WithClaim(turns, ask, to); }
    }

    method SaveOutboundAttempt(key: Key, a: Attempt) returns (ok: bool)
      modifies `attempts, `failures
      ensures failures == old(failures) + Misses(ok)
      ensures attempts == old(attempts)[key := MergedAttempt(Lookup(old(attempts), key), a)]
              || (!ok && attempts == old(attempts))
    {
      var durable: bool;
      ok, durable := Commit();
      if durable { attempts := attempts[key := MergedAttempt(Lookup(attempts, key), a)]; }
    }

    method MarkOutboundAccepted(key: Key, id: EventId) returns (ok: bool, changed: bool)
      modifies `attempts, `failures
      ensures failures == old(failures) + Misses(ok)
      ensures changed == CanAccept(old(attempts), key, id)
      ensures attempts == (if changed then old(attempts)[key := old(attempts)[key].(outbound := Some(id))] else old(attempts))
              || (!ok && attempts == old(attempts))
    {
      var durable: bool;
      ok, durable := Commit();
      changed := CanAccept(attempts, key, id);
      if durable && changed { attempts := attempts[key := attempts[key].(outbound := Some(id))]; }
    }

    method SaveProgressPost(ask: AskId, p: ProgressPost) returns (ok: bool)
      modifies `posts, `failures
      ensures failures == old(failures) + Misses(ok)
      ensures posts == old(posts)[ask := MergedPost(Lookup(old(posts), ask), p)]
              || (!ok && posts == old(posts))
    {
      var durable: bool;
      ok, durable := Commit();
      if durable { posts := posts[ask := MergedPost(Lookup(posts, ask), p)]; }
    }

    method MarkEventProcessed(event: EventId) returns (ok: bool)
      modifies `processed, `failures
      ensures failures == old(failures) + Misses(ok)
      ensures processed == old(processed) + {event} || (!ok && processed == old(processed))
    {
      var durable: bool;
      ok, durable := Commit();
      if durable { processed := processed + {event}; }
    }

    /** One transaction: the processing marker and the queued turn. */
    method EnqueueUnprocessedTurn(t: NewTurn) returns (ok: bool, isNew: bool)
      modifies `turns, `processed, `failures
      ensures failures == old(failures) + Misses(ok)
      ensures isNew == (t.event !in old(processed))
      ensures || (processed == old(processed) + {t.event}
                  && turns == if isNew then Enqueued(old(turns), t) else old(turns))
              || (!ok && processed == old(processed) && turns == old(turns))
    {
      var durable: bool;
      ok, durable := Commit();
      isNew := t.event !in processed;
      if durable {
        if isNew { turns := Enqueued(turns, t); }
        processed := processed + {t.event};
      }
    }

    method EnqueueTurn(t: NewTurn) returns (ok: bool)
      modifies `turns, `failures
      ensures failures == old(failures) + Misses(ok)
      ensures turns == Enqueued(old(turns), t) || (!ok && turns == old(turns))
    {
      var durable: bool;
      ok, durable := Commit();
      if durable { turns := Enqueued(turns, t); }
    }

    /** A wake enters the ledger once, before any work it causes. */
    method RecordWatchFire(wake: EventId) returns (ok: bool, isNew: bool)
      modifies `wakes, `failures
      ensures failures == old(failures) + Misses(ok)
      ensures isNew == (wake !in old(wakes))
      ensures wakes == old(wakes) + {wake} || (!ok && wakes == old(wakes))
    {
      var durable: bool;
      ok, durable := Commit();
      isNew := wake !in wakes;
      if durable { wakes := wakes + {wake}; }
    }

    /** The UNIQUE ask id makes the statement fail when the id is already bound. */
    method OpenNextTurn(session: Session, ask: AskId, now: int) returns (ok: bool, row: Option<nat>)
      modifies `turns, `openings, `failures
      ensures failures == old(failures) + Misses(ok)
      ensures row == if CanOpen(old(turns), session, ask) then OldestQueued(old(turns), session) else None
      ensures || (turns == (if row.Some? then Opened(old(turns), session, ask, now) else old(turns))
                  && openings == if row.Some? then old(openings) + [row.value] else old(openings))
              || (!ok && turns == old(turns) && openings == old(openings))
    {
      var durable: bool;
      ok, durable := Commit();
      if CanOpen(turns, session, ask) {
        row := OldestQueued(turns, session);
        if durable {
          turns := Opened(turns, session, ask, now);
          openings := openings + [row.value];
        }
      } else {
        row := None;
      }
    }

    /** `cancel_queued_turn` (to = Cancelled) and `fail_queued_turn` (to = Failed). */
    method CloseQueuedTurn(event: EventId, to: TurnState) returns (ok: bool, changed: bool)
      modifies `turns, `failures
      ensures failures == old(failures) + Misses(ok)
      ensures changed == QueuedOf(old(turns), event).Some?
      ensures turns == WithQueuedAs(old(turns), event, to) || (!ok && turns == old(turns))
    {
      var durable: bool;
      ok, durable := Commit();
      changed := QueuedOf(turns, event).Some?;
      if durable { turns := WithQueuedAs(turns, event, to); }
    }

    method RecordDispatchFailure(event: EventId, now: int) returns (ok: bool, since: Option<int>)
      modifies `turns, `failures
      ensures failures == old(failures) + Misses(ok)
      ensures turns == WithDispatchFailure(old(turns), event, now) || (!ok && turns == old(turns))
      ensures ok ==> since == (if QueuedOf(turns, event).Some? then turns[QueuedOf(turns, event).value].dispatchFailedAt else None)
    {
      var durable: bool;
      ok, durable := Commit();
      if durable { turns := WithDispatchFailure(turns, event, now); }
      var i := QueuedOf(turns, event);
      since := if i.Some? then turns[i.value].dispatchFailedAt else None;
    }

    method CancelUnclaimedTurn(event: EventId) returns (ok: bool, row: Option<nat>)
      modifies `turns, `failures
      ensures failures == old(failures) + Misses(ok)
      ensures row == if UnclaimedOf(old(turns), event).Some? then LatestCancelled(CancelledUnclaimed(old(turns), event), event) else None
      ensures turns == CancelledUnclaimed(old(turns), event) || (!ok && turns == old(turns))
    {
      var durable: bool;
      ok, durable := Commit();
      var after := CancelledUnclaimed(turns, event);
      row := if UnclaimedOf(turns, event).Some? then LatestCancelled(after, event) else None;
      if durable { turns := after; }
    }

    /** One transaction: cancel the unclaimed turn and queue its replacement. */
    method ReplaceUnclaimedTurn(t: NewTurn) returns (ok: bool, row: Option<nat>)
      modifies `turns, `replaced, `failures
      ensures failures == old(failures) + Misses(ok)
      ensures row == if UnclaimedOf(old(turns), t.event).Some? then LatestCancelled(CancelledUnclaimed(old(turns), t.event), t.event) else None
      ensures || (UnclaimedOf(old(turns), t.event).Some? && turns == Enqueued(CancelledUnclaimed(old(turns), t.event), t)
                  && replaced == old(replaced) + multiset{t.event})
              || ((UnclaimedOf(old(turns), t.event).None? || !ok) && turns == old(turns) && replaced == old(replaced))
    {
      var durable: bool;
      ok, durable := Commit();
      if UnclaimedOf(turns, t.event).Some? {
        var after := CancelledUnclaimed(turns, t.event);
        row := LatestCancelled(after, t.event);
        if durable {
          turns := Enqueued(after, t);
          replaced := replaced + multiset{t.event};
        }
      } else {
        row := None;
      }
    }

    /** Indexing inserts once; a second copy of an event changes nothing. */
    method IndexEvent(event: EventId, e: IndexedEvent) returns (ok: bool)
      modifies `indexed, `failures
      ensures failures == old(failures) + Misses(ok)
      ensures indexed == (if event in old(indexed) then old(indexed) else old(indexed)[event := e])
              || (!ok && indexed == old(indexed))
    {
      var durable: bool;
      ok, durable := Commit();
      if durable && event !in indexed { indexed := indexed[event := e]; }
    }
  }
}
