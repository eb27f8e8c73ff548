/**
 The publisher of stamped channel messages and in-flight markers.

 Preparing is deterministic in the payload and the timestamp; sending is decided by the
 relay. Every send is logged with the durable rows it was sent under.
 */
module RelayPublisher {
  import opened Wrappers
  import opened HostStore

  /** Everything the event id hashes besides the key and the timestamp. */
  datatype Payload = Payload(body: string, channel: string, replyTo: Option<EventId>, root: Option<EventId>, mention: string)

  datatype Verdict = Accepted | Rejected | NotAccepted

  /** What a send was for: a row of `outbound_attempts`, or the create of a progress post. */
  datatype Purpose = ForAttempt(key: Key) | ForProgress(ask: AskId)

  /** One send, with the turn, attempt and progress rows stored at that moment. */
  datatype Send = Send(
    purpose: Purpose, id: EventId, payload: Payload, verdict: Verdict,
    turn: Option<Turn>, attempt: Option<Attempt>, post: Option<ProgressPost>)

  datatype PrepareResult =
    | Prepared(id: EventId, createdAt: int)
    | Refused   // screened, or not buildable
    | Mismatch  // the recorded id is not the id of the rebuilt event

  function AskOf(purpose: Purpose): Option<AskId> {
    match purpose
    case ForAttempt(Ask(ask)) => Some(ask)
    case ForAttempt(_) => None
    case ForProgress(ask) => Some(ask)
  }

  function KeyOf(purpose: Purpose): Key {
    match purpose
    case ForAttempt(key) => key
    case ForProgress(ask) => Ask(ask)
  }

  function TurnRow(turns: seq<Turn>, ask: Option<AskId>): Option<Turn> {
    if ask.Some? && OfAsk(turns, ask.value).Some? then Some(turns[OfAsk(turns, ask.value).value]) else None
  }

  function PostRow(posts: map<AskId, ProgressPost>, ask: Option<AskId>): Option<ProgressPost> {
    if ask.Some? then Lookup(posts, ask.value) else None
  }

  function Logged(purpose: Purpose, id: EventId, payload: Payload, verdict: Verdict,
                  turns: seq<Turn>, attempts: map<Key, Attempt>, posts: map<AskId, ProgressPost>): Send {
    Send(purpose, id, payload, verdict, TurnRow(turns, AskOf(purpose)), Lookup(attempts, KeyOf(purpose)),
         PostRow(posts, AskOf(purpose)))
  }

  class Publisher {
    const sign: (Payload, int) -> EventId
    /** Specification only: every send, oldest first. */
    ghost var sent: seq<Send>
    /** Events that carry the in-flight marker. */
    var marked: set<EventId>

    constructor (sign: (Payload, int) -> EventId)
      ensures this.sign == sign && sent == [] && marked == {}
    {
      this.sign := sign;
      sent, marked := [], {};
    }

    /** Sign at the recorded timestamp when there is one, and compare with the recorded id. */
    method Prepare(payload: Payload, recorded: Option<EventId>, recordedAt: Option<int>, now: int)
      returns (r: PrepareResult)
      ensures r.Prepared? ==>
                && r.createdAt == recordedAt.GetOr(now)
                && r.id == sign(payload, r.createdAt)
                && (recorded.Some? ==> recorded.value == r.id)
      ensures r.Mismatch? ==> recorded.Some? && recorded.value != sign(payload, recordedAt.GetOr(now))
    {
      var buildable: bool := *;
      if !buildable {
        return Refused;
      }
      var createdAt := recordedAt.GetOr(now);
      var id := sign(payload, createdAt);
      if recorded.Some? && recorded.value != id {
        return Mismatch;
      }
      r := Prepared(id, createdAt);
    }

    method Publish(purpose: Purpose, id: EventId, ghost payload: Payload, ghost repo: Repository)
      returns (verdict: Verdict)
      modifies `sent
      ensures sent == old(sent) + [Logged(purpose, id, payload, verdict, repo.turns, repo.attempts, repo.posts)]
    {
      verdict := *;
      sent := sent + [Logged(purpose, id, payload, verdict, repo.turns, repo.attempts, repo.posts)];
    }

    method AddMarker(event: EventId)
      modifies `marked
      ensures marked == old(marked) + {event}
    {
      marked := marked + {event};
    }

    method RemoveMarker(event: EventId)
      modifies `marked
      ensures marked == old(marked) - {event}
    {
      marked := marked - {event};
    }
  }
}
