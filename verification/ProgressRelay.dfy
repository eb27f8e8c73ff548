/**
 Edits and deletes of progress posts: the background worker with its command queue,
 single-flight set and completions, and the feed of everything that happened to a post.
 */
module ProgressRelay {
  import opened Wrappers
  import opened HostStore
  import opened RelayPublisher

  datatype Operation = EditOf(ask: AskId) | DeleteOf(ask: AskId)

  /** One event in the life of a progress post, in the order it happened. */
  datatype Entry =
    | Recorded(ask: AskId, content: string)                       // a body became the pending body
    | PostFixed(ask: AskId, content: string)                      // the create was prepared and stored
    | PostLive(ask: AskId, at: int)                               // the create was accepted, and that was stored
    | PostDropped(ask: AskId)                                     // the create was refused or rejected, and its row ended
    | FinalRefused(ask: AskId)                                    // a refused final ends the row of its ask
    | EditIssued(ask: AskId, target: EventId, content: string)    // the host asked for an edit
    | EditRan(ask: AskId, target: EventId, content: string, issue: nat, verdict: Verdict)
    | DeleteRan(ask: AskId, target: EventId, verdict: Verdict)

  /** `issue` is the position of the command's EditIssued entry in the feed. */
  datatype Command =
    | EditCommand(ask: AskId, target: EventId, content: string, issuedAt: int, issue: nat)
    | DeleteCommand(ask: AskId, target: EventId)

  /** `ran` is the position of the operation's entry in the feed. */
  datatype Completion =
    | EditDone(ask: AskId, content: string, completedAt: int, verdict: Verdict, ran: nat)
    | DeleteDone(ask: AskId, completedAt: int, verdict: Verdict, ran: nat)

  datatype Dispatch = Done | Pending | Error(retryable: bool)

  function OpOf(c: Command): Operation {
    match c
    case EditCommand(ask, _, _, _, _) => EditOf(ask)
    case DeleteCommand(ask, _) => DeleteOf(ask)
  }

  function OpDone(c: Completion): Operation {
    match c
    case EditDone(ask, _, _, _, _) => EditOf(ask)
    case DeleteDone(ask, _, _, _) => DeleteOf(ask)
  }

  function Dispatched(verdict: Verdict): Dispatch {
    match verdict
    case Accepted => Done
    case Rejected => Error(false)
    case NotAccepted => Error(true)
  }

  /** What running a command appends to the feed. */
  function Ran(c: Command, verdict: Verdict): Entry {
    match c
    case EditCommand(ask, target, content, _, issue) => EditRan(ask, target, content, issue, verdict)
    case DeleteCommand(ask, target) => DeleteRan(ask, target, verdict)
  }

  /** The completion of a command that ran at position `ran`; it does not finish before it was issued. */
  function Completed(c: Command, verdict: Verdict, now: int, ran: nat): Completion {
    match c
    case EditCommand(ask, _, content, issuedAt, _) =>
      EditDone(ask, content, if now < issuedAt then issuedAt else now, verdict, ran)
    case DeleteCommand(ask, _) => DeleteDone(ask, now, verdict, ran)
  }

  class Relay {
    /** True for the background worker, false for a relay that sends before it returns. */
    const background: bool
    /** Specification only: what happened to progress posts, oldest first. */
    var feed: seq<Entry>
    var queue: seq<Command>
    var completions: seq<Completion>
    var active: set<Operation>

    constructor (background: bool)
      ensures this.background == background
      ensures feed == [] && queue == [] && completions == [] && active == {}
    {
      this.background := background;
      feed, queue, completions, active := [], [], [], {};
    }

    method Edit(ask: AskId, target: EventId, content: string, now: int) returns (d: Dispatch, ghost verdict: Verdict)
      modifies this
      ensures background ==> d.Pending? || d == Error(true)
      ensures completions == old(completions)
      ensures background && (d.Error? || EditOf(ask) in old(active)) ==>
                feed == old(feed) && queue == old(queue) && active == old(active)
      ensures background && d.Pending? && EditOf(ask) !in old(active) ==>
                && feed == old(feed) + [EditIssued(ask, target, content)]
                && queue == old(queue) + [EditCommand(ask, target, content, now, |old(feed)|)]
                && active == old(active) + {EditOf(ask)}
      ensures !background ==>
                && !d.Pending? && queue == old(queue) && active == old(active)
                && d == Dispatched(verdict)
                && feed == old(feed) + [EditIssued(ask, target, content)] + [EditRan(ask, target, content, |old(feed)|, verdict)]
    {
      if !background {
        var answer: Verdict := *;
        feed := feed + [EditIssued(ask, target, content)] + [EditRan(ask, target, content, |feed|, answer)];
        return Dispatched(answer), answer;
      }
      if EditOf(ask) in active {
        return Pending, NotAccepted;
      }
      var stopped: bool := *;
      if stopped {
        return Error(true), NotAccepted;
      }
      active := active + {EditOf(ask)};
      queue := queue + [EditCommand(ask, target, content, now, |feed|)];
      feed := feed + [EditIssued(ask, target, content)];
      d, verdict := Pending, NotAccepted;
    }

    method Delete(ask: AskId, target: EventId) returns (d: Dispatch, ghost verdict: Verdict)
      modifies this
      ensures background ==> (d.Pending? || d == Error(true)) && feed == old(feed)
      ensures completions == old(completions)
      ensures background && (d.Error? || DeleteOf(ask) in old(active)) ==>
                queue == old(queue) && active == old(active)
      ensures background && d.Pending? && DeleteOf(ask) !in old(active) ==>
                && queue == old(queue) + [DeleteCommand(ask, target)]
                && active == old(active) + {DeleteOf(ask)}
      ensures !background ==>
                && !d.Pending? && queue == old(queue) && active == old(active)
                && d == Dispatched(verdict)
                && feed == old(feed) + [DeleteRan(ask, target, verdict)]
    {
      if !background {
        var answer: Verdict := *;
        feed := feed + [DeleteRan(ask, target, answer)];
        return Dispatched(answer), answer;
      }
      if DeleteOf(ask) in active {
        return Pending, NotAccepted;
      }
      var stopped: bool := *;
      if stopped {
        return Error(true), NotAccepted;
      }
      active := active + {DeleteOf(ask)};
      queue := queue + [DeleteCommand(ask, target)];
      d, verdict := Pending, NotAccepted;
    }

    /** The worker takes the oldest command, runs it and reports it. */
    method WorkerStep(now: int) returns (ghost verdict: Verdict)
      modifies this
      ensures active == old(active)
      ensures old(queue) == [] ==> feed == old(feed) && queue == [] && completions == old(completions)
      ensures old(queue) != [] ==>
                && queue == old(queue)[1..]
                && feed == old(feed) + [Ran(old(queue)[0], verdict)]
                && completions == old(completions) + [Completed(old(queue)[0], verdict, now, |old(feed)|)]
    {
      if queue == [] {
        return NotAccepted;
      }
      var command := queue[0];
      queue := queue[1..];
      var answer: Verdict := *;
      completions := completions + [Completed(command, answer, now, |feed|)];
      feed := feed + [Ran(command, answer)];
      verdict := answer;
    }

    /** Take every completion and let its operation fly again. */
    method DrainCompletions() returns (drained: seq<Completion>)
      modifies `completions, `active
      ensures drained == old(completions) && completions == []
      ensures active == old(active) - (set i | 0 <= i < |old(completions)| :: OpDone(old(completions)[i]))
    {
      drained := completions;
      completions := [];
      active := active - (set i | 0 <= i < |drained| :: OpDone(drained[i]));
    }

    /** A crash of the host loses the queue, the completions and the single-flight set. */
    method Restart()
      modifies `queue, `completions, `active
      ensures queue == [] && completions == [] && active == {}
    {
      queue, completions, active := [], [], {};
    }

    /** Specification only: log a durable write. */
    method Note(entry: Entry)
      modifies `feed
      ensures feed == old(feed) + [entry]
    {
      feed := feed + [entry];
    }
  }
}
