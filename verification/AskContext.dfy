/**
 The unread context of an ask: which events it shows, how much of them, and the cursor that
 is stored for the next ask of the session.
 */
module AskContext {
  import opened Wrappers
  import opened Utf8

  const CONTEXT_MAX_EVENTS: nat := 32
  const CONTEXT_MAX_BYTES: nat := 8192

  /** A place in the order of events: time first, then id. */
  datatype Cursor = Cursor(createdAt: int, id: nat)

  datatype Event = Event(at: Cursor, channel: Option<string>, line: seq<Byte>)

  predicate Before(a: Cursor, b: Cursor) {
    a.createdAt < b.createdAt || (a.createdAt == b.createdAt && a.id < b.id)
  }

  predicate AtMost(a: Cursor, b: Cursor) {
    a == b || Before(a, b)
  }

  predicate IsUnread(e: Event, channel: string, cursor: Cursor, trigger: Cursor) {
    e.channel == Some(channel) && e.at.id != trigger.id && Before(cursor, e.at)
  }

  /** `unread_events`, in the order of the index. */
  function Unread(events: seq<Event>, channel: string, cursor: Cursor, trigger: Cursor): (r: seq<Event>)
    ensures forall e :: e in r <==> e in events && IsUnread(e, channel, cursor, trigger)
  {
    if events == [] then []
    else
      var rest := Unread(events[1..], channel, cursor, trigger);
      if IsUnread(events[0], channel, cursor, trigger) then [events[0]] + rest else rest
  }

  // ---- the cap ----

  function TotalBytes(lines: seq<seq<Byte>>): nat {
    if lines == [] then 0 else |lines[0]| + TotalBytes(lines[1..])
  }

  function LastLines(lines: seq<seq<Byte>>, n: nat): seq<seq<Byte>>
    requires n <= |lines|
  {
    lines[|lines| - n..]
  }

  predicate Fits(lines: seq<seq<Byte>>, n: nat)
    requires n <= |lines|
  {
    n <= CONTEXT_MAX_EVENTS && TotalBytes(LastLines(lines, n)) <= CONTEXT_MAX_BYTES
  }

  /** Drop lines from the front until what is left fits, or only one is left. */
  method DropFront(all: seq<seq<Byte>>) returns (lines: seq<seq<Byte>>, truncated: bool)
    ensures |lines| <= CONTEXT_MAX_EVENTS && |lines| <= |all| && (all != [] ==> lines != [])
    ensures lines == LastLines(all, |lines|)
    ensures |lines| <= 1 || TotalBytes(lines) <= CONTEXT_MAX_BYTES
    ensures forall n :: |lines| < n <= |all| ==> !Fits(all, n)
    ensures truncated <==> |lines| < |all|
  {
    hide TotalBytes;
    var start := if |all| > CONTEXT_MAX_EVENTS then |all| - CONTEXT_MAX_EVENTS else 0;
    truncated := start > 0;
    lines := all[start..];
    while |lines| > 1 && TotalBytes(lines) > CONTEXT_MAX_BYTES
      invariant |lines| <= CONTEXT_MAX_EVENTS && |lines| <= |all| && (all != [] ==> lines != [])
      invariant lines == LastLines(all, |lines|)
      invariant forall n :: |lines| < n <= |all| ==> !Fits(all, n)
      invariant truncated <==> |lines| < |all|
    {
      Dropped(all, |lines|);
      lines := lines[1..];
      truncated := true;
    }
  }

  /** The newest lines that fit; a lone oversized line is cut. */
  method CapContextLines(all: seq<seq<Byte>>) returns (lines: seq<seq<Byte>>, truncated: bool)
    ensures |lines| <= |all| && |lines| <= CONTEXT_MAX_EVENTS && TotalBytes(lines) <= CONTEXT_MAX_BYTES
    ensures all != [] ==> lines != []
    ensures Fits(all, |lines|) ==> lines == LastLines(all, |lines|)
    ensures !Fits(all, |lines|) ==>
              |lines| == 1 && CONTEXT_MAX_BYTES < |all[|all| - 1]| && lines[0] == all[|all| - 1][..CONTEXT_MAX_BYTES]
    ensures forall n :: |lines| < n <= |all| ==> !Fits(all, n)
    ensures truncated <==> lines != all
  {
    lines, truncated := DropFront(all);
    assert |lines| == |all| ==> lines == all;
    if |lines| > 0 {
      FirstCounts(lines);
      if |lines[0]| > CONTEXT_MAX_BYTES {
        assert lines[0] == all[|all| - 1];
        lines := [lines[0][..CONTEXT_MAX_BYTES]];
        FirstCounts(lines);
        truncated := true;
      }
    }
  }

  lemma FirstCounts(lines: seq<seq<Byte>>)
    requires lines != []
    ensures |lines[0]| <= TotalBytes(lines) && (|lines| == 1 ==> TotalBytes(lines) == |lines[0]|)
  {
  }

  lemma Dropped(all: seq<seq<Byte>>, n: nat)
    requires 1 < n <= |all| && TotalBytes(LastLines(all, n)) > CONTEXT_MAX_BYTES
    ensures !Fits(all, n) && LastLines(all, n)[1..] == LastLines(all, n - 1)
  {
  }

  // ---- the cursor ----

  /** The trigger, or the latest of the unread events. */
  method NextCursor(trigger: Cursor, included: seq<Event>) returns (cursor: Cursor)
    ensures cursor == Latest(trigger, included)
  {
    cursor := trigger;
    for i := 0 to |included|
      invariant cursor == Latest(trigger, included[..i])
    {
      assert included[..i + 1][..i] == included[..i];
      if Before(cursor, included[i].at) {
        cursor := included[i].at;
      }
    }
    assert included[..|included|] == included;
  }

  function Latest(trigger: Cursor, included: seq<Event>): Cursor {
    if included == [] then trigger
    else
      var before := Latest(trigger, included[..|included| - 1]);
      var e := included[|included| - 1];
      if Before(before, e.at) then e.at else before
  }

  /** The cursor is the maximum: at or above the trigger and every unread event, and one of them. */
  lemma {:induction false} LatestIsMaximum(trigger: Cursor, included: seq<Event>)
    ensures AtMost(trigger, Latest(trigger, included))
    ensures forall e :: e in included ==> AtMost(e.at, Latest(trigger, included))
    ensures Latest(trigger, included) == trigger || exists e :: e in included && e.at == Latest(trigger, included)
  {
    if included != [] {
      var n := |included| - 1;
      LatestIsMaximum(trigger, included[..n]);
      forall e | e in included ensures e in included[..n] || e == included[n] {}
      assert included[n] in included;
    }
  }

  // ---- a run of asks ----

  /** One ask of a session: its trigger, and the index at that moment. */
  datatype Ask = Ask(trigger: Cursor, events: seq<Event>)

  /** The events an ask may show; the first ask of a session shows none. */
  function Context(channel: string, cursor: Option<Cursor>, ask: Ask): seq<Event> {
    if cursor.None? then [] else Unread(ask.events, channel, cursor.value, ask.trigger)
  }

  function CursorAfter(channel: string, cursor: Option<Cursor>, ask: Ask): Cursor {
    Latest(ask.trigger, Context(channel, cursor, ask))
  }

  /** The cursor of the session is updated in place. */
  class AskSession {
    const channel: string
    var cursor: Option<Cursor>

    constructor (channel: string)
      ensures this.channel == channel && cursor == None
    {
      this.channel := channel;
      cursor := None;
    }

    /** Compose an ask; the cursor is stored when the ask was delivered. */
    method Compose(ask: Ask, delivered: bool) returns (lines: seq<seq<Byte>>, truncated: bool)
      modifies this
      ensures var unread := Context(channel, old(cursor), ask);
              && |lines| <= |unread|
              && (truncated <==> lines != Lines(unread))
              && cursor == if delivered then Some(CursorAfter(channel, old(cursor), ask)) else old(cursor)
    {
      var unread := Context(channel, cursor, ask);
      lines, truncated := CapContextLines(Lines(unread));
      var next := NextCursor(ask.trigger, unread);
      if delivered {
        cursor := Some(next);
      }
    }
  }

  function Lines(events: seq<Event>): (r: seq<seq<Byte>>)
    ensures |r| == |events|
  {
    seq(|events|, i requires 0 <= i < |events| => events[i].line)
  }

  /** The cursor never moves back at a step whose trigger is not behind it, or that shows something; and only then. */
  lemma CursorMovesOn(channel: string, cursor: Cursor, ask: Ask)
    ensures AtMost(cursor, CursorAfter(channel, Some(cursor), ask))
            <==> AtMost(cursor, ask.trigger) || Context(channel, Some(cursor), ask) != []
  {
    var unread := Context(channel, Some(cursor), ask);
    LatestIsMaximum(ask.trigger, unread);
    if unread != [] {
      assert unread[0] in unread;
    }
  }

  function CursorAfterAll(channel: string, cursor: Option<Cursor>, asks: seq<Ask>): Option<Cursor> {
    if asks == [] then cursor
    else Some(CursorAfter(channel, CursorAfterAll(channel, cursor, asks[..|asks| - 1]), asks[|asks| - 1]))
  }

  /** The cursor an ask of the run starts from. */
  function CursorAt(channel: string, asks: seq<Ask>, i: nat): Option<Cursor>
    requires i <= |asks|
  {
    CursorAfterAll(channel, None, asks[..i])
  }

  /** No ask is behind the cursor unless it still shows something. */
  ghost predicate Orderly(channel: string, asks: seq<Ask>) {
    forall i :: 0 <= i < |asks| && CursorAt(channel, asks, i).Some? ==>
      AtMost(CursorAt(channel, asks, i).value, asks[i].trigger) || Context(channel, CursorAt(channel, asks, i), asks[i]) != []
  }

  lemma CursorStep(channel: string, asks: seq<Ask>, i: nat)
    requires i < |asks|
    ensures CursorAt(channel, asks, i + 1) == Some(CursorAfter(channel, CursorAt(channel, asks, i), asks[i]))
  {
    assert asks[..i + 1][..i] == asks[..i];
  }

  lemma {:induction false} CursorsGrow(channel: string, asks: seq<Ask>, i: nat, j: nat)
    requires Orderly(channel, asks) && i < j <= |asks|
    ensures CursorAt(channel, asks, i + 1).Some? && CursorAt(channel, asks, j).Some?
    ensures AtMost(CursorAt(channel, asks, i + 1).value, CursorAt(channel, asks, j).value)
  {
    hide CursorAt, CursorAfter, Context;
    CursorStep(channel, asks, i);
    if i + 1 < j {
      CursorsGrow(channel, asks, i, j - 1);
      CursorStep(channel, asks, j - 1);
      CursorMovesOn(channel, CursorAt(channel, asks, j - 1).value, asks[j - 1]);
    }
  }

  /** Along an orderly run no event appears in two contexts. */
  lemma NoEventTwice(channel: string, asks: seq<Ask>, i: nat, j: nat, e: Event)
    requires Orderly(channel, asks) && i < j < |asks|
    requires e in Context(channel, CursorAt(channel, asks, i), asks[i])
    ensures e !in Context(channel, CursorAt(channel, asks, j), asks[j])
  {
    CursorsGrow(channel, asks, i, j);
    CursorStep(channel, asks, i);
    LatestIsMaximum(asks[i].trigger, Context(channel, CursorAt(channel, asks, i), asks[i]));
  }

  /** Ask `i` showed this event, and the cursor after `n` asks is behind it. */
  predicate BehindShown(channel: string, asks: seq<Ask>, n: nat, i: nat, e: Event)
    requires n <= |asks|
  {
    && i < n && e in Context(channel, CursorAt(channel, asks, i), asks[i])
    && (CursorAt(channel, asks, n).Some? ==> !AtMost(e.at, CursorAt(channel, asks, n).value))
  }

  /** The next ask shows an event again. */
  predicate ShowsAgain(channel: string, asks: seq<Ask>, n: nat, i: nat, e: Event, next: Ask)
    requires n <= |asks|
  {
    i < n && e in Context(channel, CursorAt(channel, asks, i), asks[i]) && e in Context(channel, CursorAt(channel, asks, n), next)
  }

  lemma ShownHere(channel: string, cursor: Cursor, trigger: Cursor, e: Event)
    requires e.channel == Some(channel) && Before(cursor, e.at) && e.at.id != trigger.id
    ensures Context(channel, Some(cursor), Ask(trigger, [e])) == [e]
  {
    var next := Ask(trigger, [e]);
    assert next.events[1..] == [];
    assert Unread(next.events, channel, cursor, trigger) == [e] + Unread(next.events[1..], channel, cursor, trigger);
  }

  /** The next ask can show an event again exactly when the cursor is behind one that was shown. */
  lemma RepeatsExactly(channel: string, asks: seq<Ask>, n: nat)
    requires n <= |asks|
    ensures (exists i: nat, e, next :: ShowsAgain(channel, asks, n, i, e, next))
            <==> exists i: nat, e :: BehindShown(channel, asks, n, i, e)
  {
    hide CursorAt, Context;
    if i: nat, e :| BehindShown(channel, asks, n, i, e) {
      CursorStep(channel, asks, n - 1);
      ShownIsOfChannel(channel, CursorAt(channel, asks, i), asks[i], e);
      var next := Ask(Cursor(e.at.createdAt, e.at.id + 1), [e]);
      ShownHere(channel, CursorAt(channel, asks, n).value, next.trigger, e);
      assert ShowsAgain(channel, asks, n, i, e, next);
    }
    if i: nat, e, next :| ShowsAgain(channel, asks, n, i, e, next) {
      ShownIsOfChannel(channel, CursorAt(channel, asks, n), next, e);
      assert BehindShown(channel, asks, n, i, e);
    }
  }

  lemma ShownIsOfChannel(channel: string, cursor: Option<Cursor>, ask: Ask, e: Event)
    requires e in Context(channel, cursor, ask)
    ensures cursor.Some? && e.channel == Some(channel) && Before(cursor.value, e.at)
  {
  }

  /** In an orderly run the cursor is never behind what was shown. */
  lemma OrderlyKeepsUp(channel: string, asks: seq<Ask>, n: nat, i: nat, e: Event)
    requires Orderly(channel, asks) && n <= |asks|
    ensures !BehindShown(channel, asks, n, i, e)
  {
    if i < n && e in Context(channel, CursorAt(channel, asks, i), asks[i]) {
      CursorsGrow(channel, asks, i, n);
      CursorStep(channel, asks, i);
      LatestIsMaximum(asks[i].trigger, Context(channel, CursorAt(channel, asks, i), asks[i]));
    }
  }

  /**
   Without that, an event can appear twice: three triggers wait in the queue, and the second ask
   shows everything up to the third, so the third ask puts the cursor back.
   */
  lemma EventTwice(line: seq<Byte>)
    ensures var channel := "c";
            var t1, t2, t3, e, t4 := Cursor(1, 1), Cursor(2, 2), Cursor(3, 3), Event(Cursor(4, 4), Some("c"), line), Cursor(5, 5);
            var asks := [Ask(t1, []), Ask(t2, [e]), Ask(t3, [e]), Ask(t4, [e])];
            && e in Context(channel, CursorAt(channel, asks, 1), asks[1])
            && !AtMost(CursorAt(channel, asks, 2).value, t3) && Context(channel, CursorAt(channel, asks, 2), asks[2]) == []
            && e in Context(channel, CursorAt(channel, asks, 3), asks[3])
  {
    var channel := "c";
    var t1, t2, t3, e, t4 := Cursor(1, 1), Cursor(2, 2), Cursor(3, 3), Event(Cursor(4, 4), Some("c"), line), Cursor(5, 5);
    var asks := [Ask(t1, []), Ask(t2, [e]), Ask(t3, [e]), Ask(t4, [e])];
    OneUnread(e, channel, t1, t2);
    OneUnread(e, channel, e.at, t3);
    OneUnread(e, channel, t3, t4);
    CursorStep(channel, asks, 0);
    CursorStep(channel, asks, 1);
    CursorStep(channel, asks, 2);
  }

  lemma OneUnread(e: Event, channel: string, cursor: Cursor, trigger: Cursor)
    ensures Unread([e], channel, cursor, trigger) == if IsUnread(e, channel, cursor, trigger) then [e] else []
    ensures Latest(trigger, [e]) == if Before(trigger, e.at) then e.at else trigger
  {
  }
}
