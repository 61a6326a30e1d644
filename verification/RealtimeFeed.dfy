/**
 Realtime cursors, the checks they undergo, the feed built from a game's event log for one viewer, and the
 cursor-chained batches in which the feed is sent.
 */
module RealtimeFeed {
  import opened Prelude

  type EventId = nat

  /** Game, participant, role and projection a cursor is meant for. */
  datatype Scope = Scope(game: nat, participant: nat, player: bool, projection: nat)

  datatype Cursor = Cursor(scope: Scope, version: int, sequence: int)

  /** `visible`: the viewer's projection of the event is not empty. */
  datatype Event = Event(id: EventId, game: nat, sequence: nat, version: nat, visible: bool)

  datatype Game = Game(id: nat, version: nat, events: seq<Event>)

  datatype Feed = Feed(from: Cursor, cursor: Cursor, events: seq<Event>)
  datatype Batch = Batch(from: Cursor, cursor: Cursor, events: seq<Event>, final: bool)

  datatype CursorError = Invalid | ScopeMismatch

  const SAFE := 9007199254740991

  /** The event log of a game: numbered from one, by versions that never fall and never pass the game's. */
  ghost predicate Logged(g: Game) {
    |g.events| <= SAFE && g.version <= SAFE &&
    (forall k :: 0 <= k < |g.events| ==>
      g.events[k].sequence == k + 1 && g.events[k].game == g.id && g.events[k].version <= g.version) &&
    (forall j, k :: 0 <= j <= k < |g.events| ==> g.events[j].version <= g.events[k].version) &&
    (forall j, k :: 0 <= j < k < |g.events| ==> g.events[j].id != g.events[k].id)
  }

  /** The last event carries the game's version. */
  predicate Current(g: Game) {
    g.version == if g.events == [] then 0 else g.events[|g.events| - 1].version
  }

  predicate Grows(g: Game, later: Game) {
    later.id == g.id && g.version <= later.version && g.events <= later.events
  }

  function LastSequence(g: Game): nat {
    if g.events == [] then 0 else g.events[|g.events| - 1].sequence
  }

  /** None in `offered` is a cursor without the right fields. */
  function Validate(g: Game, viewer: Option<Scope>, offered: Option<Cursor>): Option<CursorError> {
    if offered.None? then Some(Invalid)
    else
      var c := offered.value;
      if viewer.None? then Some(ScopeMismatch)
      else if c.scope.game != g.id || c.scope != viewer.value.(game := g.id) then Some(ScopeMismatch)
      else if c.version > SAFE || c.sequence > SAFE || c.version < 0 || c.sequence < 0 || c.version > g.version ||
        c.sequence > LastSequence(g) then Some(Invalid)
      else if c.sequence == 0 then if c.version == 0 then None else Some(Invalid)
      else if c.sequence - 1 >= |g.events| then Some(Invalid)
      else
        var e := g.events[c.sequence - 1];
        if e.sequence != c.sequence || e.version != c.version then Some(Invalid) else None
  }

  function CursorOf(g: Game, viewer: Scope): Cursor {
    Cursor(viewer.(game := g.id), g.version, LastSequence(g))
  }

  function After(events: seq<Event>, sequence: int): seq<Event> {
    if events == [] then []
    else
      var last := events[|events| - 1];
      After(events[..|events| - 1], sequence) + if last.sequence > sequence && last.visible then [last] else []
  }

  function FeedOf(g: Game, viewer: Scope, after: Cursor): Feed {
    Feed(after, CursorOf(g, viewer), After(g.events, after.sequence))
  }

  // -------------------------------------------------------------- validation

  /** The cursor stands at the start, or at an event of the log with that event's version. */
  predicate Stands(g: Game, c: Cursor) {
    (c.sequence == 0 && c.version == 0) ||
    (1 <= c.sequence <= |g.events| && g.events[c.sequence - 1].version == c.version)
  }

  lemma ValidatesIff(g: Game, viewer: Scope, c: Cursor)
    requires Logged(g)
    ensures Validate(g, Some(viewer), Some(c)).None? <==> c.scope == viewer.(game := g.id) && Stands(g, c)
  {
    if 1 <= c.sequence <= |g.events| {
      assert g.events[c.sequence - 1].version <= g.version;
    }
  }

  /** A cursor that validated keeps validating as the game grows. */
  lemma ValidStaysValid(g: Game, later: Game, viewer: Scope, c: Cursor)
    requires Logged(g) && Logged(later) && Grows(g, later) && Validate(g, Some(viewer), Some(c)).None?
    ensures Validate(later, Some(viewer), Some(c)).None?
  {
    ValidatesIff(g, viewer, c);
    ValidatesIff(later, viewer, c);
  }

  /** The game's own cursor validates, now and later, exactly when the game's last commit emitted an event. */
  lemma OwnCursorValidatesIff(g: Game, later: Game, viewer: Scope)
    requires Logged(g) && Logged(later) && Grows(g, later)
    ensures Validate(later, Some(viewer), Some(CursorOf(g, viewer))).None? <==> Current(g)
  {
    ValidatesIff(later, viewer, CursorOf(g, viewer));
  }

  // ----------------------------------------------------------------- commits

  /** An accepted command appends events, at least one; for each, whether the viewer may see it. */
  type Commit = c: seq<bool> | c != [] witness [true]

  /** Events are numbered on from the log, under the version the commit brings, and named by their numbers. */
  function Stamped(g: Game, c: Commit): (events: seq<Event>)
    ensures |events| == |c|
  {
    seq(|c|, i requires 0 <= i < |c| =>
      Event(|g.events| + 1 + i, g.id, |g.events| + 1 + i, g.version + 1, c[i]))
  }

  function Committed(g: Game, c: Commit): Game {
    Game(g.id, g.version + 1, g.events + Stamped(g, c))
  }

  /** The game after these commits, from its creation on. */
  function Played(id: nat, commits: seq<Commit>): Game {
    if commits == [] then Game(id, 0, [])
    else Committed(Played(id, commits[..|commits| - 1]), commits[|commits| - 1])
  }

  /** The numbers stay within those a cursor can hold. */
  predicate Fits(g: Game) {
    |g.events| <= SAFE && g.version <= SAFE
  }

  ghost predicate Named(g: Game) {
    forall k :: 0 <= k < |g.events| ==> g.events[k].id == k + 1
  }

  lemma CommitStaysCurrent(g: Game, c: Commit)
    requires Logged(g) && Named(g) && Fits(Committed(g, c))
    ensures
      var later := Committed(g, c);
      Logged(later) && Named(later) && Current(later) && Grows(g, later)
  {
    var later := Committed(g, c);
    assert forall k :: 0 <= k < |g.events| ==> later.events[k] == g.events[k];
    assert forall k :: |g.events| <= k < |later.events| ==> later.events[k] == Stamped(g, c)[k - |g.events|];
  }

  /** Every state of a game is current, because every commit appends an event; and its log only grows. */
  lemma {:induction false} PlayedIsCurrent(id: nat, commits: seq<Commit>)
    requires Fits(Played(id, commits))
    ensures var g := Played(id, commits); Logged(g) && Named(g) && Current(g) && g.id == id
  {
    if commits != [] {
      var before := Played(id, commits[..|commits| - 1]);
      PlayedIsCurrent(id, commits[..|commits| - 1]);
      CommitStaysCurrent(before, commits[|commits| - 1]);
    }
  }

  lemma {:induction false} PlayedGrows(id: nat, commits: seq<Commit>, more: seq<Commit>)
    ensures Grows(Played(id, commits), Played(id, commits + more)) && Played(id, commits + more).id == id
  {
    hide Stamped;
    var all := commits + more;
    if more == [] {
      assert all == commits;
      if commits != [] {
        PlayedGrows(id, commits[..|commits| - 1], []);
        assert commits[..|commits| - 1] + [] == commits[..|commits| - 1];
      }
    } else {
      var init := more[..|more| - 1];
      PlayedGrows(id, commits, init);
      assert all[..|all| - 1] == commits + init && all[|all| - 1] == more[|more| - 1];
    }
  }

  // ------------------------------------------------------------------- feeds

  ghost predicate Increasing(events: seq<Event>) {
    forall j, k :: 0 <= j < k < |events| ==> events[j].sequence < events[k].sequence
  }

  /** Exactly the events of the log the viewer may see after one sequence number and up to another, in order. */
  ghost predicate Complete(log: seq<Event>, events: seq<Event>, from: int, to: int) {
    Increasing(events) && forall e :: e in events <==> e in log && e.visible && from < e.sequence <= to
  }

  lemma {:induction false} AfterIsComplete(events: seq<Event>, sequence: int)
    requires forall k :: 0 <= k < |events| ==> events[k].sequence == k + 1
    ensures Complete(events, After(events, sequence), sequence, |events|)
  {
    if events != [] {
      var init, last := events[..|events| - 1], events[|events| - 1];
      AfterIsComplete(init, sequence);
      assert events == init + [last];
      forall e | e in init
        ensures e.sequence < last.sequence
      {
      }
      forall e | e in After(events, sequence)
        ensures e in events && e.visible && sequence < e.sequence <= |events|
      {
      }
    }
  }

  /** The same range of a longer log holds the same events. */
  lemma CompleteInLaterLog(g: Game, later: Game, events: seq<Event>, from: int, to: int)
    requires Logged(g) && Logged(later) && Grows(g, later) && Complete(g.events, events, from, to) && to <= |g.events|
    ensures Complete(later.events, events, from, to)
  {
    forall e | e in later.events && e.visible && from < e.sequence <= to
      ensures e in g.events
    {
      var k :| 0 <= k < |later.events| && later.events[k] == e;
      assert e == g.events[e.sequence - 1];
    }
  }

  predicate AtOrBefore(a: Cursor, b: Cursor) {
    a.sequence <= b.sequence && a.version <= b.version
  }

  predicate AtOrAfter(a: Cursor, b: Cursor) {
    a.sequence > b.sequence || (a.sequence == b.sequence && a.version >= b.version)
  }

  /** What a consumer demands of the events between two cursors. */
  predicate InRange(from: Cursor, to: Cursor, events: seq<Event>) {
    from.scope == to.scope && AtOrAfter(to, from) &&
    (forall k :: 0 <= k < |events| ==>
      events[k].game == to.scope.game && from.sequence < events[k].sequence <= to.sequence &&
        events[k].version <= to.version) &&
    forall k :: 0 < k < |events| ==> events[k - 1].sequence < events[k].sequence
  }

  /** The feed after a valid cursor holds every visible event since, and passes the consumer's check. */
  lemma FeedIsComplete(g: Game, viewer: Scope, after: Cursor)
    requires Logged(g) && Validate(g, Some(viewer), Some(after)).None?
    ensures
      var feed := FeedOf(g, viewer, after);
      Complete(g.events, feed.events, after.sequence, feed.cursor.sequence) && AtOrBefore(after, feed.cursor) &&
      feed.cursor.sequence == |g.events| && InRange(after, feed.cursor, feed.events)
  {
    AfterIsComplete(g.events, after.sequence);
    ValidatesIff(g, viewer, after);
    var feed := FeedOf(g, viewer, after);
    forall k | 0 <= k < |feed.events|
      ensures feed.events[k] in g.events
      ensures feed.events[k].game == g.id && feed.events[k].version <= g.version
      ensures after.sequence < feed.events[k].sequence <= |g.events|
    {
      assert feed.events[k] in feed.events;
    }
  }

  // ----------------------------------------------------------------- batches

  /** The cursor after the first n events: the last of them, or the feed's own at the end. */
  function BatchCursor(feed: Feed, n: nat): Cursor
    requires n <= |feed.events|
  {
    if n == |feed.events| || n == 0 then feed.cursor
    else feed.cursor.(version := feed.events[n - 1].version, sequence := feed.events[n - 1].sequence)
  }

  /** The batches that carry the events from the n-th on; an empty feed is one empty batch. */
  function Batches(feed: Feed, size: nat, n: nat, start: Cursor): (batches: seq<Batch>)
    requires size > 0 && n <= |feed.events|
    ensures batches != []
    decreases |feed.events| - n
  {
    var end := Min(n + size, |feed.events|);
    var batch := Batch(start, BatchCursor(feed, end), feed.events[n..end], end == |feed.events|);
    if end == |feed.events| then [batch] else [batch] + Batches(feed, size, end, batch.cursor)
  }

  function Joined(batches: seq<Batch>): seq<Event> {
    if batches == [] then [] else batches[0].events + Joined(batches[1..])
  }

  ghost predicate Chained(batches: seq<Batch>, from: Cursor, to: Cursor) {
    |batches| > 0 && batches[0].from == from && batches[|batches| - 1].cursor == to &&
    (forall k :: 0 < k < |batches| ==> batches[k].from == batches[k - 1].cursor) &&
    forall k :: 0 <= k < |batches| ==> (batches[k].final <==> k == |batches| - 1)
  }

  ghost predicate Sound(g: Game, b: Batch) {
    Complete(g.events, b.events, b.from.sequence, b.cursor.sequence) && InRange(b.from, b.cursor, b.events) &&
    AtOrBefore(b.from, b.cursor)
  }

  /** A feed as it is built from a log. */
  ghost predicate Built(g: Game, feed: Feed) {
    Logged(g) && Complete(g.events, feed.events, feed.from.sequence, feed.cursor.sequence) &&
    feed.cursor.sequence == |g.events| && feed.cursor.version == g.version && feed.cursor.scope.game == g.id &&
    feed.from.scope == feed.cursor.scope && AtOrBefore(feed.from, feed.cursor) && Stands(g, feed.from)
  }

  lemma FeedIsBuilt(g: Game, viewer: Scope, after: Cursor)
    requires Logged(g) && Validate(g, Some(viewer), Some(after)).None?
    ensures Built(g, FeedOf(g, viewer, after))
  {
    FeedIsComplete(g, viewer, after);
    ValidatesIff(g, viewer, after);
  }

  /** Where the batch that starts at the n-th event begins. */
  ghost predicate StartsAt(feed: Feed, n: nat, start: Cursor) {
    n <= |feed.events| && start == if n == 0 then feed.from else BatchCursor(feed, n)
  }

  lemma EventFacts(g: Game, feed: Feed, n: nat)
    requires Built(g, feed) && n < |feed.events|
    ensures
      var e := feed.events[n];
      1 <= e.sequence <= |g.events| && e == g.events[e.sequence - 1] && e.visible && feed.from.sequence < e.sequence &&
      e.game == g.id && e.version <= g.version
    ensures feed.from.version <= feed.events[n].version
  {
    assert feed.events[n] in feed.events;
    var k :| 0 <= k < |g.events| && g.events[k] == feed.events[n];
    if feed.from.sequence > 0 {
      assert g.events[feed.from.sequence - 1].version <= g.events[k].version;
    }
  }

  /** Where a slice of a feed starts and ends, and that its ends are in range. */
  ghost predicate Slice(feed: Feed, n: nat, end: nat, start: Cursor) {
    StartsAt(feed, n, start) && n <= end <= |feed.events| && (n < end || end == |feed.events|) &&
      (n < |feed.events| || n == 0)
  }

  lemma SliceEvents(g: Game, feed: Feed, n: nat, end: nat, start: Cursor, k: nat)
    requires Built(g, feed) && Slice(feed, n, end, start) && n <= k < end
    ensures start.sequence < feed.events[k].sequence <= BatchCursor(feed, end).sequence
    ensures feed.events[k].version <= BatchCursor(feed, end).version
    ensures feed.events[k].game == g.id && feed.events[k] in g.events && feed.events[k].visible
  {
    EventFacts(g, feed, k);
    if n > 0 {
      EventFacts(g, feed, n - 1);
    }
    if end < |feed.events| {
      EventFacts(g, feed, end - 1);
    }
  }

  lemma SliceHoldsAll(g: Game, feed: Feed, n: nat, end: nat, start: Cursor, e: Event)
    requires Built(g, feed) && Slice(feed, n, end, start)
    requires e in g.events && e.visible && start.sequence < e.sequence <= BatchCursor(feed, end).sequence
    ensures e in feed.events[n..end]
  {
    if n > 0 {
      EventFacts(g, feed, n - 1);
    }
    if 0 < end < |feed.events| {
      EventFacts(g, feed, end - 1);
    }
    assert e in feed.events;
    var k :| 0 <= k < |feed.events| && feed.events[k] == e;
    assert feed.events[n..end][k - n] == e;
  }

  lemma SliceHoldsOnly(g: Game, feed: Feed, n: nat, end: nat, start: Cursor, e: Event)
    requires Built(g, feed) && Slice(feed, n, end, start) && e in feed.events[n..end]
    ensures e in g.events && e.visible && start.sequence < e.sequence <= BatchCursor(feed, end).sequence
  {
    var slice := feed.events[n..end];
    var k :| 0 <= k < |slice| && slice[k] == e;
    hide *;
    SliceEvents(g, feed, n, end, start, n + k);
  }

  predicate Between(log: seq<Event>, from: int, to: int, e: Event) {
    e in log && e.visible && from < e.sequence <= to
  }

  lemma CompleteWhen(log: seq<Event>, events: seq<Event>, from: int, to: int)
    requires Increasing(events) && forall e :: e in events <==> Between(log, from, to, e)
    ensures Complete(log, events, from, to)
  {
    assert forall e :: e in events <==> e in log && e.visible && from < e.sequence <= to by {
      assert forall e :: Between(log, from, to, e) <==> e in log && e.visible && from < e.sequence <= to;
    }
  }

  lemma SliceIsComplete(g: Game, feed: Feed, n: nat, end: nat, start: Cursor)
    requires Built(g, feed) && Slice(feed, n, end, start)
    ensures Complete(g.events, feed.events[n..end], start.sequence, BatchCursor(feed, end).sequence)
  {
    hide Built, StartsAt, BatchCursor, Complete;
    SliceIncreases(g, feed, n, end, start);
    var to, slice := BatchCursor(feed, end).sequence, feed.events[n..end];
    forall e
      ensures e in slice <==> Between(g.events, start.sequence, to, e)
    {
      if e in slice {
        SliceHoldsOnly(g, feed, n, end, start, e);
      }
      if Between(g.events, start.sequence, to, e) {
        SliceHoldsAll(g, feed, n, end, start, e);
      }
    }
    CompleteWhen(g.events, slice, start.sequence, to);
  }

  lemma SliceIncreases(g: Game, feed: Feed, n: nat, end: nat, start: Cursor)
    requires Built(g, feed) && Slice(feed, n, end, start)
    ensures Increasing(feed.events[n..end])
  {
  }

  lemma SliceIsInRange(g: Game, feed: Feed, n: nat, end: nat, start: Cursor)
    requires Built(g, feed) && Slice(feed, n, end, start)
    ensures InRange(start, BatchCursor(feed, end), feed.events[n..end]) && AtOrBefore(start, BatchCursor(feed, end))
  {
    SliceBounds(g, feed, n, end, start);
    SliceIncreases(g, feed, n, end, start);
    var to, slice := BatchCursor(feed, end), feed.events[n..end];
    assert to.scope.game == g.id;
    hide Built, BatchCursor, Slice;
    forall k | 0 <= k < |slice|
      ensures slice[k].game == g.id && start.sequence < slice[k].sequence <= to.sequence
      ensures slice[k].version <= to.version
    {
      SliceEvents(g, feed, n, end, start, n + k);
    }
  }

  /** A slice of a feed is complete between the cursors at its ends and passes the consumer's check. */
  lemma SliceIsSound(g: Game, feed: Feed, n: nat, end: nat, start: Cursor)
    requires Built(g, feed) && Slice(feed, n, end, start)
    ensures Sound(g, Batch(start, BatchCursor(feed, end), feed.events[n..end], end == |feed.events|))
  {
    hide Built, InRange, Complete;
    SliceIsComplete(g, feed, n, end, start);
    SliceIsInRange(g, feed, n, end, start);
  }

  lemma SliceBounds(g: Game, feed: Feed, n: nat, end: nat, start: Cursor)
    requires Built(g, feed) && Slice(feed, n, end, start)
    ensures AtOrBefore(start, BatchCursor(feed, end)) && start.scope == BatchCursor(feed, end).scope
  {
    if n > 0 {
      EventFacts(g, feed, n - 1);
      if end < |feed.events| {
        EventFacts(g, feed, end - 1);
        var a, b := feed.events[n - 1], feed.events[end - 1];
        assert a.sequence <= b.sequence;
        assert g.events[a.sequence - 1].version <= g.events[b.sequence - 1].version;
      }
    } else if 0 < end < |feed.events| {
      EventFacts(g, feed, end - 1);
    }
  }

  lemma ChainOn(batch: Batch, rest: seq<Batch>, to: Cursor)
    requires Chained(rest, batch.cursor, to) && !batch.final
    ensures Chained([batch] + rest, batch.from, to) && Joined([batch] + rest) == batch.events + Joined(rest)
  {
    var batches := [batch] + rest;
    assert batches[1..] == rest;
    forall k | 0 < k < |batches|
      ensures batches[k] == rest[k - 1]
    {
    }
  }

  ghost predicate AllSound(g: Game, batches: seq<Batch>, size: nat) {
    forall k :: 0 <= k < |batches| ==> Sound(g, batches[k]) && |batches[k].events| <= size
  }

  lemma SoundOn(g: Game, batch: Batch, rest: seq<Batch>, size: nat)
    requires Sound(g, batch) && |batch.events| <= size && AllSound(g, rest, size)
    ensures AllSound(g, [batch] + rest, size)
  {
    hide Sound;
  }

  /**
   Nothing is lost or repeated in batching: the batches' events, one after the other, are the feed's, each batch
   starts where the one before ended, holds every visible event of its range and passes the consumer's check.
   */
  lemma {:induction false} BatchingIsLossless(g: Game, feed: Feed, size: nat, n: nat, start: Cursor)
    requires size > 0 && Built(g, feed) && StartsAt(feed, n, start) && (n < |feed.events| || n == 0)
    ensures
      var batches := Batches(feed, size, n, start);
      Joined(batches) == feed.events[n..] && Chained(batches, start, feed.cursor) && AllSound(g, batches, size)
    decreases |feed.events| - n
  {
    hide Built, Sound;
    var end := Min(n + size, |feed.events|);
    SliceIsSound(g, feed, n, end, start);
    var batch := Batch(start, BatchCursor(feed, end), feed.events[n..end], end == |feed.events|);
    if end < |feed.events| {
      hide AllSound, Chained, Joined;
      BatchingIsLossless(g, feed, size, end, batch.cursor);
      var rest := Batches(feed, size, end, batch.cursor);
      ChainOn(batch, rest, feed.cursor);
      SoundOn(g, batch, rest, size);
      assert feed.events[n..] == feed.events[n..end] + feed.events[end..];
    }
  }

  /** All these cursors validate, the last one exactly when the condition holds. */
  ghost predicate AllValid(later: Game, viewer: Scope, batches: seq<Batch>, last: bool) {
    forall k :: 0 <= k < |batches| ==>
      (Validate(later, Some(viewer), Some(batches[k].cursor)).None? <==> (k < |batches| - 1 || last))
  }

  lemma ValidOn(later: Game, viewer: Scope, batch: Batch, rest: seq<Batch>, last: bool)
    requires AllValid(later, viewer, rest, last) && rest != []
    requires Validate(later, Some(viewer), Some(batch.cursor)).None?
    ensures AllValid(later, viewer, [batch] + rest, last)
  {
    hide Validate;
    forall k | 0 < k < |[batch] + rest|
      ensures ([batch] + rest)[k] == rest[k - 1]
    {
    }
  }

  /**
   Every cursor a batch ends at validates against every later state of the game, the last one exactly when
   the game was current.
   */
  lemma {:induction false} IssuedCursorsStayValid(g: Game, later: Game, viewer: Scope, feed: Feed, size: nat, n: nat,
                                                  start: Cursor)
    requires size > 0 && Built(g, feed) && StartsAt(feed, n, start) && (n < |feed.events| || n == 0)
    requires Logged(later) && Grows(g, later) && feed.cursor == CursorOf(g, viewer)
    ensures AllValid(later, viewer, Batches(feed, size, n, start), Current(g))
    decreases |feed.events| - n
  {
    var end := Min(n + size, |feed.events|);
    if end < |feed.events| {
      var cursor := BatchCursor(feed, end);
      EventFacts(g, feed, end - 1);
      ValidatesIff(later, viewer, cursor);
      IssuedCursorsStayValid(g, later, viewer, feed, size, end, cursor);
      hide Validate, Built, AllValid, Logged;
      ValidOn(later, viewer, Batch(start, cursor, feed.events[n..end], false), Batches(feed, size, end, cursor),
              Current(g));
    } else {
      assert Logged(g);
      OwnCursorValidatesIff(g, later, viewer);
      hide Validate, Built, Logged, Current;
    }
  }
}
