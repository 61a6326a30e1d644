/** A server subscription: what it has issued, what its client has acknowledged, and what it has sent. */
module RealtimeServer {
  import opened Prelude
  import opened RealtimeFeed

  /** The text of a cursor's position decides the position. */
  datatype Key = Key(sequence: int, version: int)

  /** `sent` lists the frames sent, in order. */
  datatype Subscription = Subscription(initial: Cursor, lastIssued: Cursor, lastAcknowledged: Cursor,
                                       issued: map<Key, Cursor>, acknowledged: set<Key>, sent: seq<Batch>)

  function KeyOf(c: Cursor): Key {
    Key(c.sequence, c.version)
  }

  /** None: the client's cursor is refused. `own` is the game's cursor, which the first frame carries. */
  function Subscribed(after: Option<Cursor>, own: Cursor): Option<Subscription> {
    var start := if after.Some? then after.value else own;
    if start.scope != own.scope || !AtOrBefore(start, own) then None
    else Some(Subscription(start, start, start, map[KeyOf(own) := own], {KeyOf(start)}, []))
  }

  function Issue(issued: map<Key, Cursor>, batches: seq<Batch>): map<Key, Cursor> {
    if batches == [] then issued
    else
      var last := batches[|batches| - 1].cursor;
      Issue(issued, batches[..|batches| - 1])[KeyOf(last) := last]
  }

  function SendFeed(s: Subscription, feed: Feed, size: nat): Subscription
    requires size > 0
  {
    if feed.events == [] && AtOrBefore(feed.cursor, s.lastIssued) then s
    else if !AtOrBefore(s.lastIssued, feed.cursor) then s
    else
      var batches := Batches(feed, size, 0, feed.from);
      s.(issued := Issue(s.issued, batches), sent := s.sent + batches, lastIssued := feed.cursor)
  }

  /** A catch-up whose cursor does not validate is refused. */
  function CatchUp(s: Subscription, g: Game, viewer: Scope, from: Cursor, size: nat): Subscription
    requires size > 0
  {
    if Validate(g, Some(viewer), Some(from)).Some? then s else SendFeed(s, FeedOf(g, viewer, from), size)
  }

  predicate MayResync(s: Subscription, after: Cursor) {
    after.scope == s.lastIssued.scope &&
    (KeyOf(after) == KeyOf(s.initial) || KeyOf(after) in s.issued || KeyOf(after) in s.acknowledged)
  }

  /** None: the acknowledgement is refused; a repeated one is accepted without effect. */
  function Acknowledge(s: Subscription, cursor: Cursor): Option<Subscription> {
    if cursor.scope != s.lastIssued.scope then None
    else if KeyOf(cursor) in s.acknowledged then Some(s)
    else if KeyOf(cursor) !in s.issued || !AtOrBefore(s.lastAcknowledged, cursor) then None
    else Some(s.(lastAcknowledged := cursor, acknowledged := s.acknowledged + {KeyOf(cursor)}))
  }

  datatype Op = Wake | Resync(after: Cursor) | Ack(cursor: Cursor)

  /** One operation from the subscription's queue, against the game as it then is. */
  function Step(s: Subscription, g: Game, viewer: Scope, op: Op, size: nat): Subscription
    requires size > 0
  {
    match op
    case Wake => CatchUp(s, g, viewer, s.lastIssued, size)
    case Resync(after) => if MayResync(s, after) then CatchUp(s, g, viewer, after, size) else s
    case Ack(cursor) => var acked := Acknowledge(s, cursor); if acked.Some? then acked.value else s
  }

  // -------------------------------------------------------------- invariant

  ghost predicate Valid(g: Game, viewer: Scope, c: Cursor) {
    Validate(g, Some(viewer), Some(c)).None?
  }

  /** Every issued cursor is kept under its own position and is valid. */
  ghost predicate Keyed(issued: map<Key, Cursor>, g: Game, viewer: Scope) {
    forall k :: k in issued ==> KeyOf(issued[k]) == k && Valid(g, viewer, issued[k])
  }

  ghost predicate Cursors(s: Subscription, g: Game, viewer: Scope) {
    Valid(g, viewer, s.initial) && Valid(g, viewer, s.lastIssued) && s.lastAcknowledged.scope == s.lastIssued.scope &&
    Keyed(s.issued, g, viewer) && (forall k :: k in s.acknowledged ==> k in s.issued || k == KeyOf(s.initial)) &&
    KeyOf(s.lastAcknowledged) in s.acknowledged &&
    forall b :: b in s.sent ==> KeyOf(b.cursor) in s.issued && b.cursor.scope == s.lastIssued.scope
  }

  /** Every event the viewer may see between the start and the last issued cursor is in a frame that was sent. */
  ghost predicate NothingSkipped(s: Subscription, g: Game) {
    forall e :: e in g.events && e.visible && s.initial.sequence < e.sequence <= s.lastIssued.sequence ==>
      e in Joined(s.sent)
  }

  ghost predicate Inv(s: Subscription, g: Game, viewer: Scope) {
    Logged(g) && Cursors(s, g, viewer) && NothingSkipped(s, g)
  }

  /** A subscription that starts at the game's own cursor, or at a valid one before it, is in order. */
  lemma SubscribedIsSound(after: Option<Cursor>, g: Game, viewer: Scope)
    requires Logged(g) && Current(g) && (after.Some? ==> Valid(g, viewer, after.value))
    ensures Subscribed(after, CursorOf(g, viewer)).Some?
    ensures Inv(Subscribed(after, CursorOf(g, viewer)).value, g, viewer)
  {
    OwnCursorValidatesIff(g, g, viewer);
    if after.Some? {
      ValidatesIff(g, viewer, after.value);
      FeedIsComplete(g, viewer, after.value);
    }
    hide Validate;
  }

  lemma CursorsLater(s: Subscription, g: Game, later: Game, viewer: Scope)
    requires Logged(g) && Logged(later) && Grows(g, later) && Cursors(s, g, viewer)
    ensures Cursors(s, later, viewer)
  {
    hide Logged, Grows, Validate;
    forall c | Valid(g, viewer, c)
      ensures Valid(later, viewer, c)
    {
      ValidStaysValid(g, later, viewer, c);
    }
  }

  lemma InvLater(s: Subscription, g: Game, later: Game, viewer: Scope)
    requires Logged(later) && Grows(g, later) && Inv(s, g, viewer)
    ensures Inv(s, later, viewer)
  {
    CursorsLater(s, g, later, viewer);
    ValidatesIff(g, viewer, s.lastIssued);
    hide Cursors, Validate;
    forall e | e in later.events && e.visible && s.initial.sequence < e.sequence <= s.lastIssued.sequence
      ensures e in Joined(s.sent)
    {
      assert e == later.events[e.sequence - 1];
      assert e == g.events[e.sequence - 1];
    }
  }

  lemma {:induction false} JoinedAppend(a: seq<Batch>, b: seq<Batch>)
    ensures Joined(a + b) == Joined(a) + Joined(b)
  {
    if a == [] {
      assert a + b == b;
    } else {
      assert (a + b)[1..] == a[1..] + b;
      JoinedAppend(a[1..], b);
    }
  }

  lemma {:induction false} IssuedKeys(issued: map<Key, Cursor>, batches: seq<Batch>, g: Game, viewer: Scope)
    requires Keyed(issued, g, viewer)
    requires forall k :: 0 <= k < |batches| ==> Valid(g, viewer, batches[k].cursor)
    ensures Keyed(Issue(issued, batches), g, viewer) && forall k :: k in issued ==> k in Issue(issued, batches)
    ensures forall b :: b in batches ==> KeyOf(b.cursor) in Issue(issued, batches)
  {
    if batches != [] {
      hide Valid;
      var init, last := batches[..|batches| - 1], batches[|batches| - 1].cursor;
      IssuedKeys(issued, init, g, viewer);
      assert Valid(g, viewer, last);
      assert Issue(issued, batches) == Issue(issued, init)[KeyOf(last) := last];
      assert batches == init + [batches[|batches| - 1]];
    }
  }

  lemma ValidBatches(g: Game, viewer: Scope, batches: seq<Batch>)
    requires Logged(g) && AllValid(g, viewer, batches, true)
    ensures forall k :: 0 <= k < |batches| ==> Valid(g, viewer, batches[k].cursor)
    ensures forall b :: b in batches ==> b.cursor.scope == viewer.(game := g.id)
  {
    forall k | 0 <= k < |batches|
      ensures batches[k].cursor.scope == viewer.(game := g.id)
    {
      ValidatesIff(g, viewer, batches[k].cursor);
    }
    hide Validate;
  }

  /** Once the subscription has caught up, no cursor it has issued is ahead of the last one. */
  ghost predicate Behind(s: Subscription) {
    s.initial.sequence <= s.lastIssued.sequence && forall k :: k in s.issued ==> k.sequence <= s.lastIssued.sequence
  }

  /** All visible events after a place are in the frames. */
  ghost predicate Carried(g: Game, from: int, frames: seq<Batch>) {
    forall e :: e in g.events && e.visible && from < e.sequence ==> e in Joined(frames)
  }

  /** What a catch-up achieves. */
  ghost predicate CaughtUp(s: Subscription, after: Subscription, g: Game, viewer: Scope) {
    Inv(after, g, viewer) && Behind(after) && after.lastIssued == CursorOf(g, viewer) &&
    AtOrBefore(s.lastIssued, after.lastIssued) && after.lastAcknowledged == s.lastAcknowledged &&
    after.acknowledged == s.acknowledged && s.sent <= after.sent && after.initial == s.initial &&
    (forall k :: k in s.issued ==> k in after.issued) &&
    Carried(g, s.lastIssued.sequence, after.sent[|s.sent|..])
  }

  /** The catch-up sends the events after its cursor, in batches, unless there is nothing new. */
  lemma SendsAll(s: Subscription, g: Game, viewer: Scope, feed: Feed, size: nat)
    requires size > 0 && NothingSkipped(s, g) && feed.from.sequence <= s.lastIssued.sequence
    requires Joined(Batches(feed, size, 0, feed.from)) == feed.events
    requires Complete(g.events, feed.events, feed.from.sequence, feed.cursor.sequence)
    requires feed.cursor.sequence == |g.events|
    requires Logged(g) && AtOrBefore(s.lastIssued, feed.cursor)
    ensures
      var after := SendFeed(s, feed, size);
      NothingSkipped(after, g) && s.sent <= after.sent && Carried(g, s.lastIssued.sequence, after.sent[|s.sent|..]) &&
      after.lastIssued.sequence == feed.cursor.sequence
  {
    var batches, after := Batches(feed, size, 0, feed.from), SendFeed(s, feed, size);
    JoinedAppend(s.sent, batches);
    hide Batches, Issue;
    if feed.events == [] && AtOrBefore(feed.cursor, s.lastIssued) {
      assert after == s && after.sent[|s.sent|..] == [];
      assert forall e :: e in g.events && e.visible && feed.from.sequence < e.sequence ==> e in feed.events;
    } else {
      assert after.sent == s.sent + batches && after.sent[|s.sent|..] == batches;
      forall e | e in g.events && e.visible && s.lastIssued.sequence < e.sequence
        ensures e in Joined(batches)
      {
        assert e in feed.events;
      }
    }
  }

  lemma SendKeepsCursors(s: Subscription, g: Game, viewer: Scope, feed: Feed, size: nat)
    requires size > 0 && Logged(g) && Cursors(s, g, viewer)
    requires AllValid(g, viewer, Batches(feed, size, 0, feed.from), true)
    requires feed.cursor == CursorOf(g, viewer) && Valid(g, viewer, feed.cursor)
    requires AtOrBefore(s.lastIssued, feed.cursor)
    requires s.lastIssued.scope == feed.cursor.scope
    ensures
      var after := SendFeed(s, feed, size);
      Cursors(after, g, viewer) && after.lastIssued == feed.cursor && after.lastAcknowledged == s.lastAcknowledged &&
      after.acknowledged == s.acknowledged && after.initial == s.initial && forall k :: k in s.issued ==>
        k in after.issued
  {
    ValidBatches(g, viewer, Batches(feed, size, 0, feed.from));
    IssuedKeys(s.issued, Batches(feed, size, 0, feed.from), g, viewer);
    hide Valid, Batches, CursorOf, Issue;
    if feed.events == [] && AtOrBefore(feed.cursor, s.lastIssued) {
      assert s.lastIssued.sequence == feed.cursor.sequence && s.lastIssued.version == feed.cursor.version;
      assert s.lastIssued == feed.cursor;
    }
  }

  lemma CaughtUpIsBehind(s: Subscription, g: Game, viewer: Scope)
    requires Logged(g) && Cursors(s, g, viewer) && s.lastIssued == CursorOf(g, viewer)
    ensures Behind(s)
  {
    ValidatesIff(g, viewer, s.initial);
    forall k | k in s.issued
      ensures k.sequence <= s.lastIssued.sequence
    {
      assert Valid(g, viewer, s.issued[k]);
      ValidatesIff(g, viewer, s.issued[k]);
    }
  }

  /**
   A catch-up from a valid cursor is not refused, keeps everything in order and carries every event not yet
   issued.
   */
  lemma CatchUpKeeps(s: Subscription, g: Game, viewer: Scope, from: Cursor, size: nat)
    requires size > 0 && Current(g) && Inv(s, g, viewer) && Valid(g, viewer, from)
    requires from.sequence <= s.lastIssued.sequence
    ensures CaughtUp(s, CatchUp(s, g, viewer, from, size), g, viewer)
  {
    var feed := FeedOf(g, viewer, from);
    FeedIsBuilt(g, viewer, from);
    FeedIsComplete(g, viewer, from);
    IssuedCursorsStayValid(g, g, viewer, feed, size, 0, from);
    BatchingIsLossless(g, feed, size, 0, from);
    FeedIsComplete(g, viewer, s.lastIssued);
    ValidatesIff(g, viewer, s.lastIssued);
    OwnCursorValidatesIff(g, g, viewer);
    assert feed.events[0..] == feed.events;
    SendsAll(s, g, viewer, feed, size);
    SendKeepsCursors(s, g, viewer, feed, size);
    CaughtUpIsBehind(SendFeed(s, feed, size), g, viewer);
    assert CatchUp(s, g, viewer, from, size) == SendFeed(s, feed, size);
    hide SendFeed, Cursors, NothingSkipped, Carried, Behind, Logged;
  }

  // ------------------------------------------------------------------- runs

  /** Subscribing sends the game's own cursor and then, first in the queue, the events since the client's. */
  function Opened(after: Option<Cursor>, g: Game, viewer: Scope, size: nat): Option<Subscription>
    requires size > 0
  {
    var s := Subscribed(after, CursorOf(g, viewer));
    if s.None? then None else Some(CatchUp(s.value, g, viewer, s.value.initial, size))
  }

  lemma OpenedIsSound(after: Option<Cursor>, g: Game, viewer: Scope, size: nat)
    requires size > 0 && Logged(g) && Current(g) && (after.Some? ==> Valid(g, viewer, after.value))
    ensures
      var s := Opened(after, g, viewer, size);
      s.Some? && Inv(s.value, g, viewer) && Behind(s.value) && KeyOf(CursorOf(g, viewer)) in s.value.issued &&
      s.value.lastAcknowledged == (if after.Some? then after.value else CursorOf(g, viewer)) &&
      Carried(g, (if after.Some? then after.value else CursorOf(g, viewer)).sequence, s.value.sent)
  {
    SubscribedIsSound(after, g, viewer);
    var s := Subscribed(after, CursorOf(g, viewer)).value;
    CatchUpKeeps(s, g, viewer, s.initial, size);
    var caught := CatchUp(s, g, viewer, s.initial, size);
    assert caught.sent[|s.sent|..] == caught.sent;
  }

  /** A cursor the client may resynchronise from is one the feed accepts. */
  lemma ResyncIsValid(s: Subscription, g: Game, viewer: Scope, after: Cursor)
    requires Inv(s, g, viewer) && Behind(s) && MayResync(s, after)
    ensures Valid(g, viewer, after) && after.sequence <= s.lastIssued.sequence
  {
    ValidatesIff(g, viewer, after);
    ValidatesIff(g, viewer, s.initial);
    ValidatesIff(g, viewer, s.lastIssued);
    var k := KeyOf(after);
    if k in s.issued {
      assert Valid(g, viewer, s.issued[k]);
      ValidatesIff(g, viewer, s.issued[k]);
    }
    hide Valid, Validate, Logged, NothingSkipped;
  }

  /** What every operation keeps: the subscription is in order, and neither of its cursors ever goes back. */
  ghost predicate Forward(s: Subscription, after: Subscription) {
    AtOrBefore(s.lastIssued, after.lastIssued) && AtOrBefore(s.lastAcknowledged, after.lastAcknowledged) &&
    s.acknowledged <= after.acknowledged && s.sent <= after.sent && (forall k :: k in s.issued ==> k in after.issued)
  }

  lemma AckKeeps(s: Subscription, g: Game, viewer: Scope, cursor: Cursor)
    requires Inv(s, g, viewer) && Behind(s)
    ensures
      var acked := Acknowledge(s, cursor);
      (acked.Some? <==>
        cursor.scope == s.lastIssued.scope &&
        (KeyOf(cursor) in s.acknowledged || (KeyOf(cursor) in s.issued && AtOrBefore(s.lastAcknowledged, cursor)))) &&
      (acked.Some? ==>
        Inv(acked.value, g, viewer) && Behind(acked.value) && Forward(s, acked.value) &&
        acked.value.lastIssued == s.lastIssued && acked.value.sent == s.sent && acked.value.issued == s.issued &&
        if KeyOf(cursor) in s.acknowledged
        then acked.value.lastAcknowledged == s.lastAcknowledged && acked.value.acknowledged == s.acknowledged
        else acked.value.lastAcknowledged == cursor && acked.value.acknowledged == s.acknowledged + {KeyOf(cursor)})
  {
    hide Valid, Logged;
  }

  /** Whatever frame a client has received, it may acknowledge it as long as it has acknowledged none after it. */
  lemma SentCanBeAcknowledged(s: Subscription, g: Game, viewer: Scope, frame: Batch)
    requires Inv(s, g, viewer) && frame in s.sent && AtOrBefore(s.lastAcknowledged, frame.cursor)
    ensures
      var acked := Acknowledge(s, frame.cursor);
      acked.Some? && KeyOf(frame.cursor) in acked.value.acknowledged
  {
    hide Valid, Logged, NothingSkipped;
  }

  /**
   Whatever the order of wake-ups, acknowledgements and resynchronisations, while the game grows: a wake-up and
   an accepted resynchronisation are never refused for their cursor, they leave nothing visible unsent, and the
   issued and the acknowledged cursor never go back.
   */
  lemma StepKeeps(s: Subscription, g: Game, later: Game, viewer: Scope, op: Op, size: nat)
    requires size > 0 && Inv(s, g, viewer) && Behind(s) && Logged(later) && Current(later) && Grows(g, later)
    ensures
      var after := Step(s, later, viewer, op, size);
      Inv(after, later, viewer) && Behind(after) && Forward(s, after) &&
      (op.Wake? || (op.Resync? && MayResync(s, op.after)) ==>
        after.lastIssued == CursorOf(later, viewer) && Carried(later, s.lastIssued.sequence, after.sent[|s.sent|..]))
  {
    InvLater(s, g, later, viewer);
    assert Valid(later, viewer, s.lastIssued);
    hide Inv, Behind, CatchUp, Acknowledge, Valid, Carried, Logged;
    match op
    case Wake => CatchUpKeeps(s, later, viewer, s.lastIssued, size);
    case Resync(after) =>
      if MayResync(s, after) {
        ResyncIsValid(s, later, viewer, after);
        CatchUpKeeps(s, later, viewer, after, size);
      }
    case Ack(cursor) => AckKeeps(s, later, viewer, cursor);
  }

  /** Each operation with the game it meets. */
  datatype Turn = Turn(game: Game, op: Op)

  function Run(s: Subscription, viewer: Scope, turns: seq<Turn>, size: nat): Subscription
    requires size > 0
  {
    if turns == [] then s
    else Step(Run(s, viewer, turns[..|turns| - 1], size), turns[|turns| - 1].game, viewer, turns[|turns| - 1].op, size)
  }

  ghost predicate Growth(g: Game, turns: seq<Turn>) {
    turns != [] ==>
      var init, game := turns[..|turns| - 1], turns[|turns| - 1].game;
      Growth(g, init) && Logged(game) && Current(game) && Grows(LastGame(g, init), game)
  }

  function LastGame(g: Game, turns: seq<Turn>): Game {
    if turns == [] then g else turns[|turns| - 1].game
  }

  lemma ForwardTwice(a: Subscription, b: Subscription, c: Subscription)
    requires Forward(a, b) && Forward(b, c)
    ensures Forward(a, c)
  {
  }

  /** From a sound subscription on, every run keeps all of it. */
  lemma {:induction false} RunKeeps(s: Subscription, g: Game, viewer: Scope, turns: seq<Turn>, size: nat)
    requires size > 0 && Inv(s, g, viewer) && Behind(s) && Growth(g, turns)
    ensures
      var after := Run(s, viewer, turns, size);
      Inv(after, LastGame(g, turns), viewer) && Behind(after) && Forward(s, after)
  {
    hide Inv, Behind, Step, Logged, Current, Grows, Forward, Carried;
    if turns == [] {
      ForwardFromStart(s);
    } else {
      var init, last := turns[..|turns| - 1], turns[|turns| - 1];
      RunKeeps(s, g, viewer, init, size);
      StepKeeps(Run(s, viewer, init, size), LastGame(g, init), last.game, viewer, last.op, size);
      ForwardTwice(s, Run(s, viewer, init, size), Run(s, viewer, turns, size));
    }
  }

  lemma ForwardFromStart(s: Subscription)
    ensures Forward(s, s)
  {
  }

  /** Between two operations more commands may have been accepted. */
  datatype Beat = Beat(commits: seq<Commit>, op: Op)

  function HistoryAfter(commits: seq<Commit>, beats: seq<Beat>): seq<Commit> {
    if beats == [] then commits else HistoryAfter(commits, beats[..|beats| - 1]) + beats[|beats| - 1].commits
  }

  /** The operations with the states of the game they meet. */
  function TurnsOf(id: nat, commits: seq<Commit>, beats: seq<Beat>): (turns: seq<Turn>)
    ensures |turns| == |beats|
  {
    if beats == [] then []
    else
      TurnsOf(id, commits, beats[..|beats| - 1]) +
      [Turn(Played(id, HistoryAfter(commits, beats)), beats[|beats| - 1].op)]
  }

  lemma {:induction false} PlayedTurnsGrow(id: nat, commits: seq<Commit>, beats: seq<Beat>)
    requires Fits(Played(id, HistoryAfter(commits, beats)))
    ensures Growth(Played(id, commits), TurnsOf(id, commits, beats))
    ensures LastGame(Played(id, commits), TurnsOf(id, commits, beats)) == Played(id, HistoryAfter(commits, beats))
  {
    hide Played, Logged, Current;
    if beats != [] {
      var init, last := beats[..|beats| - 1], beats[|beats| - 1];
      var turns := TurnsOf(id, commits, beats);
      assert turns[..|turns| - 1] == TurnsOf(id, commits, init);
      PlayedGrows(id, HistoryAfter(commits, init), last.commits);
      PlayedTurnsGrow(id, commits, init);
      PlayedIsCurrent(id, HistoryAfter(commits, beats));
    }
  }

  /**
   A subscription to a game as it is played: it is opened at some state, the client names a valid cursor or
   none, and then operations and accepted commands follow in any order. Nothing visible since the start is
   ever skipped, every issued cursor is valid, and no cursor goes back.
   */
  lemma SubscriptionStaysSound(id: nat, commits: seq<Commit>, after: Option<Cursor>, viewer: Scope, beats: seq<Beat>,
                               size: nat)
    requires size > 0 && Fits(Played(id, commits)) && Fits(Played(id, HistoryAfter(commits, beats)))
    requires after.Some? ==> Valid(Played(id, commits), viewer, after.value)
    ensures
      var s := Opened(after, Played(id, commits), viewer, size);
      s.Some? &&
      var r := Run(s.value, viewer, TurnsOf(id, commits, beats), size);
      Inv(r, Played(id, HistoryAfter(commits, beats)), viewer) && Behind(r) && Forward(s.value, r)
  {
    hide Played, Opened, Inv, Behind, Forward, Run, TurnsOf, Growth, Valid, Logged, Current, Fits;
    PlayedIsCurrent(id, commits);
    OpenedIsSound(after, Played(id, commits), viewer, size);
    PlayedTurnsGrow(id, commits, beats);
    RunKeeps(Opened(after, Played(id, commits), viewer, size).value, Played(id, commits), viewer,
             TurnsOf(id, commits, beats), size);
  }

  // -------------------------------------------------- without any assumption

  /** Whatever the subscription and the game, valid cursors or not: neither cursor goes back, nothing is unsent. */
  lemma StepNeverGoesBack(s: Subscription, g: Game, viewer: Scope, op: Op, size: nat)
    requires size > 0
    ensures
      var after := Step(s, g, viewer, op, size);
      AtOrBefore(s.lastIssued, after.lastIssued) && AtOrBefore(s.lastAcknowledged, after.lastAcknowledged) &&
      s.acknowledged <= after.acknowledged && s.sent <= after.sent
  {
    hide Validate, FeedOf, Batches, Issue, MayResync;
  }

  lemma {:induction false} RunNeverGoesBack(s: Subscription, viewer: Scope, turns: seq<Turn>, size: nat)
    requires size > 0
    ensures
      var after := Run(s, viewer, turns, size);
      AtOrBefore(s.lastIssued, after.lastIssued) && AtOrBefore(s.lastAcknowledged, after.lastAcknowledged) &&
      s.acknowledged <= after.acknowledged && s.sent <= after.sent
  {
    if turns != [] {
      hide Step;
      var init, last := turns[..|turns| - 1], turns[|turns| - 1];
      RunNeverGoesBack(s, viewer, init, size);
      StepNeverGoesBack(Run(s, viewer, init, size), last.game, viewer, last.op, size);
    }
  }

  /**
   A client cursor of the right scope, at or before the game's, opens a subscription even if it does not
   validate. Nothing is sent to it then, and no later wake-up sends anything, however the game grows.
   */
  lemma UnvalidatedSubscriptionWaits(after: Cursor, g: Game, later: Game, viewer: Scope, size: nat)
    requires size > 0 && Logged(g) && Logged(later) && Grows(g, later)
    requires after.scope == viewer.(game := g.id) && AtOrBefore(after, CursorOf(g, viewer)) && !Valid(g, viewer, after)
    ensures
      var s := Opened(Some(after), g, viewer, size);
      s.Some? && s.value.sent == [] && s.value.lastIssued == after &&
      Step(s.value, later, viewer, Wake, size) == s.value
  {
    ValidatesIff(g, viewer, after);
    ValidatesIff(later, viewer, after);
    hide Validate;
  }
}
