/** The consumer and the server subscription as they update their maps, cursors and frames in place. */
module RealtimeObjects {
  import opened Prelude
  import opened RealtimeFeed
  import C = RealtimeConsumer
  import S = RealtimeServer

  class InMemoryProjectedEventConsumer<P> {
    var idAt: map<int, EventId>
    var placeOf: map<EventId, int>
    var seen: Option<(Cursor, P)>

    function Contents(): C.Consumer<P>
      reads this
    {
      C.Consumer(C.Book(idAt, placeOf), seen)
    }

    constructor ()
      ensures Contents() == C.Consumer(C.Book(map[], map[]), None)
    {
      idAt, placeOf, seen := map[], map[], None;
    }

    /** What was recorded before is kept. */
    method Initialize(cursor: Cursor, projection: P)
      modifies this`seen
      ensures Contents() == C.Initialised(old(Contents()), cursor, projection)
    {
      seen := Some((cursor, projection));
    }

    method AssertRange(from: Cursor, to: Cursor, events: seq<Event>) returns (ok: bool)
      ensures ok == InRange(from, to, events)
    {
      if from.scope != to.scope || !AtOrAfter(to, from) {
        return false;
      }
      var previous, i := from.sequence, 0;
      while i < |events|
        invariant 0 <= i <= |events| && previous == if i == 0 then from.sequence else events[i - 1].sequence
        invariant InRange(from, to, events[..i])
      {
        var e := events[i];
        if e.game != to.scope.game || e.sequence <= from.sequence || e.sequence <= previous ||
          e.sequence > to.sequence || e.version > to.version
        {
          assert e in events;
          return false;
        }
        previous := e.sequence;
        i := i + 1;
      }
      assert events[..i] == events;
      return true;
    }

    /** Enters the events one by one and stops at the first conflict. */
    method RecordEvents(events: seq<Event>) returns (applied: nat, duplicates: nat, conflict: bool)
      modifies this`idAt, this`placeOf
      ensures C.Progress(Contents().book, applied, duplicates, conflict) == C.Record(old(Contents()).book, events)
    {
      applied, duplicates, conflict := 0, 0, false;
      var i := 0;
      ghost var book := Contents().book;
      while i < |events|
        invariant 0 <= i <= |events|
        invariant C.Progress(Contents().book, applied, duplicates, false) == C.Record(book, events[..i])
      {
        var e := events[i];
        assert events[..i + 1][..i] == events[..i];
        if e.id in placeOf || e.sequence in idAt {
          if !(e.id in placeOf && placeOf[e.id] == e.sequence && e.sequence in idAt && idAt[e.sequence] == e.id) {
            conflict := true;
            C.StaysInConflict(book, events, i + 1);
            return;
          }
          duplicates := duplicates + 1;
        } else {
          placeOf := placeOf[e.id := e.sequence];
          idAt := idAt[e.sequence := e.id];
          applied := applied + 1;
        }
        i := i + 1;
      }
      assert events[..i] == events;
    }

    method Receive(d: C.Delivery<P>) returns (outcome: C.Outcome)
      modifies this
      ensures (Contents(), outcome) == C.Received(old(Contents()), d)
    {
      if seen.None? || d.cursor.scope != seen.value.0.scope {
        return C.Threw;
      }
      var ok := AssertRange(d.from, d.cursor, d.events);
      if !ok {
        return C.Threw;
      }
      hide C.Record, InRange;
      var cursor := seen.value.0;
      if d.from.sequence > cursor.sequence {
        return C.Gap(cursor.sequence);
      }
      var applied, duplicates, conflict := RecordEvents(d.events);
      if conflict {
        return C.Threw;
      }
      if AtOrAfter(d.cursor, cursor) {
        seen := Some((d.cursor, d.projection));
      }
      return C.Recorded(applied, duplicates);
    }

    method Recover(d: C.Delivery<P>) returns (outcome: C.Outcome)
      modifies this
      ensures (Contents(), outcome) == C.Recovered(old(Contents()), d)
    {
      if seen.None? || d.cursor.scope != seen.value.0.scope {
        return C.Threw;
      }
      var ok := AssertRange(d.from, d.cursor, d.events);
      if !ok {
        return C.Threw;
      }
      hide C.Record, InRange;
      var applied, duplicates, conflict := RecordEvents(d.events);
      if conflict {
        return C.Threw;
      }
      seen := Some((d.cursor, d.projection));
      return C.Recorded(applied, duplicates);
    }
  }

  class ProductiveSubscription {
    const initial: Cursor
    var lastIssued: Cursor
    var lastAcknowledged: Cursor
    var issued: map<S.Key, Cursor>
    var acknowledged: set<S.Key>
    var sent: seq<Batch>

    function Contents(): S.Subscription
      reads this
    {
      S.Subscription(initial, lastIssued, lastAcknowledged, issued, acknowledged, sent)
    }

    constructor (start: Cursor, own: Cursor)
      requires start.scope == own.scope && AtOrBefore(start, own)
      ensures Some(Contents()) == S.Subscribed(Some(start), own)
    {
      initial, lastIssued, lastAcknowledged := start, start, start;
      issued, acknowledged, sent := map[S.KeyOf(own) := own], {S.KeyOf(start)}, [];
    }

    /** Cuts the feed into batches and sends them, remembering each one's cursor. */
    method SendFeed(feed: Feed, size: nat)
      requires size > 0
      modifies this`lastIssued, this`issued, this`sent
      ensures Contents() == S.SendFeed(old(Contents()), feed, size)
    {
      if feed.events == [] && AtOrBefore(feed.cursor, lastIssued) {
        return;
      }
      if !AtOrBefore(lastIssued, feed.cursor) {
        return;
      }
      ghost var batches := Batches(feed, size, 0, feed.from);
      ghost var issuedBefore, sentBefore := issued, sent;
      var n, start, final := 0, feed.from, false;
      ghost var k := 0;
      while !final
        invariant n <= |feed.events| && k <= |batches| && (final <==> k == |batches|)
        invariant !final ==> batches[k..] == Batches(feed, size, n, start) && (n < |feed.events| || n == 0)
        invariant issued == S.Issue(issuedBefore, batches[..k]) && sent == sentBefore + batches[..k]
        decreases |feed.events| - n, !final
      {
        var end := Min(n + size, |feed.events|);
        final := end == |feed.events|;
        var cursor := BatchCursor(feed, end);
        var batch := Batch(start, cursor, feed.events[n..end], final);
        assert batches[k..][0] == batch &&
               (if final then batches[k + 1..] == [] else batches[k + 1..] == Batches(feed, size, end, cursor)) by {
          assert batches[k + 1..] == batches[k..][1..];
        }
        assert batches[..k + 1][..k] == batches[..k] && batches[..k + 1] == batches[..k] + [batch];
        sent := sent + [batch];
        issued := issued[S.KeyOf(cursor) := cursor];
        n, start, k := end, cursor, k + 1;
      }
      assert batches[..k] == batches;
      lastIssued := feed.cursor;
    }

    /** A feed for a cursor that validates is sent; otherwise the catch-up is refused. */
    method DeliverCatchup(g: Game, viewer: Scope, from: Cursor, size: nat) returns (ok: bool)
      requires size > 0
      modifies this`lastIssued, this`issued, this`sent
      ensures ok == Validate(g, Some(viewer), Some(from)).None?
      ensures Contents() == S.CatchUp(old(Contents()), g, viewer, from, size)
    {
      hide Validate;
      ok := Validate(g, Some(viewer), Some(from)).None?;
      if ok {
        SendFeed(FeedOf(g, viewer, from), size);
      }
    }

    method Acknowledge(cursor: Cursor) returns (ok: bool)
      modifies this`lastAcknowledged, this`acknowledged
      ensures ok == S.Acknowledge(old(Contents()), cursor).Some?
      ensures Contents() == if ok then S.Acknowledge(old(Contents()), cursor).value else old(Contents())
    {
      if cursor.scope != lastIssued.scope {
        return false;
      }
      var key := S.KeyOf(cursor);
      if key in acknowledged {
        return true;
      }
      if key !in issued || !AtOrBefore(lastAcknowledged, cursor) {
        return false;
      }
      lastAcknowledged := cursor;
      acknowledged := acknowledged + {key};
      return true;
    }

    method Resync(g: Game, viewer: Scope, after: Cursor, size: nat) returns (ok: bool)
      requires size > 0
      modifies this`lastIssued, this`issued, this`sent
      ensures Contents() == S.Step(old(Contents()), g, viewer, S.Resync(after), size)
      ensures ok <==> S.MayResync(old(Contents()), after) && Validate(g, Some(viewer), Some(after)).None?
    {
      hide Validate;
      ok := after.scope == lastIssued.scope &&
        (S.KeyOf(after) == S.KeyOf(initial) || S.KeyOf(after) in issued || S.KeyOf(after) in acknowledged);
      if ok {
        ok := DeliverCatchup(g, viewer, after, size);
      }
    }
  }
}
