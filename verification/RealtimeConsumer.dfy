/**
 The consumer of projected events: it deduplicates by event identity and by sequence number, notices a gap
 by comparing cursors, and recovers from an authorized feed.
 */
module RealtimeConsumer {
  import opened Prelude
  import opened RealtimeFeed

  /** What is delivered; a projection is an opaque value. */
  datatype Delivery<P> = Delivery(from: Cursor, cursor: Cursor, events: seq<Event>, projection: P)

  datatype Book = Book(idAt: map<int, EventId>, placeOf: map<EventId, int>)

  /** `seen`: the cursor and projection, once initialised. */
  datatype Consumer<P> = Consumer(book: Book, seen: Option<(Cursor, P)>)

  datatype Outcome = Threw | Gap(after: int) | Recorded(applied: nat, duplicates: nat)

  datatype Entry = Fresh | Duplicate | Conflict

  function Look(book: Book, e: Event): Entry {
    if e.id !in book.placeOf && e.sequence !in book.idAt then Fresh
    else if e.id in book.placeOf && book.placeOf[e.id] == e.sequence && e.sequence in book.idAt &&
      book.idAt[e.sequence] == e.id then Duplicate
    else Conflict
  }

  function Enter(book: Book, e: Event): Book {
    Book(book.idAt[e.sequence := e.id], book.placeOf[e.id := e.sequence])
  }

  datatype Progress = Progress(book: Book, applied: nat, duplicates: nat, conflict: bool)

  /** Events are entered one by one; a conflict stops there and keeps what was entered before. */
  function Record(book: Book, events: seq<Event>): Progress {
    if events == [] then Progress(book, 0, 0, false)
    else
      var p, e := Record(book, events[..|events| - 1]), events[|events| - 1];
      if p.conflict then p
      else
        match Look(p.book, e)
        case Fresh => Progress(Enter(p.book, e), p.applied + 1, p.duplicates, false)
        case Duplicate => p.(duplicates := p.duplicates + 1)
        case Conflict => p.(conflict := true)
  }

  /** After a conflict nothing more is entered. */
  lemma {:induction false} StaysInConflict(book: Book, events: seq<Event>, n: nat)
    requires n <= |events| && Record(book, events[..n]).conflict
    ensures Record(book, events) == Record(book, events[..n])
    decreases |events|
  {
    if n < |events| {
      var init := events[..|events| - 1];
      assert init[..n] == events[..n];
      StaysInConflict(book, init, n);
    } else {
      assert events[..n] == events;
    }
  }

  predicate Accepts<P>(c: Consumer<P>, from: Cursor, to: Cursor, events: seq<Event>) {
    c.seen.Some? && to.scope == c.seen.value.0.scope && InRange(from, to, events)
  }

  function Initialised<P>(c: Consumer<P>, cursor: Cursor, projection: P): Consumer<P> {
    c.(seen := Some((cursor, projection)))
  }

  function Received<P>(c: Consumer<P>, d: Delivery<P>): (Consumer<P>, Outcome) {
    if !Accepts(c, d.from, d.cursor, d.events) then (c, Threw)
    else if d.from.sequence > c.seen.value.0.sequence then (c, Gap(c.seen.value.0.sequence))
    else
      var p := Record(c.book, d.events);
      if p.conflict then (c.(book := p.book), Threw)
      else
        (Consumer(p.book, if AtOrAfter(d.cursor, c.seen.value.0) then Some((d.cursor, d.projection)) else c.seen),
         Recorded(p.applied, p.duplicates))
  }

  function Recovered<P>(c: Consumer<P>, d: Delivery<P>): (Consumer<P>, Outcome) {
    if !Accepts(c, d.from, d.cursor, d.events) then (c, Threw)
    else
      var p := Record(c.book, d.events);
      if p.conflict then (c.(book := p.book), Threw)
      else (Consumer(p.book, Some((d.cursor, d.projection))), Recorded(p.applied, p.duplicates))
  }

  // ------------------------------------------------------------ mirrored maps

  ghost predicate Mirrored(book: Book) {
    (forall s :: s in book.idAt ==> book.idAt[s] in book.placeOf && book.placeOf[book.idAt[s]] == s) &&
    (forall i :: i in book.placeOf ==> book.placeOf[i] in book.idAt && book.idAt[book.placeOf[i]] == i)
  }

  /** The two maps stay inverse to each other whatever is delivered, and nothing recorded is forgotten or changed. */
  lemma {:induction false} RecordKeepsMirror(book: Book, events: seq<Event>)
    requires Mirrored(book)
    ensures
      var p := Record(book, events);
      Mirrored(p.book) && |p.book.idAt| == |book.idAt| + p.applied && p.applied + p.duplicates <= |events| &&
      (!p.conflict ==> p.applied + p.duplicates == |events|) &&
      forall s :: s in book.idAt ==> s in p.book.idAt && p.book.idAt[s] == book.idAt[s]
  {
    if events != [] {
      RecordKeepsMirror(book, events[..|events| - 1]);
    }
  }

  // ----------------------------------------------------- convergence on a log

  /** The book holds nothing but the log's events under their own sequence numbers. */
  ghost predicate Faithful(log: seq<Event>, book: Book) {
    Mirrored(book) && forall s :: s in book.idAt ==>
      1 <= s <= |log| && log[s - 1].id == book.idAt[s] && log[s - 1].visible
  }

  ghost predicate Holds(book: Book, e: Event) {
    e.sequence in book.idAt && book.idAt[e.sequence] == e.id
  }

  ghost predicate HoldsAll(log: seq<Event>, book: Book, from: int, to: int) {
    forall e :: e in log && e.visible && from < e.sequence <= to ==> Holds(book, e)
  }

  /** In a faithful book an event of the log is never in conflict. */
  lemma LooksUp(g: Game, book: Book, e: Event)
    requires Logged(g) && Faithful(g.events, book) && e in g.events && e.visible
    ensures Look(book, e) == if Holds(book, e) then Duplicate else Fresh
    ensures Faithful(g.events, Enter(book, e)) && Holds(Enter(book, e), e)
    ensures forall x :: Holds(book, x) && Look(book, e).Fresh? ==> Holds(Enter(book, e), x)
  {
    assert e == g.events[e.sequence - 1];
    if e.id in book.placeOf {
      var s := book.placeOf[e.id];
      assert g.events[s - 1].id == e.id;
      assert s == e.sequence;
    }
  }

  lemma {:induction false} RecordsEvents(g: Game, book: Book, events: seq<Event>)
    requires Logged(g) && Faithful(g.events, book) && forall e :: e in events ==> e in g.events && e.visible
    ensures
      var p := Record(book, events);
      !p.conflict && Faithful(g.events, p.book) && (forall x :: Holds(book, x) ==> Holds(p.book, x)) &&
      (forall e :: e in events ==> Holds(p.book, e)) &&
      forall x :: x in g.events && Holds(p.book, x) ==> Holds(book, x) || x in events
  {
    if events != [] {
      hide Logged, Faithful;
      var init, e := events[..|events| - 1], events[|events| - 1];
      assert events == init + [e];
      RecordsEvents(g, book, init);
      LooksUp(g, Record(book, init).book, e);
      OnlyOneAtAPlace(g, e);
    }
  }

  lemma OnlyOneAtAPlace(g: Game, e: Event)
    requires Logged(g) && e in g.events
    ensures forall x :: x in g.events && x.sequence == e.sequence ==> x == e
  {
  }

  /** A delivery or feed cut from the game's log: complete between its cursors and in range. */
  ghost predicate Genuine<P>(g: Game, d: Delivery<P>) {
    Complete(g.events, d.events, d.from.sequence, d.cursor.sequence) && InRange(d.from, d.cursor, d.events)
  }

  /** A sound batch of the server's is genuine, in the log it was cut from and in every later one. */
  lemma SoundBatchIsGenuine<P>(g: Game, later: Game, b: Batch, projection: P)
    requires Logged(g) && Logged(later) && Grows(g, later) && Sound(g, b) && b.cursor.sequence <= |g.events|
    ensures Genuine(later, Delivery(b.from, b.cursor, b.events, projection))
  {
    CompleteInLaterLog(g, later, b.events, b.from.sequence, b.cursor.sequence);
  }

  /**
   Every visible event between the start and the consumer's cursor has been recorded, and nothing that is not
   of the log.
   */
  ghost predicate Synced<P>(g: Game, c: Consumer<P>, start: int) {
    c.seen.Some? && Faithful(g.events, c.book) && HoldsAll(g.events, c.book, start, c.seen.value.0.sequence)
  }

  lemma GenuineEvents<P>(g: Game, c: Consumer<P>, d: Delivery<P>)
    requires Logged(g) && Faithful(g.events, c.book) && Genuine(g, d)
    ensures
      var p := Record(c.book, d.events);
      !p.conflict && Faithful(g.events, p.book) && HoldsAll(g.events, p.book, d.from.sequence, d.cursor.sequence) &&
      (forall x :: Holds(c.book, x) ==> Holds(p.book, x)) &&
      forall x :: x in g.events && Holds(p.book, x) ==>
        Holds(c.book, x) || d.from.sequence < x.sequence <= d.cursor.sequence
  {
    hide Record, Faithful, InRange;
    RecordsEvents(g, c.book, d.events);
  }

  /**
   A delivery cut from the log is never refused. It is reported as a gap, and then changes nothing, exactly
   when it starts beyond the cursor; otherwise all of it is recorded and the cursor never falls back.
   */
  lemma ReceiveKeepsSync<P>(g: Game, c: Consumer<P>, d: Delivery<P>, start: int)
    requires Logged(g) && Synced(g, c, start) && Genuine(g, d) && d.cursor.scope == c.seen.value.0.scope
    ensures
      var (after, outcome) := Received(c, d);
      Synced(g, after, start) && !outcome.Threw? && AtOrAfter(after.seen.value.0, c.seen.value.0) &&
      after.seen.value.0.scope == c.seen.value.0.scope &&
      (outcome.Gap? <==> d.from.sequence > c.seen.value.0.sequence) &&
      (outcome.Gap? ==> after == c && outcome.after == c.seen.value.0.sequence) &&
      (!outcome.Gap? ==>
        HoldsAll(g.events, after.book, d.from.sequence, d.cursor.sequence) &&
        after.seen.value.0 == if AtOrAfter(d.cursor, c.seen.value.0) then d.cursor else c.seen.value.0)
  {
    GenuineEvents(g, c, d);
    hide Record, Faithful, Complete;
    var p := Record(c.book, d.events);
    if d.from.sequence <= c.seen.value.0.sequence {
      var after := Received(c, d).0;
      forall e | e in g.events && e.visible && start < e.sequence <= after.seen.value.0.sequence
        ensures Holds(p.book, e)
      {
        assert e.sequence <= c.seen.value.0.sequence ==> Holds(c.book, e);
      }
    }
  }

  /**
   Recovery does not compare cursors: it keeps the consumer in sync exactly when no visible event that is
   still unrecorded lies before the feed's start.
   */
  lemma RecoverKeepsSyncIff<P>(g: Game, c: Consumer<P>, d: Delivery<P>, start: int)
    requires Logged(g) && Synced(g, c, start) && Genuine(g, d) && d.cursor.scope == c.seen.value.0.scope
    ensures
      var (after, outcome) := Recovered(c, d);
      outcome.Recorded? && after.seen.value.0 == d.cursor &&
      (Synced(g, after, start) <==> HoldsAll(g.events, c.book, start, d.from.sequence))
  {
    GenuineEvents(g, c, d);
    hide Record, Faithful, Complete;
    var p := Record(c.book, d.events);
    if HoldsAll(g.events, c.book, start, d.from.sequence) {
      forall e | e in g.events && e.visible && start < e.sequence <= d.cursor.sequence
        ensures Holds(p.book, e)
      {
        assert e.sequence <= d.from.sequence ==> Holds(c.book, e);
      }
    }
    if HoldsAll(g.events, p.book, start, d.cursor.sequence) {
      forall e | e in g.events && e.visible && start < e.sequence <= d.from.sequence
        ensures Holds(c.book, e)
      {
        assert Holds(p.book, e);
      }
    }
  }

  /** In particular from the consumer's own cursor, or from any earlier one. */
  lemma RecoverFromOwnCursor<P>(g: Game, c: Consumer<P>, d: Delivery<P>, start: int)
    requires Logged(g) && Synced(g, c, start) && Genuine(g, d) && d.cursor.scope == c.seen.value.0.scope
    requires d.from.sequence <= c.seen.value.0.sequence
    ensures
      var (after, outcome) := Recovered(c, d);
      Synced(g, after, start) && outcome.Recorded? && after.seen.value.0 == d.cursor
  {
    RecoverKeepsSyncIff(g, c, d, start);
  }

  /** The second of two events, fed to a consumer that has neither. */
  lemma RecoveryLeavesGap<P>(scope: Scope, projection: P)
    ensures
      var game := Played(scope.game, [[true], [true]]);
      var newcomer := Consumer(Book(map[], map[]), Some((Cursor(scope, 0, 0), projection)));
      var second := Delivery(Cursor(scope, 1, 1), Cursor(scope, 2, 2), [Event(2, scope.game, 2, 2, true)], projection);
      Logged(game) && Synced(game, newcomer, 0) && Genuine(game, second) &&
      var (after, outcome) := Recovered(newcomer, second);
      outcome.Recorded? && !Synced(game, after, 0) && !Holds(after.book, game.events[0])
  {
    var game := Played(scope.game, [[true], [true]]);
    var newcomer := Consumer(Book(map[], map[]), Some((Cursor(scope, 0, 0), projection)));
    var second := Delivery(Cursor(scope, 1, 1), Cursor(scope, 2, 2), [Event(2, scope.game, 2, 2, true)], projection);
    TwoCommits(scope.game);
    hide Played, Record, Logged, Recovered;
    assert Synced(game, newcomer, 0);
    assert Genuine(game, second);
    RecoverKeepsSyncIff(game, newcomer, second, 0);
    GenuineEvents(game, newcomer, second);
    NotRecorded(newcomer, second, game.events[0]);
    assert game.events[0] in game.events && !Holds(newcomer.book, game.events[0]);
  }

  /** A recovery records nothing before its feed. */
  lemma NotRecorded<P>(c: Consumer<P>, d: Delivery<P>, e: Event)
    requires |d.events| == 1 && d.events[0].sequence != e.sequence && !Holds(c.book, e)
    ensures !Holds(Recovered(c, d).0.book, e)
  {
    assert Record(c.book, d.events[..0]) == Progress(c.book, 0, 0, false);
  }

  lemma TwoCommits(id: nat)
    ensures
      var game := Played(id, [[true], [true]]);
      game.events == [Event(1, id, 1, 1, true), Event(2, id, 2, 2, true)] && game.version == 2 && Logged(game)
  {
    var commits: seq<Commit> := [[true], [true]];
    assert commits[..1] == [[true]] && commits[..1][..0] == [];
    assert Played(id, commits[..1]).events == [Event(1, id, 1, 1, true)];
  }

  // ------------------------------------------------------------------- runs

  /** Deliveries may be dropped, repeated and reordered: a run is any list of what arrives. */
  datatype Arrival<P> = Live(delivery: Delivery<P>) | Recovery(feed: Delivery<P>)

  function Arrive<P>(c: Consumer<P>, a: Arrival<P>): Consumer<P> {
    match a
    case Live(d) => Received(c, d).0
    case Recovery(d) => Recovered(c, d).0
  }

  function Run<P>(c: Consumer<P>, arrivals: seq<Arrival<P>>): Consumer<P> {
    if arrivals == [] then c else Arrive(Run(c, arrivals[..|arrivals| - 1]), arrivals[|arrivals| - 1])
  }

  /** What the server sends: cuts of the log for this viewer, recovery starting no later than the consumer has come. */
  ghost predicate Admissible<P>(g: Game, c: Consumer<P>, a: Arrival<P>, scope: Scope) {
    match a
    case Live(d) => Genuine(g, d) && d.cursor.scope == scope
    case Recovery(d) =>
      Genuine(g, d) && d.cursor.scope == scope && c.seen.Some? && d.from.sequence <= c.seen.value.0.sequence
  }

  ghost predicate AllAdmissible<P>(g: Game, c: Consumer<P>, arrivals: seq<Arrival<P>>, scope: Scope) {
    forall k :: 0 <= k < |arrivals| ==> Admissible(g, Run(c, arrivals[..k]), arrivals[k], scope)
  }

  /**
   Whatever is dropped, repeated or reordered, the consumer has recorded every visible event between its first
   cursor and its current one, under its own identity, and nothing else.
   */
  lemma {:induction false} ConsumerStaysInSync<P>(g: Game, c: Consumer<P>, arrivals: seq<Arrival<P>>, start: int,
                                                  scope: Scope)
    requires Logged(g) && Synced(g, c, start) && c.seen.value.0.scope == scope && AllAdmissible(g, c, arrivals, scope)
    ensures
      var after := Run(c, arrivals);
      Synced(g, after, start) && after.seen.value.0.scope == scope
  {
    if arrivals != [] {
      var init, last := arrivals[..|arrivals| - 1], arrivals[|arrivals| - 1];
      forall k | 0 <= k < |init|
        ensures Admissible(g, Run(c, init[..k]), init[k], scope)
      {
        assert init[..k] == arrivals[..k];
        assert Admissible(g, Run(c, arrivals[..k]), arrivals[k], scope);
      }
      ConsumerStaysInSync(g, c, init, start, scope);
      var before := Run(c, init);
      assert Admissible(g, before, last, scope);
      hide Received, Recovered, Synced, Genuine;
      InScope(g, before, start);
      match last
      case Live(d) => ReceiveKeepsSync(g, before, d, start);
      case Recovery(d) => RecoverFromOwnCursor(g, before, d, start);
    }
  }

  lemma InScope<P>(g: Game, c: Consumer<P>, start: int)
    requires Synced(g, c, start)
    ensures c.seen.Some?
  {
  }

  /**
   One recovery from its own cursor up to the end of the log leaves a consumer with every visible event since
   its start.
   */
  lemma OneRecoveryCatchesUp<P>(g: Game, c: Consumer<P>, arrivals: seq<Arrival<P>>, d: Delivery<P>, start: int,
                                scope: Scope, e: Event)
    requires Logged(g) && Synced(g, c, start) && c.seen.value.0.scope == scope && AllAdmissible(g, c, arrivals, scope)
    requires Admissible(g, Run(c, arrivals), Recovery(d), scope) && d.cursor.sequence == |g.events|
    requires e in g.events && e.sequence > start
    ensures Holds(Recovered(Run(c, arrivals), d).0.book, e) <==> e.visible
  {
    ConsumerStaysInSync(g, c, arrivals, start, scope);
    RecoverFromOwnCursor(g, Run(c, arrivals), d, start);
    hide Recovered, Run, Genuine;
    assert g.events[e.sequence - 1] == e;
  }

  // ------------------------------------------------------- what is shown

  /** The projection held is the one for the cursor held. */
  ghost predicate Shows<P>(c: Consumer<P>, view: Cursor -> P) {
    c.seen.Some? ==> c.seen.value.1 == view(c.seen.value.0)
  }

  /** A delivery carries the projection of the game at its cursor. */
  predicate Carries<P(==)>(d: Delivery<P>, view: Cursor -> P) {
    d.projection == view(d.cursor)
  }

  function DeliveryOf<P>(a: Arrival<P>): Delivery<P> {
    if a.Live? then a.delivery else a.feed
  }

  lemma InitialisedShows<P>(c: Consumer<P>, cursor: Cursor, view: Cursor -> P)
    ensures Shows(Initialised(c, cursor, view(cursor)), view)
    ensures Initialised(c, cursor, view(cursor)).seen.Some? && Initialised(c, cursor, view(cursor)).book == c.book
  {
  }

  /**
   What arrives is shown with its cursor or not at all: a live delivery that ends before the cursor held brings
   no older projection back, a later one and every recovery that is accepted bring their own.
   */
  lemma ArrivalShows<P>(c: Consumer<P>, a: Arrival<P>, view: Cursor -> P)
    requires Shows(c, view) && Carries(DeliveryOf(a), view)
    ensures Shows(Arrive(c, a), view)
    ensures a.Live? && c.seen.Some? && !AtOrAfter(a.delivery.cursor, c.seen.value.0) ==> Arrive(c, a).seen == c.seen
    ensures a.Live? && Received(c, a.delivery).1.Recorded? && AtOrAfter(a.delivery.cursor, c.seen.value.0) ==>
              Arrive(c, a).seen == Some((a.delivery.cursor, view(a.delivery.cursor)))
    ensures a.Recovery? && Recovered(c, a.feed).1.Recorded? ==>
              Arrive(c, a).seen == Some((a.feed.cursor, view(a.feed.cursor)))
  {
    hide Record, InRange;
  }

  /**
   Under any drops, repeats, reorderings and recoveries the consumer shows the projection of the game at the
   cursor it has come to.
   */
  lemma {:induction false} ConsumerShowsItsCursor<P>(c: Consumer<P>, arrivals: seq<Arrival<P>>, view: Cursor -> P)
    requires Shows(c, view) && forall k :: 0 <= k < |arrivals| ==> Carries(DeliveryOf(arrivals[k]), view)
    ensures Shows(Run(c, arrivals), view)
  {
    if arrivals != [] {
      hide Shows, Arrive, Carries;
      var init, last := arrivals[..|arrivals| - 1], arrivals[|arrivals| - 1];
      assert forall k :: 0 <= k < |init| ==> init[k] == arrivals[k];
      ConsumerShowsItsCursor(c, init, view);
      ArrivalShows(Run(c, init), last, view);
    }
  }

  /** After one recovery to the end of the log the newest projection is shown. */
  lemma RecoveryShowsTheNewest<P>(g: Game, c: Consumer<P>, arrivals: seq<Arrival<P>>, d: Delivery<P>, start: int,
                                  scope: Scope, view: Cursor -> P)
    requires Logged(g) && Synced(g, c, start) && c.seen.value.0.scope == scope && AllAdmissible(g, c, arrivals, scope)
    requires Admissible(g, Run(c, arrivals), Recovery(d), scope) && d.cursor == CursorOf(g, scope)
    requires Shows(c, view) && Carries(d, view)
    requires forall k :: 0 <= k < |arrivals| ==> Carries(DeliveryOf(arrivals[k]), view)
    ensures Recovered(Run(c, arrivals), d).0.seen == Some((CursorOf(g, scope), view(CursorOf(g, scope))))
  {
    ConsumerStaysInSync(g, c, arrivals, start, scope);
    ConsumerShowsItsCursor(c, arrivals, view);
    RecoverFromOwnCursor(g, Run(c, arrivals), d, start);
    ArrivalShows(Run(c, arrivals), Recovery(d), view);
    hide Recovered, Run, Synced, AllAdmissible, Logged;
  }
}
