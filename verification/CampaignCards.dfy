/**
 The cards of a game while its actions are resolved. What the adjudication engine does to hands, discard piles and
 places is building and spending on the tabletop; decks and positions stay as they are.
 */
module CampaignCards {
  import opened Prelude
  import opened CampaignTypes
  import opened Adjudication
  import opened ReplayRuns
  import opened Accounts
  import C = CardZones
  import R = CardRuns

  /** The engine does not tell the two pools apart. */
  function ZoneOf(place: C.Place): Zone {
    match place
    case Pool => Pool
    case StarterPool => Pool
    case Deck => Deck
    case Hand => Hand
    case Discard => Discard
    case InCampaign => InCampaign
    case Removed => Removed
  }

  function SeenAs(card: C.Card): Card {
    Card(card.definition, card.controller, ZoneOf(card.place))
  }

  /** The engine's cards and lists are those of the tabletop; it has no decks and no positions of its own. */
  ghost predicate Shows(g: Game, t: C.Tabletop) {
    g.table.cards.Keys == t.cards.Keys && g.table.holdings.Keys == t.piles.Keys &&
    (forall c :: c in t.cards ==> g.table.cards[c] == SeenAs(t.cards[c])) &&
    forall p :: p in t.piles ==> g.table.holdings[p] == Holdings(t.piles[p].hand, t.piles[p].discard)
  }

  /** Decks are untouched, and so are the cards in them, and the positions and controllers of all cards. */
  ghost predicate SameDecks(t: C.Tabletop, r: C.Tabletop) {
    r.piles.Keys == t.piles.Keys && t.cards.Keys == r.cards.Keys &&
    (forall p :: p in t.piles ==> r.piles[p].deck == t.piles[p].deck) &&
    forall c :: c in t.cards ==>
      r.cards[c].position == t.cards[c].position && r.cards[c].controller == t.cards[c].controller &&
        (t.cards[c].place == C.Deck ==> r.cards[c] == t.cards[c])
  }

  predicate CardOp(op: R.Op) {
    op.Build? || op.Spend?
  }

  lemma HandShown(g: Game, t: C.Tabletop, p: ParticipantId, card: CardId)
    requires Shows(g, t)
    ensures InZone(g, card, p, Hand) <==> C.At(t.cards, card, p, C.Hand)
  {
  }

  lemma BuildShown(g: Game, t: C.Tabletop, p: ParticipantId, card: CardId)
    requires Shows(g, t) && InZone(g, card, p, Hand)
    ensures card in t.cards && Shows(TakeIntoCampaign(g, p, card), R.Built(t, p, card))
  {
  }

  lemma SpendShown(g: Game, t: C.Tabletop, p: ParticipantId, card: CardId)
    requires Shows(g, t) && InZone(g, card, p, Hand) && p in g.table.holdings
    ensures card in t.cards && p in t.piles && Shows(DiscardFromHand(g, p, card), R.Spent(t, p, card))
  {
  }

  lemma SameShown(g: Game, other: Game, t: C.Tabletop)
    requires Shows(g, t) && other.table.cards == g.table.cards && other.table.holdings == g.table.holdings
    ensures Shows(other, t)
  {
  }

  // ---------------------------------------------------------------- bookings

  /** The commands on the tabletop that a booking stands for. */
  function OpsOf(booking: Booking): (ops: seq<R.Op>)
    ensures forall op :: op in ops ==> CardOp(op)
  {
    match booking
    case CardBuilt(p, card) => [R.Build(p, card)]
    case CardSpent(p, card) => [R.Spend(p, card)]
    case _ => []
  }

  /** A booking is matched on the tabletop, and no deck changes. */
  lemma BookingShown(s: R.Scenario, play: R.Play, g: Game, booking: Booking)
    requires R.Ready(s, play) && R.AllLocked(play) && Shows(g, play.table) && Allowed(g, booking)
    ensures
      var r := R.Run(s, play, OpsOf(booking));
      Shows(Book(g, booking), r.table) && SameDecks(play.table, r.table) && R.AllLocked(r)
  {
    hide R.Ready, Shows, TakeIntoCampaign, DiscardFromHand, RemoveCube, PlaceCubes, AddVp, Booked, Contribute;
    match booking
    case CardBuilt(p, card) =>
      HandShown(g, play.table, p, card);
      BuildShown(g, play.table, p, card);
      RunOne(s, play, R.Build(p, card));
    case CardSpent(p, card) =>
      HandShown(g, play.table, p, card);
      SpendShown(g, play.table, p, card);
      RunOne(s, play, R.Spend(p, card));
    case _ =>
      OtherBooking(g, booking);
      SameShown(g, Book(g, booking), play.table);
  }

  lemma OtherBooking(g: Game, booking: Booking)
    requires Allowed(g, booking) && !booking.CardBuilt? && !booking.CardSpent?
    ensures Book(g, booking).table.cards == g.table.cards && Book(g, booking).table.holdings == g.table.holdings
  {
  }

  lemma RunOne(s: R.Scenario, play: R.Play, op: R.Op)
    requires R.Ready(s, play)
    ensures R.Run(s, play, [op]) == R.Step(s, play, op)
  {
    hide R.Ready, R.Step;
    assert [op][..0] == [];
    assert R.Run(s, play, []) == play;
  }

  // -------------------------------------------------------------------- runs

  lemma {:induction false} RunJoins(s: R.Scenario, play: R.Play, ops: seq<R.Op>, more: seq<R.Op>)
    requires R.Ready(s, play)
    ensures R.Run(s, play, ops + more) == R.Run(s, R.Run(s, play, ops), more)
  {
    hide R.Ready, R.Step;
    if more == [] {
      assert ops + more == ops;
    } else {
      var init := more[..|more| - 1];
      RunJoins(s, play, ops, init);
      assert (ops + more)[..|ops + more| - 1] == ops + init;
    }
  }

  lemma SameDecksTwice(a: C.Tabletop, b: C.Tabletop, c: C.Tabletop)
    requires SameDecks(a, b) && SameDecks(b, c)
    ensures SameDecks(a, c)
  {
  }

  /** The commands on the tabletop that bring it from `play` to what the engine shows. */
  ghost predicate Matched(s: R.Scenario, play: R.Play, ops: seq<R.Op>, g: Game)
    requires R.Ready(s, play)
  {
    var r := R.Run(s, play, ops);
    (forall op :: op in ops ==> CardOp(op)) && R.AllLocked(r) && Shows(g, r.table) && SameDecks(play.table, r.table)
  }

  lemma MatchedAfter(s: R.Scenario, play: R.Play, ops: seq<R.Op>, a: Game, booking: Booking, b: Game)
    requires R.Ready(s, play) && Matched(s, play, ops, a) && Allowed(a, booking) && SameBooks(Book(a, booking), b)
    ensures Matched(s, play, ops + OpsOf(booking), b)
  {
    var before := R.Run(s, play, ops);
    var after := R.Run(s, before, OpsOf(booking));
    hide R.Ready, R.Run, Shows, SameDecks, Allowed, Book, R.AllLocked, OpsOf, CardOp, SameBooks;
    BookingShown(s, before, a, booking);
    RunJoins(s, play, ops, OpsOf(booking));
    SameBooksCards(Book(a, booking), b);
    SameShown(Book(a, booking), b, after.table);
    SameDecksTwice(play.table, before.table, after.table);
  }

  lemma SameBooksCards(a: Game, b: Game)
    requires SameBooks(a, b)
    ensures b.table.cards == a.table.cards && b.table.holdings == a.table.holdings
  {
  }

  /**
   While actions are resolved the tabletop stays in agreement, decks and positions included: in every state of
   every run the engine shows a tabletop that building and spending reach from the one it started from, so its
   lists are duplicate-free, disjoint and match the places of all cards, and no deck has changed.
   */
  lemma ResolutionKeepsAgreement(s: R.Scenario, play: R.Play, cfg: Config, start: Game, orders: seq<Order>)
    returns (ops: seq<R.Op>)
    requires R.Ready(s, play) && R.AllLocked(play) && Shows(start, play.table)
    ensures forall op :: op in ops ==> CardOp(op)
    ensures
      var t := R.Run(s, play, ops).table;
      C.Agree(t) && Shows(Run(cfg, start, orders), t) && SameDecks(play.table, t)
  {
    var inv := g => exists ops :: Matched(s, play, ops, g);
    assert Keeps(inv) by {
      forall a, b, booking | inv(a) && Allowed(a, booking) && SameBooks(Book(a, booking), b)
        ensures inv(b)
      {
        var found :| Matched(s, play, found, a);
        MatchedAfter(s, play, found, a, booking, b);
      }
    }
    assert Matched(s, play, [], start);
    hide Keeps, Matched;
    RunKeeps(inv, cfg, start, orders);
    ops :| Matched(s, play, ops, Run(cfg, start, orders));
    MatchedMeans(s, play, ops, Run(cfg, start, orders));
  }

  lemma MatchedMeans(s: R.Scenario, play: R.Play, ops: seq<R.Op>, g: Game)
    requires R.Ready(s, play) && Matched(s, play, ops, g)
    ensures forall op :: op in ops ==> CardOp(op)
    ensures
      var t := R.Run(s, play, ops).table;
      C.Agree(t) && Shows(g, t) && SameDecks(play.table, t)
  {
  }
}
