/**
 The cards of a whole game: decks are locked, hands maintained, cards dealt, put into campaigns and spent, in any
 order. From the tabletop that seating leaves, every state keeps lists and cards in agreement.
 */
module CardRuns {
  import opened Prelude
  import opened Shuffle
  import opened CardZones
  import opened CardMoves
  import opened Refilling

  const HAND_LIMIT := 10

  datatype Origin = Origin(definition: DefinitionId, owner: PlayerId, starter: bool)

  /** The cards of the scenario, and each player's starters in the order of their serials. */
  datatype Scenario = Scenario(cards: map<CardId, Origin>, starters: map<PlayerId, seq<CardId>>)

  ghost predicate Listed(s: Scenario) {
    forall p :: p in s.starters ==>
      Distinct(s.starters[p]) &&
      forall c :: c in s.starters[p] <==> c in s.cards && s.cards[c].starter && s.cards[c].owner == p
  }

  /** `locked`: the players whose strategy is locked. */
  datatype Play = Play(table: Tabletop, locked: set<PlayerId>)

  function Dealt(origin: Origin): Card {
    Card(origin.definition, Some(origin.owner), Some(origin.owner), if origin.starter then StarterPool else Pool, None,
         false)
  }

  /** All seats are taken and nothing is locked: every card is in a pool and every list is empty. */
  function Opening(s: Scenario): Play {
    Play(Tabletop(map c | c in s.cards :: Dealt(s.cards[c]), map p | p in s.starters :: Piles([], [], [])), {})
  }

  /** The commands, each with the answers the random provider would give it. */
  datatype Op =
    | Lock(p: PlayerId, submitted: seq<CardId>, answers: seq<int>)
    | Maintain(p: PlayerId, selected: seq<CardId>, answers: seq<int>)
    | DealCard(p: PlayerId, q: PlayerId, c: CardId)
    | Build(p: PlayerId, c: CardId)
    | Spend(p: PlayerId, c: CardId)

  /** What the submitted deck is checked for. */
  ghost predicate Eligible(s: Scenario, t: Tabletop, p: PlayerId, submitted: seq<CardId>) {
    |submitted| == DECK_SIZE && Distinct(submitted) &&
    forall c :: c in submitted ==> At(t.cards, c, p, Pool) && c in s.cards && !s.cards[c].starter
  }

  predicate AllLocked(play: Play) {
    forall p :: p in play.table.piles ==> p in play.locked
  }

  /** A player who has not locked still has everything in the pools. */
  ghost predicate Untouched(s: Scenario, t: Tabletop, p: PlayerId)
    requires p in t.piles && p in s.starters
  {
    t.piles[p] == Piles([], [], []) && forall c :: c in s.starters[p] ==> At(t.cards, c, p, StarterPool)
  }

  /** What every reachable state keeps: lists, places, controllers and positions agree. */
  ghost predicate Ready(s: Scenario, play: Play) {
    Listed(s) && Agree(play.table) && play.table.piles.Keys == s.starters.Keys &&
    play.table.cards.Keys == s.cards.Keys &&
    forall p :: p in play.table.piles && p !in play.locked ==> Untouched(s, play.table, p)
  }

  /** A card of a hand goes into a campaign. */
  function Built(t: Tabletop, p: PlayerId, c: CardId): (r: Tabletop)
    requires c in t.cards
    ensures r.piles.Keys == t.piles.Keys && r.cards.Keys == t.cards.Keys
  {
    Tabletop(t.cards[c := t.cards[c].(place := InCampaign)],
             if p in t.piles then t.piles[p := t.piles[p].(hand := Without(t.piles[p].hand, c))] else t.piles)
  }

  /** A card of a hand is spent. */
  function Spent(t: Tabletop, p: PlayerId, c: CardId): (r: Tabletop)
    requires c in t.cards && p in t.piles
    ensures r.piles.Keys == t.piles.Keys && r.cards.Keys == t.cards.Keys
  {
    var s := t.piles[p];
    Tabletop(t.cards[c := t.cards[c].(place := Discard)],
             t.piles[p := s.(hand := Without(s.hand, c),
                             discard := if c in s.discard then s.discard else s.discard + [c])])
  }

  // ------------------------------------------------------------- each command

  lemma EligibleIsLockable(s: Scenario, play: Play, p: PlayerId, submitted: seq<CardId>)
    requires Ready(s, play) && p in play.table.piles && p !in play.locked && Eligible(s, play.table, p, submitted)
    requires |s.starters[p]| == STARTERS
    ensures Lockable(play.table, p, submitted, s.starters[p])
  {
    hide Agree, Distinct;
    assert Untouched(s, play.table, p);
  }

  /** Another player's untouched cards stay so while this one draws. */
  lemma {:induction false} DrawingLeavesPools(t: Tabletop, p: PlayerId, drawn: seq<CardId>, c: CardId, q: PlayerId)
    requires p in t.piles && q != p && At(t.cards, c, q, StarterPool) && Distinct(drawn)
    requires (forall x :: x in drawn ==> x in t.cards) && AgreeBut(t, p, SetOf(drawn))
    ensures At(DrawAll(t, p, drawn).cards, c, q, StarterPool)
    decreases |drawn|
  {
    hide AgreeBut, Distinct, At, ResolveDrawn;
    if drawn != [] {
      ResolvedElsewhere(t, p, drawn[0], SetOf(drawn), c, q);
      DrawAgrees(t, p, drawn[0], SetOf(drawn));
      RestDistinct(drawn);
      assert SetOf(drawn) - {drawn[0]} == SetOf(drawn[1..]);
      DrawingLeavesPools(ResolveDrawn(t, p, drawn[0]), p, drawn[1..], c, q);
    }
  }

  lemma ResolvedElsewhere(t: Tabletop, p: PlayerId, x: CardId, loose: set<CardId>, c: CardId, q: PlayerId)
    requires AgreeBut(t, p, loose) && p in t.piles && x in loose && x in t.cards && q != p
    requires At(t.cards, c, q, StarterPool)
    ensures At(ResolveDrawn(t, p, x).cards, c, q, StarterPool)
  {
    LooseIsThere(t, p, x, loose);
    if Intercepted(t, p, x) {
      ProtocolIsInHand(t, p, x, loose);
    }
  }

  lemma {:induction false} DrawingLeavesLists(t: Tabletop, p: PlayerId, drawn: seq<CardId>)
    requires p in t.piles && forall x :: x in drawn ==> x in t.cards
    ensures forall q :: q in t.piles && q != p ==> DrawAll(t, p, drawn).piles[q] == t.piles[q]
    decreases |drawn|
  {
    if drawn != [] {
      DrawingLeavesLists(ResolveDrawn(t, p, drawn[0]), p, drawn[1..]);
    }
  }

  /** Whoever has not locked is still untouched when someone else locks. */
  lemma LockLeavesOthers(s: Scenario, play: Play, p: PlayerId, submitted: seq<CardId>, v: seq<nat>, q: PlayerId)
    requires Ready(s, play) && p in play.table.piles && p !in play.locked && Eligible(s, play.table, p, submitted)
    requires |s.starters[p]| == STARTERS && Drawable(v, DECK_SIZE)
    requires q in play.table.piles && q != p && q !in play.locked
    requires forall c :: c in Shuffled(submitted, v) ==> c in play.table.cards
    ensures Untouched(s, LockStrategy(play.table, p, submitted, s.starters[p], v), q)
  {
    var t, starters, shuffled := play.table, s.starters[p], Shuffled(submitted, v);
    var dealt, drawn := Opened(t, p, submitted, starters, v), shuffled[..OPENING_DRAW];
    EligibleIsLockable(s, play, p, submitted);
    assert Untouched(s, t, q);
    assert dealt.piles[q] == t.piles[q];
    hide Opened, Shuffled, Agree, Lockable;
    ShuffledIsDealt(t, p, submitted, starters, v);
    OpenedAgrees(t, p, submitted, starters, v);
    DrawingLeavesLists(dealt, p, drawn);
    forall c | c in s.starters[q]
      ensures At(DrawAll(dealt, p, drawn).cards, c, q, StarterPool)
    {
      OpenedPlaces(t, p, submitted, starters, v, c, q, StarterPool);
      DrawingLeavesPools(dealt, p, drawn, c, q);
    }
  }

  lemma LockStaysReady(s: Scenario, play: Play, p: PlayerId, submitted: seq<CardId>, v: seq<nat>)
    requires Ready(s, play) && p in play.table.piles && p !in play.locked && Eligible(s, play.table, p, submitted)
    requires |s.starters[p]| == STARTERS && Drawable(v, DECK_SIZE)
    ensures forall c :: c in Shuffled(submitted, v) ==> c in play.table.cards
    ensures Ready(s, Play(LockStrategy(play.table, p, submitted, s.starters[p], v), play.locked + {p}))
  {
    var t, starters := play.table, s.starters[p];
    EligibleIsLockable(s, play, p, submitted);
    LockAgrees(t, p, submitted, starters, v);
    var r := LockStrategy(t, p, submitted, starters, v);
    hide Agree, LockStrategy, Untouched, Shuffled, Eligible;
    forall q | q in r.piles && q !in play.locked + {p}
      ensures Untouched(s, r, q)
    {
      LockLeavesOthers(s, play, p, submitted, v, q);
    }
  }

  lemma BuildAgrees(t: Tabletop, p: PlayerId, c: CardId)
    requires Agree(t) && At(t.cards, c, p, Hand)
    ensures Agree(Built(t, p, c))
  {
    var r, moved := Built(t, p, c), t.cards[c := t.cards[c].(place := InCampaign)];
    hide Zone, DeckZone, At;
    forall q | q in t.piles
      ensures PilesAgree(r.cards, q, r.piles[q], {})
    {
      assert PilesAgree(t.cards, q, t.piles[q], {});
      RecordLeaves(t.cards, c, p, InCampaign, q, t.piles[q]);
    }
  }

  /** A card that leaves p's hand for another place leaves that list only. */
  lemma RecordLeaves(cards: map<CardId, Card>, c: CardId, p: PlayerId, place: Place, q: PlayerId, s: Piles)
    requires At(cards, c, p, Hand) && PilesAgree(cards, q, s, {}) && place != Hand && place != Deck
    ensures
      var moved := cards[c := cards[c].(place := place)];
      Zone(moved, if q == p then Without(s.hand, c) else s.hand, q, Hand) && DeckZone(moved, s.deck, q, {}) &&
      Zone(moved, if q == p && place == Discard then s.discard + [c] else s.discard, q, Discard) &&
      (q == p ==> c !in s.discard)
  {
    WithoutDistinct(s.hand, c);
    assert c !in s.deck by { assert !At(cards, c, q, Deck); }
    assert c !in s.discard by { assert !At(cards, c, q, Discard); }
    AppendDistinct(s.discard, c);
  }

  lemma SpendAgrees(t: Tabletop, p: PlayerId, c: CardId)
    requires Agree(t) && p in t.piles && At(t.cards, c, p, Hand)
    ensures Agree(Spent(t, p, c))
  {
    var r := Spent(t, p, c);
    hide Zone, DeckZone, At;
    forall q | q in t.piles
      ensures PilesAgree(r.cards, q, r.piles[q], {})
    {
      assert PilesAgree(t.cards, q, t.piles[q], {});
      RecordLeaves(t.cards, c, p, Discard, q, t.piles[q]);
    }
  }

  // -------------------------------------------------------------------- runs

  ghost predicate Selectable(t: Tabletop, p: PlayerId, selected: seq<CardId>) {
    Distinct(selected) && forall c :: c in selected ==> At(t.cards, c, p, Hand)
  }

  /** Discards the selection and refills; None when the provider fails. */
  ghost function Maintained(t: Tabletop, p: PlayerId, selected: seq<CardId>, answers: seq<int>): (r: Option<Tabletop>)
    requires Agree(t) && p in t.piles && Selectable(t, p, selected)
    ensures r.Some? ==> Agree(r.value) && r.value.piles.Keys == t.piles.Keys && r.value.cards.Keys == t.cards.Keys
  {
    DiscardAllAgrees(t, p, selected);
    var r := Refill(DiscardAll(t, p, selected), p, HAND_LIMIT, answers);
    RefillKeepsCards(DiscardAll(t, p, selected), p, HAND_LIMIT, answers);
    if r.Filled? then Some(r.table) else None
  }

  lemma {:induction false} RefillKeepsCards(t: Tabletop, p: PlayerId, limit: nat, answers: seq<int>)
    requires Agree(t) && p in t.piles
    ensures var r := Refill(t, p, limit, answers); r.Filled? ==> r.table.cards.Keys == t.cards.Keys
    decreases |answers|, |t.piles[p].discard| % 2, |t.piles[p].deck|
  {
    hide Agree, ResolveDrawn, Answers, Stacked, Numbered;
    if |t.piles[p].hand| < limit && TurnOf(t, p, answers).Drew? {
      TurnIsSound(t, p, answers);
      RefillKeepsCards(TurnOf(t, p, answers).next, p, limit, TurnOf(t, p, answers).rest);
    }
  }

  /** A command that is refused, or whose provider fails, leaves the game as it was. */
  ghost function Step(s: Scenario, play: Play, op: Op): (r: Play)
    requires Ready(s, play)
  {
    var t := play.table;
    match op
    case Lock(p, submitted, answers) =>
      if p in t.piles && p !in play.locked && Eligible(s, t, p, submitted) && |s.starters[p]| == STARTERS &&
         Answers(answers, DECK_SIZE).Some? then
        var v := Answers(answers, DECK_SIZE).value;
        LockStaysReady(s, play, p, submitted, v);
        Play(LockStrategy(t, p, submitted, s.starters[p], v), play.locked + {p})
      else play
    case Maintain(p, selected, answers) =>
      if AllLocked(play) && p in t.piles && Selectable(t, p, selected) then
        var r := Maintained(t, p, selected, answers);
        if r.Some? then play.(table := r.value) else play
      else play
    case DealCard(p, q, c) =>
      if AllLocked(play) && p in t.piles && q in t.piles && p != q && At(t.cards, c, p, Hand) &&
         |t.piles[q].hand| < HAND_LIMIT then play.(table := Deal(t, p, q, c)) else play
    case Build(p, c) =>
      if AllLocked(play) && At(t.cards, c, p, Hand) then play.(table := Built(t, p, c)) else play
    case Spend(p, c) =>
      if AllLocked(play) && p in t.piles && At(t.cards, c, p, Hand) then play.(table := Spent(t, p, c)) else play
  }

  lemma StepStaysReady(s: Scenario, play: Play, op: Op)
    requires Ready(s, play)
    ensures Ready(s, Step(s, play, op))
  {
    hide Agree, Untouched, Refill, LockStrategy, DiscardAll, Eligible, Selectable;
    match op
    case Lock(p, submitted, answers) =>
      if Step(s, play, op) != play {
        LockStaysReady(s, play, p, submitted, Answers(answers, DECK_SIZE).value);
      }
    case Maintain(p, selected, answers) =>
    case DealCard(p, q, c) =>
      if Step(s, play, op) != play {
        DealAgrees(play.table, p, q, c);
      }
    case Build(p, c) =>
      if Step(s, play, op) != play {
        BuildAgrees(play.table, p, c);
      }
    case Spend(p, c) =>
      if Step(s, play, op) != play {
        SpendAgrees(play.table, p, c);
      }
  }

  ghost function Run(s: Scenario, play: Play, ops: seq<Op>): (r: Play)
    requires Ready(s, play)
    ensures Ready(s, r)
  {
    if ops == [] then play
    else
      var before := Run(s, play, ops[..|ops| - 1]);
      StepStaysReady(s, before, ops[|ops| - 1]);
      Step(s, before, ops[|ops| - 1])
  }

  lemma OpeningIsReady(s: Scenario)
    requires Listed(s)
    ensures Ready(s, Opening(s))
  {
    var t := Opening(s).table;
    forall q | q in t.piles
      ensures PilesAgree(t.cards, q, t.piles[q], {})
    {
      forall c
        ensures !At(t.cards, c, q, Hand) && !At(t.cards, c, q, Deck) && !At(t.cards, c, q, Discard)
      {
      }
    }
  }

  /**
   Zone agreement in every reachable state: whatever commands are given, in whatever order and with whatever
   answers of the provider, all lists are duplicate-free, match the places and controllers of the cards, hold
   each card once, and number the decks; no card is lost or made.
   */
  lemma EveryStateAgrees(s: Scenario, ops: seq<Op>)
    requires Listed(s)
    ensures Ready(s, Opening(s))
    ensures
      var t := Run(s, Opening(s), ops).table;
      Agree(t) && t.cards.Keys == s.cards.Keys && t.piles.Keys == s.starters.Keys
  {
    OpeningIsReady(s);
    hide Agree, Opening, Listed;
  }
}
