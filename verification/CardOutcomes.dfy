/** Where cards end up: what a lock deals, where a discarded card goes, and that a dealt card is kept. */
module CardOutcomes {
  import opened Prelude
  import opened Shuffle
  import opened CardZones
  import opened CardMoves
  import opened Refilling

  // --------------------------------------------------------------- locking

  ghost predicate ToDraw(t: Tabletop, p: PlayerId, drawn: seq<CardId>) {
    p in t.piles && Distinct(drawn) && AgreeBut(t, p, SetOf(drawn)) && forall c :: c in drawn ==> c in t.cards
  }

  /** Drawing the first of the cards: the rest is still to be drawn, the deck is left alone. */
  lemma FirstDrawn(t: Tabletop, p: PlayerId, drawn: seq<CardId>)
    requires ToDraw(t, p, drawn) && drawn != []
    ensures var r := ResolveDrawn(t, p, drawn[0]);
            ToDraw(r, p, drawn[1..]) && SameDefinitions(t.cards, r.cards) && r.piles[p].deck == t.piles[p].deck &&
            AllOf(r.piles[p]) == AllOf(t.piles[p]) + multiset{drawn[0]}
  {
    hide ResolveDrawn, AgreeBut, Distinct, AllOf, SameDefinitions;
    ResolveKeepsDeck(t, p, drawn[0], SetOf(drawn));
    ResolveConserves(t, p, drawn[0], SetOf(drawn));
    DrawAgrees(t, p, drawn[0], SetOf(drawn));
    RestDistinct(drawn);
    assert SetOf(drawn) - {drawn[0]} == SetOf(drawn[1..]);
  }

  lemma ResolveKeepsDeck(t: Tabletop, p: PlayerId, c: CardId, loose: set<CardId>)
    requires AgreeBut(t, p, loose) && p in t.piles && c in loose && c in t.cards
    ensures ResolveDrawn(t, p, c).piles[p].deck == t.piles[p].deck
    ensures SameDefinitions(t.cards, ResolveDrawn(t, p, c).cards)
  {
    ResolveExact(t, p, c, loose);
    hide ResolveDrawn, AgreeBut, SameDefinitions, Intercepted, FindProtocol, Distinct;
  }

  lemma FirstKnown(t: Tabletop, p: PlayerId, drawn: seq<CardId>)
    requires ToDraw(t, p, drawn)
    ensures p in t.piles && forall c :: c in drawn ==> c in t.cards
  {
  }

  lemma {:induction false} DrawnJoin(t: Tabletop, p: PlayerId, drawn: seq<CardId>)
    requires ToDraw(t, p, drawn)
    ensures var r := DrawAll(t, p, drawn);
            AllOf(r.piles[p]) == AllOf(t.piles[p]) + multiset(drawn) && r.piles[p].deck == t.piles[p].deck
    decreases |drawn|
  {
    hide ResolveDrawn, AllOf, ToDraw, SameDefinitions;
    if drawn != [] {
      FirstKnown(t, p, drawn);
      FirstDrawn(t, p, drawn);
      assert drawn == [drawn[0]] + drawn[1..];
      DrawnJoin(ResolveDrawn(t, p, drawn[0]), p, drawn[1..]);
    }
  }

  lemma PlainUnlessLeaks(t: Tabletop, p: PlayerId, c: CardId)
    requires c in t.cards && p in t.piles && t.cards[c].definition != LEAKS
    ensures ResolveDrawn(t, p, c).piles[p] == t.piles[p].(hand := t.piles[p].hand + [c])
  {
  }

  lemma StillNoLeaks(t: Tabletop, r: Tabletop, drawn: seq<CardId>)
    requires SameDefinitions(t.cards, r.cards) && drawn != []
    requires forall c :: c in drawn ==> c in t.cards && t.cards[c].definition != LEAKS
    ensures forall c :: c in drawn[1..] ==> c in r.cards && r.cards[c].definition != LEAKS
  {
  }

  /** Without a Leaks card the hand gets the cards in the order in which they are drawn. */
  lemma {:induction false} DrawnInOrder(t: Tabletop, p: PlayerId, drawn: seq<CardId>)
    requires ToDraw(t, p, drawn) && p in t.piles
    requires forall c :: c in drawn ==> c in t.cards && t.cards[c].definition != LEAKS
    ensures DrawAll(t, p, drawn).piles[p] == t.piles[p].(hand := t.piles[p].hand + drawn)
    decreases |drawn|
  {
    hide ResolveDrawn, ToDraw, SameDefinitions, AllOf;
    if drawn == [] {
      assert t.piles[p].hand + [] == t.piles[p].hand;
    } else {
      var c, rest, next, hand := drawn[0], drawn[1..], ResolveDrawn(t, p, drawn[0]), t.piles[p].hand;
      FirstDrawn(t, p, drawn);
      PlainUnlessLeaks(t, p, c);
      StillNoLeaks(t, next, drawn);
      assert drawn == [c] + rest;
      JoinAssociates(hand, [c], rest);
      DrawnInOrder(next, p, rest);
    }
  }

  /**
   A lock keeps starters and submitted cards, each once, in the player's three lists. The deck is the shuffle from
   its sixth card on, and unless a Leaks card is drawn the hand holds the starters and the first five cards.
   */
  lemma LockDeals(t: Tabletop, p: PlayerId, submitted: seq<CardId>, starters: seq<CardId>, v: seq<nat>)
    requires Agree(t) && Lockable(t, p, submitted, starters) && Drawable(v, DECK_SIZE)
    ensures forall c :: c in Shuffled(submitted, v) ==> c in t.cards
    ensures |Shuffled(submitted, v)| == DECK_SIZE
    ensures var shuffled, r := Shuffled(submitted, v), LockStrategy(t, p, submitted, starters, v).piles[p];
            AllOf(r) == multiset(starters) + multiset(submitted) && r.deck == shuffled[5..] &&
            ((forall c :: c in shuffled[..5] ==> t.cards[c].definition != LEAKS) ==>
              r.hand == starters + shuffled[..5] && r.discard == [])
  {
    hide Shuffled, Opened, Agree, Distinct, At, AllOf;
    ShuffledIsDealt(t, p, submitted, starters, v);
    OpenedAgrees(t, p, submitted, starters, v);
    var shuffled, dealt := Shuffled(submitted, v), Opened(t, p, submitted, starters, v);
    var drawn := shuffled[..OPENING_DRAW];
    assert ToDraw(dealt, p, drawn);
    DrawnJoin(dealt, p, drawn);
    OpenedPiles(t, p, submitted, starters, v);
    if forall c :: c in drawn ==> t.cards[c].definition != LEAKS {
      OpenedDefinitions(t, p, submitted, starters, v, drawn);
      DrawnInOrder(dealt, p, drawn);
    }
  }

  lemma OpenedPiles(t: Tabletop, p: PlayerId, submitted: seq<CardId>, starters: seq<CardId>, v: seq<nat>)
    requires Lockable(t, p, submitted, starters) && Drawable(v, DECK_SIZE)
    ensures var r, shuffled := Opened(t, p, submitted, starters, v).piles[p], Shuffled(submitted, v);
            |shuffled| == DECK_SIZE && r == Piles(starters, shuffled[OPENING_DRAW..], []) &&
            AllOf(r) + multiset(shuffled[..OPENING_DRAW]) == multiset(starters) + multiset(submitted)
  {
    ShuffleInjective(submitted, v, v);
    hide Shuffled, MoveAll, Numbered;
    var shuffled := Shuffled(submitted, v);
    assert shuffled == shuffled[..OPENING_DRAW] + shuffled[OPENING_DRAW..];
  }

  lemma {:induction false} MoveAllDefinitions(cards: map<CardId, Card>, list: seq<CardId>, place: Place)
    ensures SameDefinitions(cards, MoveAll(cards, list, place))
  {
    forall c | c in cards
      ensures MoveAll(cards, list, place)[c].definition == cards[c].definition
    {
      MoveAllExact(cards, list, place, c);
    }
  }

  lemma {:induction false} NumberedDefinitions(cards: map<CardId, Card>, deck: seq<CardId>)
    ensures SameDefinitions(cards, Numbered(cards, deck))
  {
    if deck != [] {
      NumberedDefinitions(cards, deck[..|deck| - 1]);
    }
  }

  lemma OpenedDefinitions(t: Tabletop, p: PlayerId, submitted: seq<CardId>, starters: seq<CardId>, v: seq<nat>,
                          drawn: seq<CardId>)
    requires Lockable(t, p, submitted, starters) && Drawable(v, DECK_SIZE)
    requires forall c :: c in drawn ==> c in t.cards
    ensures forall c :: c in drawn ==> Opened(t, p, submitted, starters, v).cards[c].definition == t.cards[c].definition
  {
    var first := MoveAll(t.cards, submitted, Deck);
    var cards := MoveAll(first, starters, Hand);
    MoveAllDefinitions(t.cards, submitted, Deck);
    MoveAllDefinitions(first, starters, Hand);
    NumberedDefinitions(cards, Shuffled(submitted, v)[OPENING_DRAW..]);
    hide Shuffled, MoveAll, Numbered;
  }

  // --------------------------------------------------- discarding, dealing

  /** The player a card is on loan from, if it is not p's to keep. */
  function Lender(t: Tabletop, p: PlayerId, c: CardId): Option<PlayerId>
    requires c in t.cards
  {
    if t.cards[c].goesBack && t.cards[c].owner != Some(p) then t.cards[c].owner else None
  }

  /** A card on loan is discarded into its lender's hand and is on loan no longer; any other into the own pile. */
  lemma DiscardGoes(t: Tabletop, p: PlayerId, c: CardId)
    requires Agree(t) && p in t.piles && At(t.cards, c, p, Hand)
    ensures var r := DiscardOne(t, p, c);
            c !in r.piles[p].hand && r.piles[p].deck == t.piles[p].deck && Lender(r, p, c).None? &&
            (forall x :: x != c ==> (x in r.piles[p].hand <==> x in t.piles[p].hand)) &&
            match Lender(t, p, c)
            case None =>
              At(r.cards, c, p, Discard) && r.piles[p].discard == t.piles[p].discard + [c] &&
              forall q :: q in t.piles && q != p ==> r.piles[q] == t.piles[q]
            case Some(lender) =>
              At(r.cards, c, lender, Hand) && r.piles[p].discard == t.piles[p].discard &&
              forall q :: q in t.piles && q != p ==>
                r.piles[q] == if q == lender then t.piles[q].(hand := t.piles[q].hand + [c]) else t.piles[q]
  {
    if Lender(t, p, c).Some? {
      var lender := Lender(t, p, c).value;
      if lender in t.piles {
        assert PilesAgree(t.cards, lender, t.piles[lender], {});
        assert c !in t.piles[lender].hand by { assert !At(t.cards, c, lender, Hand); }
      }
    }
    hide Agree, PilesAgree;
  }

  /**
   A dealt card leaves one hand for another. Whatever country it is from, it belongs to whoever was given it:
   discarded later, it goes to that player's pile.
   */
  lemma DealIsKept(t: Tabletop, p: PlayerId, q: PlayerId, c: CardId)
    requires Agree(t) && p in t.piles && q in t.piles && p != q && At(t.cards, c, p, Hand)
    ensures var r := Deal(t, p, q, c);
            At(r.cards, c, q, Hand) && c !in r.piles[p].hand && r.piles[q].hand == t.piles[q].hand + [c] &&
            (forall x :: x != c ==> (x in r.piles[p].hand <==> x in t.piles[p].hand)) &&
            (forall x :: x in t.cards && x != c ==> r.cards[x] == t.cards[x]) &&
            (forall x :: x in t.piles && x !in {p, q} ==> r.piles[x] == t.piles[x]) &&
            At(DiscardOne(r, q, c).cards, c, q, Discard) &&
            DiscardOne(r, q, c).piles[q].discard == t.piles[q].discard + [c]
  {
    DealAgrees(t, p, q, c);
    DiscardGoes(Deal(t, p, q, c), q, c);
    hide Agree, DiscardOne;
  }

  /** The card lies where discarding it from p's hand puts it. */
  ghost predicate Went(t: Tabletop, r: Tabletop, p: PlayerId, c: CardId)
    requires c in t.cards
  {
    match Lender(t, p, c)
    case None => At(r.cards, c, p, Discard)
    case Some(lender) => At(r.cards, c, lender, Hand)
  }

  lemma NextWent(t: Tabletop, before: Tabletop, p: PlayerId, init: seq<CardId>, last: CardId)
    requires Agree(before) && p in before.piles && last in t.cards && last in before.cards
    requires before.cards[last] == t.cards[last] && At(before.cards, last, p, Hand) && last !in init
    requires forall c :: c in init ==> c in t.cards && c in before.cards && Went(t, before, p, c)
    ensures var r := DiscardOne(before, p, last);
            (forall c :: c in init + [last] ==> c in t.cards && Went(t, r, p, c)) &&
            (forall c :: c in r.piles[p].hand <==> c in before.piles[p].hand && c != last)
  {
    DiscardGoes(before, p, last);
    hide Agree, DiscardOne, Went;
    forall c | c in init + [last]
      ensures c in t.cards && Went(t, DiscardOne(before, p, last), p, c)
    {
      WentNow(t, before, p, init, last, c);
    }
  }

  lemma WentNow(t: Tabletop, before: Tabletop, p: PlayerId, init: seq<CardId>, last: CardId, c: CardId)
    requires Agree(before) && p in before.piles && last in t.cards && last in before.cards
    requires before.cards[last] == t.cards[last] && At(before.cards, last, p, Hand)
    requires c in t.cards && c in before.cards && (c == last || Went(t, before, p, c))
    ensures Went(t, DiscardOne(before, p, last), p, c)
  {
    DiscardGoes(before, p, last);
    hide Agree, DiscardOne;
    if c != last {
      DiscardLeaves(before, p, last, c);
    }
  }

  /** A selection is discarded card by card, each to where it goes; the rest of the hand stays. */
  lemma {:induction false} SelectionGoes(t: Tabletop, p: PlayerId, selected: seq<CardId>)
    requires Agree(t) && p in t.piles && Distinct(selected) && forall c :: c in selected ==> At(t.cards, c, p, Hand)
    ensures var r := DiscardAll(t, p, selected);
            (forall c :: c in r.piles[p].hand <==> c in t.piles[p].hand && c !in selected) &&
            (forall c :: c in selected ==> Went(t, r, p, c))
  {
    if selected != [] {
      var init, last := selected[..|selected| - 1], selected[|selected| - 1];
      assert selected == init + [last] && last !in init;
      forall c | c in init
        ensures At(t.cards, c, p, Hand)
      {
        assert c in selected;
      }
      hide Agree, DiscardOne, Went;
      SelectionGoes(t, p, init);
      DiscardAllAgrees(t, p, init);
      StillThere(t, DiscardAll(t, p, init), last, p);
      NextWent(t, DiscardAll(t, p, init), p, init, last);
    }
  }

  // ---------------------------------------------------------------- drawing

  predicate IsProtocol(cards: map<CardId, Card>, c: CardId) {
    c in cards && cards[c].definition == SECURITY_PROTOCOLS
  }

  /** Position of the first Security Protocols card, or the length of the hand. */
  function FirstProtocol(cards: map<CardId, Card>, hand: seq<CardId>): (n: nat)
    ensures n <= |hand| && (n < |hand| ==> IsProtocol(cards, hand[n]))
    ensures forall m :: 0 <= m < n ==> !IsProtocol(cards, hand[m])
  {
    if hand == [] then 0 else if IsProtocol(cards, hand[0]) then 0 else 1 + FirstProtocol(cards, hand[1..])
  }

  lemma {:induction false} ProtocolAt(cards: map<CardId, Card>, hand: seq<CardId>)
    requires Distinct(hand)
    ensures var n, found := FirstProtocol(cards, hand), FindProtocol(cards, hand);
            if n == |hand| then found.None?
            else found == Some(hand[n]) && Without(hand, hand[n]) == hand[..n] + hand[n + 1..]
  {
    if hand != [] {
      RestDistinct(hand);
      hide Distinct;
      var rest := hand[1..];
      if IsProtocol(cards, hand[0]) {
        assert hand[0] !in rest;
        assert Without(hand, hand[0]) == rest == hand[..0] + hand[1..];
      } else {
        ProtocolAt(cards, rest);
        hide FindProtocol;
        var n := FirstProtocol(cards, rest);
        if n < |rest| {
          assert rest[n] in rest && hand[0] != rest[n] && hand[n + 1] == rest[n];
          assert hand == [hand[0]] + rest;
          CutBehind(hand[0], rest, n);
        }
      }
    }
  }

  lemma CutBehind(first: CardId, rest: seq<CardId>, n: nat)
    requires n < |rest|
    ensures [first] + (rest[..n] + rest[n + 1..]) == ([first] + rest)[..n + 1] + ([first] + rest)[n + 2..]
  {
    var whole := [first] + rest;
    assert whole[..n + 1] == [first] + rest[..n];
    assert whole[n + 2..] == rest[n + 1..];
  }

  function AfterDraw(cards: map<CardId, Card>, s: Piles, c: CardId): Piles
    requires c in cards
  {
    var n := FirstProtocol(cards, s.hand);
    if cards[c].definition == LEAKS && n < |s.hand|
    then Piles(s.hand[..n] + s.hand[n + 1..], s.deck, s.discard + [s.hand[n], c])
    else Piles(s.hand + [c], s.deck, s.discard)
  }

  /** What is drawn by the rules, in terms of the card found. */
  lemma FoundIsFirst(cards: map<CardId, Card>, s: Piles, c: CardId)
    requires Distinct(s.hand) && c in cards
    ensures var found := FindProtocol(cards, s.hand);
            AfterDraw(cards, s, c) ==
            if cards[c].definition == LEAKS && found.Some?
            then Piles(Without(s.hand, found.value), s.deck, s.discard + [found.value, c])
            else Piles(s.hand + [c], s.deck, s.discard)
  {
    ProtocolAt(cards, s.hand);
    hide FindProtocol, FirstProtocol, Distinct;
  }

  lemma ResolvedGoes(t: Tabletop, p: PlayerId, c: CardId, loose: set<CardId>)
    requires AgreeBut(t, p, loose) && p in t.piles && c in loose && c in t.cards
    ensures ResolveDrawn(t, p, c).piles == t.piles[p := AfterDraw(t.cards, t.piles[p], c)]
  {
    var s := t.piles[p];
    hide AgreeBut, FindProtocol, Distinct, Move, At, AfterDraw;
    HandIsDistinct(t, p, loose);
    FoundIsFirst(t.cards, s, c);
    if Intercepted(t, p, c) {
      ProtocolIsInHand(t, p, c, loose);
      var protocol := FindProtocol(t.cards, s.hand).value;
      assert s.discard + [protocol] + [c] == s.discard + [protocol, c];
    }
  }

  /**
   The top card of the deck goes to the hand. A Leaks card drawn by a player with a Security Protocols card in hand
   goes to the discard pile, and the first such card with it.
   */
  lemma DrawGoes(t: Tabletop, p: PlayerId)
    requires Agree(t) && p in t.piles && t.piles[p].deck != []
    ensures t.piles[p].deck[0] in t.cards
    ensures DrawTop(t, p).piles ==
            t.piles[p := AfterDraw(t.cards, t.piles[p].(deck := t.piles[p].deck[1..]), t.piles[p].deck[0])]
  {
    var deck, lifted := t.piles[p].deck, Lifted(t, p);
    assert deck[0] in t.cards ==> DrawTop(t, p) == ResolveDrawn(lifted, p, deck[0]);
    hide *;
    DeckTopExists(t, p);
    AgreeSpelled(t, p);
    LiftedExact(t, p);
    LiftedGoes(t, lifted, p, t.piles[p].(deck := deck[1..]), deck[0]);
  }

  lemma LiftedGoes(t: Tabletop, lifted: Tabletop, p: PlayerId, s: Piles, c: CardId)
    requires AgreeBut(t, p, {}) && AgreeBut(lifted, p, {c}) && p in t.piles && lifted.piles == t.piles[p := s]
    requires s.hand == t.piles[p].hand && SameDefinitions(t.cards, lifted.cards) && c in t.cards && c in lifted.cards
    ensures ResolveDrawn(lifted, p, c).piles == t.piles[p := AfterDraw(t.cards, s, c)]
  {
    hide *;
    ResolvedGoes(lifted, p, c, {c});
    HandIsDistinct(t, p, {});
    SameAfterDraw(t, lifted, s, c);
    assert t.piles[p := s][p := AfterDraw(t.cards, s, c)] == t.piles[p := AfterDraw(t.cards, s, c)];
  }

  lemma SameAfterDraw(t: Tabletop, r: Tabletop, s: Piles, c: CardId)
    requires SameDefinitions(t.cards, r.cards) && c in t.cards && forall x :: x in s.hand ==> x in t.cards
    ensures c in r.cards && AfterDraw(r.cards, s, c) == AfterDraw(t.cards, s, c)
  {
    SameProtocols(t, r, s.hand);
    hide FirstProtocol;
  }

  lemma HandIsDistinct(t: Tabletop, p: PlayerId, loose: set<CardId>)
    requires AgreeBut(t, p, loose) && p in t.piles
    ensures Distinct(t.piles[p].hand) && forall c :: c in t.piles[p].hand ==> c in t.cards
  {
    assert PilesAgree(t.cards, p, t.piles[p], loose);
  }

  lemma {:induction false} SameProtocols(t: Tabletop, r: Tabletop, hand: seq<CardId>)
    requires SameDefinitions(t.cards, r.cards) && forall c :: c in hand ==> c in t.cards
    ensures FirstProtocol(r.cards, hand) == FirstProtocol(t.cards, hand)
  {
    if hand != [] {
      SameProtocols(t, r, hand[1..]);
    }
  }
}
