/** Locking a deck, discarding in maintenance and dealing a card: the other moves that keep the lists in agreement. */
module CardMoves {
  import opened Prelude
  import opened Shuffle
  import opened CardZones

  const DECK_SIZE := 30
  const STARTERS := 5
  const OPENING_DRAW := 5

  // --------------------------------------------------------- locking a deck

  /** The listed cards are put in a place, without a position. */
  function MoveAll(cards: map<CardId, Card>, list: seq<CardId>, place: Place): (r: map<CardId, Card>)
    ensures r.Keys == cards.Keys
  {
    if list == [] then cards
    else
      var m := MoveAll(cards, list[..|list| - 1], place);
      var c := list[|list| - 1];
      if c in m then Move(m, c, place) else m
  }

  function DrawAll(t: Tabletop, p: PlayerId, drawn: seq<CardId>): (r: Tabletop)
    requires p in t.piles && forall c :: c in drawn ==> c in t.cards
    ensures r.piles.Keys == t.piles.Keys && r.cards.Keys == t.cards.Keys
    decreases |drawn|
  {
    if drawn == [] then t else DrawAll(ResolveDrawn(t, p, drawn[0]), p, drawn[1..])
  }

  /** What a lock is checked against: thirty different controlled cards of the pool, and the five starters. */
  ghost predicate Lockable(t: Tabletop, p: PlayerId, submitted: seq<CardId>, starters: seq<CardId>) {
    p in t.piles && t.piles[p] == Piles([], [], []) &&
    |submitted| == DECK_SIZE && Distinct(submitted) && (forall c :: c in submitted ==> At(t.cards, c, p, Pool)) &&
    |starters| == STARTERS && Distinct(starters) &&
    (forall c :: c in starters ==> c in t.cards && t.cards[c].controller == Some(p) && c !in submitted)
  }

  /** Before the opening draw: starters in hand, the shuffled deck without its first cards, those in between. */
  function Opened(t: Tabletop, p: PlayerId, submitted: seq<CardId>, starters: seq<CardId>, v: seq<nat>): (r: Tabletop)
    requires p in t.piles && |submitted| == DECK_SIZE && Drawable(v, DECK_SIZE)
    ensures r.piles.Keys == t.piles.Keys && r.cards.Keys == t.cards.Keys
  {
    var remaining := Shuffled(submitted, v)[OPENING_DRAW..];
    var cards := MoveAll(MoveAll(t.cards, submitted, Deck), starters, Hand);
    Tabletop(Numbered(cards, remaining), t.piles[p := Piles(starters, remaining, [])])
  }

  function LockStrategy(t: Tabletop, p: PlayerId, submitted: seq<CardId>, starters: seq<CardId>,
                        v: seq<nat>): (r: Tabletop)
    requires p in t.piles && |submitted| == DECK_SIZE && Drawable(v, DECK_SIZE)
    requires forall c :: c in Shuffled(submitted, v) ==> c in t.cards
    ensures r.piles.Keys == t.piles.Keys
  {
    DrawAll(Opened(t, p, submitted, starters, v), p, Shuffled(submitted, v)[..OPENING_DRAW])
  }

  lemma {:induction false} MoveAllExact(cards: map<CardId, Card>, list: seq<CardId>, place: Place, c: CardId)
    requires c in cards
    ensures MoveAll(cards, list, place)[c] == if c in list then cards[c].(place := place, position := None)
            else cards[c]
  {
    if list != [] {
      MoveAllExact(cards, list[..|list| - 1], place, c);
      assert list == list[..|list| - 1] + [list[|list| - 1]];
    }
  }

  function SetOf(s: seq<CardId>): (r: set<CardId>)
    ensures forall c :: c in r <==> c in s
  {
    set c | c in s
  }

  lemma {:induction false} DrawAllAgrees(t: Tabletop, p: PlayerId, drawn: seq<CardId>)
    requires p in t.piles && Distinct(drawn) && AgreeBut(t, p, SetOf(drawn))
    requires forall c :: c in drawn ==> c in t.cards
    ensures Agree(DrawAll(t, p, drawn))
    decreases |drawn|
  {
    hide ResolveDrawn, AgreeBut, Agree, Distinct;
    if drawn == [] {
      assert SetOf(drawn) == {};
      AgreeSpelled(t, p);
    } else {
      DrawAgrees(t, p, drawn[0], SetOf(drawn));
      RestDistinct(drawn);
      assert SetOf(drawn) - {drawn[0]} == SetOf(drawn[1..]);
      DrawAllAgrees(ResolveDrawn(t, p, drawn[0]), p, drawn[1..]);
    }
  }

  /** Where each card of the player is once the deck has been dealt. */
  lemma OpenedPlaces(t: Tabletop, p: PlayerId, submitted: seq<CardId>, starters: seq<CardId>, v: seq<nat>, c: CardId,
                     q: PlayerId, place: Place)
    requires Lockable(t, p, submitted, starters) && Drawable(v, DECK_SIZE)
    ensures At(Opened(t, p, submitted, starters, v).cards, c, q, place) <==>
            if c in submitted then q == p && place == Deck
            else if c in starters then q == p && place == Hand
            else At(t.cards, c, q, place)
  {
    var shuffled := Shuffled(submitted, v);
    ShuffleInjective(submitted, v, v);
    PermutationDistinct(submitted, shuffled);
    SliceDistinct(shuffled, OPENING_DRAW);
    hide Shuffled, Numbered, MoveAll;
    var first := MoveAll(t.cards, submitted, Deck);
    var cards := MoveAll(first, starters, Hand);
    forall x | x in shuffled[OPENING_DRAW..]
      ensures x in cards
    {
      assert x in shuffled && x in submitted && At(t.cards, x, p, Pool);
    }
    NumberedKeeps(cards, shuffled[OPENING_DRAW..]);
    if c in t.cards {
      MoveAllExact(t.cards, submitted, Deck, c);
      MoveAllExact(first, starters, Hand, c);
    }
  }

  lemma SliceDistinct(s: seq<CardId>, n: nat)
    requires Distinct(s) && n <= |s|
    ensures Distinct(s[..n]) && Distinct(s[n..])
    ensures forall c :: c in s <==> c in s[..n] || c in s[n..]
    ensures forall c :: c in s[..n] ==> c !in s[n..]
  {
    assert s == s[..n] + s[n..];
  }

  lemma ShuffledIsDealt(t: Tabletop, p: PlayerId, submitted: seq<CardId>, starters: seq<CardId>, v: seq<nat>)
    requires Lockable(t, p, submitted, starters) && Drawable(v, DECK_SIZE)
    ensures
      var shuffled := Shuffled(submitted, v);
      |shuffled| == |submitted| == DECK_SIZE && OPENING_DRAW <= |shuffled| && Distinct(shuffled[..OPENING_DRAW]) &&
      forall c :: c in shuffled ==> c in t.cards
  {
    var shuffled := Shuffled(submitted, v);
    ShuffleInjective(submitted, v, v);
    PermutationDistinct(submitted, shuffled);
    SliceDistinct(shuffled, OPENING_DRAW);
    hide Shuffled;
    forall c | c in shuffled
      ensures c in t.cards
    {
      assert c in submitted && At(t.cards, c, p, Pool);
    }
  }

  /** Before the opening draw everything agrees but for the cards about to be drawn. */
  lemma OpenedAgrees(t: Tabletop, p: PlayerId, submitted: seq<CardId>, starters: seq<CardId>, v: seq<nat>)
    requires Agree(t) && Lockable(t, p, submitted, starters) && Drawable(v, DECK_SIZE)
    ensures AgreeBut(Opened(t, p, submitted, starters, v), p, SetOf(Shuffled(submitted, v)[..OPENING_DRAW]))
  {
    hide Shuffled, Opened, Agree, Distinct, At;
    var shuffled, dealt := Shuffled(submitted, v), Opened(t, p, submitted, starters, v);
    ShuffledIsDealt(t, p, submitted, starters, v);
    var drawn := shuffled[..OPENING_DRAW];
    forall q | q in t.piles
      ensures PilesAgree(dealt.cards, q, dealt.piles[q], if q == p then SetOf(drawn) else {})
    {
      if q == p {
        OpenedOwn(t, p, submitted, starters, v);
      } else {
        OpenedOther(t, p, submitted, starters, v, q);
      }
    }
  }

  /** After the lock the player's lists agree with the cards again, as do everyone else's. */
  lemma LockAgrees(t: Tabletop, p: PlayerId, submitted: seq<CardId>, starters: seq<CardId>, v: seq<nat>)
    requires Agree(t) && Lockable(t, p, submitted, starters) && Drawable(v, DECK_SIZE)
    ensures forall c :: c in Shuffled(submitted, v) ==> c in t.cards
    ensures Agree(LockStrategy(t, p, submitted, starters, v))
  {
    hide Shuffled, Opened, Agree, Distinct, At;
    ShuffledIsDealt(t, p, submitted, starters, v);
    OpenedAgrees(t, p, submitted, starters, v);
    DrawAllAgrees(Opened(t, p, submitted, starters, v), p, Shuffled(submitted, v)[..OPENING_DRAW]);
  }

  lemma OpenedOther(t: Tabletop, p: PlayerId, submitted: seq<CardId>, starters: seq<CardId>, v: seq<nat>, q: PlayerId)
    requires Agree(t) && Lockable(t, p, submitted, starters) && Drawable(v, DECK_SIZE) && q in t.piles && q != p
    ensures var dealt := Opened(t, p, submitted, starters, v);
            q in dealt.piles && PilesAgree(dealt.cards, q, dealt.piles[q], {})
  {
    var dealt := Opened(t, p, submitted, starters, v);
    assert PilesAgree(t.cards, q, t.piles[q], {});
    forall c, place
      ensures At(dealt.cards, c, q, place) == At(t.cards, c, q, place)
    {
      OpenedPlaces(t, p, submitted, starters, v, c, q, place);
      OwnedOnce(t, p, submitted, starters, c, q, place);
    }
    forall c | c in t.piles[q].deck && c in t.cards
      ensures c in dealt.cards && dealt.cards[c].position == t.cards[c].position
    {
      assert At(t.cards, c, q, Deck);
      OpenedUntouched(t, p, submitted, starters, v, c, q);
    }
    assert dealt.piles[q] == t.piles[q];
    hide Opened, At, Lockable;
    SamePlaces(t.cards, dealt.cards, t.piles[q].hand, q, Hand);
    SamePlaces(t.cards, dealt.cards, t.piles[q].discard, q, Discard);
    SameDeck(t.cards, dealt.cards, t.piles[q].deck, q);
  }

  lemma OwnedOnce(t: Tabletop, p: PlayerId, submitted: seq<CardId>, starters: seq<CardId>, c: CardId, q: PlayerId,
                  place: Place)
    requires Lockable(t, p, submitted, starters) && q != p
    ensures c in submitted || c in starters ==> !At(t.cards, c, q, place)
  {
    assert c in submitted ==> At(t.cards, c, p, Pool);
  }

  lemma OpenedUntouched(t: Tabletop, p: PlayerId, submitted: seq<CardId>, starters: seq<CardId>, v: seq<nat>,
                        c: CardId, q: PlayerId)
    requires Lockable(t, p, submitted, starters) && Drawable(v, DECK_SIZE) && q != p && At(t.cards, c, q, Deck)
    ensures Opened(t, p, submitted, starters, v).cards[c] == t.cards[c]
  {
    var shuffled := Shuffled(submitted, v);
    ShuffleInjective(submitted, v, v);
    PermutationDistinct(submitted, shuffled);
    SliceDistinct(shuffled, OPENING_DRAW);
    OwnedOnce(t, p, submitted, starters, c, q, Deck);
    hide Shuffled, Numbered, MoveAll;
    var first := MoveAll(t.cards, submitted, Deck);
    var cards := MoveAll(first, starters, Hand);
    MoveAllExact(t.cards, submitted, Deck, c);
    MoveAllExact(first, starters, Hand, c);
    forall x | x in shuffled[OPENING_DRAW..]
      ensures x in cards
    {
      assert x in shuffled && x in submitted && At(t.cards, x, p, Pool);
    }
    NumberedExact(cards, shuffled[OPENING_DRAW..]);
  }

  lemma OpenedOwn(t: Tabletop, p: PlayerId, submitted: seq<CardId>, starters: seq<CardId>, v: seq<nat>)
    requires Agree(t) && Lockable(t, p, submitted, starters) && Drawable(v, DECK_SIZE)
    ensures var dealt, shuffled := Opened(t, p, submitted, starters, v), Shuffled(submitted, v);
            PilesAgree(dealt.cards, p, dealt.piles[p], SetOf(shuffled[..OPENING_DRAW]))
  {
    var dealt, shuffled := Opened(t, p, submitted, starters, v), Shuffled(submitted, v);
    var remaining := shuffled[OPENING_DRAW..];
    assert PilesAgree(t.cards, p, Piles([], [], []), {});
    ShuffleInjective(submitted, v, v);
    PermutationDistinct(submitted, shuffled);
    SliceDistinct(shuffled, OPENING_DRAW);
    forall c, place
      ensures At(dealt.cards, c, p, place) <==>
              if c in submitted then place == Deck else if c in starters then place == Hand
                                                 else At(t.cards, c, p, place)
    {
      OpenedPlaces(t, p, submitted, starters, v, c, p, place);
    }
    forall i | 0 <= i < |remaining|
      ensures remaining[i] in dealt.cards && dealt.cards[remaining[i]].position == Some(i)
    {
      OpenedPosition(t, p, submitted, starters, v, i);
    }
    NothingHeld(t, p, submitted, starters);
    hide At, Shuffled, Numbered, MoveAll, PilesAgree, Distinct;
    OpenedZones(t, dealt, p, submitted, starters, shuffled);
  }

  lemma NothingHeld(t: Tabletop, p: PlayerId, submitted: seq<CardId>, starters: seq<CardId>)
    requires Agree(t) && Lockable(t, p, submitted, starters)
    ensures forall c :: !At(t.cards, c, p, Hand) && !At(t.cards, c, p, Deck) && !At(t.cards, c, p, Discard)
    ensures Distinct(starters) && forall c :: c in starters ==> c !in submitted
  {
    assert PilesAgree(t.cards, p, Piles([], [], []), {});
  }

  lemma OpenedZones(t: Tabletop, dealt: Tabletop, p: PlayerId, submitted: seq<CardId>, starters: seq<CardId>,
                    shuffled: seq<CardId>)
    requires |shuffled| >= OPENING_DRAW && Distinct(starters) && Distinct(shuffled[OPENING_DRAW..])
    requires forall c :: c in starters ==> c !in submitted
    requires forall c :: c in submitted <==> c in shuffled[..OPENING_DRAW] || c in shuffled[OPENING_DRAW..]
    requires forall c :: c in shuffled[..OPENING_DRAW] ==> c !in shuffled[OPENING_DRAW..]
    requires forall c, place :: At(dealt.cards, c, p, place) <==> if c in submitted then place == Deck
                               else if c in starters then place == Hand else At(t.cards, c, p, place)
    requires forall c :: !At(t.cards, c, p, Hand) && !At(t.cards, c, p, Deck) && !At(t.cards, c, p, Discard)
    requires var rest := shuffled[OPENING_DRAW..];
             forall i :: 0 <= i < |rest| ==> rest[i] in dealt.cards && dealt.cards[rest[i]].position == Some(i)
    requires p in dealt.piles && dealt.piles[p] == Piles(starters, shuffled[OPENING_DRAW..], [])
    ensures PilesAgree(dealt.cards, p, dealt.piles[p], SetOf(shuffled[..OPENING_DRAW]))
  {
    hide At;
  }

  lemma OpenedPosition(t: Tabletop, p: PlayerId, submitted: seq<CardId>, starters: seq<CardId>, v: seq<nat>, i: nat)
    requires Lockable(t, p, submitted, starters) && Drawable(v, DECK_SIZE) && i < DECK_SIZE - OPENING_DRAW
    ensures var remaining, dealt := Shuffled(submitted, v)[OPENING_DRAW..], Opened(t, p, submitted, starters, v);
            remaining[i] in dealt.cards && dealt.cards[remaining[i]].position == Some(i)
  {
    var shuffled := Shuffled(submitted, v);
    ShuffleInjective(submitted, v, v);
    PermutationDistinct(submitted, shuffled);
    SliceDistinct(shuffled, OPENING_DRAW);
    hide Shuffled, Numbered, MoveAll;
    var cards := MoveAll(MoveAll(t.cards, submitted, Deck), starters, Hand);
    forall x | x in shuffled[OPENING_DRAW..]
      ensures x in cards
    {
      assert x in shuffled && x in submitted && At(t.cards, x, p, Pool);
    }
    NumberedPositions(cards, shuffled[OPENING_DRAW..], i);
  }

  // -------------------------------------------- discarding and dealing

  /** A borrowed card goes back to its owner's hand; any other goes to the discard pile. */
  predicate GoesHome(t: Tabletop, p: PlayerId, c: CardId)
    requires c in t.cards
  {
    t.cards[c].goesBack && t.cards[c].owner.Some? && t.cards[c].owner != Some(p)
  }

  function DiscardOne(t: Tabletop, p: PlayerId, c: CardId): (r: Tabletop)
    requires p in t.piles && c in t.cards
    ensures r.piles.Keys == t.piles.Keys && r.cards.Keys == t.cards.Keys
  {
    var s, card := t.piles[p], t.cards[c];
    if GoesHome(t, p, c) then
      var owner := card.owner.value;
      var home := card.(controller := Some(owner), goesBack := false, place := Hand, position := None);
      var piles := t.piles[p := s.(hand := Without(s.hand, c))];
      Tabletop(t.cards[c := home],
               if owner in piles && c !in piles[owner].hand
               then piles[owner := piles[owner].(hand := piles[owner].hand + [c])] else piles)
    else
      Tabletop(Move(t.cards, c, Discard), t.piles[p := s.(hand := Without(s.hand, c), discard := s.discard + [c])])
  }

  /** Hands a card to another player, who keeps it. */
  function Deal(t: Tabletop, p: PlayerId, q: PlayerId, c: CardId): (r: Tabletop)
    requires p in t.piles && q in t.piles && p != q && c in t.cards
    ensures r.piles.Keys == t.piles.Keys && r.cards.Keys == t.cards.Keys
  {
    var given := t.cards[c].(controller := Some(q), goesBack := false);
    var piles := t.piles[p := t.piles[p].(hand := Without(t.piles[p].hand, c))];
    Tabletop(t.cards[c := given], piles[q := piles[q].(hand := piles[q].hand + [c])])
  }

  /** Another card record for c, which was and is in a hand: the lists of whoever has it now and had it before. */
  lemma HandedOver(cards: map<CardId, Card>, s: Piles, q: PlayerId, c: CardId, card: Card)
    requires c in cards && cards[c].place == Hand && card.place == Hand && PilesAgree(cards, q, s, {})
    ensures var hand := if card.controller == Some(q) && cards[c].controller != Some(q) then s.hand + [c]
                        else if card.controller != Some(q) && cards[c].controller == Some(q) then Without(s.hand, c)
                          else s.hand;
            PilesAgree(cards[c := card], q, s.(hand := hand), {})
  {
    HandedList(cards, s.hand, q, c, card);
    var moved := cards[c := card];
    forall x
      ensures At(moved, x, q, Deck) == At(cards, x, q, Deck) && At(moved, x, q, Discard) == At(cards, x, q, Discard)
    {
    }
    assert c !in s.deck by { assert !At(cards, c, q, Deck); }
    hide At;
    SamePlaces(cards, moved, s.discard, q, Discard);
    SameDeck(cards, moved, s.deck, q);
  }

  lemma HandedList(cards: map<CardId, Card>, list: seq<CardId>, q: PlayerId, c: CardId, card: Card)
    requires c in cards && cards[c].place == Hand && card.place == Hand && Zone(cards, list, q, Hand)
    ensures var hand := if card.controller == Some(q) && cards[c].controller != Some(q) then list + [c]
                        else if card.controller != Some(q) && cards[c].controller == Some(q) then Without(list, c)
                          else list;
            Zone(cards[c := card], hand, q, Hand)
  {
    if card.controller == Some(q) && cards[c].controller != Some(q) {
      AppendDistinct(list, c);
    } else if card.controller != Some(q) && cards[c].controller == Some(q) {
      WithoutDistinct(list, c);
    }
  }

  lemma DealAgrees(t: Tabletop, p: PlayerId, q: PlayerId, c: CardId)
    requires Agree(t) && p in t.piles && q in t.piles && p != q && At(t.cards, c, p, Hand)
    ensures Agree(Deal(t, p, q, c))
  {
    var given := t.cards[c].(controller := Some(q), goesBack := false);
    hide PilesAgree;
    forall x | x in t.piles
      ensures PilesAgree(t.cards[c := given], x, Deal(t, p, q, c).piles[x], {})
    {
      HandedOver(t.cards, t.piles[x], x, c, given);
    }
  }

  lemma HomecomingAgrees(t: Tabletop, p: PlayerId, c: CardId)
    requires Agree(t) && p in t.piles && At(t.cards, c, p, Hand) && GoesHome(t, p, c)
    ensures Agree(DiscardOne(t, p, c))
  {
    var owner := t.cards[c].owner.value;
    var home := t.cards[c].(controller := Some(owner), goesBack := false, place := Hand, position := None);
    if owner in t.piles {
      assert PilesAgree(t.cards, owner, t.piles[owner], {});
      assert c !in t.piles[owner].hand by { assert !At(t.cards, c, owner, Hand); }
    }
    hide PilesAgree;
    forall x | x in t.piles
      ensures PilesAgree(t.cards[c := home], x, DiscardOne(t, p, c).piles[x], {})
    {
      HandedOver(t.cards, t.piles[x], x, c, home);
    }
  }

  lemma PlainDiscardAgrees(t: Tabletop, p: PlayerId, c: CardId)
    requires Agree(t) && p in t.piles && At(t.cards, c, p, Hand) && !GoesHome(t, p, c)
    ensures Agree(DiscardOne(t, p, c))
  {
    var s, r := t.piles[p], DiscardOne(t, p, c);
    hide Zone, DeckZone, Move, GoesHome;
    forall q | q in r.piles
      ensures PilesAgree(r.cards, q, r.piles[q], {})
    {
      assert PilesAgree(t.cards, q, t.piles[q], {});
      if q == p {
        ZoneLoses(t.cards, s.hand, p, c, Hand, Discard);
        ZoneGains(t.cards, s.discard, p, c, Discard);
        DeckLets(t.cards, s.deck, p, c, {}, Discard);
        assert {} - {c} == {};
      } else {
        OthersStay(t.cards, q, t.piles[q], c, Discard);
      }
    }
  }

  lemma DiscardAgrees(t: Tabletop, p: PlayerId, c: CardId)
    requires Agree(t) && p in t.piles && At(t.cards, c, p, Hand)
    ensures Agree(DiscardOne(t, p, c))
  {
    if GoesHome(t, p, c) {
      HomecomingAgrees(t, p, c);
    } else {
      PlainDiscardAgrees(t, p, c);
    }
  }

  /** Discards a selection one card after the other. */
  function DiscardAll(t: Tabletop, p: PlayerId, selected: seq<CardId>): (r: Tabletop)
    requires p in t.piles && forall c :: c in selected ==> c in t.cards
    ensures r.piles.Keys == t.piles.Keys && r.cards.Keys == t.cards.Keys
  {
    if selected == [] then t
    else DiscardOne(DiscardAll(t, p, selected[..|selected| - 1]), p, selected[|selected| - 1])
  }

  /** A selection accepted as it stands stays acceptable card by card while it is discarded. */
  lemma {:induction false} DiscardAllAgrees(t: Tabletop, p: PlayerId, selected: seq<CardId>)
    requires Agree(t) && p in t.piles && Distinct(selected) && forall c :: c in selected ==> At(t.cards, c, p, Hand)
    ensures Agree(DiscardAll(t, p, selected))
    ensures forall c :: c in t.cards && c !in selected ==> DiscardAll(t, p, selected).cards[c] == t.cards[c]
  {
    if selected != [] {
      var init, last := selected[..|selected| - 1], selected[|selected| - 1];
      assert selected == init + [last] && last !in init;
      forall c | c in init
        ensures At(t.cards, c, p, Hand)
      {
        assert c in selected;
      }
      hide Agree, DiscardOne, At;
      DiscardAllAgrees(t, p, init);
      StillThere(t, DiscardAll(t, p, init), last, p);
      DiscardAgrees(DiscardAll(t, p, init), p, last);
      forall c | c in t.cards && c !in selected
        ensures DiscardAll(t, p, selected).cards[c] == t.cards[c]
      {
        DiscardLeaves(DiscardAll(t, p, init), p, last, c);
      }
    }
  }

  lemma StillThere(t: Tabletop, later: Tabletop, c: CardId, p: PlayerId)
    requires At(t.cards, c, p, Hand) && c in later.cards && later.cards[c] == t.cards[c]
    ensures At(later.cards, c, p, Hand)
  {
  }

  lemma DiscardLeaves(t: Tabletop, p: PlayerId, last: CardId, c: CardId)
    requires p in t.piles && last in t.cards && c in t.cards && c != last
    ensures DiscardOne(t, p, last).cards[c] == t.cards[c]
  {
  }
}
