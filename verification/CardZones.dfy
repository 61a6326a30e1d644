/**
 Hands, decks and discard piles. Every card records its own place, and every player's lists record it again;
 the operations below change both and keep them in agreement.
 */
module CardZones {
  import opened Prelude
  import opened Shuffle

  type PlayerId = nat
  type CardId = nat
  type DefinitionId = nat

  const SECURITY_PROTOCOLS: DefinitionId := 94
  const LEAKS: DefinitionId := 26

  datatype Place = Pool | StarterPool | Deck | Hand | Discard | InCampaign | Removed

  /** `owner`: the player of the card's country; `goesBack`: it goes back to its owner when discarded. */
  datatype Card = Card(definition: DefinitionId, controller: Option<PlayerId>, owner: Option<PlayerId>, place: Place,
                       position: Option<nat>, goesBack: bool)
  datatype Piles = Piles(hand: seq<CardId>, deck: seq<CardId>, discard: seq<CardId>)
  datatype Tabletop = Tabletop(cards: map<CardId, Card>, piles: map<PlayerId, Piles>)

  // ------------------------------------------------------------- agreement

  predicate At(cards: map<CardId, Card>, c: CardId, p: PlayerId, place: Place) {
    c in cards && cards[c].controller == Some(p) && cards[c].place == place
  }

  /** A list holds each card of its place once and no other. */
  ghost predicate Zone(cards: map<CardId, Card>, list: seq<CardId>, p: PlayerId, place: Place) {
    Distinct(list) && forall c :: c in list <==> At(cards, c, p, place)
  }

  /** Likewise the deck, whose cards also know their positions; `loose` cards have left the list only. */
  ghost predicate DeckZone(cards: map<CardId, Card>, deck: seq<CardId>, p: PlayerId, loose: set<CardId>) {
    Distinct(deck) && (forall c :: c in deck <==> At(cards, c, p, Deck) && c !in loose) &&
    (forall c :: c in loose ==> At(cards, c, p, Deck)) &&
    (forall i :: 0 <= i < |deck| ==> deck[i] in cards && cards[deck[i]].position == Some(i))
  }

  ghost predicate PilesAgree(cards: map<CardId, Card>, p: PlayerId, s: Piles, loose: set<CardId>) {
    Zone(cards, s.hand, p, Hand) && DeckZone(cards, s.deck, p, loose) && Zone(cards, s.discard, p, Discard)
  }

  ghost predicate AgreeBut(t: Tabletop, p: PlayerId, loose: set<CardId>) {
    forall q :: q in t.piles ==> PilesAgree(t.cards, q, t.piles[q], if q == p then loose else {})
  }

  /** Zone agreement: duplicate-free lists that match every card's place and controller. */
  ghost predicate Agree(t: Tabletop) {
    forall q :: q in t.piles ==> PilesAgree(t.cards, q, t.piles[q], {})
  }

  /** It follows that no card is in two lists, of one player or of two. */
  lemma ListsAreDisjoint(t: Tabletop, p: PlayerId, q: PlayerId, c: CardId)
    requires Agree(t) && p in t.piles && q in t.piles
    ensures c in t.piles[p].hand ==>
            c !in t.piles[q].deck && c !in t.piles[q].discard && (q != p ==> c !in t.piles[q].hand)
    ensures c in t.piles[p].deck ==> c !in t.piles[q].discard && (q != p ==> c !in t.piles[q].deck)
    ensures c in t.piles[p].discard ==> q != p ==> c !in t.piles[q].discard
  {
    assert PilesAgree(t.cards, p, t.piles[p], {}) && PilesAgree(t.cards, q, t.piles[q], {});
  }

  function Move(cards: map<CardId, Card>, c: CardId, place: Place): map<CardId, Card>
    requires c in cards
  {
    cards[c := cards[c].(place := place, position := None)]
  }

  // ---------------------------------------------------------------- drawing

  /** The first Security Protocols card of a hand. */
  function FindProtocol(cards: map<CardId, Card>, hand: seq<CardId>): (r: Option<CardId>)
    ensures r.Some? ==> r.value in hand && r.value in cards && cards[r.value].definition == SECURITY_PROTOCOLS
    ensures r.None? ==> forall c :: c in hand && c in cards ==> cards[c].definition != SECURITY_PROTOCOLS
  {
    if hand == [] then None
    else if hand[0] in cards && cards[hand[0]].definition == SECURITY_PROTOCOLS then Some(hand[0])
    else FindProtocol(cards, hand[1..])
  }

  predicate Intercepted(t: Tabletop, p: PlayerId, c: CardId)
    requires c in t.cards && p in t.piles
  {
    t.cards[c].definition == LEAKS && FindProtocol(t.cards, t.piles[p].hand).Some?
  }

  /** A drawn card goes to the hand, unless it is Leaks and a Security Protocols card in hand intercepts it. */
  function ResolveDrawn(t: Tabletop, p: PlayerId, c: CardId): (r: Tabletop)
    requires c in t.cards && p in t.piles
    ensures r.piles.Keys == t.piles.Keys && r.cards.Keys == t.cards.Keys
  {
    var s := t.piles[p];
    if Intercepted(t, p, c) then
      var protocol := FindProtocol(t.cards, s.hand).value;
      var discard := (if protocol in s.discard then s.discard else s.discard + [protocol]) + [c];
      Tabletop(Move(Move(t.cards, protocol, Discard), c, Discard),
               t.piles[p := Piles(Without(s.hand, protocol), s.deck, discard)])
    else
      Tabletop(Move(t.cards, c, Hand), t.piles[p := Piles(s.hand + [c], s.deck, s.discard)])
  }

  // ------------------------------------------------------ moving one card

  lemma {:induction false} WithoutDistinct(s: seq<CardId>, x: CardId)
    requires Distinct(s)
    ensures Distinct(Without(s, x))
  {
    if s != [] {
      assert forall n :: 0 <= n < |s[1..]| ==> s[n + 1] == s[1..][n];
      assert s[0] !in s[1..];
      WithoutDistinct(s[1..], x);
    }
  }

  lemma {:induction false} WithoutMultiset(s: seq<CardId>, x: CardId)
    requires Distinct(s) && x in s
    ensures multiset(s) == multiset(Without(s, x)) + multiset{x} && |Without(s, x)| == |s| - 1
  {
    assert forall n :: 0 <= n < |s[1..]| ==> s[n + 1] == s[1..][n];
    assert s == [s[0]] + s[1..];
    if s[0] != x {
      WithoutMultiset(s[1..], x);
    }
  }

  lemma AppendDistinct(s: seq<CardId>, x: CardId)
    requires Distinct(s) && x !in s
    ensures Distinct(s + [x])
  {
  }

  lemma ZoneGains(cards: map<CardId, Card>, list: seq<CardId>, p: PlayerId, c: CardId, place: Place)
    requires Zone(cards, list, p, place) && c in cards && cards[c].controller == Some(p) && cards[c].place != place
    ensures Zone(Move(cards, c, place), list + [c], p, place)
  {
    AppendDistinct(list, c);
  }

  lemma ZoneLoses(cards: map<CardId, Card>, list: seq<CardId>, p: PlayerId, c: CardId, place: Place, target: Place)
    requires Zone(cards, list, p, place) && At(cards, c, p, place) && target != place
    ensures Zone(Move(cards, c, target), Without(list, c), p, place)
  {
    WithoutDistinct(list, c);
  }

  lemma ZoneStays(cards: map<CardId, Card>, list: seq<CardId>, p: PlayerId, c: CardId, place: Place, target: Place)
    requires Zone(cards, list, p, place) && c in cards
    requires cards[c].controller != Some(p) || (cards[c].place != place && target != place)
    ensures Zone(Move(cards, c, target), list, p, place)
  {
  }

  lemma DeckLets(cards: map<CardId, Card>, deck: seq<CardId>, p: PlayerId, c: CardId, loose: set<CardId>, target: Place)
    requires DeckZone(cards, deck, p, loose) && c in cards && target != Deck
    requires cards[c].controller != Some(p) || cards[c].place != Deck || c in loose
    ensures DeckZone(Move(cards, c, target), deck, p, loose - {c})
  {
  }

  lemma OthersStay(cards: map<CardId, Card>, q: PlayerId, s: Piles, c: CardId, target: Place)
    requires PilesAgree(cards, q, s, {}) && c in cards && cards[c].controller != Some(q) && target != Deck
    ensures PilesAgree(Move(cards, c, target), q, s, {})
  {
    hide Zone, DeckZone, Move;
    ZoneStays(cards, s.hand, q, c, Hand, target);
    ZoneStays(cards, s.discard, q, c, Discard, target);
    DeckLets(cards, s.deck, q, c, {}, target);
    assert {} - {c} == {};
  }

  // ------------------------------------------------------------ drawn cards

  lemma LooseIsThere(t: Tabletop, p: PlayerId, c: CardId, loose: set<CardId>)
    requires AgreeBut(t, p, loose) && p in t.piles && c in loose
    ensures At(t.cards, c, p, Deck)
  {
    assert PilesAgree(t.cards, p, t.piles[p], loose);
  }

  lemma PlainDrawAgrees(t: Tabletop, p: PlayerId, c: CardId, loose: set<CardId>)
    requires AgreeBut(t, p, loose) && p in t.piles && c in loose && c in t.cards && !Intercepted(t, p, c)
    ensures AgreeBut(ResolveDrawn(t, p, c), p, loose - {c})
  {
    LooseIsThere(t, p, c, loose);
    hide Zone, DeckZone, Move, Intercepted, FindProtocol;
    var s, r := t.piles[p], ResolveDrawn(t, p, c);
    forall q | q in r.piles
      ensures PilesAgree(r.cards, q, r.piles[q], if q == p then loose - {c} else {})
    {
      assert PilesAgree(t.cards, q, t.piles[q], if q == p then loose else {});
      if q == p {
        ZoneGains(t.cards, s.hand, p, c, Hand);
        ZoneStays(t.cards, s.discard, p, c, Discard, Hand);
        DeckLets(t.cards, s.deck, p, c, loose, Hand);
      } else {
        OthersStay(t.cards, q, t.piles[q], c, Hand);
      }
    }
  }

  lemma ProtocolIsInHand(t: Tabletop, p: PlayerId, c: CardId, loose: set<CardId>)
    requires AgreeBut(t, p, loose) && p in t.piles && c in t.cards && c in loose && Intercepted(t, p, c)
    ensures var protocol := FindProtocol(t.cards, t.piles[p].hand).value;
            At(t.cards, protocol, p, Hand) && protocol !in t.piles[p].discard && protocol != c
  {
    assert PilesAgree(t.cards, p, t.piles[p], loose);
  }

  lemma InterceptionAgrees(t: Tabletop, p: PlayerId, c: CardId, loose: set<CardId>)
    requires AgreeBut(t, p, loose) && p in t.piles && c in loose && c in t.cards && Intercepted(t, p, c)
    ensures AgreeBut(ResolveDrawn(t, p, c), p, loose - {c})
  {
    LooseIsThere(t, p, c, loose);
    ProtocolIsInHand(t, p, c, loose);
    var s, r := t.piles[p], ResolveDrawn(t, p, c);
    var protocol := FindProtocol(t.cards, s.hand).value;
    hide Zone, DeckZone, FindProtocol;
    var cards1 := Move(t.cards, protocol, Discard);
    assert At(cards1, c, p, Deck);
    hide Move;
    forall q | q in r.piles
      ensures PilesAgree(r.cards, q, r.piles[q], if q == p then loose - {c} else {})
    {
      assert PilesAgree(t.cards, q, t.piles[q], if q == p then loose else {});
      if q == p {
        ZoneLoses(t.cards, s.hand, p, protocol, Hand, Discard);
        ZoneStays(cards1, Without(s.hand, protocol), p, c, Hand, Discard);
        ZoneGains(t.cards, s.discard, p, protocol, Discard);
        ZoneGains(cards1, s.discard + [protocol], p, c, Discard);
        DeckLets(t.cards, s.deck, p, protocol, loose, Discard);
        assert loose - {protocol} == loose by { ProtocolIsNotLoose(t, p, protocol, loose); }
        DeckLets(cards1, s.deck, p, c, loose, Discard);
      } else {
        OthersStay(t.cards, q, t.piles[q], protocol, Discard);
        OthersStay(cards1, q, t.piles[q], c, Discard);
      }
    }
  }

  lemma ProtocolIsNotLoose(t: Tabletop, p: PlayerId, c: CardId, loose: set<CardId>)
    requires AgreeBut(t, p, loose) && p in t.piles && At(t.cards, c, p, Hand)
    ensures c !in loose
  {
    assert PilesAgree(t.cards, p, t.piles[p], loose);
  }

  lemma DrawAgrees(t: Tabletop, p: PlayerId, c: CardId, loose: set<CardId>)
    requires AgreeBut(t, p, loose) && p in t.piles && c in loose && c in t.cards
    ensures AgreeBut(ResolveDrawn(t, p, c), p, loose - {c})
  {
    if Intercepted(t, p, c) {
      InterceptionAgrees(t, p, c, loose);
    } else {
      PlainDrawAgrees(t, p, c, loose);
    }
  }

  // ------------------------------------------------------------ whole decks

  /** Each card's position is its index in the list. */
  function Numbered(cards: map<CardId, Card>, deck: seq<CardId>): (r: map<CardId, Card>)
    ensures r.Keys == cards.Keys
  {
    if deck == [] then cards
    else
      var n := |deck| - 1;
      var m := Numbered(cards, deck[..n]);
      if deck[n] in m then m[deck[n] := m[deck[n]].(position := Some(n))] else m
  }

  /** The listed cards become the deck, in this order. */
  function Stacked(cards: map<CardId, Card>, deck: seq<CardId>): (r: map<CardId, Card>)
    ensures r.Keys == cards.Keys
  {
    if deck == [] then cards
    else
      var n := |deck| - 1;
      var m := Stacked(cards, deck[..n]);
      if deck[n] in m then m[deck[n] := m[deck[n]].(place := Deck, position := Some(n))] else m
  }

  lemma {:induction false} NumberedExact(cards: map<CardId, Card>, deck: seq<CardId>)
    requires Distinct(deck) && forall c :: c in deck ==> c in cards
    ensures forall i :: 0 <= i < |deck| ==> Numbered(cards, deck)[deck[i]] == cards[deck[i]].(position := Some(i))
    ensures forall c :: c in cards && c !in deck ==> Numbered(cards, deck)[c] == cards[c]
  {
    if deck != [] {
      NumberedExact(cards, deck[..|deck| - 1]);
    }
  }

  lemma {:induction false} StackedExact(cards: map<CardId, Card>, deck: seq<CardId>)
    requires Distinct(deck) && forall c :: c in deck ==> c in cards
    ensures forall i :: 0 <= i < |deck| ==>
            Stacked(cards, deck)[deck[i]] == cards[deck[i]].(place := Deck, position := Some(i))
    ensures forall c :: c in cards && c !in deck ==> Stacked(cards, deck)[c] == cards[c]
  {
    if deck != [] {
      StackedExact(cards, deck[..|deck| - 1]);
    }
  }

  /** Numbering changes no place and no controller. */
  lemma NumberedKeeps(cards: map<CardId, Card>, deck: seq<CardId>)
    requires Distinct(deck) && forall c :: c in deck ==> c in cards
    ensures forall c, p, place :: At(Numbered(cards, deck), c, p, place) == At(cards, c, p, place)
    ensures forall c :: c in cards ==> Numbered(cards, deck)[c].definition == cards[c].definition
  {
    NumberedExact(cards, deck);
    hide Numbered;
    forall c | c in cards
      ensures Numbered(cards, deck)[c] == cards[c].(position := Numbered(cards, deck)[c].position)
    {
      if c in deck {
        var i :| 0 <= i < |deck| && deck[i] == c;
      }
    }
  }

  /** Takes the top card off the deck, renumbers the rest and resolves the draw. */
  function DrawTop(t: Tabletop, p: PlayerId): (r: Tabletop)
    requires p in t.piles && t.piles[p].deck != [] && t.piles[p].deck[0] in t.cards
    ensures r.piles.Keys == t.piles.Keys
  {
    ResolveDrawn(Lifted(t, p), p, t.piles[p].deck[0])
  }

  function Lifted(t: Tabletop, p: PlayerId): (r: Tabletop)
    requires p in t.piles && t.piles[p].deck != []
    ensures r.piles.Keys == t.piles.Keys && r.cards.Keys == t.cards.Keys
  {
    var rest := t.piles[p].deck[1..];
    Tabletop(Numbered(t.cards, rest), t.piles[p := t.piles[p].(deck := rest)])
  }

  lemma AgreeSpelled(t: Tabletop, p: PlayerId)
    ensures Agree(t) <==> AgreeBut(t, p, {})
  {
    if AgreeBut(t, p, {}) {
      forall q | q in t.piles
        ensures PilesAgree(t.cards, q, t.piles[q], {})
      {
        assert PilesAgree(t.cards, q, t.piles[q], if q == p then {} else {});
      }
    }
  }

  lemma SamePlaces(cards: map<CardId, Card>, other: map<CardId, Card>, list: seq<CardId>, p: PlayerId, place: Place)
    requires Zone(cards, list, p, place) && forall c :: At(other, c, p, place) == At(cards, c, p, place)
    ensures Zone(other, list, p, place)
  {
  }

  lemma SameDeck(cards: map<CardId, Card>, other: map<CardId, Card>, deck: seq<CardId>, p: PlayerId)
    requires DeckZone(cards, deck, p, {}) && forall c :: At(other, c, p, Deck) == At(cards, c, p, Deck)
    requires forall c :: c in deck && c in cards ==> c in other && other[c].position == cards[c].position
    ensures DeckZone(other, deck, p, {})
  {
  }

  lemma RestDistinct(s: seq<CardId>)
    requires Distinct(s) && s != []
    ensures Distinct(s[1..]) && forall c :: c in s[1..] <==> c in s && c != s[0]
  {
    assert s == [s[0]] + s[1..];
    assert forall n :: 0 <= n < |s[1..]| ==> s[1..][n] == s[n + 1];
  }

  lemma NumberedPositions(cards: map<CardId, Card>, deck: seq<CardId>, i: nat)
    requires Distinct(deck) && i < |deck| && forall c :: c in deck ==> c in cards
    ensures deck[i] in Numbered(cards, deck) && Numbered(cards, deck)[deck[i]].position == Some(i)
  {
    NumberedExact(cards, deck);
  }

  /** A deck whose first card has been lifted, the others numbered anew. */
  lemma ShorterDeck(cards: map<CardId, Card>, r: map<CardId, Card>, deck: seq<CardId>, first: CardId,
                    rest: seq<CardId>, p: PlayerId)
    requires (forall c :: c in deck <==> At(cards, c, p, Deck)) && first in deck
    requires Distinct(rest) && forall c :: c in rest <==> c in deck && c != first
    requires forall c :: At(r, c, p, Deck) == At(cards, c, p, Deck)
    requires forall i :: 0 <= i < |rest| ==> rest[i] in r && r[rest[i]].position == Some(i)
    ensures DeckZone(r, rest, p, {first})
  {
    hide At;
  }

  lemma LiftedDeck(cards: map<CardId, Card>, deck: seq<CardId>, p: PlayerId)
    requires DeckZone(cards, deck, p, {}) && deck != []
    ensures DeckZone(Numbered(cards, deck[1..]), deck[1..], p, {deck[0]})
    ensures Distinct(deck[1..]) && forall c :: c in deck[1..] ==> c in cards
  {
    var rest := deck[1..];
    RestDistinct(deck);
    hide Distinct, Numbered;
    forall c | c in rest
      ensures c in cards
    {
      assert At(cards, c, p, Deck);
    }
    hide At;
    NumberedKeeps(cards, rest);
    forall i | 0 <= i < |rest|
      ensures rest[i] in Numbered(cards, rest) && Numbered(cards, rest)[rest[i]].position == Some(i)
    {
      NumberedPositions(cards, rest, i);
    }
    ShorterDeck(cards, Numbered(cards, rest), deck, deck[0], rest, p);
  }

  lemma LiftedAgrees(t: Tabletop, p: PlayerId)
    requires Agree(t) && p in t.piles && t.piles[p].deck != []
    ensures AgreeBut(Lifted(t, p), p, {t.piles[p].deck[0]})
  {
    var deck, r := t.piles[p].deck, Lifted(t, p);
    assert PilesAgree(t.cards, p, t.piles[p], {});
    LiftedDeck(t.cards, deck, p);
    NumberedExact(t.cards, deck[1..]);
    NumberedKeeps(t.cards, deck[1..]);
    hide Numbered, At, Zone, DeckZone;
    forall q | q in r.piles
      ensures PilesAgree(r.cards, q, r.piles[q], if q == p then {deck[0]} else {})
    {
      assert PilesAgree(t.cards, q, t.piles[q], {});
      SamePlaces(t.cards, r.cards, t.piles[q].hand, q, Hand);
      SamePlaces(t.cards, r.cards, t.piles[q].discard, q, Discard);
      if q != p {
        forall c | c in t.piles[q].deck
          ensures c !in deck[1..]
        {
          ListsAreDisjoint(t, q, p, c);
        }
        SameDeck(t.cards, r.cards, t.piles[q].deck, q);
      }
    }
  }

  lemma DrawTopAgrees(t: Tabletop, p: PlayerId)
    requires Agree(t) && p in t.piles && t.piles[p].deck != []
    ensures t.piles[p].deck[0] in t.cards && Agree(DrawTop(t, p))
  {
    var c := t.piles[p].deck[0];
    assert PilesAgree(t.cards, p, t.piles[p], {});
    LiftedAgrees(t, p);
    hide ResolveDrawn, Agree, AgreeBut;
    DrawAgrees(Lifted(t, p), p, c, {c});
    assert {c} - {c} == {};
    AgreeSpelled(DrawTop(t, p), p);
  }

  // ------------------------------------------------------------- reshuffling

  /** The discard pile becomes the new deck. */
  function Reshuffled(t: Tabletop, p: PlayerId, v: seq<nat>): (r: Tabletop)
    requires p in t.piles && Drawable(v, |t.piles[p].discard|)
    ensures r.piles.Keys == t.piles.Keys
  {
    var deck := Shuffled(t.piles[p].discard, v);
    Tabletop(Stacked(t.cards, deck), t.piles[p := Piles(t.piles[p].hand, deck, [])])
  }

  lemma PermutationDistinct(s: seq<CardId>, t: seq<CardId>)
    requires Distinct(s) && multiset(s) == multiset(t)
    ensures Distinct(t) && forall c :: c in t <==> c in s
  {
    forall c
      ensures c in t <==> c in s
      ensures multiset(t)[c] <= 1
    {
      assert c in multiset(t) <==> c in multiset(s);
      OnceEach(s, c);
    }
    forall i, j | 0 <= i < j < |t|
      ensures t[i] != t[j]
    {
      assert t == t[..i] + [t[i]] + t[i + 1..j] + [t[j]] + t[j + 1..];
      assert multiset(t)[t[i]] <= 1;
    }
  }

  lemma {:induction false} OnceEach(s: seq<CardId>, c: CardId)
    requires Distinct(s)
    ensures multiset(s)[c] <= 1
  {
    if s != [] {
      assert s == [s[0]] + s[1..];
      assert forall n :: 0 <= n < |s[1..]| ==> s[n + 1] == s[1..][n];
      OnceEach(s[1..], c);
    }
  }

  /** The cards of the old discard pile are in the deck now, all others where they were. */
  lemma StackedMoves(t: Tabletop, p: PlayerId, deck: seq<CardId>, c: CardId, q: PlayerId, place: Place)
    requires Agree(t) && p in t.piles && Distinct(deck) && forall x :: x in deck <==> x in t.piles[p].discard
    ensures At(Stacked(t.cards, deck), c, q, place) <==>
            if c in deck then q == p && place == Deck else At(t.cards, c, q, place)
    ensures c !in deck && c in t.cards ==> Stacked(t.cards, deck)[c] == t.cards[c]
  {
    assert PilesAgree(t.cards, p, t.piles[p], {});
    StackedExact(t.cards, deck);
    hide Stacked;
    if c in deck {
      var i :| 0 <= i < |deck| && deck[i] == c;
    }
  }

  lemma DiscardedExist(t: Tabletop, p: PlayerId)
    requires Agree(t) && p in t.piles
    ensures forall c :: c in t.piles[p].discard ==> c in t.cards
  {
    assert PilesAgree(t.cards, p, t.piles[p], {});
  }

  lemma EmptyDeckHasNone(t: Tabletop, p: PlayerId, c: CardId)
    requires Agree(t) && p in t.piles && t.piles[p].deck == []
    ensures !At(t.cards, c, p, Deck)
  {
    assert PilesAgree(t.cards, p, t.piles[p], {});
  }

  lemma ReshuffledDeck(t: Tabletop, p: PlayerId, deck: seq<CardId>)
    requires Agree(t) && p in t.piles && t.piles[p].deck == []
    requires Distinct(deck) && forall x :: x in deck <==> x in t.piles[p].discard
    ensures DeckZone(Stacked(t.cards, deck), deck, p, {})
  {
    hide Stacked, At;
    DiscardedExist(t, p);
    StackedExact(t.cards, deck);
    forall c
      ensures At(Stacked(t.cards, deck), c, p, Deck) <==> c in deck
    {
      StackedMoves(t, p, deck, c, p, Deck);
      EmptyDeckHasNone(t, p, c);
    }
  }

  lemma ReshuffledAgrees(t: Tabletop, p: PlayerId, v: seq<nat>)
    requires Agree(t) && p in t.piles && t.piles[p].deck == [] && Drawable(v, |t.piles[p].discard|)
    ensures Agree(Reshuffled(t, p, v))
  {
    var s, r := t.piles[p], Reshuffled(t, p, v);
    var deck := Shuffled(s.discard, v);
    assert PilesAgree(t.cards, p, s, {});
    ShuffleInjective(s.discard, v, v);
    PermutationDistinct(s.discard, deck);
    ReshuffledDeck(t, p, deck);
    hide Stacked, Shuffled, DeckZone;
    forall q | q in r.piles
      ensures PilesAgree(r.cards, q, r.piles[q], {})
    {
      StackedFor(t, p, deck, q);
    }
  }

  lemma StackedFor(t: Tabletop, p: PlayerId, deck: seq<CardId>, q: PlayerId)
    requires Agree(t) && p in t.piles && q in t.piles
    requires Distinct(deck) && forall c :: c in deck <==> c in t.piles[p].discard
    requires DeckZone(Stacked(t.cards, deck), deck, p, {})
    ensures PilesAgree(Stacked(t.cards, deck), q, if q == p then Piles(t.piles[p].hand, deck, []) else t.piles[q], {})
  {
    assert PilesAgree(t.cards, p, t.piles[p], {}) && PilesAgree(t.cards, q, t.piles[q], {});
    var r := Stacked(t.cards, deck);
    forall c, place
      ensures At(r, c, q, place) <==> if c in deck then q == p && place == Deck else At(t.cards, c, q, place)
      ensures c !in deck && c in t.cards ==> r[c] == t.cards[c]
    {
      StackedMoves(t, p, deck, c, q, place);
    }
    forall c
      ensures c in deck ==> At(t.cards, c, p, Discard) && c !in t.piles[q].deck
    {
      if c in t.piles[q].deck {
        ListsAreDisjoint(t, q, p, c);
      }
    }
    hide Stacked;
    SamePlaces(t.cards, r, t.piles[q].hand, q, Hand);
    if q != p {
      SamePlaces(t.cards, r, t.piles[q].discard, q, Discard);
      SameDeck(t.cards, r, t.piles[q].deck, q);
    }
  }
}
