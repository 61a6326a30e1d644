/**
 Refilling a hand up to the limit. A Leaks card drawn while Security Protocols is held makes the hand
 shrink, and an empty deck is rebuilt from the discard pile, so that the loop ends is not obvious.
 */
module Refilling {
  import opened Prelude
  import opened Shuffle
  import opened CardZones

  /** The tabletop after the refill, the answers not yet used and how often the discard pile was reshuffled. */
  datatype Outcome = Filled(table: Tabletop, answers: seq<int>, shuffles: nat) | RandomFailure

  lemma DeckTopExists(t: Tabletop, p: PlayerId)
    requires Agree(t) && p in t.piles
    ensures t.piles[p].deck != [] ==> t.piles[p].deck[0] in t.cards
  {
    assert PilesAgree(t.cards, p, t.piles[p], {});
  }

  lemma DrawParity(t: Tabletop, p: PlayerId)
    requires Agree(t) && p in t.piles && t.piles[p].deck != [] && t.piles[p].deck[0] in t.cards
    ensures var s := DrawTop(t, p).piles[p];
            s.deck == t.piles[p].deck[1..] && |s.discard| % 2 == |t.piles[p].discard| % 2
  {
    assert PilesAgree(t.cards, p, t.piles[p], {});
    LiftedAgrees(t, p);
    var lifted, c := Lifted(t, p), t.piles[p].deck[0];
    if Intercepted(lifted, p, c) {
      ProtocolIsInHand(lifted, p, c, {c});
    }
  }

  /** What a draw needs and leaves. */
  lemma DrawReady(t: Tabletop, p: PlayerId)
    requires Agree(t) && p in t.piles && t.piles[p].deck != []
    ensures t.piles[p].deck[0] in t.cards && Agree(DrawTop(t, p)) && DrawTop(t, p).piles.Keys == t.piles.Keys
    ensures
      var s := DrawTop(t, p).piles[p];
      |s.deck| == |t.piles[p].deck| - 1 && |s.discard| % 2 == |t.piles[p].discard| % 2
  {
    DeckTopExists(t, p);
    hide Agree;
    DrawTopAgrees(t, p);
    DrawParity(t, p);
  }

  lemma ReshuffleReady(t: Tabletop, p: PlayerId, v: seq<nat>)
    requires Agree(t) && p in t.piles && t.piles[p].deck == [] && t.piles[p].discard != []
    requires Drawable(v, |t.piles[p].discard|)
    ensures Reshuffled(t, p, v).piles.Keys == t.piles.Keys && Agree(Reshuffled(t, p, v))
    ensures Reshuffled(t, p, v).piles[p].deck != [] && Reshuffled(t, p, v).piles[p].discard == []
    ensures Reshuffled(t, p, v).piles[p].deck[0] in Reshuffled(t, p, v).cards
    ensures Agree(DrawTop(Reshuffled(t, p, v), p)) && DrawTop(Reshuffled(t, p, v), p).piles.Keys == t.piles.Keys
    ensures
      var s := DrawTop(Reshuffled(t, p, v), p).piles[p];
      |s.deck| == |t.piles[p].discard| - 1 && |s.discard| % 2 == 0
  {
    ReshuffledAgrees(t, p, v);
    ReshuffledIsDeck(t, p, v);
    DrawReady(Reshuffled(t, p, v), p);
  }

  lemma ReshuffledIsDeck(t: Tabletop, p: PlayerId, v: seq<nat>)
    requires p in t.piles && Drawable(v, |t.piles[p].discard|)
    ensures var s := Reshuffled(t, p, v).piles[p];
            s.hand == t.piles[p].hand && |s.deck| == |t.piles[p].discard| && s.discard == []
  {
  }

  /** One turn of the loop: a draw, after a reshuffle if the deck is empty. */
  datatype Turn = Drew(next: Tabletop, rest: seq<int>, shuffled: nat) | NothingLeft | NoAnswer

  /**
   Each reshuffle uses up answers, except that of a single card, after which the number of discarded cards is
   even for good.
   */
  function TurnOf(t: Tabletop, p: PlayerId, answers: seq<int>): (r: Turn)
    requires Agree(t) && p in t.piles
  {
    var s := t.piles[p];
    if s.deck != [] then (DeckTopExists(t, p); Drew(DrawTop(t, p), answers, 0))
    else if s.discard == [] then NothingLeft
    else
      var v := Answers(answers, |s.discard|);
      if v.None? then NoAnswer
      else
        AnswersEnough(answers, |s.discard|);
        ReshuffleReady(t, p, v.value);
        Drew(DrawTop(Reshuffled(t, p, v.value), p), answers[Asked(|s.discard|)..], 1)
  }

  lemma TurnIsSound(t: Tabletop, p: PlayerId, answers: seq<int>)
    requires Agree(t) && p in t.piles && TurnOf(t, p, answers).Drew?
    ensures
      var r := TurnOf(t, p, answers);
      Agree(r.next) && r.next.piles.Keys == t.piles.Keys && |r.rest| <= |answers| &&
      (|r.rest| == |answers| ==>
        var before, after := t.piles[p], r.next.piles[p];
        |after.discard| % 2 < |before.discard| % 2 ||
        (|after.discard| % 2 == |before.discard| % 2 && |after.deck| < |before.deck|))
  {
    hide Agree, DrawTop, Reshuffled;
    var s := t.piles[p];
    if s.deck != [] {
      DrawReady(t, p);
    } else {
      AnswersEnough(answers, |s.discard|);
      ReshuffleReady(t, p, Answers(answers, |s.discard|).value);
    }
  }

  /** Draws until the hand is full or no card is left. */
  function Refill(t: Tabletop, p: PlayerId, limit: nat, answers: seq<int>): (r: Outcome)
    requires Agree(t) && p in t.piles
    ensures r.Filled? ==> Agree(r.table) && r.table.piles.Keys == t.piles.Keys
    decreases |answers|, |t.piles[p].discard| % 2, |t.piles[p].deck|
  {
    if |t.piles[p].hand| >= limit then Filled(t, answers, 0)
    else
      match TurnOf(t, p, answers)
      case NothingLeft => Filled(t, answers, 0)
      case NoAnswer => RandomFailure
      case Drew(next, rest, shuffled) =>
        TurnIsSound(t, p, answers);
        var r := Refill(next, p, limit, rest);
        if r.Filled? then r.(shuffles := r.shuffles + shuffled) else r
  }

  // -------------------------------------------------------- nothing is lost

  function AllOf(s: Piles): multiset<CardId> {
    multiset(s.hand) + multiset(s.deck) + multiset(s.discard)
  }

  ghost predicate SameDefinitions(cards: map<CardId, Card>, other: map<CardId, Card>) {
    forall c :: c in cards ==> c in other && other[c].definition == cards[c].definition
  }

  /** A refill only moves cards among the three lists of the player. */
  ghost predicate OnlyMoved(t: Tabletop, r: Tabletop, p: PlayerId)
    requires p in t.piles && p in r.piles
  {
    AllOf(r.piles[p]) == AllOf(t.piles[p]) && r.piles.Keys == t.piles.Keys &&
    (forall q :: q in t.piles && q != p ==> r.piles[q] == t.piles[q]) &&
    SameDefinitions(t.cards, r.cards)
  }

  /** A drawn card that is not intercepted joins the hand; otherwise it and the protocol join the discard pile. */
  lemma ResolveExact(t: Tabletop, p: PlayerId, c: CardId, loose: set<CardId>)
    requires AgreeBut(t, p, loose) && p in t.piles && c in loose && c in t.cards
    ensures var s, r := t.piles[p], ResolveDrawn(t, p, c);
            SameDefinitions(t.cards, r.cards) && (forall q :: q in t.piles && q != p ==> r.piles[q] == t.piles[q]) &&
            if Intercepted(t, p, c) then
              var protocol := FindProtocol(t.cards, s.hand).value;
              protocol in s.hand && Distinct(s.hand) &&
                r.piles[p] == Piles(Without(s.hand, protocol), s.deck, s.discard + [protocol] + [c])
            else r.piles[p] == Piles(s.hand + [c], s.deck, s.discard)
  {
    if Intercepted(t, p, c) {
      ProtocolIsInHand(t, p, c, loose);
      assert PilesAgree(t.cards, p, t.piles[p], loose);
    }
  }

  lemma ResolveConserves(t: Tabletop, p: PlayerId, c: CardId, loose: set<CardId>)
    requires AgreeBut(t, p, loose) && p in t.piles && c in loose && c in t.cards
    ensures AllOf(ResolveDrawn(t, p, c).piles[p]) == AllOf(t.piles[p]) + multiset{c}
  {
    ResolveExact(t, p, c, loose);
    hide ResolveDrawn, AgreeBut;
    var s := t.piles[p];
    if Intercepted(t, p, c) {
      WithoutMultiset(s.hand, FindProtocol(t.cards, s.hand).value);
    }
  }

  lemma LiftedExact(t: Tabletop, p: PlayerId)
    requires Agree(t) && p in t.piles && t.piles[p].deck != []
    ensures var s, r := t.piles[p], Lifted(t, p);
            AgreeBut(r, p, {s.deck[0]}) && SameDefinitions(t.cards, r.cards) && s.deck[0] in r.cards &&
            r.piles == t.piles[p := s.(deck := s.deck[1..])]
  {
    LiftedAgrees(t, p);
    assert PilesAgree(t.cards, p, t.piles[p], {});
    LiftedDeck(t.cards, t.piles[p].deck, p);
    NumberedKeeps(t.cards, t.piles[p].deck[1..]);
    hide Numbered;
  }

  lemma SameTwice(a: map<CardId, Card>, b: map<CardId, Card>, c: map<CardId, Card>)
    requires SameDefinitions(a, b) && SameDefinitions(b, c)
    ensures SameDefinitions(a, c)
  {
  }

  lemma AllButTop(s: Piles)
    requires s.deck != []
    ensures AllOf(s) == AllOf(s.(deck := s.deck[1..])) + multiset{s.deck[0]}
  {
    assert s.deck == [s.deck[0]] + s.deck[1..];
  }

  lemma DrawConserves(t: Tabletop, p: PlayerId)
    requires Agree(t) && p in t.piles && t.piles[p].deck != [] && t.piles[p].deck[0] in t.cards
    ensures OnlyMoved(t, DrawTop(t, p), p)
  {
    hide ResolveDrawn, AgreeBut, Agree, Lifted, AllOf, SameDefinitions, Intercepted, FindProtocol;
    var lifted, c := Lifted(t, p), t.piles[p].deck[0];
    LiftedExact(t, p);
    ResolveExact(lifted, p, c, {c});
    ResolveConserves(lifted, p, c, {c});
    AllButTop(t.piles[p]);
    SameTwice(t.cards, lifted.cards, DrawTop(t, p).cards);
  }

  lemma StackedSame(cards: map<CardId, Card>, deck: seq<CardId>)
    requires Distinct(deck) && forall c :: c in deck ==> c in cards
    ensures SameDefinitions(cards, Stacked(cards, deck))
  {
    StackedExact(cards, deck);
    hide Stacked;
    forall c | c in cards
      ensures Stacked(cards, deck)[c].definition == cards[c].definition
    {
      if c in deck {
        var i :| 0 <= i < |deck| && deck[i] == c;
      }
    }
  }

  lemma ReshuffleConserves(t: Tabletop, p: PlayerId, v: seq<nat>)
    requires Agree(t) && p in t.piles && t.piles[p].deck == [] && Drawable(v, |t.piles[p].discard|)
    ensures OnlyMoved(t, Reshuffled(t, p, v), p)
  {
    var s := t.piles[p];
    var deck := Shuffled(s.discard, v);
    assert PilesAgree(t.cards, p, s, {});
    hide Stacked, Shuffled, SameDefinitions, Agree;
    ShuffleInjective(s.discard, v, v);
    PermutationDistinct(s.discard, deck);
    forall c | c in deck
      ensures c in t.cards
    {
      assert At(t.cards, c, p, Discard);
    }
    StackedSame(t.cards, deck);
  }

  lemma {:induction false} RefillConserves(t: Tabletop, p: PlayerId, limit: nat, answers: seq<int>)
    requires Agree(t) && p in t.piles
    ensures var r := Refill(t, p, limit, answers); r.Filled? ==> OnlyMoved(t, r.table, p)
    decreases |answers|, |t.piles[p].discard| % 2, |t.piles[p].deck|
  {
    hide DrawTop, Reshuffled, Agree, TurnOf, OnlyMoved;
    var turn := TurnOf(t, p, answers);
    if |t.piles[p].hand| >= limit || !turn.Drew? {
      NothingMoved(t, p);
    } else {
      TurnIsSound(t, p, answers);
      TurnConserves(t, p, answers);
      RefillConserves(turn.next, p, limit, turn.rest);
      var r := Refill(turn.next, p, limit, turn.rest);
      if r.Filled? {
        MovedOn(t, turn.next, r.table, p);
      }
    }
  }

  lemma NothingMoved(t: Tabletop, p: PlayerId)
    requires p in t.piles
    ensures OnlyMoved(t, t, p)
  {
  }

  lemma MovedOn(t: Tabletop, middle: Tabletop, r: Tabletop, p: PlayerId)
    requires p in t.piles && p in middle.piles && p in r.piles && OnlyMoved(t, middle, p) && OnlyMoved(middle, r, p)
    ensures OnlyMoved(t, r, p)
  {
    hide AllOf;
  }

  lemma TurnConserves(t: Tabletop, p: PlayerId, answers: seq<int>)
    requires Agree(t) && p in t.piles && TurnOf(t, p, answers).Drew? && p in TurnOf(t, p, answers).next.piles
    ensures OnlyMoved(t, TurnOf(t, p, answers).next, p)
  {
    hide DrawTop, Reshuffled, Agree, AllOf;
    var s := t.piles[p];
    if s.deck != [] {
      DeckTopExists(t, p);
      DrawConserves(t, p);
    } else {
      var v := Answers(answers, |s.discard|).value;
      ReshuffleReady(t, p, v);
      ReshuffleConserves(t, p, v);
      DrawConserves(Reshuffled(t, p, v), p);
    }
  }

  // ---------------------------------------------------------- it always ends

  function Count(cards: map<CardId, Card>, list: seq<CardId>, definition: DefinitionId): nat {
    if list == [] then 0
    else
      (if list[0] in cards && cards[list[0]].definition == definition then 1 else 0) +
      Count(cards, list[1..], definition)
  }

  lemma {:induction false} CountJoins(cards: map<CardId, Card>, a: seq<CardId>, b: seq<CardId>,
                                      definition: DefinitionId)
    ensures Count(cards, a + b, definition) == Count(cards, a, definition) + Count(cards, b, definition)
  {
    if a == [] {
      assert a + b == b;
    } else {
      assert (a + b)[1..] == a[1..] + b;
      CountJoins(cards, a[1..], b, definition);
    }
  }

  lemma {:induction false} CountSame(cards: map<CardId, Card>, other: map<CardId, Card>, list: seq<CardId>,
                                     definition: DefinitionId)
    requires SameDefinitions(cards, other) && forall c :: c in list ==> c in cards
    ensures Count(other, list, definition) == Count(cards, list, definition)
  {
    if list != [] {
      CountSame(cards, other, list[1..], definition);
    }
  }

  lemma {:induction false} CountWithout(cards: map<CardId, Card>, list: seq<CardId>, c: CardId,
                                        definition: DefinitionId)
    requires Distinct(list) && c in list && c in cards
    ensures Count(cards, Without(list, c), definition) ==
            Count(cards, list, definition) - if cards[c].definition == definition then 1 else 0
  {
    RestDistinct(list);
    if list[0] != c {
      CountWithout(cards, list[1..], c, definition);
    }
  }

  lemma TakeOut(a: seq<CardId>, b: seq<CardId>) returns (n: nat)
    requires multiset(a) == multiset(b) && a != []
    ensures n < |b| && b[n] == a[0] && multiset(a[1..]) == multiset(b[..n] + b[n + 1..])
  {
    assert a[0] in multiset(b);
    n :| 0 <= n < |b| && b[n] == a[0];
    assert b == b[..n] + ([b[n]] + b[n + 1..]);
    assert a == [a[0]] + a[1..];
    assert multiset(b) == multiset(b[..n] + b[n + 1..]) + multiset{b[n]};
    assert multiset(a) - multiset{a[0]} == multiset(a[1..]);
  }

  lemma {:induction false} CountByMultiset(cards: map<CardId, Card>, a: seq<CardId>, b: seq<CardId>,
                                           definition: DefinitionId)
    requires multiset(a) == multiset(b)
    ensures Count(cards, a, definition) == Count(cards, b, definition)
  {
    if a != [] {
      var n := TakeOut(a, b);
      CountByMultiset(cards, a[1..], b[..n] + b[n + 1..], definition);
      CountJoins(cards, b[..n], b[n + 1..], definition);
      assert b == b[..n] + b[n..] && b[n..][1..] == b[n + 1..];
      CountJoins(cards, b[..n], b[n..], definition);
    } else {
      assert |multiset(b)| == 0 && b == [];
    }
  }

  /** How large the hand can still be relied on to become before the deck runs out. */
  function Promise(cards: map<CardId, Card>, s: Piles): int {
    |s.hand| + |s.deck| - 2 * Min(Count(cards, s.hand, SECURITY_PROTOCOLS) + Count(cards, s.deck, SECURITY_PROTOCOLS),
                                  Count(cards, s.deck, LEAKS))
  }

  lemma CountOne(cards: map<CardId, Card>, c: CardId, definition: DefinitionId)
    requires c in cards
    ensures Count(cards, [c], definition) == if cards[c].definition == definition then 1 else 0
  {
    assert [c][1..] == [];
  }

  /** A draw never lowers the promise: an interception costs two cards, but also a protocol and a leak. */
  lemma ResolveKeepsPromise(cards: map<CardId, Card>, s: Piles, t: Tabletop, p: PlayerId, c: CardId)
    requires s.deck != [] && s.deck[0] == c && c in t.cards && p in t.piles && SameDefinitions(cards, t.cards)
    requires AgreeBut(t, p, {c}) && t.piles[p] == s.(deck := s.deck[1..])
    requires forall x :: x in s.hand || x in s.deck ==> x in cards
    ensures var r := ResolveDrawn(t, p, c);
            Promise(r.cards, r.piles[p]) >= Promise(cards, s) && -1 <= |r.piles[p].hand| - |s.hand| <= 1
  {
    ResolveExact(t, p, c, {c});
    var r := ResolveDrawn(t, p, c);
    var protocols, leaks := SECURITY_PROTOCOLS, LEAKS;
    hide ResolveDrawn, AgreeBut;
    assert s.deck == [c] + s.deck[1..];
    forall definition
      ensures Count(cards, s.deck, definition) == Count(cards, [c], definition) +
              Count(r.cards, s.deck[1..], definition)
    {
      CountJoins(cards, [c], s.deck[1..], definition);
      CountSame(cards, r.cards, s.deck[1..], definition);
    }
    CountOne(cards, c, protocols);
    CountOne(cards, c, leaks);
    CountSame(cards, r.cards, s.hand, protocols);
    if Intercepted(t, p, c) {
      var protocol := FindProtocol(t.cards, s.hand).value;
      WithoutMultiset(s.hand, protocol);
      CountWithout(r.cards, s.hand, protocol, protocols);
    } else {
      CountJoins(r.cards, s.hand, [c], protocols);
      CountOne(r.cards, c, protocols);
    }
  }

  lemma CardsExist(t: Tabletop, p: PlayerId)
    requires Agree(t) && p in t.piles
    ensures forall c :: c in t.piles[p].hand || c in t.piles[p].deck || c in t.piles[p].discard ==> c in t.cards
  {
    assert PilesAgree(t.cards, p, t.piles[p], {});
  }

  lemma DrawKeepsPromise(t: Tabletop, p: PlayerId)
    requires Agree(t) && p in t.piles && t.piles[p].deck != [] && t.piles[p].deck[0] in t.cards
    ensures var r := DrawTop(t, p);
            Promise(r.cards, r.piles[p]) >= Promise(t.cards, t.piles[p]) &&
            -1 <= |r.piles[p].hand| - |t.piles[p].hand| <= 1
  {
    LiftedExact(t, p);
    CardsExist(t, p);
    hide Lifted, ResolveDrawn, Agree, AgreeBut, Promise;
    ResolveKeepsPromise(t.cards, t.piles[p], Lifted(t, p), p, t.piles[p].deck[0]);
  }

  /** While the promise reaches the limit the deck does not run out first. */
  lemma {:induction false} FillsFromDeck(t: Tabletop, p: PlayerId, limit: nat, answers: seq<int>)
    requires Agree(t) && p in t.piles && |t.piles[p].hand| <= limit <= Promise(t.cards, t.piles[p])
    ensures var r := Refill(t, p, limit, answers);
            r.Filled? && r.answers == answers && r.shuffles == 0 && |r.table.piles[p].hand| == limit
    decreases |t.piles[p].deck|
  {
    var s := t.piles[p];
    if |s.hand| < limit && s.deck != [] {
      hide Promise, DrawTop, Agree;
      DeckTopExists(t, p);
      DrawTopAgrees(t, p);
      DrawParity(t, p);
      DrawKeepsPromise(t, p);
      FillsFromDeck(DrawTop(t, p), p, limit, answers);
    }
  }

  function Whole(s: Piles): seq<CardId> {
    s.hand + s.deck + s.discard
  }

  /** Enough cards that even if every protocol intercepts a leak the hand can be filled. */
  predicate Plenty(t: Tabletop, p: PlayerId, limit: nat)
    requires p in t.piles
  {
    var all := Whole(t.piles[p]);
    |all| >= limit + 2 * Min(Count(t.cards, all, SECURITY_PROTOCOLS), Count(t.cards, all, LEAKS))
  }

  lemma PlentyStays(t: Tabletop, r: Tabletop, p: PlayerId, limit: nat)
    requires Agree(t) && p in t.piles && p in r.piles && OnlyMoved(t, r, p) && Plenty(t, p, limit)
    ensures Plenty(r, p, limit)
  {
    CardsExist(t, p);
    hide Agree;
    var before, after := Whole(t.piles[p]), Whole(r.piles[p]);
    assert multiset(before) == AllOf(t.piles[p]) && multiset(after) == AllOf(r.piles[p]);
    assert |multiset(before)| == |before| && |multiset(after)| == |after|;
    forall definition
      ensures Count(r.cards, after, definition) == Count(t.cards, before, definition)
    {
      CountByMultiset(r.cards, before, after, definition);
      CountSame(t.cards, r.cards, before, definition);
    }
  }

  lemma PlentyPromises(t: Tabletop, p: PlayerId, limit: nat)
    requires p in t.piles && t.piles[p].discard == [] && Plenty(t, p, limit)
    ensures Promise(t.cards, t.piles[p]) >= limit
  {
    var s := t.piles[p];
    assert Whole(s) == s.hand + s.deck;
    CountJoins(t.cards, s.hand, s.deck, SECURITY_PROTOCOLS);
    CountJoins(t.cards, s.hand, s.deck, LEAKS);
  }

  /**
   Refilling ends for every random provider. With at least limit + 2 min(protocols, leaks) cards a hand that
   starts at or below the limit ends exactly at the limit after one reshuffle at most; the only other way
   out is a provider that fails or answers out of range in that one reshuffle.
   */
  lemma {:induction false} RefillReachesLimit(t: Tabletop, p: PlayerId, limit: nat, answers: seq<int>)
    requires Agree(t) && p in t.piles && |t.piles[p].hand| <= limit && Plenty(t, p, limit)
    ensures var r := Refill(t, p, limit, answers);
            (r.Filled? ==> |r.table.piles[p].hand| == limit && r.shuffles <= 1) &&
            (r.RandomFailure? ==> exists k :: 0 < k <= |Whole(t.piles[p])| && Answers(answers, k).None?)
    decreases |t.piles[p].deck|
  {
    var s := t.piles[p];
    if |s.hand| < limit {
      if s.deck != [] {
        hide DrawTop, Agree, Plenty;
        DeckTopExists(t, p);
        DrawTopAgrees(t, p);
        DrawParity(t, p);
        DrawConserves(t, p);
        DrawKeepsPromise(t, p);
        PlentyStays(t, DrawTop(t, p), p, limit);
        RefillReachesLimit(DrawTop(t, p), p, limit, answers);
        SameSize(s, DrawTop(t, p).piles[p]);
      } else {
        ReshuffleReachesLimit(t, p, limit, answers);
      }
    }
  }

  lemma SameSize(s: Piles, r: Piles)
    requires AllOf(s) == AllOf(r)
    ensures |Whole(s)| == |Whole(r)|
  {
    assert multiset(Whole(s)) == AllOf(s) && multiset(Whole(r)) == AllOf(r);
    assert |multiset(Whole(s))| == |Whole(s)| && |multiset(Whole(r))| == |Whole(r)|;
  }

  lemma ReshuffleReachesLimit(t: Tabletop, p: PlayerId, limit: nat, answers: seq<int>)
    requires Agree(t) && p in t.piles && |t.piles[p].hand| < limit && t.piles[p].deck == [] && Plenty(t, p, limit)
    ensures var r := Refill(t, p, limit, answers);
            (r.Filled? ==> |r.table.piles[p].hand| == limit && r.shuffles == 1) &&
            (r.RandomFailure? ==> Answers(answers, |t.piles[p].discard|).None? && 0 < |t.piles[p].discard|)
  {
    var s := t.piles[p];
    assert s.discard != [];
    if Answers(answers, |s.discard|).Some? {
      var v := Answers(answers, |s.discard|).value;
      AnswersEnough(answers, |s.discard|);
      ReshuffledAgrees(t, p, v);
      ReshuffleConserves(t, p, v);
      ReshuffledIsDeck(t, p, v);
      var t1 := Reshuffled(t, p, v);
      hide Reshuffled, DrawTop, Agree, Plenty, Promise, Shuffled;
      PlentyStays(t, t1, p, limit);
      PlentyPromises(t1, p, limit);
      DeckTopExists(t1, p);
      DrawTopAgrees(t1, p);
      DrawParity(t1, p);
      DrawKeepsPromise(t1, p);
      FillsFromDeck(DrawTop(t1, p), p, limit, answers[Asked(|s.discard|)..]);
    }
  }
}
