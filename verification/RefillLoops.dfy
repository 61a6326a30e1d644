/**
 When refilling a hand goes on for as long as the provider answers. Leaks that are intercepted come back with
 their protocols at the next reshuffle; the loop ends unless they can keep the hand below the limit for good.
 */
module RefillLoops {
  import opened Prelude
  import opened Shuffle
  import opened CardZones
  import opened Refilling

  /** How often the discard pile is reshuffled before the loop ends or the provider fails. */
  function Reshuffles(t: Tabletop, p: PlayerId, limit: nat, answers: seq<int>): nat
    requires Agree(t) && p in t.piles
    decreases |answers|, |t.piles[p].discard| % 2, |t.piles[p].deck|
  {
    if |t.piles[p].hand| >= limit then 0
    else
      match TurnOf(t, p, answers)
      case NothingLeft => 0
      case NoAnswer => 0
      case Drew(next, rest, shuffled) =>
        TurnIsSound(t, p, answers);
        Reshuffles(next, p, limit, rest) + shuffled
  }

  /** When the loop ends it has made the reshuffles that the refill reports. */
  lemma {:induction false} ReportedReshuffles(t: Tabletop, p: PlayerId, limit: nat, answers: seq<int>)
    requires Agree(t) && p in t.piles
    ensures var r := Refill(t, p, limit, answers); r.Filled? ==> r.shuffles == Reshuffles(t, p, limit, answers)
    decreases |answers|, |t.piles[p].discard| % 2, |t.piles[p].deck|
  {
    hide Agree, TurnOf;
    var turn := TurnOf(t, p, answers);
    if |t.piles[p].hand| < limit && turn.Drew? {
      TurnIsSound(t, p, answers);
      ReportedReshuffles(turn.next, p, limit, turn.rest);
    }
  }

  /** The tabletop when the hand is full or the deck has run out. */
  function Drained(t: Tabletop, p: PlayerId, limit: nat): (r: Tabletop)
    requires Agree(t) && p in t.piles
    ensures Agree(r) && p in r.piles && (|r.piles[p].hand| < limit ==> r.piles[p].deck == [])
    decreases |t.piles[p].deck|
  {
    if |t.piles[p].hand| >= limit || t.piles[p].deck == [] then t
    else
      DrawReady(t, p);
      Drained(DrawTop(t, p), p, limit)
  }

  lemma {:induction false} DrainingAsksNothing(t: Tabletop, p: PlayerId, limit: nat, answers: seq<int>)
    requires Agree(t) && p in t.piles
    ensures Reshuffles(t, p, limit, answers) == Reshuffles(Drained(t, p, limit), p, limit, answers)
    decreases |t.piles[p].deck|
  {
    if |t.piles[p].hand| < limit && t.piles[p].deck != [] {
      hide Agree, DrawTop;
      DrawReady(t, p);
      DrainingAsksNothing(DrawTop(t, p), p, limit, answers);
    }
  }

  /** A round: the discard pile is reshuffled and drawn. */
  function Round(t: Tabletop, p: PlayerId, limit: nat, v: seq<nat>): (r: Tabletop)
    requires Agree(t) && p in t.piles && t.piles[p].deck == [] && t.piles[p].discard != []
    requires Drawable(v, |t.piles[p].discard|)
    ensures Agree(r) && p in r.piles && (|r.piles[p].hand| < limit ==> r.piles[p].deck == [])
  {
    ReshuffledAgrees(t, p, v);
    Drained(Reshuffled(t, p, v), p, limit)
  }

  lemma RoundIsOneReshuffle(t: Tabletop, p: PlayerId, limit: nat, v: seq<nat>, answers: seq<int>)
    requires Agree(t) && p in t.piles && t.piles[p].deck == [] && t.piles[p].discard != []
    requires |t.piles[p].hand| < limit && Answers(answers, |t.piles[p].discard|) == Some(v)
    ensures Asked(|t.piles[p].discard|) <= |answers|
    ensures Reshuffles(t, p, limit, answers) ==
            1 + Reshuffles(Round(t, p, limit, v), p, limit, answers[Asked(|t.piles[p].discard|)..])
  {
    hide Agree, DrawTop, Reshuffled, Answers;
    AnswersEnough(answers, |t.piles[p].discard|);
    ReshuffleReady(t, p, v);
    ReshuffledIsDeck(t, p, v);
    var rest := answers[Asked(|t.piles[p].discard|)..];
    assert TurnOf(t, p, answers) == Drew(DrawTop(Reshuffled(t, p, v), p), rest, 1);
    DrainingAsksNothing(DrawTop(Reshuffled(t, p, v), p), p, limit, rest);
  }

  // ------------------------------------------------------ what a draw does

  function Protocols(cards: map<CardId, Card>, list: seq<CardId>): nat {
    Count(cards, list, SECURITY_PROTOCOLS)
  }

  function Leaked(cards: map<CardId, Card>, list: seq<CardId>): nat {
    Count(cards, list, LEAKS)
  }

  /**
   The number of interceptions while a list is drawn to a hand of h cards, q of them protocols, if the hand
   stays below the limit all the way; None if it gets full.
   */
  function Pass(cards: map<CardId, Card>, list: seq<CardId>, h: int, q: nat, limit: nat): Option<nat> {
    if h >= limit then None
    else if list == [] then Some(0)
    else
      var definition := if list[0] in cards then Some(cards[list[0]].definition) else None;
      if definition == Some(LEAKS) && q > 0 then
        var r := Pass(cards, list[1..], h - 1, q - 1, limit);
        if r.Some? then Some(r.value + 1) else None
      else Pass(cards, list[1..], h + 1, if definition == Some(SECURITY_PROTOCOLS) then q + 1 else q, limit)
  }

  lemma {:induction false} PassSame(cards: map<CardId, Card>, other: map<CardId, Card>, list: seq<CardId>, h: int,
                                    q: nat, limit: nat)
    requires SameDefinitions(cards, other) && forall c :: c in list ==> c in cards
    ensures Pass(other, list, h, q, limit) == Pass(cards, list, h, q, limit)
  {
    if h < limit && list != [] {
      PassSame(cards, other, list[1..], h - 1, if q > 0 then q - 1 else 0, limit);
      PassSame(cards, other, list[1..], h + 1, q + 1, limit);
      PassSame(cards, other, list[1..], h + 1, q, limit);
    }
  }

  /** No draw intercepts without a protocol and a leak, and the hand ends where the cards put it. */
  lemma {:induction false} PassBounds(cards: map<CardId, Card>, list: seq<CardId>, h: int, q: nat, limit: nat)
    ensures var r := Pass(cards, list, h, q, limit);
            r.Some? ==> r.value <= q + Protocols(cards, list) && r.value <= Leaked(cards, list) &&
                        h + |list| - 2 * r.value < limit && (list != [] && q == 0 ==> h + 1 < limit)
  {
    if h < limit && list != [] {
      PassBounds(cards, list[1..], h - 1, if q > 0 then q - 1 else 0, limit);
      PassBounds(cards, list[1..], h + 1, q + 1, limit);
      PassBounds(cards, list[1..], h + 1, q, limit);
    }
  }

  lemma {:induction false} ProtocolIffCounted(cards: map<CardId, Card>, hand: seq<CardId>)
    ensures FindProtocol(cards, hand).Some? <==> Protocols(cards, hand) > 0
  {
    if hand != [] {
      ProtocolIffCounted(cards, hand[1..]);
    }
  }

  /** The sizes and counts that decide how the loop goes on. */
  datatype Tally = Tally(hand: nat, kept: nat, discard: nat, lost: nat, leaks: nat)

  function TallyOf(t: Tabletop, p: PlayerId): Tally
    requires p in t.piles
  {
    var s := t.piles[p];
    Tally(|s.hand|, Protocols(t.cards, s.hand), |s.discard|, Protocols(t.cards, s.discard), Leaked(t.cards, s.discard))
  }

  /** Whether the top card is intercepted can be told by counting. */
  lemma InterceptionCounted(t: Tabletop, p: PlayerId)
    requires Agree(t) && p in t.piles && t.piles[p].deck != []
    ensures t.piles[p].deck[0] in t.cards && t.piles[p].deck[0] in Lifted(t, p).cards
    ensures Intercepted(Lifted(t, p), p, t.piles[p].deck[0]) <==>
            t.cards[t.piles[p].deck[0]].definition == LEAKS && Protocols(t.cards, t.piles[p].hand) > 0
  {
    LiftedExact(t, p);
    CardsExist(t, p);
    hide Lifted, Agree, AgreeBut;
    ProtocolIffCounted(Lifted(t, p).cards, t.piles[p].hand);
    CountSame(t.cards, Lifted(t, p).cards, t.piles[p].hand, SECURITY_PROTOCOLS);
  }

  /** The lists after a draw, and the protocol that left the hand if there was one. */
  lemma DrawExact(t: Tabletop, p: PlayerId) returns (protocol: CardId)
    requires Agree(t) && p in t.piles && t.piles[p].deck != []
    ensures t.piles[p].deck[0] in t.cards && Agree(DrawTop(t, p)) && SameDefinitions(t.cards, DrawTop(t, p).cards)
    ensures
      var s, c := t.piles[p], t.piles[p].deck[0];
      if t.cards[c].definition == LEAKS && Protocols(t.cards, s.hand) > 0 then
        protocol in s.hand && Distinct(s.hand) && protocol in t.cards &&
        t.cards[protocol].definition == SECURITY_PROTOCOLS &&
        DrawTop(t, p).piles[p] == Piles(Without(s.hand, protocol), s.deck[1..], s.discard + [protocol] + [c])
      else DrawTop(t, p).piles[p] == Piles(s.hand + [c], s.deck[1..], s.discard)
  {
    DrawReady(t, p);
    InterceptionCounted(t, p);
    LiftedExact(t, p);
    CardsExist(t, p);
    var s, c, lifted := t.piles[p], t.piles[p].deck[0], Lifted(t, p);
    hide Agree, AgreeBut, Lifted, Intercepted, FindProtocol, Protocols;
    ResolveExact(lifted, p, c, {c});
    SameTwice(t.cards, lifted.cards, DrawTop(t, p).cards);
    protocol := 0;
    if Intercepted(lifted, p, c) {
      protocol := FindProtocol(lifted.cards, s.hand).value;
    }
  }

  /** A draw in terms of the tally. */
  lemma DrawTally(t: Tabletop, p: PlayerId)
    requires Agree(t) && p in t.piles && t.piles[p].deck != []
    ensures t.piles[p].deck[0] in t.cards && Agree(DrawTop(t, p)) && SameDefinitions(t.cards, DrawTop(t, p).cards)
    ensures DrawTop(t, p).piles[p].deck == t.piles[p].deck[1..]
    ensures
      var a, b, definition := TallyOf(t, p), TallyOf(DrawTop(t, p), p), t.cards[t.piles[p].deck[0]].definition;
      if definition == LEAKS && a.kept > 0 then
        a.hand > 0 && b == Tally(a.hand - 1, a.kept - 1, a.discard + 2, a.lost + 1, a.leaks + 1)
      else b == a.(hand := a.hand + 1, kept := if definition == SECURITY_PROTOCOLS then a.kept + 1 else a.kept)
  {
    var protocol := DrawExact(t, p);
    var s, c, r := t.piles[p], t.piles[p].deck[0], DrawTop(t, p);
    CardsExist(t, p);
    hide Agree, DrawTop, Count;
    ListsCounted(t.cards, r.cards, s.hand);
    ListsCounted(t.cards, r.cards, s.discard);
    if t.cards[c].definition == LEAKS && Protocols(t.cards, s.hand) > 0 {
      InterceptionTally(r.cards, s, protocol, c);
    } else {
      CountJoins(r.cards, s.hand, [c], SECURITY_PROTOCOLS);
      CountOne(r.cards, c, SECURITY_PROTOCOLS);
    }
  }

  lemma ListsCounted(cards: map<CardId, Card>, other: map<CardId, Card>, list: seq<CardId>)
    requires SameDefinitions(cards, other) && forall c :: c in list ==> c in cards
    ensures Protocols(other, list) == Protocols(cards, list) && Leaked(other, list) == Leaked(cards, list)
  {
    CountSame(cards, other, list, SECURITY_PROTOCOLS);
    CountSame(cards, other, list, LEAKS);
  }

  lemma InterceptionTally(cards: map<CardId, Card>, s: Piles, protocol: CardId, c: CardId)
    requires Distinct(s.hand) && protocol in s.hand && protocol in cards && c in cards
    requires cards[protocol].definition == SECURITY_PROTOCOLS && cards[c].definition == LEAKS
    ensures |Without(s.hand, protocol)| == |s.hand| - 1
    ensures Protocols(cards, Without(s.hand, protocol)) == Protocols(cards, s.hand) - 1
    ensures var discard := s.discard + [protocol] + [c];
            |discard| == |s.discard| + 2 && Protocols(cards, discard) == Protocols(cards, s.discard) + 1 &&
            Leaked(cards, discard) == Leaked(cards, s.discard) + 1
  {
    WithoutMultiset(s.hand, protocol);
    CountWithout(cards, s.hand, protocol, SECURITY_PROTOCOLS);
    forall definition
      ensures Count(cards, s.discard + [protocol] + [c], definition) ==
              Count(cards, s.discard, definition) + Count(cards, [protocol], definition) + Count(cards, [c], definition)
    {
      CountJoins(cards, s.discard, [protocol], definition);
      CountJoins(cards, s.discard + [protocol], [c], definition);
    }
    CountOne(cards, c, SECURITY_PROTOCOLS);
    CountOne(cards, c, LEAKS);
    CountOne(cards, protocol, SECURITY_PROTOCOLS);
    CountOne(cards, protocol, LEAKS);
  }

  /** What a pass over the deck says about the tabletop it leaves. */
  ghost predicate Foretold(t: Tabletop, p: PlayerId, limit: nat, d: Tabletop)
    requires p in t.piles && p in d.piles
  {
    var a, b, deck := TallyOf(t, p), TallyOf(d, p), t.piles[p].deck;
    var r := Pass(t.cards, deck, a.hand, a.kept, limit);
    if r.None? then b.hand >= limit
    else
      b.hand < limit && b.hand == a.hand + |deck| - 2 * r.value && b.discard == a.discard + 2 * r.value &&
      b.kept == a.kept + Protocols(t.cards, deck) - r.value && b.lost == a.lost + r.value &&
      b.leaks == a.leaks + r.value
  }

  lemma ForetoldFromNext(t: Tabletop, r: Tabletop, p: PlayerId, limit: nat, d: Tabletop)
    requires p in t.piles && p in r.piles && p in d.piles && t.piles[p].deck != [] && |t.piles[p].hand| < limit
    requires t.piles[p].deck[0] in t.cards && r.piles[p].deck == t.piles[p].deck[1..]
    requires SameDefinitions(t.cards, r.cards) && forall c :: c in t.piles[p].deck ==> c in t.cards
    requires Foretold(r, p, limit, d)
    requires
      var a, b, definition := TallyOf(t, p), TallyOf(r, p), t.cards[t.piles[p].deck[0]].definition;
      if definition == LEAKS && a.kept > 0 then
        a.hand > 0 && b == Tally(a.hand - 1, a.kept - 1, a.discard + 2, a.lost + 1, a.leaks + 1)
      else b == a.(hand := a.hand + 1, kept := if definition == SECURITY_PROTOCOLS then a.kept + 1 else a.kept)
    ensures Foretold(t, p, limit, d)
  {
    var a, b, deck := TallyOf(t, p), TallyOf(r, p), t.piles[p].deck;
    assert a.hand == |t.piles[p].hand|;
    hide TallyOf, SameDefinitions;
    ListsCounted(t.cards, r.cards, deck[1..]);
    PassSame(t.cards, r.cards, deck[1..], b.hand, b.kept, limit);
  }

  /** Drawing the deck out follows the pass over it. */
  lemma {:induction false} DrainedTally(t: Tabletop, p: PlayerId, limit: nat)
    requires Agree(t) && p in t.piles
    ensures Foretold(t, p, limit, Drained(t, p, limit)) && SameDefinitions(t.cards, Drained(t, p, limit).cards)
    decreases |t.piles[p].deck|
  {
    if |t.piles[p].hand| < limit && t.piles[p].deck != [] {
      var r := DrawTop(t, p);
      DrawTally(t, p);
      CardsExist(t, p);
      hide Agree, DrawTop, TallyOf, Foretold;
      DrainedTally(r, p, limit);
      ForetoldFromNext(t, r, p, limit, Drained(r, p, limit));
      SameTwice(t.cards, r.cards, Drained(t, p, limit).cards);
    }
  }

  // ----------------------------------------------------------- one round

  lemma ReshuffledTally(t: Tabletop, p: PlayerId, v: seq<nat>)
    requires Agree(t) && p in t.piles && t.piles[p].deck == [] && Drawable(v, |t.piles[p].discard|)
    ensures
      var a, r, deck := TallyOf(t, p), Reshuffled(t, p, v), Shuffled(t.piles[p].discard, v);
      Agree(r) && SameDefinitions(t.cards, r.cards) && r.piles[p] == Piles(t.piles[p].hand, deck, []) &&
      TallyOf(r, p) == Tally(a.hand, a.kept, 0, 0, 0) && Protocols(r.cards, deck) == a.lost &&
      Leaked(r.cards, deck) == a.leaks && |deck| == a.discard && forall c :: c in deck ==> c in t.cards
  {
    var s, r, deck := t.piles[p], Reshuffled(t, p, v), Shuffled(t.piles[p].discard, v);
    ReshuffledAgrees(t, p, v);
    ReshuffleConserves(t, p, v);
    CardsExist(t, p);
    assert PilesAgree(t.cards, p, s, {});
    ShuffleInjective(s.discard, v, v);
    hide Agree, Count, Stacked, Shuffled, PilesAgree;
    ListsCounted(t.cards, r.cards, s.hand);
    ListsCounted(t.cards, r.cards, s.discard);
    CountByMultiset(r.cards, s.discard, deck, SECURITY_PROTOCOLS);
    CountByMultiset(r.cards, s.discard, deck, LEAKS);
    assert r.piles[p].discard == [];
    NothingCounted(r.cards);
    forall c | c in deck
      ensures c in t.cards
    {
      assert c in multiset(deck) && c in s.discard;
    }
  }

  lemma NothingCounted(cards: map<CardId, Card>)
    ensures Protocols(cards, []) == 0 && Leaked(cards, []) == 0
  {
  }

  /** The tally of a round whose pass makes i interceptions. */
  ghost predicate RoundTo(a: Tally, b: Tally, limit: nat, i: nat) {
    b.hand < limit && i <= a.leaks && i <= a.kept + a.lost && (a.kept == 0 && a.discard > 0 ==> a.hand + 1 < limit) &&
    b.hand == a.hand + a.discard - 2 * i && b.kept == a.kept + a.lost - i && b.discard == 2 * i && b.lost == i &&
    b.leaks == i
  }

  /** The interceptions of a round. */
  function PassOf(t: Tabletop, p: PlayerId, limit: nat, v: seq<nat>): Option<nat>
    requires p in t.piles && Drawable(v, |t.piles[p].discard|)
  {
    Pass(t.cards, Shuffled(t.piles[p].discard, v), |t.piles[p].hand|, Protocols(t.cards, t.piles[p].hand), limit)
  }

  lemma RoundTally(t: Tabletop, p: PlayerId, limit: nat, v: seq<nat>)
    requires Agree(t) && p in t.piles && t.piles[p].deck == [] && t.piles[p].discard != []
    requires Drawable(v, |t.piles[p].discard|)
    ensures
      var a, b := TallyOf(t, p), TallyOf(Round(t, p, limit, v), p);
      var r := PassOf(t, p, limit, v);
      SameDefinitions(t.cards, Round(t, p, limit, v).cards) &&
      if r.None? then b.hand >= limit else RoundTo(a, b, limit, r.value)
  {
    var t1, deck, a := Reshuffled(t, p, v), Shuffled(t.piles[p].discard, v), TallyOf(t, p);
    ReshuffledTally(t, p, v);
    CardsExist(t1, p);
    assert PassOf(t, p, limit, v) == Pass(t.cards, deck, a.hand, a.kept, limit);
    hide Agree, Reshuffled, Shuffled, TallyOf, Protocols, Leaked, PassOf, SameDefinitions, Foretold, Pass, RoundTo;
    DrainedTally(t1, p, limit);
    PassSame(t.cards, t1.cards, deck, a.hand, a.kept, limit);
    SameTwice(t.cards, t1.cards, Round(t, p, limit, v).cards);
    RoundForetold(a, t1, Round(t, p, limit, v), p, limit);
  }

  lemma RoundForetold(a: Tally, t1: Tabletop, d: Tabletop, p: PlayerId, limit: nat)
    requires p in t1.piles && p in d.piles && Foretold(t1, p, limit, d) && |t1.piles[p].deck| == a.discard
    requires TallyOf(t1, p) == Tally(a.hand, a.kept, 0, 0, 0)
    requires Protocols(t1.cards, t1.piles[p].deck) == a.lost && Leaked(t1.cards, t1.piles[p].deck) == a.leaks
    ensures
      var r := Pass(t1.cards, t1.piles[p].deck, a.hand, a.kept, limit);
      if r.None? then TallyOf(d, p).hand >= limit else RoundTo(a, TallyOf(d, p), limit, r.value)
  {
    hide TallyOf, Protocols, Leaked;
    PassBounds(t1.cards, t1.piles[p].deck, a.hand, a.kept, limit);
    hide Pass;
  }

  // ------------------------------------------------------- a vicious order

  lemma {:induction false} Holding(cards: map<CardId, Card>, list: seq<CardId>, definition: DefinitionId)
    returns (n: nat)
    requires Count(cards, list, definition) > 0
    ensures n < |list| && list[n] in cards && cards[list[n]].definition == definition
  {
    if list[0] in cards && cards[list[0]].definition == definition {
      n := 0;
    } else {
      n := Holding(cards, list[1..], definition);
      n := n + 1;
    }
  }

  /** The list without its n-th card. */
  lemma Leaving(cards: map<CardId, Card>, list: seq<CardId>, n: nat) returns (rest: seq<CardId>)
    requires n < |list| && list[n] in cards
    ensures multiset([list[n]] + rest) == multiset(list) && |rest| == |list| - 1
    ensures Protocols(cards, rest) ==
            Protocols(cards, list) - if cards[list[n]].definition == SECURITY_PROTOCOLS then 1 else 0
    ensures Leaked(cards, rest) == Leaked(cards, list) - if cards[list[n]].definition == LEAKS then 1 else 0
  {
    rest := list[..n] + list[n + 1..];
    assert list == list[..n] + [list[n]] + list[n + 1..];
    hide Protocols, Leaked;
    assert multiset([list[n]] + rest) == multiset(list);
    hide Count;
    Counted(cards, list, list[n], rest);
  }

  lemma Counted(cards: map<CardId, Card>, list: seq<CardId>, c: CardId, rest: seq<CardId>)
    requires multiset([c] + rest) == multiset(list) && c in cards
    ensures Protocols(cards, list) ==
            Protocols(cards, rest) + if cards[c].definition == SECURITY_PROTOCOLS then 1 else 0
    ensures Leaked(cards, list) == Leaked(cards, rest) + if cards[c].definition == LEAKS then 1 else 0
  {
    forall definition
      ensures Count(cards, list, definition) == Count(cards, [c], definition) + Count(cards, rest, definition)
    {
      CountByMultiset(cards, [c] + rest, list, definition);
      CountJoins(cards, [c], rest, definition);
    }
    CountOne(cards, c, SECURITY_PROTOCOLS);
    CountOne(cards, c, LEAKS);
  }

  /** Which card comes first so that every protocol that can intercept a leak does. */
  lemma FirstCard(cards: map<CardId, Card>, list: seq<CardId>, q: nat) returns (n: nat)
    requires list != [] && forall c :: c in list ==> c in cards
    ensures n < |list| && list[n] in cards
    ensures var d := cards[list[n]].definition;
            (Leaked(cards, list) > 0 && q > 0 ==> d == LEAKS) &&
            (Leaked(cards, list) > 0 && q == 0 && Protocols(cards, list) > 0 ==> d == SECURITY_PROTOCOLS)
  {
    n := 0;
    if Leaked(cards, list) > 0 && q > 0 {
      n := Holding(cards, list, LEAKS);
    } else if Leaked(cards, list) > 0 && Protocols(cards, list) > 0 {
      n := Holding(cards, list, SECURITY_PROTOCOLS);
    }
    assert list[n] in list;
  }

  /** An order in which as many leaks as possible are intercepted and the hand stays below the limit. */
  lemma {:induction false} Arranged(cards: map<CardId, Card>, list: seq<CardId>, h: int, q: nat, limit: nat)
    returns (order: seq<CardId>)
    requires h < limit && forall c :: c in list ==> c in cards
    requires
      var k := Min(q + Protocols(cards, list), Leaked(cards, list));
      h + |list| - 2 * k < limit && (k == 0 || q > 0 || h + 2 <= limit)
    ensures multiset(order) == multiset(list)
    ensures Pass(cards, order, h, q, limit) == Some(Min(q + Protocols(cards, list), Leaked(cards, list)))
    decreases |list|
  {
    if list == [] {
      order := [];
    } else {
      var n := FirstCard(cards, list, q);
      var c := list[n];
      var rest := Leaving(cards, list, n);
      SameElements([c] + rest, list);
      hide Protocols, Leaked;
      var caught := cards[c].definition == LEAKS && q > 0;
      var q' := if caught then q - 1 else if cards[c].definition == SECURITY_PROTOCOLS then q + 1 else q;
      var tail := Arranged(cards, rest, if caught then h - 1 else h + 1, q', limit);
      order := [c] + tail;
      assert multiset(order) == multiset([c] + rest);
      assert order[1..] == tail;
    }
  }

  lemma SameElements(a: seq<CardId>, b: seq<CardId>)
    requires multiset(a) == multiset(b)
    ensures forall c :: c in a <==> c in b
  {
    forall c
      ensures c in a <==> c in b
    {
      assert c in a <==> c in multiset(a);
      assert c in b <==> c in multiset(b);
    }
  }

  /** The answers that draw a given vector, followed by others. */
  lemma {:induction false} Asking(v: seq<nat>, rest: seq<int>) returns (answers: seq<int>)
    requires Drawable(v, |v|)
    ensures Answers(answers, |v|) == Some(v)
    ensures |answers| == Asked(|v|) + |rest| && answers[Asked(|v|)..] == rest
    decreases |v|
  {
    if |v| <= 1 {
      answers := rest;
      OnlyZero(v);
    } else {
      var n := |v| - 1;
      var inner := Asking(v[..n], rest);
      answers := [v[n] as int] + inner;
      OneMore(answers, v, inner);
    }
  }

  lemma OnlyZero(v: seq<nat>)
    requires Drawable(v, |v|) && |v| <= 1
    ensures v == seq(|v|, _ => 0)
  {
  }

  lemma OneMore(answers: seq<int>, v: seq<nat>, inner: seq<int>)
    requires Drawable(v, |v|) && |v| > 1 && answers == [v[|v| - 1] as int] + inner
    requires Answers(inner, |v| - 1) == Some(v[..|v| - 1]) && Asked(|v| - 1) <= |inner|
    ensures Answers(answers, |v|) == Some(v) && answers[Asked(|v|)..] == inner[Asked(|v| - 1)..]
  {
    var n := |v| - 1;
    assert answers[1..] == inner && answers[0] == v[n];
    assert v[..n] + [v[n]] == v;
    assert Answers(answers, |v|) == Some(v[..n] + [v[n]]);
    hide Answers;
  }

  // --------------------------------------------------- when it need not end

  /**
   The hand can be kept below the limit for good: with every leak intercepted that can be, the hand stays below
   it, has a protocol or room to draw one, and has now.
   */
  predicate Vicious(a: Tally, limit: nat) {
    var protocols := a.kept + a.lost;
    var k := Min(protocols, a.leaks);
    var least := a.hand + a.discard - 2 * k;
    k >= 1 && least < limit && (protocols > k || least + 2 <= limit) && (a.kept > 0 || a.hand + 2 <= limit)
  }

  /** The condition for any tabletop: it is looked at when the deck has been drawn out, which asks for nothing. */
  predicate NeedNotEnd(t: Tabletop, p: PlayerId, limit: nat)
    requires Agree(t) && p in t.piles
  {
    var d := Drained(t, p, limit);
    |d.piles[p].hand| < limit && Vicious(TallyOf(d, p), limit)
  }

  /** Answers that let every leak be intercepted that can be. */
  lemma ViciousOrder(t: Tabletop, p: PlayerId, limit: nat) returns (v: seq<nat>)
    requires Agree(t) && p in t.piles && t.piles[p].deck == [] && |t.piles[p].hand| < limit
    requires Vicious(TallyOf(t, p), limit)
    ensures t.piles[p].discard != [] && Drawable(v, |t.piles[p].discard|)
    ensures PassOf(t, p, limit, v) == Some(Min(TallyOf(t, p).kept + TallyOf(t, p).lost, TallyOf(t, p).leaks))
  {
    var a, discard := TallyOf(t, p), t.piles[p].discard;
    assert discard != [];
    CardsExist(t, p);
    hide Agree, Pass, Count, Shuffled;
    var order := Arranged(t.cards, discard, a.hand, a.kept, limit);
    v := ShuffleSurjective(discard, order);
  }

  /** A vicious round leads to a vicious tabletop. */
  lemma ViciousRound(t: Tabletop, p: PlayerId, limit: nat) returns (v: seq<nat>)
    requires Agree(t) && p in t.piles && t.piles[p].deck == [] && |t.piles[p].hand| < limit
    requires Vicious(TallyOf(t, p), limit)
    ensures t.piles[p].discard != [] && Drawable(v, |t.piles[p].discard|)
    ensures |Round(t, p, limit, v).piles[p].hand| < limit && Vicious(TallyOf(Round(t, p, limit, v), p), limit)
  {
    v := ViciousOrder(t, p, limit);
    var a, b := TallyOf(t, p), TallyOf(Round(t, p, limit, v), p);
    assert b.hand == |Round(t, p, limit, v).piles[p].hand|;
    hide *;
    RoundTally(t, p, limit, v);
    ViciousAgain(a, b, limit);
  }

  lemma ViciousAgain(a: Tally, b: Tally, limit: nat)
    requires Vicious(a, limit) && RoundTo(a, b, limit, Min(a.kept + a.lost, a.leaks))
    ensures b.hand < limit && Vicious(b, limit)
  {
  }

  /** For any number of rounds there are answers that make that many. */
  lemma {:induction false} ViciousRounds(t: Tabletop, p: PlayerId, limit: nat, rounds: nat) returns (answers: seq<int>)
    requires Agree(t) && p in t.piles && t.piles[p].deck == [] && |t.piles[p].hand| < limit
    requires Vicious(TallyOf(t, p), limit)
    ensures Reshuffles(t, p, limit, answers) >= rounds
    decreases rounds
  {
    if rounds == 0 {
      answers := [];
    } else {
      hide Agree, Round, Vicious, TallyOf, Reshuffles, Answers;
      var v := ViciousRound(t, p, limit);
      var rest := ViciousRounds(Round(t, p, limit, v), p, limit, rounds - 1);
      answers := Asking(v, rest);
      RoundIsOneReshuffle(t, p, limit, v, answers);
    }
  }

  /** After a round that is not the last, one more at most follows unless the tabletop is vicious. */
  lemma NotViciousEnds(t: Tabletop, p: PlayerId, limit: nat, answers: seq<int>)
    requires Agree(t) && p in t.piles && t.piles[p].deck == [] && |t.piles[p].hand| < limit
    requires !Vicious(TallyOf(t, p), limit)
    ensures Reshuffles(t, p, limit, answers) <= 2
  {
    var discard := t.piles[p].discard;
    if discard != [] && Answers(answers, |discard|).Some? {
      var v := Answers(answers, |discard|).value;
      hide Agree, Round, Pass, Count, Answers, Shuffled;
      RoundIsOneReshuffle(t, p, limit, v, answers);
      RoundTally(t, p, limit, v);
      LastRound(t, p, limit, v, answers[Asked(|discard|)..]);
    }
  }

  /** Two rounds in a row that leave the hand below the limit, each with an interception, are vicious. */
  lemma TwoRoundsAreVicious(a: Tally, b: Tally, c: Tally, limit: nat, i: nat, j: nat)
    requires a.hand < limit && RoundTo(a, b, limit, i) && RoundTo(b, c, limit, j) && b.discard > 0
    requires a.discard > 0
    ensures Vicious(a, limit)
  {
  }

  lemma LastRound(t: Tabletop, p: PlayerId, limit: nat, v: seq<nat>, rest: seq<int>)
    requires Agree(t) && p in t.piles && t.piles[p].deck == [] && t.piles[p].discard != []
    requires |t.piles[p].hand| < limit && Drawable(v, |t.piles[p].discard|)
    requires !Vicious(TallyOf(t, p), limit)
    ensures Reshuffles(Round(t, p, limit, v), p, limit, rest) <= 1
  {
    var d := Round(t, p, limit, v);
    var discard := d.piles[p].discard;
    var a, b := TallyOf(t, p), TallyOf(d, p);
    assert a.hand == |t.piles[p].hand| && b.hand == |d.piles[p].hand| && a.discard == |t.piles[p].discard|;
    assert b.discard == |discard|;
    hide Agree, Round, Pass, TallyOf, Shuffled, Answers, RoundTo, Vicious, SameDefinitions;
    if |d.piles[p].hand| < limit && discard != [] && Answers(rest, |discard|).Some? {
      var w := Answers(rest, |discard|).value;
      RoundTally(t, p, limit, v);
      RoundTally(d, p, limit, w);
      RoundIsOneReshuffle(d, p, limit, w, rest);
      var i, j := PassOf(t, p, limit, v), PassOf(d, p, limit, w);
      var e := TallyOf(Round(d, p, limit, w), p);
      if e.hand < limit {
        TwoRoundsAreVicious(a, b, e, limit, i.value, j.value);
      }
    }
  }

  /** Some provider makes the loop go on for this many reshuffles. */
  ghost predicate Lasts(t: Tabletop, p: PlayerId, limit: nat, rounds: nat)
    requires Agree(t) && p in t.piles
  {
    exists answers :: Reshuffles(t, p, limit, answers) >= rounds
  }

  /**
   Answers that keep the loop going for any number of reshuffles exist exactly on a vicious tabletop; on every
   other one no provider gets it to make more than two.
   */
  lemma RefillEndsIff(t: Tabletop, p: PlayerId, limit: nat)
    requires Agree(t) && p in t.piles
    ensures NeedNotEnd(t, p, limit) <==> forall rounds :: Lasts(t, p, limit, rounds)
    ensures !NeedNotEnd(t, p, limit) ==> forall answers :: Reshuffles(t, p, limit, answers) <= 2
  {
    var d := Drained(t, p, limit);
    hide Agree, Drained, Vicious, TallyOf;
    if NeedNotEnd(t, p, limit) {
      forall rounds
        ensures Lasts(t, p, limit, rounds)
      {
        var answers := ViciousRounds(d, p, limit, rounds);
        DrainingAsksNothing(t, p, limit, answers);
      }
    } else {
      forall answers
        ensures Reshuffles(t, p, limit, answers) <= 2
      {
        DrainingAsksNothing(t, p, limit, answers);
        if |d.piles[p].hand| < limit {
          NotViciousEnds(d, p, limit, answers);
        }
      }
      assert !Lasts(t, p, limit, 3);
    }
  }

  // ------------------------------------------------------------- an example

  function TenthCard(c: CardId): Card {
    Card(if c == 1 then SECURITY_PROTOCOLS else if c == 2 then LEAKS else 100 + c, Some(0), Some(0),
         if c <= 2 then Discard else Hand, None, false)
  }

  /** Ten different cards: eight in hand, the protocol and the leak both discarded. */
  function TenCards(): Tabletop {
    Tabletop(map c: CardId | c in {1, 2, 3, 4, 5, 6, 7, 8, 9, 10} :: TenthCard(c),
             map[0 := Piles(seq(8, i => i + 3), [], [1, 2])])
  }

  lemma {:induction false} NoneCounted(cards: map<CardId, Card>, list: seq<CardId>, definition: DefinitionId)
    requires forall c :: c in list && c in cards ==> cards[c].definition != definition
    ensures Count(cards, list, definition) == 0
  {
    if list != [] {
      NoneCounted(cards, list[1..], definition);
    }
  }

  lemma TenCardsListed()
    ensures
      var t, s := TenCards(), TenCards().piles[0];
      (forall c :: c in s.hand <==> 3 <= c <= 10) && |s.hand| == 8 && Distinct(s.hand) && s.deck == [] &&
      s.discard == [1, 2] && t.piles.Keys == {0} &&
      forall c :: c in t.cards <==> 1 <= c <= 10
    ensures forall c :: c in TenCards().cards ==> TenCards().cards[c] == TenthCard(c)
  {
    var s := TenCards().piles[0];
    forall c
      ensures c in s.hand <==> 3 <= c <= 10
    {
      assert 3 <= c <= 10 ==> s.hand[c - 3] == c;
    }
  }

  lemma TenCardsAgree()
    ensures Agree(TenCards())
  {
    TenCardsListed();
    hide TenCards;
    assert PilesAgree(TenCards().cards, 0, TenCards().piles[0], {});
  }

  lemma TenCardsTally()
    ensures TallyOf(TenCards(), 0) == Tally(8, 0, 2, 1, 1)
  {
    var cards, s := TenCards().cards, TenCards().piles[0];
    TenCardsListed();
    assert s.discard == [1] + [2];
    hide TenCards, Distinct;
    assert cards[1] == TenthCard(1) && cards[2] == TenthCard(2);
    NoneCounted(cards, s.hand, SECURITY_PROTOCOLS);
    hide Count;
    Counted(cards, [1] + [2], 1, [2]);
    CountOne(cards, 2, SECURITY_PROTOCOLS);
    CountOne(cards, 2, LEAKS);
  }

  /** With the hand limit of ten, the refill of a player who has these ten cards left need not end. */
  lemma TenCardsNeedNotEnd()
    ensures Agree(TenCards()) && forall rounds :: Lasts(TenCards(), 0, 10, rounds)
  {
    TenCardsAgree();
    TenCardsTally();
    assert |TenCards().piles[0].hand| == 8 && TenCards().piles[0].deck == [];
    hide TenCards, Agree, Lasts, TallyOf;
    RefillEndsIff(TenCards(), 0, 10);
  }
}
