/** The card operations as the dispatcher runs them, in place, card by card. */
module CardObjects {
  import opened Prelude
  import opened Shuffle
  import opened CardZones
  import opened CardMoves
  import opened Refilling
  import opened CardRuns

  datatype CardError =
    | CardWrongZone
    | CardNotEligible
    | CardNotControlled
    | DeckSizeInvalid
    | DuplicateCard
    | StrategyAlreadyLocked
    | SetupInvalid
    | WrongPhase
    | NotAuthorized
    | InvalidMaintenanceSelection
    | RandomProviderFailure

  class CardTable {
    const random: RandomProvider
    var cards: map<CardId, Card>
    var piles: map<PlayerId, Piles>

    function View(): Tabletop
      reads this
    {
      Tabletop(cards, piles)
    }

    constructor (t: Tabletop, random: RandomProvider)
      ensures View() == t && this.random == random
    {
      this.random, cards, piles := random, t.cards, t.piles;
    }

    method ShuffleList(list: seq<CardId>) returns (r: Option<seq<CardId>>)
      modifies random
      ensures var v := Answers(old(random.answers), |list|);
              r == (if v.Some? then Some(Shuffled(list, v.value)) else None) &&
              (v.Some? ==>
                Asked(|list|) <= |old(random.answers)| && random.answers == old(random.answers)[Asked(|list|)..])
    {
      var output := new CardId[|list|](i requires 0 <= i < |list| => list[i]);
      assert output[..] == list;
      var ok := ShuffleInPlace(output, random);
      r := if ok then Some(output[..]) else None;
    }

    /** Index by index, each card of the list learns its position. */
    method NumberCards(deck: seq<CardId>)
      modifies this`cards
      ensures cards == Numbered(old(cards), deck)
    {
      assert deck[..0] == [];
      for i := 0 to |deck|
        invariant cards == Numbered(old(cards), deck[..i])
      {
        assert deck[..i + 1][..i] == deck[..i];
        if deck[i] in cards {
          cards := cards[deck[i] := cards[deck[i]].(position := Some(i))];
        }
      }
      assert deck[..|deck|] == deck;
    }

    method StackCards(deck: seq<CardId>)
      modifies this`cards
      ensures cards == Stacked(old(cards), deck)
    {
      assert deck[..0] == [];
      for i := 0 to |deck|
        invariant cards == Stacked(old(cards), deck[..i])
      {
        assert deck[..i + 1][..i] == deck[..i];
        if deck[i] in cards {
          cards := cards[deck[i] := cards[deck[i]].(place := Deck, position := Some(i))];
        }
      }
      assert deck[..|deck|] == deck;
    }

    method MoveCards(list: seq<CardId>, place: Place)
      modifies this`cards
      ensures cards == MoveAll(old(cards), list, place)
    {
      assert list[..0] == [];
      for i := 0 to |list|
        invariant cards == MoveAll(old(cards), list[..i], place)
      {
        assert list[..i + 1][..i] == list[..i];
        if list[i] in cards {
          cards := Move(cards, list[i], place);
        }
      }
      assert list[..|list|] == list;
    }

    method ResolveDrawnCard(p: PlayerId, c: CardId)
      requires c in cards && p in piles
      modifies this`cards, this`piles
      ensures View() == ResolveDrawn(old(View()), p, c)
    {
      var s := piles[p];
      var protocol := FindProtocol(cards, s.hand);
      if cards[c].definition == LEAKS && protocol.Some? {
        var discard := s.discard;
        if protocol.value !in discard {
          discard := discard + [protocol.value];
        }
        piles := piles[p := Piles(Without(s.hand, protocol.value), s.deck, discard + [c])];
        cards := Move(cards, protocol.value, Discard);
        cards := Move(cards, c, Discard);
      } else {
        cards := Move(cards, c, Hand);
        piles := piles[p := Piles(s.hand + [c], s.deck, s.discard)];
      }
    }

    /** Takes the top card, renumbers the rest and resolves the draw. */
    method DrawCard(p: PlayerId)
      requires p in piles && piles[p].deck != [] && piles[p].deck[0] in cards
      modifies this`cards, this`piles
      ensures View() == DrawTop(old(View()), p)
    {
      var c := piles[p].deck[0];
      piles := piles[p := piles[p].(deck := piles[p].deck[1..])];
      NumberCards(piles[p].deck);
      ResolveDrawnCard(p, c);
    }

    method ReshuffleDiscard(p: PlayerId) returns (ok: bool)
      requires p in piles
      modifies this`cards, this`piles, random
      ensures var n := |old(piles[p].discard)|;
              var v := Answers(old(random.answers), n);
              (ok <==> v.Some?) &&
              (ok ==> View() == Reshuffled(old(View()), p, v.value) && Asked(n) <= |old(random.answers)| &&
                      random.answers == old(random.answers)[Asked(n)..])
    {
      var shuffled := ShuffleList(piles[p].discard);
      if shuffled.None? {
        return false;
      }
      piles := piles[p := Piles(piles[p].hand, shuffled.value, [])];
      StackCards(shuffled.value);
      ok := true;
    }

    /** Draws until the hand is full or no card is left; the provider may fail. */
    method RefillHand(p: PlayerId, limit: nat) returns (ok: bool, shuffles: nat)
      requires p in piles && Agree(View())
      modifies this`cards, this`piles, random
      ensures var r := Refill(old(View()), p, limit, old(random.answers));
              (ok <==> r.Filled?) && (ok ==> r == Filled(View(), random.answers, shuffles)) && (ok ==> Agree(View()))
    {
      hide DrawTop, Reshuffled, Agree, Answers;
      shuffles := 0;
      while |piles[p].hand| < limit
        invariant p in piles && Agree(View())
        invariant Refill(old(View()), p, limit, old(random.answers)) ==
                  Later(Refill(View(), p, limit, random.answers), shuffles)
        decreases |random.answers|, |piles[p].discard| % 2, |piles[p].deck|
      {
        ghost var t := View();
        if piles[p].deck == [] {
          if piles[p].discard == [] {
            break;
          }
          AnswersKnown(random.answers, |piles[p].discard|);
          ghost var v := Answers(random.answers, |piles[p].discard|);
          ok := ReshuffleDiscard(p);
          if !ok {
            return false, shuffles;
          }
          shuffles := shuffles + 1;
          ReshuffledIsDeck(t, p, v.value);
          ReshuffledAgrees(t, p, v.value);
          t := View();
        }
        DeckTopExists(t, p);
        DrawTopAgrees(t, p);
        DrawParity(t, p);
        DrawCard(p);
      }
      ok := true;
    }

    /** Puts the starters in hand, the shuffled submission in the deck, and draws the opening cards. */
    method LockDeck(p: PlayerId, submitted: seq<CardId>, starters: seq<CardId>) returns (error: Option<CardError>)
      requires p in piles && Agree(View()) && Lockable(View(), p, submitted, starters)
      modifies this`cards, this`piles, random
      ensures var v := Answers(old(random.answers), DECK_SIZE);
              if error.Some? then v.None? && error == Some(RandomProviderFailure) && View() == old(View())
              else v.Some? && Agree(View()) &&
                   (forall c :: c in Shuffled(submitted, v.value) ==> c in old(cards)) &&
                   View() == LockStrategy(old(View()), p, submitted, starters, v.value)
    {
      hide Agree, ResolveDrawn, Numbered, MoveAll;
      ghost var t, v := View(), Answers(random.answers, DECK_SIZE);
      var shuffled := ShuffleList(submitted);
      if shuffled.None? {
        return Some(RandomProviderFailure);
      }
      LockAgrees(t, p, submitted, starters, v.value);
      MoveCards(submitted, Deck);
      MoveCards(starters, Hand);
      var drawn, remaining := shuffled.value[..OPENING_DRAW], shuffled.value[OPENING_DRAW..];
      NumberCards(remaining);
      piles := piles[p := Piles(starters, remaining, [])];
      assert View() == Opened(t, p, submitted, starters, v.value);
      assert drawn[0..] == drawn;
      for i := 0 to |drawn|
        invariant p in piles && cards.Keys == old(cards).Keys
        invariant forall c :: c in drawn[i..] ==> c in cards
        invariant DrawAll(View(), p, drawn[i..]) == DrawAll(Opened(t, p, submitted, starters, v.value), p, drawn)
      {
        assert drawn[i..][1..] == drawn[i + 1..];
        ResolveDrawnCard(p, drawn[i]);
      }
      error := None;
    }

    method DiscardCard(p: PlayerId, c: CardId)
      requires p in piles && c in cards
      modifies this`cards, this`piles
      ensures View() == DiscardOne(old(View()), p, c)
    {
      var card := cards[c];
      piles := piles[p := piles[p].(hand := Without(piles[p].hand, c))];
      if card.goesBack && card.owner.Some? && card.owner != Some(p) {
        var owner := card.owner.value;
        cards := cards[c := card.(controller := Some(owner), goesBack := false, place := Hand, position := None)];
        if owner in piles && c !in piles[owner].hand {
          piles := piles[owner := piles[owner].(hand := piles[owner].hand + [c])];
        }
      } else {
        cards := Move(cards, c, Discard);
        piles := piles[p := piles[p].(discard := piles[p].discard + [c])];
      }
    }

    method CheckSelection(p: PlayerId, selected: seq<CardId>) returns (ok: bool)
      requires p in piles && Agree(View())
      ensures ok <==> forall c :: c in selected ==> At(cards, c, p, Hand)
    {
      hide Agree;
      for i := 0 to |selected|
        invariant forall j :: 0 <= j < i ==> At(cards, selected[j], p, Hand)
      {
        if !(selected[i] in cards && cards[selected[i]].controller == Some(p) && cards[selected[i]].place == Hand) ||
           selected[i] !in piles[p].hand {
          HandMatches(View(), p, selected[i]);
          return false;
        }
      }
      ok := true;
    }

    method DiscardSelected(p: PlayerId, selected: seq<CardId>)
      requires p in piles && forall c :: c in selected ==> c in cards
      modifies this`cards, this`piles
      ensures View() == DiscardAll(old(View()), p, selected)
    {
      hide DiscardOne;
      assert selected[..0] == [];
      for i := 0 to |selected|
        invariant p in piles && cards.Keys == old(cards).Keys && View() == DiscardAll(old(View()), p, selected[..i])
      {
        assert selected[..i + 1][..i] == selected[..i];
        DiscardCard(p, selected[i]);
      }
      assert selected[..|selected|] == selected;
    }

    /** Checks the whole selection, then discards it card by card and refills the hand. */
    method Maintain(p: PlayerId, selected: seq<CardId>, limit: nat) returns (error: Option<CardError>)
      requires p in piles && Agree(View()) && Distinct(selected)
      modifies this`cards, this`piles, random
      ensures error == Some(InvalidMaintenanceSelection) <==> exists c :: c in selected && !At(old(cards), c, p, Hand)
      ensures error != Some(InvalidMaintenanceSelection) ==>
                (forall c :: c in selected ==> c in old(cards)) && Agree(DiscardAll(old(View()), p, selected)) &&
                var r := Refill(DiscardAll(old(View()), p, selected), p, limit, old(random.answers));
                if r.Filled? then error.None? && r.table == View() && Agree(View())
                else error == Some(RandomProviderFailure)
    {
      hide Agree, DiscardAll, Refill;
      var valid := CheckSelection(p, selected);
      if !valid {
        return Some(InvalidMaintenanceSelection);
      }
      DiscardAllAgrees(View(), p, selected);
      DiscardSelected(p, selected);
      var ok, shuffles := RefillHand(p, limit);
      error := if ok then None else Some(RandomProviderFailure);
    }

    method DealCard(p: PlayerId, q: PlayerId, c: CardId, limit: nat) returns (error: Option<CardError>)
      requires Agree(View()) && p != q
      modifies this`cards, this`piles
      ensures error.None? <==>
              p in old(piles) && q in old(piles) && At(old(cards), c, p, Hand) && |old(piles)[q].hand| < limit
      ensures if error.None? then View() == Deal(old(View()), p, q, c) && |piles[q].hand| <= limit
              else View() == old(View())
      ensures Agree(View())
    {
      if p !in piles || q !in piles || !(c in cards && cards[c].controller == Some(p) && cards[c].place == Hand) ||
         c !in piles[p].hand {
        if p in piles && q in piles {
          HandMatches(View(), p, c);
        }
        return Some(CardWrongZone);
      }
      if |piles[q].hand| >= limit {
        return Some(CardNotEligible);
      }
      DealAgrees(View(), p, q, c);
      hide Agree;
      piles := piles[p := piles[p].(hand := Without(piles[p].hand, c))];
      piles := piles[q := piles[q].(hand := piles[q].hand + [c])];
      cards := cards[c := cards[c].(controller := Some(q), goesBack := false)];
      error := None;
    }
  }

  /** The state between commands. Each command works on a copy, which is kept only if the command is accepted. */
  class CardStore {
    const scenario: Scenario
    var play: Play

    constructor (scenario: Scenario)
      requires Listed(scenario)
      ensures this.scenario == scenario && play == Opening(scenario) && Ready(scenario, play)
    {
      this.scenario, play := scenario, Opening(scenario);
      OpeningIsReady(scenario);
    }

    /** The checks on a submitted deck, in their order. */
    method CheckDeck(p: PlayerId, submitted: seq<CardId>) returns (error: Option<CardError>)
      ensures error.None? <==> Eligible(scenario, play.table, p, submitted)
      ensures |submitted| != DECK_SIZE ==> error == Some(DeckSizeInvalid)
      ensures |submitted| == DECK_SIZE && !Distinct(submitted) ==> error == Some(DuplicateCard)
    {
      if |submitted| != DECK_SIZE {
        return Some(DeckSizeInvalid);
      }
      DistinctIffSetSize(submitted);
      if |SetOf(submitted)| != |submitted| {
        return Some(DuplicateCard);
      }
      var cards := play.table.cards;
      for i := 0 to |submitted|
        invariant forall j :: 0 <= j < i ==>
                    At(cards, submitted[j], p, Pool) && submitted[j] in scenario.cards &&
                    !scenario.cards[submitted[j]].starter
      {
        var c := submitted[i];
        assert c in submitted;
        if c !in cards || cards[c].controller != Some(p) {
          return Some(CardNotControlled);
        }
        if c !in scenario.cards || scenario.cards[c].starter {
          return Some(CardNotEligible);
        }
        if cards[c].place != Pool {
          return Some(CardWrongZone);
        }
      }
      error := None;
    }

    method LockStrategy(p: PlayerId, submitted: seq<CardId>, answers: seq<int>) returns (error: Option<CardError>)
      requires Ready(scenario, play)
      modifies this`play
      ensures play == Step(scenario, old(play), Lock(p, submitted, answers)) && Ready(scenario, play)
      ensures error.Some? ==> play == old(play)
    {
      hide Agree, Untouched, Eligible;
      if p !in play.table.piles {
        return Some(NotAuthorized);
      }
      if p in play.locked {
        return Some(StrategyAlreadyLocked);
      }
      error := CheckDeck(p, submitted);
      if error.Some? {
        return;
      }
      if |scenario.starters[p]| != STARTERS {
        return Some(SetupInvalid);
      }
      EligibleIsLockable(scenario, play, p, submitted);
      StepStaysReady(scenario, play, Lock(p, submitted, answers));
      var random := new RandomProvider(answers);
      var working := new CardTable(play.table, random);
      error := working.LockDeck(p, submitted, scenario.starters[p]);
      if error.None? {
        play := Play(working.View(), play.locked + {p});
      }
    }

    method MaintainHand(p: PlayerId, selected: seq<CardId>, answers: seq<int>) returns (error: Option<CardError>)
      requires Ready(scenario, play)
      modifies this`play
      ensures play == Step(scenario, old(play), Maintain(p, selected, answers)) && Ready(scenario, play)
      ensures error.Some? ==> play == old(play)
    {
      hide Agree, Untouched, Refill, DiscardAll;
      if !AllLocked(play) {
        return Some(WrongPhase);
      }
      if p !in play.table.piles {
        return Some(NotAuthorized);
      }
      DistinctIffSetSize(selected);
      if |SetOf(selected)| != |selected| {
        return Some(InvalidMaintenanceSelection);
      }
      StepStaysReady(scenario, play, Maintain(p, selected, answers));
      var random := new RandomProvider(answers);
      var working := new CardTable(play.table, random);
      error := working.Maintain(p, selected, HAND_LIMIT);
      if error.None? {
        play := play.(table := working.View());
      }
    }

    method TransferCard(p: PlayerId, q: PlayerId, c: CardId) returns (error: Option<CardError>)
      requires Ready(scenario, play)
      modifies this`play
      ensures play == Step(scenario, old(play), Op.DealCard(p, q, c)) && Ready(scenario, play)
      ensures error.Some? ==> play == old(play)
    {
      hide Agree, Untouched;
      if !AllLocked(play) {
        return Some(WrongPhase);
      }
      if p == q {
        return Some(CardNotEligible);
      }
      StepStaysReady(scenario, play, Op.DealCard(p, q, c));
      var random := new RandomProvider([]);
      var working := new CardTable(play.table, random);
      error := working.DealCard(p, q, c, HAND_LIMIT);
      if error.None? {
        play := play.(table := working.View());
      }
    }
  }

  lemma DistinctAppend(init: seq<CardId>, last: CardId)
    ensures Distinct(init + [last]) <==> Distinct(init) && last !in init
  {
    var s := init + [last];
    if Distinct(s) {
      assert forall i :: 0 <= i < |init| ==> init[i] == s[i];
      assert s[|s| - 1] == last;
    }
  }

  /** Counting the different elements finds repetitions. */
  lemma {:induction false} DistinctIffSetSize(s: seq<CardId>)
    ensures Distinct(s) <==> |SetOf(s)| == |s|
    ensures |SetOf(s)| <= |s|
  {
    if s != [] {
      var init, last := s[..|s| - 1], s[|s| - 1];
      var unique := SetOf(init);
      assert s == init + [last];
      DistinctIffSetSize(init);
      DistinctAppend(init, last);
      assert SetOf(s) == unique + {last};
      hide Distinct;
      if last in init {
        assert unique + {last} == unique;
      } else {
        assert |unique + {last}| == |unique| + 1;
      }
    } else {
      assert SetOf(s) == {};
    }
  }

  lemma HandMatches(t: Tabletop, p: PlayerId, c: CardId)
    requires Agree(t) && p in t.piles
    ensures c in t.piles[p].hand <==> At(t.cards, c, p, Hand)
  {
    assert PilesAgree(t.cards, p, t.piles[p], {});
  }

  /** The outcome with the reshuffles made before it. */
  ghost function Later(r: Outcome, shuffles: nat): Outcome {
    if r.Filled? then r.(shuffles := r.shuffles + shuffles) else r
  }

  lemma AnswersKnown(answers: seq<int>, n: nat)
    ensures Answers(answers, n).Some? ==> Asked(n) <= |answers|
  {
    if Answers(answers, n).Some? {
      AnswersEnough(answers, n);
    }
  }
}
