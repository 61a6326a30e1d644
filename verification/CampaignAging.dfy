/** Campaigns at the end of a turn: those in the second row are discarded, those in the first move down. */
module CampaignAging {
  import opened Prelude
  import opened CampaignTypes

  const RETURNING_CARD: DefinitionId := 61

  datatype Held = Held(id: nat, row: Row, cards: seq<CardId>)
  datatype LifeCard = LifeCard(definition: DefinitionId, owner: ParticipantId, controller: ParticipantId,
                               zone: Zone, starter: bool, comesBack: bool)

  datatype Stock = Stock(campaigns: seq<Held>, cards: map<CardId, LifeCard>)
  datatype Aged = Aged(stock: Stock, aged: seq<nat>, discarded: seq<nat>)

  /** A discarded card goes back to its owner's hand, out of the game, or to the discard pile. */
  function Discarded(c: LifeCard): LifeCard {
    if (c.definition == RETURNING_CARD && c.zone == InCampaign) || (c.comesBack && c.controller != c.owner)
    then c.(controller := c.owner, zone := Hand, comesBack := false)
    else c.(zone := if c.starter then Removed else Discard)
  }

  function DiscardAll(cards: map<CardId, LifeCard>, ids: seq<CardId>): map<CardId, LifeCard> {
    if ids == [] then cards
    else
      var before, id := DiscardAll(cards, ids[..|ids| - 1]), ids[|ids| - 1];
      if id in before then before[id := Discarded(before[id])] else before
  }

  function InsertHeld(c: Held, sorted: seq<Held>): seq<Held> {
    if sorted == [] || c.id < sorted[0].id then [c] + sorted else [sorted[0]] + InsertHeld(c, sorted[1..])
  }

  /** The campaigns of one row, sorted by identity. */
  function InRow(campaigns: seq<Held>, row: Row): seq<Held> {
    if campaigns == [] then []
    else
      var rest, last := InRow(campaigns[..|campaigns| - 1], row), campaigns[|campaigns| - 1];
      if last.row == row then InsertHeld(last, rest) else rest
  }

  function Delete(campaigns: seq<Held>, id: nat): seq<Held> {
    if campaigns == [] then []
    else
      var rest, last := Delete(campaigns[..|campaigns| - 1], id), campaigns[|campaigns| - 1];
      if last.id == id then rest else rest + [last]
  }

  function MoveDown(campaigns: seq<Held>, id: nat): seq<Held> {
    seq(|campaigns|, i requires 0 <= i < |campaigns| =>
      if campaigns[i].id == id then campaigns[i].(row := RowII) else campaigns[i])
  }

  function DiscardCampaigns(s: Stock, list: seq<Held>): Stock {
    if list == [] then s
    else
      var before, c := DiscardCampaigns(s, list[..|list| - 1]), list[|list| - 1];
      Stock(Delete(before.campaigns, c.id), DiscardAll(before.cards, c.cards))
  }

  function MoveAllDown(campaigns: seq<Held>, list: seq<Held>): seq<Held> {
    if list == [] then campaigns else MoveDown(MoveAllDown(campaigns, list[..|list| - 1]), list[|list| - 1].id)
  }

  function IdsOf(list: seq<Held>): seq<nat> {
    seq(|list|, i requires 0 <= i < |list| => list[i].id)
  }

  function IdSet(list: seq<Held>): set<nat> {
    set x | x in IdsOf(list)
  }

  /** Both lists are taken before anything changes, so a campaign that moves down is not discarded as well. */
  function Age(s: Stock): Aged {
    var second, first := InRow(s.campaigns, RowII), InRow(s.campaigns, RowI);
    var discarded := DiscardCampaigns(s, second);
    Aged(discarded.(campaigns := MoveAllDown(discarded.campaigns, first)), IdsOf(first), IdsOf(second))
  }

  // ------------------------------------------------------------- what it does

  ghost predicate Unique(campaigns: seq<Held>) {
    forall i, j :: 0 <= i < j < |campaigns| ==> campaigns[i].id != campaigns[j].id
  }

  function Survivors(campaigns: seq<Held>): seq<Held> {
    if campaigns == [] then []
    else
      var rest, last := Survivors(campaigns[..|campaigns| - 1]), campaigns[|campaigns| - 1];
      if last.row == RowI then rest + [last] else rest
  }

  lemma {:induction false} InsertHeldHolds(c: Held, sorted: seq<Held>)
    ensures forall x :: x in InsertHeld(c, sorted) <==> x == c || x in sorted
  {
    if sorted != [] && !(c.id < sorted[0].id) {
      InsertHeldHolds(c, sorted[1..]);
      assert sorted == [sorted[0]] + sorted[1..];
    }
  }

  lemma {:induction false} InRowHolds(campaigns: seq<Held>, row: Row)
    ensures forall x :: x in InRow(campaigns, row) <==> x in campaigns && x.row == row
  {
    if campaigns != [] {
      var init, last := campaigns[..|campaigns| - 1], campaigns[|campaigns| - 1];
      InRowHolds(init, row);
      assert campaigns == init + [last];
      if last.row == row {
        InsertHeldHolds(last, InRow(init, row));
      }
    }
  }

  /** What is left after deleting the campaigns of a list. */
  function Except(campaigns: seq<Held>, ids: set<nat>): seq<Held> {
    if campaigns == [] then []
    else
      var rest, last := Except(campaigns[..|campaigns| - 1], ids), campaigns[|campaigns| - 1];
      if last.id in ids then rest else rest + [last]
  }

  lemma {:induction false} DeleteIsExcept(campaigns: seq<Held>, ids: set<nat>, id: nat)
    ensures Delete(Except(campaigns, ids), id) == Except(campaigns, ids + {id})
  {
    if campaigns != [] {
      var init, last := campaigns[..|campaigns| - 1], campaigns[|campaigns| - 1];
      DeleteIsExcept(init, ids, id);
      var kept := Except(campaigns, ids);
      if last.id !in ids {
        assert kept[..|kept| - 1] == Except(init, ids);
      }
    }
  }

  lemma {:induction false} NothingExcept(campaigns: seq<Held>)
    ensures Except(campaigns, {}) == campaigns
  {
    if campaigns != [] {
      NothingExcept(campaigns[..|campaigns| - 1]);
      assert campaigns == campaigns[..|campaigns| - 1] + [campaigns[|campaigns| - 1]];
    }
  }

  lemma {:induction false} DiscardingDeletes(s: Stock, list: seq<Held>)
    ensures DiscardCampaigns(s, list).campaigns == Except(s.campaigns, IdSet(list))
  {
    if list == [] {
      NothingExcept(s.campaigns);
      assert IdSet(list) == {};
    } else {
      var init, last := list[..|list| - 1], list[|list| - 1];
      DiscardingDeletes(s, init);
      DeleteIsExcept(s.campaigns, IdSet(init), last.id);
      assert IdsOf(list) == IdsOf(init) + [last.id];
      assert IdSet(list) == IdSet(init) + {last.id};
    }
  }

  lemma {:induction false} WithoutSecondRow(campaigns: seq<Held>, ids: set<nat>)
    requires forall c :: c in campaigns ==> (c.id in ids <==> c.row == RowII)
    ensures Except(campaigns, ids) == Survivors(campaigns)
  {
    if campaigns != [] {
      assert campaigns[|campaigns| - 1] in campaigns;
      WithoutSecondRow(campaigns[..|campaigns| - 1], ids);
    }
  }

  function AllDown(campaigns: seq<Held>): seq<Held> {
    seq(|campaigns|, i requires 0 <= i < |campaigns| => campaigns[i].(row := RowII))
  }

  lemma {:induction false} MovedDown(campaigns: seq<Held>, list: seq<Held>)
    ensures
      var after := MoveAllDown(campaigns, list);
      |after| == |campaigns| && forall i :: 0 <= i < |campaigns| ==>
        after[i] == if campaigns[i].id in IdsOf(list) then campaigns[i].(row := RowII) else campaigns[i]
  {
    if list != [] {
      var init, last := list[..|list| - 1], list[|list| - 1];
      MovedDown(campaigns, init);
      assert IdsOf(list) == IdsOf(init) + [last.id];
    }
  }

  lemma {:induction false} SurvivorsHold(campaigns: seq<Held>)
    ensures forall x :: x in Survivors(campaigns) <==> x in campaigns && x.row == RowI
  {
    if campaigns != [] {
      var init := campaigns[..|campaigns| - 1];
      SurvivorsHold(init);
      assert campaigns == init + [campaigns[|campaigns| - 1]];
    }
  }

  lemma InIds(list: seq<Held>, c: Held)
    requires c in list
    ensures c.id in IdsOf(list)
  {
    var i :| 0 <= i < |list| && list[i] == c;
    assert IdsOf(list)[i] == c.id;
  }

  lemma IdsInRow(campaigns: seq<Held>, row: Row, c: Held)
    requires Unique(campaigns) && c in campaigns
    ensures c.id in IdsOf(InRow(campaigns, row)) <==> c.row == row
  {
    InRowHolds(campaigns, row);
    var list := InRow(campaigns, row);
    if c.id in IdsOf(list) {
      var i :| 0 <= i < |list| && IdsOf(list)[i] == c.id;
      assert list[i] in campaigns;
      assert list[i] == c;
    }
    if c.row == row {
      InIds(list, c);
    }
  }

  /** Exactly the campaigns of the first row are left, all in the second row now. */
  lemma AgingIsExact(s: Stock)
    requires Unique(s.campaigns)
    ensures Age(s).stock.campaigns == AllDown(Survivors(s.campaigns))
    ensures forall c :: c in s.campaigns ==>
            (c.id in Age(s).aged <==> c.row == RowI) && (c.id in Age(s).discarded <==> c.row == RowII)
  {
    var second, first := InRow(s.campaigns, RowII), InRow(s.campaigns, RowI);
    forall c | c in s.campaigns
      ensures (c.id in IdsOf(first) <==> c.row == RowI) && (c.id in IdsOf(second) <==> c.row == RowII)
    {
      IdsInRow(s.campaigns, RowI, c);
      IdsInRow(s.campaigns, RowII, c);
    }
    DiscardingDeletes(s, second);
    WithoutSecondRow(s.campaigns, IdSet(second));
    MovedDown(Survivors(s.campaigns), first);
    SurvivorsHold(s.campaigns);
    var kept := Survivors(s.campaigns);
    forall i | 0 <= i < |kept|
      ensures kept[i].id in IdsOf(first)
    {
      assert kept[i] in kept;
    }
  }

  /** No campaign outlives two cleanups. */
  lemma TwoCleanupsClearTheTable(s: Stock)
    requires Unique(s.campaigns)
    ensures Age(Age(s).stock).stock.campaigns == []
  {
    AgingIsExact(s);
    var next := Age(s).stock;
    SurvivorsAreUnique(s.campaigns);
    assert Unique(next.campaigns);
    AgingIsExact(next);
    assert forall c :: c in next.campaigns ==> c.row == RowII;
    NoSurvivors(next.campaigns);
  }

  lemma {:induction false} NoSurvivors(campaigns: seq<Held>)
    requires forall c :: c in campaigns ==> c.row == RowII
    ensures Survivors(campaigns) == []
  {
    if campaigns != [] {
      assert campaigns[|campaigns| - 1] in campaigns;
      NoSurvivors(campaigns[..|campaigns| - 1]);
    }
  }

  lemma {:induction false} SurvivorsAreUnique(campaigns: seq<Held>)
    requires Unique(campaigns)
    ensures Unique(Survivors(campaigns))
  {
    if campaigns != [] {
      var init, last := campaigns[..|campaigns| - 1], campaigns[|campaigns| - 1];
      SurvivorsAreUnique(init);
      SurvivorsHold(init);
      var kept := Survivors(init);
      forall i | 0 <= i < |kept|
        ensures kept[i].id != last.id
      {
        assert kept[i] in kept;
      }
    }
  }

  // ------------------------------------------------------------------ cards

  function CardsOf(list: seq<Held>): seq<CardId> {
    if list == [] then [] else CardsOf(list[..|list| - 1]) + list[|list| - 1].cards
  }

  lemma {:induction false} DiscardTwice(cards: map<CardId, LifeCard>, a: seq<CardId>, b: seq<CardId>)
    ensures DiscardAll(DiscardAll(cards, a), b) == DiscardAll(cards, a + b)
  {
    if b == [] {
      assert a + b == a;
    } else {
      assert (a + b)[..|a + b| - 1] == a + b[..|b| - 1];
      DiscardTwice(cards, a, b[..|b| - 1]);
    }
  }

  lemma {:induction false} DiscardingCards(s: Stock, list: seq<Held>)
    ensures DiscardCampaigns(s, list).cards == DiscardAll(s.cards, CardsOf(list))
  {
    if list != [] {
      DiscardingCards(s, list[..|list| - 1]);
      DiscardTwice(s.cards, CardsOf(list[..|list| - 1]), list[|list| - 1].cards);
    }
  }

  lemma {:induction false} DiscardsOnce(cards: map<CardId, LifeCard>, ids: seq<CardId>, c: CardId)
    requires Distinct(ids) && c in cards
    ensures c in DiscardAll(cards, ids)
    ensures DiscardAll(cards, ids)[c] == if c in ids then Discarded(cards[c]) else cards[c]
  {
    if ids != [] {
      var init, last := ids[..|ids| - 1], ids[|ids| - 1];
      assert ids == init + [last] && last !in init;
      DiscardsOnce(cards, init, c);
    }
  }

  /** Each card of a discarded campaign leaves play once, and no other card moves. */
  lemma AgingMovesCards(s: Stock, c: CardId)
    requires Distinct(CardsOf(InRow(s.campaigns, RowII))) && c in s.cards
    ensures c in Age(s).stock.cards
    ensures Age(s).stock.cards[c] == if c in CardsOf(InRow(s.campaigns, RowII)) then Discarded(s.cards[c])
            else s.cards[c]
    ensures c in CardsOf(InRow(s.campaigns, RowII)) ==> Age(s).stock.cards[c].zone in {Hand, Discard, Removed}
  {
    DiscardingCards(s, InRow(s.campaigns, RowII));
    DiscardsOnce(s.cards, CardsOf(InRow(s.campaigns, RowII)), c);
  }
}
