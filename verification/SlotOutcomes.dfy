/**
 What the slots come to that need no input: a campaign is built, a boost is planned, an activation fails for its
 cost. When each of them happens, and what it changes.
 */
module SlotOutcomes {
  import opened Prelude
  import opened CampaignTypes
  import opened Adjudication
  import opened ReplaySegments
  import opened ReplayRuns
  import opened Transparency
  import opened CampaignOutcomes

  /** The scheduler may run the slot under the cursor. */
  ghost predicate Due(cfg: Config, g: Game) {
    g.turn.pending.None? && g.turn.cursor.status == Ready && AtSlot(cfg, g.turn)
  }

  /** Only the slot under the cursor, the cursor and the log have changed in the turn's bookkeeping. */
  ghost predicate SlotEnds(cfg: Config, g: Game, after: Game, outcome: Outcome)
    requires AtSlot(cfg, g.turn)
  {
    var p, at := Acting(cfg, g), g.turn.cursor.slot;
    after.turn.pending.None? && g.events < after.events && after.version == g.version &&
    after.turn.plan ==
      g.turn.plan[p := g.turn.plan[p][at := Planned(cfg, g).(revealed := true, outcome := Some(outcome))]]
  }

  // ------------------------------------------------------------- building

  /** The rules let a card of this definition fill the role. */
  predicate Fills(cfg: Config, g: Game, card: CardId, role: ComponentSlot)
    requires card in g.table.cards
  {
    var definition := g.table.cards[card].definition;
    definition in cfg.rules && role in cfg.rules[definition].values
  }

  function Leaning(cfg: Config, g: Game, card: CardId): RuleAlignment
    requires card in g.table.cards && g.table.cards[card].definition in cfg.rules
  {
    cfg.rules[g.table.cards[card].definition].alignment
  }

  /** A card of the hand that may fill the role in a campaign of this alignment. */
  ghost predicate Fits(cfg: Config, g: Game, p: ParticipantId, card: CardId, role: ComponentSlot, own: Alignment) {
    InZone(g, card, p, Hand) && Fills(cfg, g, card, role) && Leaning(cfg, g, card) in {Dual, Aligned(own)}
  }

  /**
   The player has no campaign in the first row, the cards are different cards of the hand that fill their roles,
   the intent decides the alignment and the others agree, and the target exists.
   */
  ghost predicate Buildable(cfg: Config, g: Game, p: ParticipantId, a: Action, own: Alignment)
    requires a.Construct?
  {
    CampaignOf(p) !in g.board.campaigns &&
    (forall c :: c in g.board.campaigns && g.board.campaigns[c].owner == p ==> g.board.campaigns[c].row != RowI) &&
    Fits(cfg, g, p, a.intent, Intent, own) && Leaning(cfg, g, a.intent) == Aligned(own) &&
    Fits(cfg, g, p, a.method_, Method, own) && a.method_ != a.intent &&
    (a.amplifier.Some? ==>
      Fits(cfg, g, p, a.amplifier.value, Amplifier, own) && a.amplifier.value !in {a.intent, a.method_}) &&
    cfg.rules[g.table.cards[a.intent].definition].anyTarget &&
    exists pd :: pd in cfg.pds && a.targetDt in cfg.pds[pd]
  }

  lemma BuildableIffNoError(cfg: Config, g: Game, p: ParticipantId, a: Action)
    requires a.Construct?
    ensures ConstructError(cfg, g, p, a).None? <==> exists own :: Buildable(cfg, g, p, a, own)
  {
    var cards := CardsOf(a);
    assert cards[0] == a.intent && cards[1] == a.method_ && (a.amplifier.Some? ==> cards[2] == a.amplifier.value);
    assert cards[1..] == [a.method_] + if a.amplifier.Some? then [a.amplifier.value] else [];
    if ConstructError(cfg, g, p, a).None? {
      NoErrorIsBuildable(cfg, g, p, a);
    }
    if own :| Buildable(cfg, g, p, a, own) {
      assert forall c :: c in cards ==> InZone(g, c, p, Hand);
    }
  }

  lemma NoErrorIsBuildable(cfg: Config, g: Game, p: ParticipantId, a: Action)
    requires a.Construct? && ConstructError(cfg, g, p, a).None?
    ensures Leaning(cfg, g, a.intent).Aligned? && Buildable(cfg, g, p, a, Leaning(cfg, g, a.intent).alignment)
  {
    var cards := CardsOf(a);
    assert cards[0] == a.intent && cards[1] == a.method_ && (a.amplifier.Some? ==> cards[2] == a.amplifier.value);
    assert a.method_ in cards[1..] && (a.amplifier.Some? ==> a.amplifier.value in cards[1..]);
  }

  function Parts(a: Action): set<CardId>
    requires a.Construct?
  {
    {a.intent, a.method_} + if a.amplifier.Some? then {a.amplifier.value} else {}
  }

  ghost predicate Plays(cfg: Config, g: Game, x: Assignment, role: ComponentSlot, card: CardId)
    requires card in g.table.cards && Fills(cfg, g, card, role)
  {
    var definition := g.table.cards[card].definition;
    x == Assignment(role, card, definition, cfg.rules[definition].values[role])
  }

  /** The new campaign stands in the first row with its components in their roles, not yet activated. */
  ghost predicate CampaignStands(cfg: Config, g: Game, after: Game, p: ParticipantId, a: Action, own: Alignment)
    requires a.Construct? && Buildable(cfg, g, p, a, own)
  {
    var c := CampaignOf(p);
    after.board == g.board.(campaigns := after.board.campaigns) && c in after.board.campaigns &&
    after.board.campaigns == g.board.campaigns[c := after.board.campaigns[c]] &&
    var campaign := after.board.campaigns[c];
    campaign == Campaign(p, RowI, own, a.targetDt, campaign.assignments, 0) &&
    |campaign.assignments| == (if a.amplifier.Some? then 3 else 2) &&
    Plays(cfg, g, campaign.assignments[0], Intent, a.intent) &&
    Plays(cfg, g, campaign.assignments[1], Method, a.method_) &&
    (a.amplifier.Some? ==> Plays(cfg, g, campaign.assignments[2], Amplifier, a.amplifier.value))
  }

  /** Its cards have left the hand for the campaign; no other card has moved. */
  ghost predicate PartsMoved(g: Game, after: Game, p: ParticipantId, parts: set<CardId>) {
    after.table.boosts == g.table.boosts && after.table.cards.Keys == g.table.cards.Keys &&
    (forall card :: card in g.table.cards ==>
      after.table.cards[card] == if card in parts then g.table.cards[card].(zone := InCampaign)
                                 else g.table.cards[card]) &&
    after.table.holdings.Keys == g.table.holdings.Keys &&
    forall q :: q in g.table.holdings ==>
      var before, held := g.table.holdings[q], after.table.holdings[q];
      held.discard == before.discard && (q != p ==> held == before) &&
      forall card :: card in held.hand <==> card in before.hand && !(q == p && card in parts)
  }

  lemma ConstructionStands(cfg: Config, g: Game, env: Envelope, p: ParticipantId, a: Action, cause: EventId,
                           own: Alignment)
    requires a.Construct? && ConstructError(cfg, g, p, a).None? && Buildable(cfg, g, p, a, own)
    ensures var built := ConstructCampaign(cfg, g, env, p, a, cause);
            CampaignStands(cfg, g, built, p, a, own) && built.turn == g.turn && built.purse == g.purse &&
            built.audit == g.audit && built.version == g.version && g.events < built.events
  {
    hide ConstructError, TakeIntoCampaign;
  }

  lemma OnePartMoved(g: Game, p: ParticipantId, card: CardId)
    requires card in g.table.cards
    ensures PartsMoved(g, TakeIntoCampaign(g, p, card), p, {card})
  {
  }

  lemma MorePartsMoved(a: Game, b: Game, c: Game, p: ParticipantId, some: set<CardId>, more: set<CardId>)
    requires PartsMoved(a, b, p, some) && PartsMoved(b, c, p, more)
    ensures PartsMoved(a, c, p, some + more)
  {
  }

  lemma SamePartsMoved(g: Game, h: Game, after: Game, other: Game, p: ParticipantId, parts: set<CardId>)
    requires PartsMoved(g, after, p, parts) && h.table == g.table && other.table == after.table
    ensures PartsMoved(h, other, p, parts)
  {
  }

  lemma ConstructionMoves(cfg: Config, g: Game, env: Envelope, p: ParticipantId, a: Action, cause: EventId,
                          own: Alignment)
    requires a.Construct? && ConstructError(cfg, g, p, a).None? && Buildable(cfg, g, p, a, own)
    ensures PartsMoved(g, ConstructCampaign(cfg, g, env, p, a, cause), p, Parts(a))
  {
    hide ConstructError, PartsMoved, TakeIntoCampaign, AssignmentsOf;
    var built := ConstructCampaign(cfg, g, env, p, a, cause);
    var g1 := g.(board := built.board);
    var g2 := TakeIntoCampaign(g1, p, a.intent);
    var g3 := TakeIntoCampaign(g2, p, a.method_);
    OnePartMoved(g1, p, a.intent);
    PartsStayKnown(g1, g2, p, {a.intent});
    OnePartMoved(g2, p, a.method_);
    MorePartsMoved(g1, g2, g3, p, {a.intent}, {a.method_});
    PartsStayKnown(g1, g3, p, {a.intent} + {a.method_});
    if a.amplifier.Some? {
      var g4 := TakeIntoCampaign(g3, p, a.amplifier.value);
      OnePartMoved(g3, p, a.amplifier.value);
      MorePartsMoved(g1, g3, g4, p, {a.intent} + {a.method_}, {a.amplifier.value});
      assert Parts(a) == {a.intent} + {a.method_} + {a.amplifier.value};
      SamePartsMoved(g1, g, g4, built, p, Parts(a));
    } else {
      assert Parts(a) == {a.intent} + {a.method_};
      SamePartsMoved(g1, g, g3, built, p, Parts(a));
    }
  }

  lemma PartsStayKnown(g: Game, after: Game, p: ParticipantId, parts: set<CardId>)
    requires PartsMoved(g, after, p, parts)
    ensures after.table.cards.Keys == g.table.cards.Keys
  {
  }

  // ------------------------------------------------------------- the slot

  lemma Shown(cfg: Config, g: Game, env: Envelope)
    requires Due(cfg, g)
    ensures var p, at := Acting(cfg, g), g.turn.cursor.slot;
            HasSlot(g, p, at) &&
            var shown := Reveal(g, env, p, at);
            shown == g.(turn := shown.turn, events := shown.events) && g.events < shown.events &&
            shown.turn.pending.None? && HasSlot(shown, p, at) && p in g.turn.plan && p in shown.turn.plan &&
            shown.turn.plan == g.turn.plan[p := g.turn.plan[p][at := Planned(cfg, g).(revealed := true)]]
  {
  }

  lemma ClosingEnds(cfg: Config, g: Game, shown: Game, built: Game, env: Envelope, outcome: Outcome,
                    cause: Option<Cause>)
    requires Due(cfg, g) && g.events < shown.events <= built.events && built.turn == shown.turn
    requires built.version == g.version
    requires var p, at := Acting(cfg, g), g.turn.cursor.slot;
             HasSlot(shown, p, at) && shown.turn.pending.None? &&
             shown.turn.plan == g.turn.plan[p := g.turn.plan[p][at := Planned(cfg, g).(revealed := true)]]
    ensures var after := CloseSlot(cfg, built, env, Acting(cfg, g), g.turn.cursor.slot, outcome, cause);
            SlotEnds(cfg, g, after, outcome) && after.board == built.board && after.table == built.table &&
            after.purse == built.purse && after.audit == built.audit
  {
    hide Locate;
    var p, at := Acting(cfg, g), g.turn.cursor.slot;
    var slots, revealed := g.turn.plan[p], Planned(cfg, g).(revealed := true);
    var final := revealed.(outcome := Some(outcome));
    assert slots[at := revealed][at := final] == slots[at := final];
    assert g.turn.plan[p := slots[at := revealed]][p := slots[at := final]] == g.turn.plan[p := slots[at := final]];
  }

  lemma NextIsSlot(cfg: Config, g: Game, correlation: string, die: Option<int>)
    requires Due(cfg, g)
    ensures HasSlot(g, Acting(cfg, g), g.turn.cursor.slot)
    ensures RunNext(cfg, g, correlation, die) ==
            RunSlot(cfg, g, System(correlation, None), Acting(cfg, g), g.turn.cursor.slot,
                    cfg.hash(Gameplay(g, g.version)), die)
  {
    hide RunSlot, Gameplay;
  }

  lemma BuildableAlike(cfg: Config, g: Game, other: Game, p: ParticipantId, a: Action, own: Alignment)
    requires a.Construct? && g.board == other.board && g.table == other.table
    ensures Buildable(cfg, g, p, a, own) == Buildable(cfg, other, p, a, own)
  {
  }

  lemma StandsAlike(cfg: Config, g: Game, other: Game, built: Game, after: Game, p: ParticipantId, a: Action,
                    own: Alignment)
    requires a.Construct? && g.board == other.board && g.table == other.table && Buildable(cfg, g, p, a, own)
    requires Buildable(cfg, other, p, a, own) && built.board == after.board
    requires CampaignStands(cfg, g, built, p, a, own)
    ensures CampaignStands(cfg, other, after, p, a, own)
  {
    hide Buildable, Fills;
  }

  /** A campaign is built exactly if it is buildable, and it stands as planned. */
  lemma ConstructionBuilds(cfg: Config, g: Game, correlation: string, die: Option<int>)
    requires Due(cfg, g) && Planned(cfg, g).action.Construct?
    ensures var p, a, v := Acting(cfg, g), Planned(cfg, g).action, RunNext(cfg, g, correlation, die);
            (v.Commit? <==> exists own :: Buildable(cfg, g, p, a, own)) &&
            forall own :: Buildable(cfg, g, p, a, own) ==>
              v.Commit? && CampaignStands(cfg, g, v.game, p, a, own) && PartsMoved(g, v.game, p, Parts(a)) &&
              v.game.purse == g.purse && v.game.audit == g.audit && SlotEnds(cfg, g, v.game, Resolved)
  {
    var p, at, a, env := Acting(cfg, g), g.turn.cursor.slot, Planned(cfg, g).action, System(correlation, None);
    Shown(cfg, g, env);
    NextIsSlot(cfg, g, correlation, die);
    var shown := Reveal(g, env, p, at);
    hide Reveal, RunNext, CloseSlot, ConstructCampaign, ConstructError, Buildable, CampaignStands, PartsMoved, SlotEnds,
      Due, Gameplay;
    BuildableIffNoError(cfg, shown, p, a);
    forall own
      ensures Buildable(cfg, g, p, a, own) == Buildable(cfg, shown, p, a, own)
    {
      BuildableAlike(cfg, g, shown, p, a, own);
    }
    var v := RunNext(cfg, g, correlation, die);
    forall own | Buildable(cfg, g, p, a, own)
      ensures v.Commit? && CampaignStands(cfg, g, v.game, p, a, own) && PartsMoved(g, v.game, p, Parts(a)) &&
              v.game.purse == g.purse && v.game.audit == g.audit && SlotEnds(cfg, g, v.game, Resolved)
    {
      SlotBuilds(cfg, g, shown, env, own);
    }
  }

  lemma SlotBuilds(cfg: Config, g: Game, shown: Game, env: Envelope, own: Alignment)
    requires Due(cfg, g) && Planned(cfg, g).action.Construct? && g.events < shown.events
    requires var p, at := Acting(cfg, g), g.turn.cursor.slot;
             HasSlot(shown, p, at) && shown.turn.pending.None? &&
             shown == g.(turn := shown.turn, events := shown.events) &&
             shown.turn.plan == g.turn.plan[p := g.turn.plan[p][at := Planned(cfg, g).(revealed := true)]]
    requires Buildable(cfg, g, Acting(cfg, g), Planned(cfg, g).action, own)
    requires ConstructError(cfg, shown, Acting(cfg, g), Planned(cfg, g).action).None?
    ensures var p, a := Acting(cfg, g), Planned(cfg, g).action;
            var v := RunConstruct(cfg, shown, env, p, g.turn.cursor.slot, a, |shown.events|);
            v.Commit? && CampaignStands(cfg, g, v.game, p, a, own) && PartsMoved(g, v.game, p, Parts(a)) &&
            v.game.purse == g.purse && v.game.audit == g.audit && SlotEnds(cfg, g, v.game, Resolved)
  {
    hide CloseSlot, ConstructCampaign, ConstructError, Buildable, CampaignStands, PartsMoved, SlotEnds, Parts;
    var p, a := Acting(cfg, g), Planned(cfg, g).action;
    BuildableAlike(cfg, g, shown, p, a, own);
    var built := ConstructCampaign(cfg, shown, env, p, a, |shown.events|);
    ConstructionStands(cfg, shown, env, p, a, |shown.events|, own);
    ConstructionMoves(cfg, shown, env, p, a, |shown.events|, own);
    ClosingEnds(cfg, g, shown, built, env, Resolved, Some(ByEvent(|built.events|)));
    var after := CloseSlot(cfg, built, env, p, g.turn.cursor.slot, Resolved, Some(ByEvent(|built.events|)));
    StandsAlike(cfg, shown, g, built, after, p, a, own);
    SamePartsMoved(shown, g, built, after, p, Parts(a));
  }

  // -------------------------------------------------------------- boosting

  /** A boost card of the hand, for an activation of an own campaign in the player's plan; one boost at a time. */
  ghost predicate Plannable(g: Game, p: ParticipantId, a: Action)
    requires a.PlayBoost?
  {
    InZone(g, a.card, p, Hand) && g.table.cards[a.card].definition == BOOST_CARD && p !in g.table.boosts &&
    a.campaign in g.board.campaigns && g.board.campaigns[a.campaign].owner == p &&
    exists slot :: slot in SlotsOf(g.turn.plan, p) && slot.index == a.activationIndex && slot.action.Activate? &&
                   slot.action.campaign == a.campaign
  }

  lemma LinkIsSlot(plan: map<ParticipantId, seq<Slot>>, p: ParticipantId, index: nat, c: CampaignId)
    requires PlanOk(plan)
    ensures LinksActivation(SlotsOf(plan, p), index, c) <==>
            exists slot :: slot in SlotsOf(plan, p) && slot.index == index && slot.action.Activate? &&
                           slot.action.campaign == c
  {
    var slots := SlotsOf(plan, p);
    var at := FindSlot(slots, index);
    if at < |slots| {
      assert slots[at] in slots;
      assert forall n :: 0 <= n < |slots| && slots[n].index == index ==> n == at;
    }
  }

  lemma LinkAlike(cfg: Config, g: Game, shown: Game, index: nat, c: CampaignId)
    requires Due(cfg, g)
    requires var p, at := Acting(cfg, g), g.turn.cursor.slot;
             p in g.turn.plan && at < |g.turn.plan[p]| &&
             shown.turn.plan == g.turn.plan[p := g.turn.plan[p][at := Planned(cfg, g).(revealed := true)]]
    ensures var p := Acting(cfg, g);
            LinksActivation(SlotsOf(shown.turn.plan, p), index, c) == LinksActivation(SlotsOf(g.turn.plan, p), index, c)
  {
    var p, at := Acting(cfg, g), g.turn.cursor.slot;
    var slots := SlotsOf(g.turn.plan, p);
    var later := slots[at := slots[at].(revealed := true)];
    assert SlotsOf(shown.turn.plan, p) == later;
    SameIndexes(slots, later, index);
  }

  lemma {:induction false} SameIndexes(a: seq<Slot>, b: seq<Slot>, index: nat)
    requires |a| == |b| && forall n :: 0 <= n < |a| ==> a[n].index == b[n].index
    ensures FindSlot(a, index) == FindSlot(b, index)
  {
    if a != [] {
      SameIndexes(a[1..], b[1..], index);
    }
  }

  /** A boost is planned exactly if it is plannable, and only the plan changes. */
  lemma BoostPlans(cfg: Config, g: Game, correlation: string, die: Option<int>)
    requires Due(cfg, g) && PlanOk(g.turn.plan) && Planned(cfg, g).action.PlayBoost?
    ensures var p, a, v := Acting(cfg, g), Planned(cfg, g).action, RunNext(cfg, g, correlation, die);
            (v.Commit? <==> Plannable(g, p, a)) &&
            (v.Commit? ==>
              v.game.table == g.table.(boosts :=
                                       g.table.boosts[p := BoostPlan(a.card, a.campaign, a.activationIndex)]) &&
              v.game.board == g.board && v.game.purse == g.purse && v.game.audit == g.audit &&
              SlotEnds(cfg, g, v.game, Resolved))
  {
    var p, at, a, env := Acting(cfg, g), g.turn.cursor.slot, Planned(cfg, g).action, System(correlation, None);
    Shown(cfg, g, env);
    NextIsSlot(cfg, g, correlation, die);
    LinkIsSlot(g.turn.plan, p, a.activationIndex, a.campaign);
    var shown := Reveal(g, env, p, at);
    LinkAlike(cfg, g, shown, a.activationIndex, a.campaign);
    hide Reveal, RunNext, PlanBoost, Gameplay, PlanOk, LinksActivation, SlotEnds;
    if BoostError(cfg, shown, p, a).None? {
      PlanEnds(cfg, g, shown, env, BoostPlan(a.card, a.campaign, a.activationIndex), |shown.events|);
    }
  }

  lemma PlanEnds(cfg: Config, g: Game, shown: Game, env: Envelope, plan: BoostPlan, cause: EventId)
    requires Due(cfg, g) && g.events < shown.events && shown == g.(turn := shown.turn, events := shown.events)
    requires var p, at := Acting(cfg, g), g.turn.cursor.slot;
             HasSlot(shown, p, at) && shown.turn.pending.None? &&
             shown.turn.plan == g.turn.plan[p := g.turn.plan[p][at := Planned(cfg, g).(revealed := true)]]
    ensures var p := Acting(cfg, g);
            var after := PlanBoost(cfg, shown, env, p, g.turn.cursor.slot, plan, cause);
            after.table == g.table.(boosts := g.table.boosts[p := plan]) && after.board == g.board &&
            after.purse == g.purse && after.audit == g.audit && SlotEnds(cfg, g, after, Resolved)
  {
    hide Locate;
    var p, at := Acting(cfg, g), g.turn.cursor.slot;
    var slots, revealed := g.turn.plan[p], Planned(cfg, g).(revealed := true);
    var final := revealed.(outcome := Some(Resolved));
    assert slots[at := revealed][at := final] == slots[at := final];
    assert g.turn.plan[p := slots[at := revealed]][p := slots[at := final]] == g.turn.plan[p := slots[at := final]];
  }

  // ---------------------------------------------------------- failing for cost

  /**
   The player's own campaign, not activated before, on a population of its target; the core modifier has not been
   used up.
   */
  ghost predicate Activatable(cfg: Config, g: Game, p: ParticipantId, a: Action)
    requires a.Activate?
  {
    a.campaign in g.board.campaigns &&
    var campaign := g.board.campaigns[a.campaign];
    campaign.owner == p && campaign.activations == 0 &&
    a.target.Some? && a.target.value in cfg.pds && campaign.targetDt in cfg.pds[a.target.value] &&
    p in cfg.seats && (a.useCore ==> p !in g.purse.coreUsed)
  }

  lemma ActivatableIffNoError(cfg: Config, g: Game, p: ParticipantId, a: Action)
    requires a.Activate?
    ensures Activatable(cfg, g, p, a) <==> ActivationError(cfg, g, p, a).None?
  {
  }

  lemma ActivatableAlike(cfg: Config, g: Game, other: Game, p: ParticipantId, a: Action)
    requires a.Activate? && g.board == other.board && g.purse == other.purse
    ensures Activatable(cfg, g, p, a) == Activatable(cfg, other, p, a)
  {
  }

  /**
   Only an activatable campaign is activated; where it cannot be paid for, the slot is settled as failed for its
   cost and nothing else changes.
   */
  lemma UnpaidActivationFails(cfg: Config, g: Game, correlation: string, die: Option<int>)
    requires Due(cfg, g) && Planned(cfg, g).action.Activate?
    ensures var p, a, v := Acting(cfg, g), Planned(cfg, g).action, RunNext(cfg, g, correlation, die);
            (v.Commit? ==> Activatable(cfg, g, p, a)) &&
            (Activatable(cfg, g, p, a) && Balance(g, cfg.seats[p]) < Price(cfg, g) ==>
              v.Commit? && SlotEnds(cfg, g, v.game, FailedCost) && v.game.board == g.board &&
              v.game.table == g.table && v.game.purse == g.purse && v.game.audit == g.audit)
  {
    var p, at, a, env := Acting(cfg, g), g.turn.cursor.slot, Planned(cfg, g).action, System(correlation, None);
    Shown(cfg, g, env);
    NextIsSlot(cfg, g, correlation, die);
    var shown := Reveal(g, env, p, at);
    ActivatableIffNoError(cfg, shown, p, a);
    ActivatableAlike(cfg, g, shown, p, a);
    ClosingEnds(cfg, g, shown, shown, env, FailedCost, LastRef([|shown.events|]));
    hide Reveal, RunNext, Gameplay, CloseSlot, SlotEnds, Activatable, ActivationError, AfterNarrative, ComponentCosts,
      Sum, LastRef, Due;
  }
}
