/**
 Conservation in the adjudication engine. Resources, victory points, influence stacks and the places of cards
 change only by the bookings below; `Keeps` says that a property survives each of them, and then it survives
 every command and every run.
 */
module Accounts {
  import opened Prelude
  import opened CampaignTypes
  import opened Adjudication
  import opened ReplaySegments
  import opened ReplayRuns

  const NOBODY := Envelope("", None, "", None)

  datatype Booking =
    | Cost(p: ParticipantId, country: CountryId, cost: nat, costs: seq<nat>, core: bool)
    | Contribution(p: ParticipantId, country: CountryId)
    | Points(p: ParticipantId, reason: VpReason, delta: int)
    | CubeTaken(i: Impact, country: CountryId)
    | CubesAdded(i: Impact, placed: nat)
    | CardBuilt(p: ParticipantId, card: CardId)
    | CardSpent(p: ParticipantId, card: CardId)
    | Nothing

  /** What the engine has checked before it books. */
  predicate Allowed(g: Game, b: Booking) {
    match b
    case Cost(_, country, cost, costs, core) => Balance(g, country) >= cost + Sum(costs) + CoreCost(core)
    case Contribution(_, country) => Balance(g, country) >= 1
    case Points(p, _, delta) => VpOf(g, p) >= 0 ==> VpOf(g, p) + delta >= 0
    case CubeTaken(i, country) => RemoveCube(Flow(g, [], []), NOBODY, i, country).Go?
    case CubesAdded(i, placed) => placed > 0
    case CardBuilt(p, card) => InZone(g, card, p, Hand)
    case CardSpent(p, card) => InZone(g, card, p, Hand) && p in g.table.holdings
    case Nothing => true
  }

  function Book(g: Game, b: Booking): Game
    requires Allowed(g, b)
  {
    match b
    case Cost(p, country, cost, costs, core) => Booked(g, p, country, cost, costs, core)
    case Contribution(p, country) => Contribute(Flow(g, [], []), NOBODY, p, country, 0).game
    case Points(p, reason, delta) => AddVp(Flow(g, [], []), NOBODY, p, reason, delta, VpOf(g, p)).game
    case CubeTaken(i, country) => RemoveCube(Flow(g, [], []), NOBODY, i, country).flow.game
    case CubesAdded(i, placed) => PlaceCubes(Flow(g, [], []), NOBODY, i, placed).game
    case CardBuilt(p, card) => TakeIntoCampaign(g, p, card)
    case CardSpent(p, card) => DiscardFromHand(g, p, card)
    case Nothing => g
  }

  /** The two games agree on everything that is booked. */
  ghost predicate SameBooks(a: Game, b: Game) {
    b.purse.resources == a.purse.resources && b.purse.vp == a.purse.vp && b.board.stacks == a.board.stacks &&
    b.audit.resourceLedger == a.audit.resourceLedger && b.audit.vpLedger == a.audit.vpLedger &&
    b.audit.influenceLedger == a.audit.influenceLedger && b.table.cards == a.table.cards &&
    b.table.holdings == a.table.holdings
  }

  ghost predicate Keeps(inv: Game -> bool) {
    forall a, b, booking {:trigger inv(a), Allowed(a, booking), inv(b)} ::
      inv(a) && Allowed(a, booking) && SameBooks(Book(a, booking), b) ==> inv(b)
  }

  lemma After(inv: Game -> bool, a: Game, booking: Booking, b: Game)
    requires Keeps(inv) && inv(a) && Allowed(a, booking) && SameBooks(Book(a, booking), b)
    ensures inv(b)
  {
  }

  lemma Unchanged(inv: Game -> bool, a: Game, b: Game)
    requires Keeps(inv) && inv(a) && SameBooks(a, b)
    ensures inv(b)
  {
    After(inv, a, Nothing, b);
  }

  // ----------------------------------------------------- one activation

  lemma PayKeeps(inv: Game -> bool, f: Flow, env: Envelope, p: ParticipantId, c: CampaignId, k: NarrativeContinuation)
    requires Keeps(inv) && inv(f.game) && c in f.game.board.campaigns && Pay(f, env, p, c, k).Go?
    ensures inv(Pay(f, env, p, c, k).flow.game)
  {
    hide Keeps, Booked, ComponentCosts, Receipt;
    var costs := ComponentCosts(f.game.board.campaigns[c].assignments);
    After(inv, f.game, Cost(p, k.country, k.cost, costs, k.core), Pay(f, env, p, c, k).flow.game);
  }

  lemma BoostKeeps(inv: Game -> bool, f: Flow, env: Envelope, p: ParticipantId, index: nat, c: CampaignId)
    requires Keeps(inv) && inv(f.game) && ApplyBoost(f, env, p, index, c).Go?
    ensures inv(ApplyBoost(f, env, p, index, c).flow.game)
  {
    hide Keeps, DiscardFromHand;
    if BoostApplies(f.game, p, index, c) {
      After(inv, f.game, CardSpent(p, f.game.table.boosts[p].card), ApplyBoost(f, env, p, index, c).flow.game);
    }
  }

  lemma {:induction false} RemovalsKeep(inv: Game -> bool, f: Flow, env: Envelope, i: Impact, selection: seq<CountryId>)
    requires Keeps(inv) && inv(f.game) && RemoveCubes(f, env, i, selection).Go?
    ensures inv(RemoveCubes(f, env, i, selection).flow.game)
  {
    hide Keeps;
    if selection != [] {
      var init, last := selection[..|selection| - 1], selection[|selection| - 1];
      RemovalsKeep(inv, f, env, i, init);
      var f1 := RemoveCubes(f, env, i, init).flow;
      After(inv, f1.game, CubeTaken(i, last), RemoveCube(f1, env, i, last).flow.game);
    }
  }

  lemma PlacingKeeps(inv: Game -> bool, f: Flow, env: Envelope, i: Impact, placed: nat)
    requires Keeps(inv) && inv(f.game)
    ensures inv(PlaceCubes(f, env, i, placed).game)
  {
    hide Keeps, AddCubes;
    if placed > 0 {
      After(inv, f.game, CubesAdded(i, placed), PlaceCubes(f, env, i, placed).game);
    }
  }

  lemma PointsKeep(inv: Game -> bool, f: Flow, env: Envelope, p: ParticipantId, reason: VpReason, delta: int)
    requires Keeps(inv) && inv(f.game) && (VpOf(f.game, p) >= 0 ==> VpOf(f.game, p) + delta >= 0)
    ensures inv(AddVp(f, env, p, reason, delta, VpOf(f.game, p)).game)
  {
    hide Keeps;
    After(inv, f.game, Points(p, reason, delta), AddVp(f, env, p, reason, delta, VpOf(f.game, p)).game);
  }

  lemma AwardKeeps(inv: Game -> bool, f: Flow, env: Envelope, i: Impact, placed: nat)
    requires Keeps(inv) && inv(f.game)
    ensures inv(Award(f, env, i, placed).game)
  {
    hide Keeps;
    var p := i.participant;
    var vp := VpOf(f.game, p);
    if i.ertResult > 0 && placed > 0 {
      PointsKeep(inv, f, env, p, CubePlaced, placed);
      var f1 := AddVp(f, env, p, CubePlaced, placed, vp);
      if i.legitimacyBefore.None? {
        var f2 := ChangeHolder(f1, env, i.target, None, Some(p), Establish);
        Unchanged(inv, f1.game, f2.game);
        PointsKeep(inv, f2, env, p, LegitimacyEstablished, 1);
      } else if i.legitimacyBefore != Some(p) {
        var f2 := ChangeHolder(f1, env, i.target, i.legitimacyBefore, None, Subvert);
        Unchanged(inv, f1.game, f2.game);
        PointsKeep(inv, f2, env, p, LegitimacySubverted, 1);
      }
    } else if i.ertResult < 0 && placed > 0 && Min(vp, placed) > 0 {
      PointsKeep(inv, f, env, p, Backlash, -Min(vp, placed));
    }
  }

  lemma CompletionKeeps(inv: Game -> bool, cfg: Config, f: Flow, env: Envelope, at: nat, i: Impact,
                        selection: seq<CountryId>)
    requires HasSlot(f.game, i.participant, at) && i.campaign in f.game.board.campaigns
    requires Keeps(inv) && inv(f.game) && CompleteActivation(cfg, f, env, at, i, selection).Commit?
    ensures inv(CompleteActivation(cfg, f, env, at, i, selection).game)
  {
    hide Keeps, RemoveCubes, PlaceCubes, Award, Effect;
    var removed := RemoveCubes(f, env, i, selection).flow;
    RemovalsKeep(inv, f, env, i, selection);
    var placed := Effect(f.game, i).placed;
    var moved := PlaceCubes(removed, env, i, placed);
    PlacingKeeps(inv, removed, env, i, placed);
    AwardKeeps(inv, moved, env, i, placed);
    Unchanged(inv, Award(moved, env, i, placed).game, CompleteActivation(cfg, f, env, at, i, selection).game);
  }

  lemma ResolutionKeeps(inv: Game -> bool, cfg: Config, f: Flow, env: Envelope, at: nat, i: Impact)
    requires HasSlot(f.game, i.participant, at) && i.campaign in f.game.board.campaigns
    requires Keeps(inv) && inv(f.game) && Resolve(cfg, f, env, at, i).Commit?
    ensures inv(Resolve(cfg, f, env, at, i).game)
  {
    hide Keeps, CompleteActivation, AutomaticSelections, Effect, SourcesOf;
    var removals := Effect(f.game, i).removed;
    if removals > 0 && |SourcesOf(f.game, i)| > 1 {
      Unchanged(inv, f.game, Resolve(cfg, f, env, at, i).game);
    } else {
      CompletionKeeps(inv, cfg, f, env, at, i,
                      AutomaticSelections(f.game.board.stacks, i.target, i.kind.Opposite(), COUNTRIES, removals));
    }
  }

  lemma RollAndResolveKeeps(inv: Game -> bool, cfg: Config, f: Flow, env: Envelope, p: ParticipantId, at: nat,
                            c: CampaignId,
                            k: NarrativeContinuation, bonus: nat, die: Option<int>, manual: Option<ManualRoll>)
    requires c in f.game.board.campaigns && HasSlot(f.game, p, at) && Keeps(inv) && inv(f.game)
    requires RollAndResolve(cfg, f, env, p, at, c, k, bonus, die, manual).Commit?
    ensures inv(RollAndResolve(cfg, f, env, p, at, c, k, bonus, die, manual).game)
  {
    hide Keeps, Pay, ApplyBoost, Roll, Resolve, ResolutionInput, BoostApplies, RollValue;
    var index := f.game.turn.plan[p][at].index;
    var paid := Pay(f, env, p, c, k).flow;
    PayKeeps(inv, f, env, p, c, k);
    var boosted := ApplyBoost(paid, env, p, index, c).flow;
    BoostKeeps(inv, paid, env, p, index, c);
    var boost := if BoostApplies(f.game, p, index, c) then 1 else 0;
    var raw := RollValue(die, manual).value;
    var rolled := Roll(cfg, boosted, env, p, c, k, bonus, boost, raw, manual);
    Unchanged(inv, boosted.game, rolled.game);
    ResolutionKeeps(inv, cfg, rolled, env, at, ResolutionInput(cfg, boosted.game, p, index, c, k, bonus, boost, raw));
  }

  lemma ActivationKeeps(inv: Game -> bool, cfg: Config, f: Flow, env: Envelope, p: ParticipantId, at: nat,
                        c: CampaignId,
                        k: NarrativeContinuation, coalition: Coalition, die: Option<int>, manual: Option<ManualRoll>)
    requires Keeps(inv) && inv(f.game) && AfterNarrative(cfg, f, env, p, at, c, k, coalition, die, manual).Commit?
    ensures inv(AfterNarrative(cfg, f, env, p, at, c, k, coalition, die, manual).game)
  {
    hide Keeps, RollAndResolve, PreRoll, NeedsCoalition, Allies;
    var after := AfterNarrative(cfg, f, env, p, at, c, k, coalition, die, manual).game;
    if NeedsCoalition(f.game.board.campaigns[c]) && coalition.Undecided? && Allies(cfg, cfg.order, p) != [] {
      Unchanged(inv, f.game, after);
    } else {
      var ready := if manual.None? then PreRoll(f, env) else f;
      Unchanged(inv, f.game, ready.game);
      if cfg.manualDice && manual.None? {
        Unchanged(inv, ready.game, after);
      } else {
        var bonus := if coalition.Decided? then coalition.bonus else 0;
        RollAndResolveKeeps(inv, cfg, ready, env, p, at, c, k, bonus, die, manual);
      }
    }
  }

  // ---------------------------------------------------------- commands

  lemma ConstructionKeeps(inv: Game -> bool, cfg: Config, g: Game, env: Envelope, p: ParticipantId, a: Action,
                          cause: EventId)
    requires Keeps(inv) && inv(g) && a.Construct? && ConstructError(cfg, g, p, a).None?
    ensures inv(ConstructCampaign(cfg, g, env, p, a, cause))
  {
    HandCardsAreFree(cfg, g, p, a);
    hide Keeps, ConstructError;
    var g1 := TakeIntoCampaign(g, p, a.intent);
    var g2 := TakeIntoCampaign(g1, p, a.method_);
    After(inv, g, CardBuilt(p, a.intent), g1);
    After(inv, g1, CardBuilt(p, a.method_), g2);
    if a.amplifier.Some? {
      var g3 := TakeIntoCampaign(g2, p, a.amplifier.value);
      After(inv, g2, CardBuilt(p, a.amplifier.value), g3);
      Unchanged(inv, g3, ConstructCampaign(cfg, g, env, p, a, cause));
    } else {
      Unchanged(inv, g2, ConstructCampaign(cfg, g, env, p, a, cause));
    }
  }

  /** The cards of an accepted construction are different cards of the player's hand. */
  lemma HandCardsAreFree(cfg: Config, g: Game, p: ParticipantId, a: Action)
    requires a.Construct? && ConstructError(cfg, g, p, a).None?
    ensures InZone(g, a.intent, p, Hand) && InZone(g, a.method_, p, Hand) && a.intent != a.method_
    ensures a.amplifier.Some? ==> InZone(g, a.amplifier.value, p, Hand) && a.amplifier.value !in {a.intent, a.method_}
  {
    var cards := CardsOf(a);
    assert cards[0] in cards && cards[1] in cards && cards[0] != cards[1];
    if a.amplifier.Some? {
      assert cards[2] in cards && cards[0] != cards[2] && cards[1] != cards[2];
    }
  }

  lemma StartKeeps(inv: Game -> bool, cfg: Config, g: Game, env: Envelope, p: ParticipantId, at: nat, a: Action,
                   hash: int,
                   refs: seq<EventId>, die: Option<int>)
    requires a.Activate? && HasSlot(g, p, at) && Keeps(inv) && inv(g)
    requires StartActivation(cfg, g, env, p, at, a, hash, refs, die).Commit?
    ensures inv(StartActivation(cfg, g, env, p, at, a, hash, refs, die).game)
  {
    hide Keeps, AfterNarrative, ContinuationOf, TotalCost;
    var after := StartActivation(cfg, g, env, p, at, a, hash, refs, die).game;
    var campaign := g.board.campaigns[a.campaign];
    if Balance(g, cfg.seats[p]) >= TotalCost(campaign, cfg.valueOf(campaign.assignments).cost, a.useCore) &&
       a.campaign in g.board.narratives {
      var started := Continue(Flow(g, refs, []), env,
        ActivationStarted(ActivationOf(g, a.campaign), a.campaign, p, a.target.value, hash));
      var n := g.board.narratives[a.campaign];
      var told := Continue(started, Envelope(n.actor, None, n.correlation, Some(n.cause)),
        NarrativeSubmitted(a.campaign, n.inputId, n.source, n.text, Some(n.cause)));
      Unchanged(inv, g, told.game);
      ActivationKeeps(inv, cfg, told, env, p, at, a.campaign, ContinuationOf(cfg, g, p, a, hash, started.refs),
                      Undecided, die, None);
    } else {
      Unchanged(inv, g, after);
    }
  }

  lemma RunSlotKeeps(inv: Game -> bool, cfg: Config, g: Game, env: Envelope, p: ParticipantId, at: nat, hash: int,
                     die: Option<int>)
    requires HasSlot(g, p, at) && Keeps(inv) && inv(g) && RunSlot(cfg, g, env, p, at, hash, die).Commit?
    ensures inv(RunSlot(cfg, g, env, p, at, hash, die).game)
  {
    hide Keeps, StartActivation, Reveal, ConstructCampaign, BoostError;
    var shown, a := Reveal(g, env, p, at), g.turn.plan[p][at].action;
    Unchanged(inv, g, shown);
    match a
    case Construct(_, _, _, _) =>
      var built := ConstructCampaign(cfg, shown, env, p, a, |shown.events|);
      ConstructionKeeps(inv, cfg, shown, env, p, a, |shown.events|);
      Unchanged(inv, built, RunSlot(cfg, g, env, p, at, hash, die).game);
    case PlayBoost(_, _, _) =>
      Unchanged(inv, shown, RunSlot(cfg, g, env, p, at, hash, die).game);
    case Activate(_, _, _) =>
      StartKeeps(inv, cfg, shown, env, p, at, a, hash, [|shown.events|], die);
  }

  lemma RunNextKeeps(inv: Game -> bool, cfg: Config, g: Game, correlation: string, die: Option<int>)
    requires Keeps(inv) && inv(g) && RunNext(cfg, g, correlation, die).Commit?
    ensures inv(RunNext(cfg, g, correlation, die).game)
  {
    hide Keeps, RunSlot;
    var cursor := Locate(cfg.order, g.turn.plan, g.turn.cursor);
    var g1 := g.(turn := g.turn.(cursor := cursor));
    Unchanged(inv, g, g1);
    RunSlotKeeps(inv, cfg, g1, System(correlation, None), cfg.order[cursor.participant], cursor.slot,
                 cfg.hash(Gameplay(g, g.version)), die);
  }

  lemma TellNarrativeKeeps(inv: Game -> bool, cfg: Config, g: Game, actor: Actor, inputId: string, correlation: string,
                           campaign: CampaignId, text: string, die: Option<int>)
    requires Keeps(inv) && inv(g) && TellNarrative(cfg, g, actor, inputId, correlation, campaign, text, die).Commit?
    ensures inv(TellNarrative(cfg, g, actor, inputId, correlation, campaign, text, die).game)
  {
    hide Keeps, AfterNarrative, PendingSlot, SeatedPlayer;
    var pending := g.turn.pending.value;
    var base, cause := pending.base, ByEvent(pending.base.cause);
    var told := g.(board := g.board.(narratives := g.board.narratives[campaign :=
      Narrative(inputId, text, Player, actor.user, Some(base.participant), correlation, cause)]));
    var g1 := Resume(Emit(told, By(actor, correlation), NarrativeSubmitted(campaign, inputId, Player, text, None),
                          Some(cause)));
    Unchanged(inv, g, g1);
    ActivationKeeps(inv, cfg, Flow(g1, pending.k.refs + [|g1.events|], []),
                    System(base.correlation, Some(ByEvent(|g1.events|))),
                    base.participant, PendingSlot(g, base), campaign, pending.k, Undecided, die, None);
  }

  lemma PaidKeeps(inv: Game -> bool, cfg: Config, g: Game, env: Envelope, p: ParticipantId, contributes: bool)
    requires g.turn.pending.Some? && g.turn.pending.value.CoalitionPending? && p in cfg.seats
    requires Keeps(inv) && inv(g) && (contributes ==> Balance(g, cfg.seats[p]) >= 1)
    ensures inv(Paid(cfg, g, env, p, contributes).game)
  {
    hide Keeps;
    After(inv, g, if contributes then Contribution(p, cfg.seats[p])
          else Nothing, Paid(cfg, g, env, p, contributes).game);
  }

  lemma RespondKeeps(inv: Game -> bool, cfg: Config, g: Game, actor: Actor, correlation: string, request: ActivationId,
                     contributes: bool, die: Option<int>)
    requires Keeps(inv) && inv(g) && Respond(cfg, g, actor, correlation, request, contributes, die).Commit?
    ensures inv(Respond(cfg, g, actor, correlation, request, contributes, die).game)
  {
    hide Keeps, AfterNarrative, PendingSlot, SeatedPlayer, Responded, Contributors, Paid;
    var pending := g.turn.pending.value;
    var base, p, env := pending.base, actor.participant, By(actor, correlation);
    var paid := Paid(cfg, g, env, p, contributes);
    PaidKeeps(inv, cfg, g, env, p, contributes);
    var decisions := pending.decisions[p := contributes];
    if |Responded(pending.eligible, decisions)| != |pending.eligible| {
      Unchanged(inv, paid.game, Respond(cfg, g, actor, correlation, request, contributes, die).game);
    } else {
      var event := |paid.game.events| + 1;
      var cause := if contributes then Some(ByEvent(|paid.game.events|)) else Some(ByEvent(base.cause));
      var bonus := Contributors(pending.eligible, decisions);
      var answered := Emit(paid.game, env, CoalitionResponded(p, contributes, None), cause);
      var resolved := Emit(Resume(answered), env, CoalitionResolved(base.campaign, bonus), Some(ByEvent(event)));
      Unchanged(inv, paid.game, resolved);
      ActivationKeeps(inv, cfg, Flow(resolved, paid.refs + [event] + [event + 1], paid.ledgers),
                      System(base.correlation, Some(ByEvent(event + 1))), base.participant, PendingSlot(g, base),
                        base.campaign,
                      pending.k, Decided(bonus), die, None);
    }
  }

  lemma EnterDieKeeps(inv: Game -> bool, cfg: Config, g: Game, actor: Actor, request: ActivationId, value: int)
    requires Keeps(inv) && inv(g) && EnterDie(cfg, g, actor, request, value).Commit?
    ensures inv(EnterDie(cfg, g, actor, request, value).game)
  {
    hide Keeps, AfterNarrative, PendingSlot, SeatedPlayer, Facilitates;
    var pending := g.turn.pending.value;
    var base := pending.base;
    Unchanged(inv, g, Resume(g));
    ActivationKeeps(inv, cfg, Flow(Resume(g), pending.refs, pending.ledgers),
                    System(base.correlation, Some(ByEvent(base.cause))),
                    base.participant, PendingSlot(g, base), base.campaign, pending.k, Decided(pending.bonus), None,
                    Some(ManualRoll(value, actor.participant)));
  }

  lemma ChooseKeeps(inv: Game -> bool, cfg: Config, g: Game, actor: Actor, correlation: string, choice: ActivationId,
                    version: nat, selection: seq<nat>)
    requires Keeps(inv) && inv(g) && Choose(cfg, g, actor, correlation, choice, version, selection).Commit?
    ensures inv(Choose(cfg, g, actor, correlation, choice, version, selection).game)
  {
    hide Keeps, CompleteActivation, PendingSlot, SeatedPlayer, Takeable;
    var pending := g.turn.pending.value;
    var k := pending.choice;
    var told := Emit(g, By(actor, correlation), ChoiceResolved(choice, selection), Some(ByEvent(pending.base.cause)));
    var g1 := Resume(told.(turn := told.turn.(resolvedChoices := told.turn.resolvedChoices + [choice])));
    Unchanged(inv, g, g1);
    CompletionKeeps(inv, cfg, Flow(g1, k.refs + [|g1.events|], k.ledgers),
                    System(pending.base.correlation, Some(ByEvent(|g1.events|))), PendingSlot(g, pending.base),
                      k.impact,
                    Selected(k.options, selection));
  }

  lemma PrepareKeeps(inv: Game -> bool, cfg: Config, g: Game, command: Command)
    requires Keeps(inv) && inv(g) && Prepare(cfg, g, command).Commit?
    ensures inv(Prepare(cfg, g, command).game)
  {
    hide Keeps, RunNext, TellNarrative, Respond, EnterDie, Choose;
    match command
    case RunScheduler(correlation, die) => RunNextKeeps(inv, cfg, g, correlation, die);
    case SubmitNarrative(actor, inputId, correlation, campaign, text, die) =>
      TellNarrativeKeeps(inv, cfg, g, actor, inputId, correlation, campaign, text, die);
    case SubmitContribution(actor, correlation, request, contributes, die) =>
      RespondKeeps(inv, cfg, g, actor, correlation, request, contributes, die);
    case SubmitDie(actor, correlation, request, value) => EnterDieKeeps(inv, cfg, g, actor, request, value);
    case SubmitChoice(actor, correlation, choice, version, selection) =>
      ChooseKeeps(inv, cfg, g, actor, correlation, choice, version, selection);
  }

  /** A property that survives every booking holds in every state of every run that starts with it. */
  lemma {:induction false} RunKeeps(inv: Game -> bool, cfg: Config, start: Game, orders: seq<Order>)
    requires Keeps(inv) && inv(start)
    ensures inv(Run(cfg, start, orders))
  {
    hide Keeps, Prepare;
    if orders != [] {
      var g, o := Run(cfg, start, orders[..|orders| - 1]), orders[|orders| - 1];
      RunKeeps(inv, cfg, start, orders[..|orders| - 1]);
      if Execute(cfg, g, o.expected, o.command).Commit? {
        PrepareKeeps(inv, cfg, g, o.command);
        Unchanged(inv, Prepare(cfg, g, o.command).game, Step(cfg, g, o));
      }
    }
  }
}
