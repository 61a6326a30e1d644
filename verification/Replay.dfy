/**
 The replay of a recorded run: a second implementation of the game that never consults the rules,
 only the events. `Replica` is the state it rebuilds with its two bookkeeping variables.
 */
module Replay {
  import opened Prelude
  import opened CampaignTypes
  import opened Adjudication

  /** `hash` is the gameplay digest taken at the last revealed action, `open` the activations seen to start. */
  datatype Replica = Replica(game: Game, hash: Option<int>, open: set<ActivationId>)

  function ReplayLocate(order: seq<ParticipantId>, plan: map<ParticipantId, seq<Slot>>, c: Cursor): Cursor
    decreases |order| - c.participant
  {
    if c.participant < |order| then
      if c.slot < |SlotsOf(plan, order[c.participant])| then c.(status := Ready)
      else ReplayLocate(order, plan, c.(participant := c.participant + 1, slot := 0))
    else c.(status := Complete)
  }

  function ReplayAdvance(cfg: Config, g: Game): Game {
    g.(turn := g.turn.(cursor := ReplayLocate(cfg.order, g.turn.plan, g.turn.cursor.(slot := g.turn.cursor.slot + 1)),
                       revealed := None))
  }

  function Push(g: Game, e: Event, id: LedgerId, p: ParticipantId, country: CountryId, reason: ResourceReason,
                delta: int, balance: int): Game {
    g.(audit := g.audit.(resourceLedger :=
                         g.audit.resourceLedger + [ResourceEntry(id, p, country, reason, delta, balance,
                             e.head.version)]))
  }

  /** Component entries are rebuilt from the costs listed in the event, counting the balance down from `balance`. */
  function PushListed(g: Game, e: Event, p: ParticipantId, country: CountryId, costs: seq<nat>, ids: seq<LedgerId>,
                      balance: int): (r: Game)
    requires |ids| >= |costs|
    ensures r == g.(audit := g.audit.(resourceLedger := r.audit.resourceLedger))
    ensures |r.audit.resourceLedger| == |g.audit.resourceLedger| + |costs|
  {
    if costs == [] then g
    else
      var n := |costs| - 1;
      Push(PushListed(g, e, p, country, costs[..n], ids, balance), e, ids[n], p, country, ComponentCost,
           -(costs[n] as int), balance - Sum(costs))
  }

  function ReplayCost(g: Game, e: Event): Option<Game>
    requires e.body.CostPaid?
  {
    var b := e.body;
    if |b.componentLedgers| < |b.componentCosts| || (b.coreCost > 0 && b.coreLedger.None?) then None
    else
      var before := b.balanceAfter + Sum(b.componentCosts) + b.coreCost;
      var g1 := Push(SetBalance(g, b.country, b.balanceAfter), e, b.ledger, b.participant, b.country,
                     ActivationCost, -(b.tierCost as int), before);
      var g2 := PushListed(g1, e, b.participant, b.country, b.componentCosts, b.componentLedgers, before);
      Some(if b.coreCost > 0 then
             UseCore(Push(g2, e, b.coreLedger.value, b.participant, b.country, CoreModifier, -(b.coreCost as int),
                          b.balanceAfter), b.participant)
           else g2)
  }

  function ReplayInfluence(g: Game, e: Event): Game
    requires e.body.InfluenceMutated?
  {
    var b := e.body;
    var n := FindStack(g.board.stacks, b.pd, b.kind, b.attribution, 0);
    var stacks := if n < |g.board.stacks| then g.board.stacks[n := g.board.stacks[n].(count := b.countAfter)]
                  else g.board.stacks + [Stack(b.pd, b.kind, b.attribution, b.countAfter)];
    g.(board := g.board.(stacks := stacks), audit := g.audit.(influenceLedger := g.audit.influenceLedger +
         [InfluenceEntry(b.ledger, b.pd, b.kind, b.attribution, b.influenceReason, b.delta, b.countAfter,
                         e.head.version)]))
  }

  function ReplayCreated(cfg: Config, g: Game, e: Event): Option<Game>
    requires e.body.CampaignCreated?
  {
    var b := e.body;
    if SlotInfluence(cfg, g, Intent, b.intent).None? || SlotInfluence(cfg, g, Method, b.method_).None? ||
       (b.amplifier.Some? && SlotInfluence(cfg, g, Amplifier, b.amplifier.value).None?) then None
    else
      var assignments := AssignmentsOf(cfg, g, b.intent, b.method_, b.amplifier);
      var g1 := TakeIntoCampaign(TakeIntoCampaign(g, b.participant, b.intent), b.participant, b.method_);
      var g2 := if b.amplifier.Some? then TakeIntoCampaign(g1, b.participant, b.amplifier.value) else g1;
      Some(g2.(board := g2.board.(campaigns :=
                                  g2.board.campaigns[b.campaign :=
                                                     Campaign(b.participant, RowI, b.alignment, b.targetDt,
                                                              assignments, 0)])))
  }

  /** Events that walk the locked slots; None where the replay throws. */
  function ReduceTurn(cfg: Config, r: Replica, e: Event): Option<Replica> {
    var g := r.game;
    match e.body
    case ActionRevealed(p, index) =>
      var at := FindSlot(SlotsOf(g.turn.plan, p), index);
      if !HasSlot(g, p, at) then None
      else
        var slot := g.turn.plan[p][at];
        Some(Replica(Show(PutSlot(g, p, at, slot.(revealed := true)), Revealed(p, index, slot.action)),
                     Some(cfg.hash(Gameplay(g, e.head.version - 1))), r.open))
    case ActivationStarted(activation, _, _, _, hash) =>
      if r.hash != Some(hash) then None else Some(Replica(g, None, r.open + {activation}))
    case CampaignCreated(_, _, _, _, _, _, _) =>
      var created := ReplayCreated(cfg, g, e);
      if created.None? then None else Some(r.(game := created.value))
    case ActionResolved(p, index, outcome) =>
      var at := FindSlot(SlotsOf(g.turn.plan, p), index);
      if !HasSlot(g, p, at) then None else Some(r.(game := ReplayAdvance(cfg, Settle(g, p, at, outcome))))
    case ActivationCompleted(activation, campaign, resolution, _) =>
      if campaign !in g.board.campaigns || activation !in r.open then None
      else
        var c := g.board.campaigns[campaign];
        Some(r.(game := g.(board :=
                           g.board.(campaigns := g.board.campaigns[campaign := c.(activations := c.activations + 1)]),
                             audit := g.audit.(resolutions := g.audit.resolutions + [resolution]))))
    case _ => Some(r)
  }

  /** Events that suspend on a player's input or record it. */
  function ReduceInput(g: Game, e: Event): Game {
    match e.body
    case NarrativeRequested(pending) => HoldOn(g, pending)
    case CoalitionRequested(pending) => HoldOn(g, pending)
    case DieRequested(pending) => HoldOn(g, pending)
    case ChoiceRequested(pending) => HoldOn(g, pending)
    case NarrativeSubmitted(campaign, inputId, source, text, inputCause) =>
      var cause := if inputCause.Some? then inputCause.value
                   else if e.head.cause.Some? then e.head.cause.value else ByEvent(e.head.sequence);
      var told := g.(board := g.board.(narratives := g.board.narratives[campaign :=
        Narrative(inputId, text, source, e.head.actor, e.head.participant, e.head.correlation, cause)]));
      if g.turn.pending.Some? && g.turn.pending.value.NarrativePending? then Resume(told) else told
    case CoalitionResponded(_, _, update) => if update.None? then Resume(g) else g.(turn := g.turn.(pending := update))
    case ContributionPaid(p, country, delta, balance, id) =>
      Push(SetBalance(g, country, balance), e, id, p, country, CoalitionContribution, delta, balance)
    case ChoiceResolved(choice,
                        _) => g.(turn := g.turn.(resolvedChoices := g.turn.resolvedChoices + [choice], pending := None))
    case _ => g
  }

  /** Events that record what an activation paid, rolled and changed. */
  function ReduceEffect(g: Game, e: Event): Option<Game> {
    match e.body
    case CostPaid(_, _, _, _, _, _, _, _, _, _) => ReplayCost(g, e)
    case BoostPlanned(p, card, campaign,
                      index) => Some(g.(table :=
                                        g.table.(boosts := g.table.boosts[p := BoostPlan(card, campaign, index)])))
    case BoostApplied(p, card) => Some(SpendBoost(g, p, card))
    case DieRolled(n, p, raw, manual, rng, submitter, _, _, _, _) =>
      var rolled := g.(audit :=
                       g.audit.(dice := g.audit.dice + [DieRoll(n, p, raw, manual, if manual then None else rng,
                                                 if manual then submitter else None, e.head.version)]));
      Some(if g.turn.pending.Some? && g.turn.pending.value.DiePending? then Resume(rolled) else rolled)
    case InfluenceMutated(_, _, _, _, _, _, _) => Some(ReplayInfluence(g, e))
    case LegitimacyChanged(pd, previous, next, reason, id) =>
      Some(g.(board := g.board.(legitimacy := g.board.legitimacy[pd := next]),
              audit := g.audit.(legitimacyLedger :=
                                g.audit.legitimacyLedger +
                                  [LegitimacyEntry(id, pd, previous, next, reason, e.head.version)])))
    case VpChanged(p, reason, delta, balance, id) =>
      Some(g.(purse := g.purse.(vp := g.purse.vp[p := balance]),
              audit := g.audit.(vpLedger :=
                                g.audit.vpLedger + [VpEntry(id, p, reason, delta, balance, e.head.version)])))
    case _ => Some(g)
  }

  predicate IsTurn(b: Body) {
    b.ActionRevealed? || b.ActivationStarted? || b.CampaignCreated? || b.ActionResolved? || b.ActivationCompleted?
  }

  predicate IsEffect(b: Body) {
    b.CostPaid? || b.BoostPlanned? || b.BoostApplied? || b.DieRolled? || b.InfluenceMutated? || b.LegitimacyChanged? ||
      b.VpChanged?
  }

  /** The state change of one event; None where the replay throws. */
  function Reduce(cfg: Config, r: Replica, e: Event): Option<Replica> {
    if IsTurn(e.body) then ReduceTurn(cfg, r, e)
    else if IsEffect(e.body) then
      var changed := ReduceEffect(r.game, e);
      if changed.None? then None else Some(r.(game := changed.value))
    else Some(r.(game := ReduceInput(r.game, e)))
  }

  /** One turn of the replay loop: sequence check, version, reduction, and the event itself. */
  function ReplayEvent(cfg: Config, r: Replica, e: Event): Option<Replica> {
    if e.head.sequence != |r.game.events| + 1 then None
    else
      var reduced := Reduce(cfg, r.(game := r.game.(version := Max(r.game.version, e.head.version))), e);
      if reduced.None? then None
      else Some(reduced.value.(game := reduced.value.game.(events := reduced.value.game.events + [e])))
  }

  function ReplayAll(cfg: Config, r: Replica, events: seq<Event>): Option<Replica> {
    if events == [] then Some(r)
    else
      var before := ReplayAll(cfg, r, events[..|events| - 1]);
      if before.None? then None else ReplayEvent(cfg, before.value, events[|events| - 1])
  }
}
