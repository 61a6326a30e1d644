/**
 The adjudication engine as functions on game values: one function per step of the engine, each
 emitting its events. `EngineObjects.dfy` holds the step-by-step engine that is proved to compute them.
 */
module Adjudication {
  import opened Prelude
  import opened CampaignTypes

  /** Either the committed next state or the error of a rejected command, which commits nothing. */
  datatype Verdict = Commit(game: Game) | Reject(error: Error)

  /** The working state of one activation with the event and ledger references gathered so far. */
  datatype Flow = Flow(game: Game, refs: seq<EventId>, ledgers: seq<LedgerId>)
  datatype FlowResult = Go(flow: Flow) | Stop(error: Error)

  // ---------------------------------------------------------------- events

  function NewEvent(g: Game, env: Envelope, body: Body, cause: Option<Cause>): Event {
    Event(Header(|g.events| + 1, g.version + 1, env.actor, env.participant, env.correlation,
                 if cause.Some? then cause else env.cause), body)
  }

  function Emit(g: Game, env: Envelope, body: Body, cause: Option<Cause>): Game {
    g.(events := g.events + [NewEvent(g, env, body, cause)])
  }

  function LastRef(refs: seq<EventId>): Option<Cause> {
    if refs == [] then None else Some(ByEvent(refs[|refs| - 1]))
  }

  /** Emits the next event of an activation: it is caused by the last reference and becomes one. */
  function Continue(f: Flow, env: Envelope, body: Body): Flow {
    Flow(Emit(f.game, env, body, LastRef(f.refs)), f.refs + [|f.game.events| + 1], f.ledgers)
  }

  // ------------------------------------------------------------- scheduler

  function SlotsOf(plan: map<ParticipantId, seq<Slot>>, p: ParticipantId): seq<Slot> {
    Get(plan, p, [])
  }

  /** Moves a cursor forward to the first locked slot at or after it. */
  function Locate(order: seq<ParticipantId>, plan: map<ParticipantId, seq<Slot>>, c: Cursor): (r: Cursor)
    ensures r.status != Complete ==> r.participant < |order| && r.slot < |SlotsOf(plan, order[r.participant])|
    ensures r.status == Complete || r.status == c.status
    decreases |order| - c.participant
  {
    if c.participant < |order| then
      if c.slot < |SlotsOf(plan, order[c.participant])| then
        if c.status == Complete then c.(status := Complete) else c
      else Locate(order, plan, c.(participant := c.participant + 1, slot := 0))
    else c.(status := Complete)
  }

  function Advance(cfg: Config, g: Game): Game {
    g.(turn := g.turn.(cursor :=
                       Locate(cfg.order, g.turn.plan,
                              Cursor(g.turn.cursor.participant, g.turn.cursor.slot + 1, Ready)), revealed := None))
  }

  /** Position of the slot with the given sequence index, or the length of the list. */
  function FindSlot(slots: seq<Slot>, index: nat): (i: nat)
    ensures i <= |slots|
    ensures i < |slots| ==> slots[i].index == index
    ensures forall j :: 0 <= j < i ==> slots[j].index != index
  {
    if slots == [] then 0
    else if slots[0].index == index then 0
    else 1 + FindSlot(slots[1..], index)
  }

  /** The slot at position `at` of a participant's locked plan exists. */
  predicate HasSlot(g: Game, p: ParticipantId, at: nat) {
    at < |SlotsOf(g.turn.plan, p)|
  }

  function PutSlot(g: Game, p: ParticipantId, at: nat, slot: Slot): Game
    requires HasSlot(g, p, at)
  {
    g.(turn := g.turn.(plan := g.turn.plan[p := g.turn.plan[p][at := slot]]))
  }

  function Settle(g: Game, p: ParticipantId, at: nat, outcome: Outcome): Game
    requires HasSlot(g, p, at)
  {
    PutSlot(g, p, at, g.turn.plan[p][at].(outcome := Some(outcome)))
  }

  function ClosedTurn(cfg: Config, turn: Turn, p: ParticipantId, at: nat, outcome: Outcome): Turn
    requires at < |SlotsOf(turn.plan, p)|
  {
    var plan := turn.plan[p := turn.plan[p][at := turn.plan[p][at].(outcome := Some(outcome))]];
    turn.(plan := plan, revealed := None,
          cursor := Locate(cfg.order, plan, Cursor(turn.cursor.participant, turn.cursor.slot + 1, Ready)))
  }

  /** The turn waits for an input: nothing but the suspended resolution and the cursor status is different. */
  predicate Holds(before: Turn, after: Turn) {
    after.pending.Some? && after == before.(pending := after.pending, cursor := before.cursor.(status := Suspended))
  }

  /** Exactly the slot at `at` of participant p has been settled, and the cursor has moved on. */
  predicate Closes(cfg: Config, before: Turn, after: Turn, p: ParticipantId, at: nat) {
    at < |SlotsOf(before.plan, p)| && at < |SlotsOf(after.plan, p)| && after.plan[p][at].outcome.Some? &&
    after == ClosedTurn(cfg, before, p, at, after.plan[p][at].outcome.value)
  }

  predicate HoldsOrCloses(cfg: Config, before: Turn, after: Turn, p: ParticipantId, at: nat) {
    Holds(before, after) || Closes(cfg, before, after, p, at)
  }

  function Show(g: Game, revealed: Revealed): Game {
    g.(turn := g.turn.(revealed := Some(revealed)))
  }

  function Reveal(g: Game, env: Envelope, p: ParticipantId, at: nat): (r: Game)
    requires HasSlot(g, p, at)
    ensures r == g.(turn := g.turn.(plan := r.turn.plan, revealed := r.turn.revealed), events := r.events)
    ensures HasSlot(r, p, at) && r.turn.plan[p][at] == g.turn.plan[p][at].(revealed := true)
  {
    var slot := g.turn.plan[p][at];
    var g1 := Emit(g, env, ActionRevealed(p, slot.index), None);
    Show(PutSlot(g1, p, at, slot.(revealed := true)), Revealed(p, slot.index, slot.action))
  }

  // ----------------------------------------------------------------- cards

  predicate InZone(g: Game, card: CardId, p: ParticipantId, zone: Zone) {
    card in g.table.cards && g.table.cards[card].controller == Some(p) && g.table.cards[card].zone == zone
  }

  function TakeIntoCampaign(g: Game, p: ParticipantId, card: CardId): (r: Game)
    ensures r == g.(table := g.table.(cards := r.table.cards, holdings := r.table.holdings))
  {
    if card !in g.table.cards then g else
    var g1 := g.(table := g.table.(cards := g.table.cards[card := g.table.cards[card].(zone := InCampaign)]));
    if p !in g.table.holdings then g1 else
    g1.(table := g1.table.(holdings :=
                           g.table.holdings[p := g.table.holdings[p].(hand :=
                               Without(g.table.holdings[p].hand, card))]))
  }

  function DiscardFromHand(g: Game, p: ParticipantId, card: CardId): Game {
    var g1 := if card !in g.table.cards then g
      else g.(table := g.table.(cards := g.table.cards[card := g.table.cards[card].(zone := Discard)]));
    if p !in g.table.holdings then g1 else
    var h := g.table.holdings[p];
    g1.(table := g1.table.(holdings := g.table.holdings[p := Holdings(Without(h.hand, card),
                                             if card in h.discard then h.discard else h.discard + [card])]))
  }

  // ------------------------------------------------------- construct, boost

  function CardsOf(a: Action): seq<CardId>
    requires a.Construct?
  {
    [a.intent, a.method_] + if a.amplifier.Some? then [a.amplifier.value] else []
  }

  function SlotInfluence(cfg: Config, g: Game, slot: ComponentSlot, card: CardId): Option<nat> {
    if card in g.table.cards && g.table.cards[card].definition in cfg.rules &&
       slot in cfg.rules[g.table.cards[card].definition].values
    then Some(cfg.rules[g.table.cards[card].definition].values[slot]) else None
  }

  function ConstructError(cfg: Config, g: Game, p: ParticipantId, a: Action): Option<Error>
    requires a.Construct?
  {
    var cards := CardsOf(a);
    if CampaignOf(p) in g.board.campaigns then Some(CampaignIdConflict)
    else if exists c ::
              c in g.board.campaigns && g.board.campaigns[c].owner == p && g.board.campaigns[c].row == RowI
    then Some(CampaignRowOccupied)
    else if exists i, j :: 0 <= i < j < |cards| && cards[i] == cards[j] then Some(DuplicateCard)
    else if exists c :: c in cards && (c !in g.table.cards || g.table.cards[c].controller != Some(p))
    then Some(CardNotControlled)
    else if exists c :: c in cards && g.table.cards[c].zone != Hand then Some(CardWrongZone)
    else if SlotInfluence(cfg, g, Intent, a.intent).None? || SlotInfluence(cfg, g, Method, a.method_).None? ||
            (a.amplifier.Some? && SlotInfluence(cfg, g, Amplifier, a.amplifier.value).None?) then Some(CardNotEligible)
    else
      var intent := cfg.rules[g.table.cards[a.intent].definition];
      if intent.alignment == Dual then Some(AlignmentMismatch)
      else if exists c ::
                c in cards[1..] && cfg.rules[g.table.cards[c].definition].alignment != Dual &&
                cfg.rules[g.table.cards[c].definition].alignment != intent.alignment
      then Some(AlignmentMismatch)
      else if !intent.anyTarget || !exists pd :: pd in cfg.pds && a.targetDt in cfg.pds[pd] then Some(InvalidDt)
      else None
  }

  function AssignmentOf(cfg: Config, g: Game, slot: ComponentSlot, card: CardId): Assignment
    requires SlotInfluence(cfg, g, slot, card).Some?
  {
    Assignment(slot, card, g.table.cards[card].definition, SlotInfluence(cfg, g, slot, card).value)
  }

  function AssignmentsOf(cfg: Config, g: Game, intent: CardId, method_: CardId,
                         amplifier: Option<CardId>): seq<Assignment>
    requires SlotInfluence(cfg, g, Intent, intent).Some? && SlotInfluence(cfg, g, Method, method_).Some?
    requires amplifier.Some? ==> SlotInfluence(cfg, g, Amplifier, amplifier.value).Some?
  {
    [AssignmentOf(cfg, g, Intent, intent), AssignmentOf(cfg, g, Method, method_)] +
    if amplifier.Some? then [AssignmentOf(cfg, g, Amplifier, amplifier.value)] else []
  }

  function ConstructCampaign(cfg: Config, g: Game, env: Envelope, p: ParticipantId, a: Action,
                             cause: EventId): (r: Game)
    requires a.Construct? && ConstructError(cfg, g, p, a).None?
    ensures r == g.(board := g.board.(campaigns := r.board.campaigns),
                    table := g.table.(cards := r.table.cards, holdings := r.table.holdings), events := r.events)
  {
    var alignment := cfg.rules[g.table.cards[a.intent].definition].alignment.alignment;
    var campaign := Campaign(p, RowI, alignment, a.targetDt, AssignmentsOf(cfg, g, a.intent, a.method_, a.amplifier),
                             0);
    var g1 := g.(board := g.board.(campaigns := g.board.campaigns[CampaignOf(p) := campaign]));
    var g2 := TakeIntoCampaign(TakeIntoCampaign(g1, p, a.intent), p, a.method_);
    var g3 := if a.amplifier.Some? then TakeIntoCampaign(g2, p, a.amplifier.value) else g2;
    Emit(g3, env, CampaignCreated(CampaignOf(p), p, alignment, a.targetDt, a.intent, a.method_, a.amplifier),
         Some(ByEvent(cause)))
  }

  /** A slot that is settled without opening an activation ends with its ACTION_RESOLVED event. */
  function CloseSlot(cfg: Config, g: Game, env: Envelope, p: ParticipantId, at: nat, outcome: Outcome,
                     cause: Option<Cause>): Game
    requires HasSlot(g, p, at)
  {
    Emit(Advance(cfg, Settle(g, p, at, outcome)), env, ActionResolved(p, g.turn.plan[p][at].index, outcome), cause)
  }

  /** The first slot with this sequence index activates the campaign. */
  predicate LinksActivation(slots: seq<Slot>, index: nat, c: CampaignId) {
    var at := FindSlot(slots, index);
    at < |slots| && slots[at].action.Activate? && slots[at].action.campaign == c
  }

  function BoostError(cfg: Config, g: Game, p: ParticipantId, a: Action): Option<Error>
    requires a.PlayBoost?
  {
    if !InZone(g, a.card, p, Hand) || g.table.cards[a.card].definition != BOOST_CARD ||
       a.campaign !in g.board.campaigns || g.board.campaigns[a.campaign].owner != p ||
       !LinksActivation(SlotsOf(g.turn.plan, p), a.activationIndex, a.campaign) then Some(CardNotEligible)
    else if p in g.table.boosts then Some(InvalidActionPlan)
    else None
  }

  // ------------------------------------------------------------ activation

  function TierFor(value: nat): Tier {
    if value <= 6 then Low else if value <= 11 then Medium else High
  }

  function ComponentCosts(assignments: seq<Assignment>): seq<nat> {
    if assignments == [] then []
    else
      (if assignments[0].definition == COMPONENT_COST_ONE_CARD then [1]
       else if assignments[0].definition == COMPONENT_COST_THREE_CARD then [3] else [])
      + ComponentCosts(assignments[1..])
  }

  function Sum(costs: seq<nat>): nat {
    if costs == [] then 0 else Sum(costs[..|costs| - 1]) + costs[|costs| - 1]
  }

  function CoreCost(core: bool): nat { if core then 2 else 0 }

  function TotalCost(campaign: Campaign, cost: nat, core: bool): nat {
    cost + Sum(ComponentCosts(campaign.assignments)) + CoreCost(core)
  }

  function Balance(g: Game, c: CountryId): int { Get(g.purse.resources, c, 0) }
  function VpOf(g: Game, p: ParticipantId): int { Get(g.purse.vp, p, 0) }
  function HolderOf(g: Game, pd: PdId): Option<ParticipantId> { Get(g.board.legitimacy, pd, None) }

  function ActivationOf(g: Game, c: CampaignId): ActivationId
    requires c in g.board.campaigns
  {
    ActivationId(c, g.board.campaigns[c].activations + 1)
  }

  function ActivationError(cfg: Config, g: Game, p: ParticipantId, a: Action): Option<Error>
    requires a.Activate?
  {
    if a.campaign !in g.board.campaigns then Some(CampaignNotFound)
    else
      var campaign := g.board.campaigns[a.campaign];
      if campaign.owner != p then Some(CampaignNotOwned)
      else if campaign.activations > 0 then Some(CampaignAlreadyActivated)
      else if a.target.None? || a.target.value !in cfg.pds then Some(InvalidTargetPd)
      else if campaign.targetDt !in cfg.pds[a.target.value] then Some(InvalidDt)
      else if p !in cfg.seats then Some(InvalidActor)
      else if a.useCore && p in g.purse.coreUsed then Some(RollModifierAlreadyUsed)
      else None
  }

  /** What a snapshot digest of the gameplay covers: everything but the append-only audit records and planned boosts. */
  function Gameplay(g: Game, version: nat): Game {
    g.(version := version, table := g.table.(boosts := map[]),
       audit := g.audit.(dice := [], resourceLedger := [], influenceLedger := [], legitimacyLedger := [],
                         vpLedger := [], resolutions := []), events := [])
  }

  function BaseFor(g: Game, env: Envelope, p: ParticipantId, at: nat, c: CampaignId): PendingBase
    requires c in g.board.campaigns && HasSlot(g, p, at)
  {
    PendingBase(ActivationOf(g, c), p, g.turn.plan[p][at].index, c, env.correlation, |g.events| + 1)
  }

  function HoldOn(g: Game, pending: Pending): Game {
    g.(turn := g.turn.(pending := Some(pending), cursor := g.turn.cursor.(status := Suspended)))
  }

  /** Stores a suspended resolution together with the event that requests its input. */
  function Suspend(g: Game, env: Envelope, body: Body, cause: Option<Cause>, pending: Pending): Game {
    HoldOn(Emit(g, env, body, cause), pending)
  }

  function Resume(g: Game): Game {
    g.(turn := g.turn.(pending := None, cursor := g.turn.cursor.(status := Ready)))
  }

  function ContinuationOf(cfg: Config, g: Game, p: ParticipantId, a: Action, hash: int,
                          refs: seq<EventId>): (k: NarrativeContinuation)
    requires a.Activate? && ActivationError(cfg, g, p, a).None?
    ensures k.country == cfg.seats[p] && k.core == a.useCore && k.refs == refs
    ensures k.cost == cfg.valueOf(g.board.campaigns[a.campaign].assignments).cost
  {
    var value := cfg.valueOf(g.board.campaigns[a.campaign].assignments);
    NarrativeContinuation(a.target.value, cfg.seats[p], value.baseCv, value.effectiveCv, value.baseTier,
                          value.cost, a.useCore, hash, refs)
  }

  /** The first step of an ACTIVATE slot: fail for cost, ask for a narrative, or go on with a seeded one. */
  function StartActivation(cfg: Config, g: Game, env: Envelope, p: ParticipantId, at: nat, a: Action,
                           hash: int, refs: seq<EventId>, die: Option<int>): (v: Verdict)
    requires a.Activate? && HasSlot(g, p, at)
    ensures v.Commit? ==> v.game.version == g.version
    ensures v.Commit? ==> HoldsOrCloses(cfg, g.turn, v.game.turn, p, at)
  {
    if ActivationError(cfg, g, p, a).Some? then Reject(ActivationError(cfg, g, p, a).value)
    else
      var campaign := g.board.campaigns[a.campaign];
      var value := cfg.valueOf(campaign.assignments);
      if Balance(g, cfg.seats[p]) < TotalCost(campaign, value.cost, a.useCore) then
        Commit(CloseSlot(cfg, g, env, p, at, FailedCost, LastRef(refs)))
      else
        var started := Continue(Flow(g, refs, []), env,
          ActivationStarted(ActivationOf(g, a.campaign), a.campaign, p, a.target.value, hash));
        var k := ContinuationOf(cfg, g, p, a, hash, started.refs);
        if a.campaign !in g.board.narratives then
          var pending := NarrativePending(BaseFor(started.game, env, p, at, a.campaign), k);
          Commit(Suspend(started.game, env, NarrativeRequested(pending), LastRef(started.refs), pending))
        else
          var n := g.board.narratives[a.campaign];
          if n.source != Fixture || n.participant.Some? then Reject(NarrativeProvenance)
          else
            var told := Continue(started, Envelope(n.actor, None, n.correlation, Some(n.cause)),
              NarrativeSubmitted(a.campaign, n.inputId, n.source, n.text, Some(n.cause)));
            AfterNarrative(cfg, told, env, p, at, a.campaign, k, Undecided, die, None)
  }

  datatype Coalition = Undecided | Decided(bonus: nat)
  datatype ManualRoll = ManualRoll(value: int, submitter: ParticipantId)

  predicate NeedsCoalition(campaign: Campaign) {
    exists i :: 0 <= i < |campaign.assignments| && campaign.assignments[i].definition == COALITION_CARD
  }

  /** The other players, in initiative order. */
  function Allies(cfg: Config, order: seq<ParticipantId>, p: ParticipantId): (r: seq<ParticipantId>)
    ensures forall q :: q in r ==> q in order && q != p && q in cfg.players
  {
    if order == [] then []
    else if order[0] != p && order[0] in cfg.players then [order[0]] + Allies(cfg, order[1..], p)
    else Allies(cfg, order[1..], p)
  }

  function PreRoll(f: Flow, env: Envelope): (r: Flow)
    ensures r.game == f.game.(events := r.game.events)
  {
    Continue(Continue(Continue(f, env, PreRollReaction(0)), env, PreRollReaction(1)), env, PreRollReaction(2))
  }

  function AskCoalition(cfg: Config, f: Flow, env: Envelope, p: ParticipantId, at: nat, c: CampaignId,
                        k: NarrativeContinuation): Game
    requires c in f.game.board.campaigns && HasSlot(f.game, p, at)
  {
    var pending := CoalitionPending(BaseFor(f.game, env, p, at, c), k, Allies(cfg, cfg.order, p), [], map[],
                                    f.refs + [|f.game.events| + 1], []);
    Suspend(f.game, env, CoalitionRequested(pending), LastRef(f.refs), pending)
  }

  function AskDie(f: Flow, env: Envelope, p: ParticipantId, at: nat, c: CampaignId, k: NarrativeContinuation,
                  bonus: nat): Game
    requires c in f.game.board.campaigns && HasSlot(f.game, p, at)
  {
    var pending := DiePending(BaseFor(f.game, env, p, at, c), k, bonus, f.refs + [|f.game.events| + 1], f.ledgers);
    Suspend(f.game, env, DieRequested(pending), LastRef(f.refs), pending)
  }

  /** From the narrative on: ask the coalition, ask for a manual die, or pay, roll and resolve. */
  function AfterNarrative(cfg: Config, f: Flow, env: Envelope, p: ParticipantId, at: nat, c: CampaignId,
                          k: NarrativeContinuation, coalition: Coalition, die: Option<int>,
                            manual: Option<ManualRoll>): (v: Verdict)
    ensures v.Commit? ==> v.game.version == f.game.version
    ensures v.Commit? ==> HoldsOrCloses(cfg, f.game.turn, v.game.turn, p, at)
  {
    var g := f.game;
    if c !in g.board.campaigns || !HasSlot(g, p, at) then Reject(ObjectNoLongerValid)
    else
      if NeedsCoalition(g.board.campaigns[c]) && coalition.Undecided? && Allies(cfg, cfg.order, p) != [] then
        Commit(AskCoalition(cfg, f, env, p, at, c, k))
      else
        var bonus := if coalition.Decided? then coalition.bonus else 0;
        var ready := if manual.None? then PreRoll(f, env) else f;
        if cfg.manualDice && manual.None? then Commit(AskDie(ready, env, p, at, c, k, bonus))
        else
          RollAndResolve(cfg, ready, env, p, at, c, k, bonus, die, manual)
  }

  function RollAndResolve(cfg: Config, f: Flow, env: Envelope, p: ParticipantId, at: nat, c: CampaignId,
                          k: NarrativeContinuation, bonus: nat, die: Option<int>,
                            manual: Option<ManualRoll>): (v: Verdict)
    requires c in f.game.board.campaigns && HasSlot(f.game, p, at)
    ensures v.Commit? ==> v.game.version == f.game.version
    ensures v.Commit? ==> HoldsOrCloses(cfg, f.game.turn, v.game.turn, p, at)
  {
    var paid := Pay(f, env, p, c, k);
    if paid.Stop? then Reject(paid.error)
    else
      var boosted := ApplyBoost(paid.flow, env, p, f.game.turn.plan[p][at].index, c);
      if boosted.Stop? then Reject(boosted.error)
      else
        var boost := if BoostApplies(f.game, p, f.game.turn.plan[p][at].index, c) then 1 else 0;
        var raw := RollValue(die, manual);
        if raw.None? then Reject(RandomProviderFailure)
        else
          var rolled := Roll(cfg, boosted.flow, env, p, c, k, bonus, boost, raw.value, manual);
          Resolve(cfg, rolled, env, at,
                  ResolutionInput(cfg, boosted.flow.game, p, f.game.turn.plan[p][at].index, c, k, bonus, boost,
                                  raw.value))
  }

  // ------------------------------------------------------------------- pay

  function PushResource(g: Game, p: ParticipantId, country: CountryId, reason: ResourceReason, delta: int,
                        balance: int): Game {
    g.(audit := g.audit.(resourceLedger := g.audit.resourceLedger +
         [ResourceEntry(ResourceLedger(|g.audit.resourceLedger| + 1), p, country, reason, delta, balance,
                        g.version + 1)]))
  }

  function SetBalance(g: Game, country: CountryId, balance: int): Game {
    g.(purse := g.purse.(resources := g.purse.resources[country := balance]))
  }

  function UseCore(g: Game, p: ParticipantId): Game {
    g.(purse := g.purse.(coreUsed := g.purse.coreUsed + {p}))
  }

  /** One ledger entry per component cost, from the balance left by the tier cost. */
  function PushComponents(g: Game, p: ParticipantId, country: CountryId, costs: seq<nat>, balance: int): (r: Game)
    ensures r == g.(audit := g.audit.(resourceLedger := r.audit.resourceLedger))
    ensures |r.audit.resourceLedger| == |g.audit.resourceLedger| + |costs|
  {
    if costs == [] then g
    else
      var g1 := PushComponents(g, p, country, costs[..|costs| - 1], balance);
      PushResource(g1, p, country, ComponentCost, -(costs[|costs| - 1] as int), balance - Sum(costs))
  }

  function ResourceIds(from: nat, count: nat): (ids: seq<LedgerId>)
    ensures |ids| == count
    ensures forall i :: 0 <= i < count ==> ids[i] == ResourceLedger(from + i)
  {
    seq(count, i requires 0 <= i < count => ResourceLedger(from + i))
  }

  /** What the engine has booked when it emits CAMPAIGN_COST_PAID: one entry for each part of the total. */
  function Booked(g: Game, p: ParticipantId, country: CountryId, cost: nat, costs: seq<nat>, core: bool): (r: Game)
    ensures r == g.(purse := g.purse.(resources := r.purse.resources, coreUsed := r.purse.coreUsed),
                    audit := g.audit.(resourceLedger := r.audit.resourceLedger))
  {
    var before := Balance(g, country);
    var after := before - cost - Sum(costs) - CoreCost(core);
    var g1 := PushResource(SetBalance(g, country, after), p, country, ActivationCost, -(cost as int), before - cost);
    var g2 := PushComponents(g1, p, country, costs, before - cost);
    if core then UseCore(PushResource(g2, p, country, CoreModifier, -2, after), p) else g2
  }

  function Receipt(g: Game, p: ParticipantId, country: CountryId, cost: nat, costs: seq<nat>, core: bool): Body {
    var first := |g.audit.resourceLedger| + 1;
    CostPaid(p, country, cost + Sum(costs) + CoreCost(core), cost, costs, ResourceIds(first + 1, |costs|),
             CoreCost(core),
             if core then Some(ResourceLedger(first + 1 + |costs|)) else None,
             Balance(g, country) - cost - Sum(costs) - CoreCost(core), ResourceLedger(first))
  }

  function Pay(f: Flow, env: Envelope, p: ParticipantId, c: CampaignId, k: NarrativeContinuation): (r: FlowResult)
    requires c in f.game.board.campaigns
    ensures r.Go? ==>
              var g := r.flow.game;
              g == f.game.(purse := f.game.purse.(resources := g.purse.resources, coreUsed := g.purse.coreUsed),
                           audit := f.game.audit.(resourceLedger := g.audit.resourceLedger), events := g.events)
  {
    var g := f.game;
    if k.core && p in g.purse.coreUsed then Stop(RollModifierAlreadyUsed)
    else if Balance(g, k.country) < TotalCost(g.board.campaigns[c], k.cost, k.core) then Stop(CostPaymentFailed)
    else
      var costs := ComponentCosts(g.board.campaigns[c].assignments);
      var ids := ResourceIds(|g.audit.resourceLedger| + 1, 1 + |costs| + if k.core then 1 else 0);
      Go(Continue(Flow(Booked(g, p, k.country, k.cost, costs, k.core), f.refs, f.ledgers), env,
                  Receipt(g, p, k.country, k.cost, costs, k.core)).(ledgers := f.ledgers + ids))
  }

  // ----------------------------------------------------------------- boost

  predicate BoostApplies(g: Game, p: ParticipantId, index: nat, c: CampaignId) {
    p in g.table.boosts && g.table.boosts[p].campaign == c && g.table.boosts[p].activationIndex == index
  }

  function SpendBoost(g: Game, p: ParticipantId, card: CardId): (r: Game)
    ensures r == g.(table := r.table)
  {
    var g1 := DiscardFromHand(g, p, card);
    g1.(table := g1.table.(boosts := g1.table.boosts - {p}))
  }

  function ApplyBoost(f: Flow, env: Envelope, p: ParticipantId, index: nat, c: CampaignId): (r: FlowResult)
    ensures r.Go? ==>
              var g := r.flow.game;
              g == f.game.(table := f.game.table.(cards := g.table.cards, holdings := g.table.holdings,
                                                  boosts := g.table.boosts), events := g.events)
  {
    var g := f.game;
    if !BoostApplies(g, p, index, c) then Go(f)
    else
      var card := g.table.boosts[p].card;
      if !InZone(g, card, p, Hand) || g.table.cards[card].definition != BOOST_CARD ||
        p !in g.table.holdings then Stop(CardNotEligible)
      else
        var g1 := SpendBoost(g, p, card);
        Go(Continue(Flow(g1, f.refs, f.ledgers), env, BoostApplied(p, card)))
  }

  // ------------------------------------------------------------------ roll

  /** The value rolled: a submitted die is taken as it is, a provider answer must lie in 1..10. */
  function RollValue(die: Option<int>, manual: Option<ManualRoll>): Option<int> {
    if manual.Some? then Some(manual.value.value)
    else if die.Some? && 1 <= die.value <= 10 then die
    else None
  }

  function CoreBonus(core: bool): int { if core then 1 else 0 }

  function NormaliseRoll(modified: int): int { Min(10, Max(1, modified)) }

  function LegitimacyModifier(g: Game, p: ParticipantId, k: NarrativeContinuation): int {
    if HolderOf(g, k.target) == Some(p) then 1 else 0
  }

  function ErtRoll(g: Game, p: ParticipantId, k: NarrativeContinuation, boost: int, raw: int): int {
    NormaliseRoll(raw + LegitimacyModifier(g, p, k) + boost + CoreBonus(k.core))
  }

  function ErtResult(cfg: Config, g: Game, p: ParticipantId, c: CampaignId, k: NarrativeContinuation, bonus: nat,
                     boost: int, raw: int): int
    requires c in g.board.campaigns
  {
    cfg.ert(TierFor(k.effectiveCv + bonus), g.board.campaigns[c].alignment, ErtRoll(g, p, k, boost, raw))
  }

  function Roll(cfg: Config, f: Flow, env: Envelope, p: ParticipantId, c: CampaignId, k: NarrativeContinuation,
                bonus: nat, boost: int, raw: int, manual: Option<ManualRoll>): (r: Flow)
    requires c in f.game.board.campaigns
    ensures r.game == f.game.(audit := f.game.audit.(dice := r.game.audit.dice), events := r.game.events)
  {
    var g := f.game;
    var n := |g.audit.dice| + 1;
    var rng := if manual.None? then Some(n) else None;
    var submitter := if manual.Some? then Some(manual.value.submitter) else None;
    var g1 := g.(audit := g.audit.(dice :=
                                   g.audit.dice + [DieRoll(n, p, raw, manual.Some?, rng, submitter, g.version + 1)]));
    var rolled := Continue(Flow(g1, f.refs, f.ledgers), env,
      DieRolled(n, p, raw, manual.Some?, rng, submitter, LegitimacyModifier(g, p, k), boost, CoreBonus(k.core),
                ErtRoll(g, p, k, boost, raw)));
    Continue(rolled, env,
      ErtResolved(k.effectiveCv + bonus, TierFor(k.effectiveCv + bonus), ErtResult(cfg, g, p, c, k, bonus, boost, raw)))
  }

  // --------------------------------------------------------------- resolve

  function ResolutionInput(cfg: Config, g: Game, p: ParticipantId, index: nat, c: CampaignId,
                           k: NarrativeContinuation, bonus: nat, boost: int, raw: int): (i: Impact)
    requires c in g.board.campaigns
    ensures i.participant == p && i.campaign == c
  {
    var result := ErtResult(cfg, g, p, c, k, bonus, boost, raw);
    var own := g.board.campaigns[c].alignment;
    Impact(p, index, c, k.target, if result >= 0 then own else own.Opposite(), k.country,
           if result >= 0 then result else -result, result, VpOf(g, p), HolderOf(g, k.target))
  }

  function CountOn(stacks: seq<Stack>, pd: PdId, kind: Alignment): nat {
    if stacks == [] then 0
    else CountOn(stacks[..|stacks| - 1], pd, kind) +
         if stacks[|stacks| - 1].pd == pd && stacks[|stacks| - 1].kind == kind then stacks[|stacks| - 1].count else 0
  }

  /** Two generated cubes cancel one opposing cube, for as many as there are; the rest is placed. */
  datatype TwoToOne = TwoToOne(removed: nat, placed: nat)
  function ResolveTwoToOne(generated: nat, opposing: nat): (r: TwoToOne)
    ensures generated == r.placed + 2 * r.removed
    ensures r.removed <= opposing
    ensures r.removed < opposing ==> r.placed <= 1
  {
    var removed := Min(generated / 2, opposing);
    TwoToOne(removed, generated - 2 * removed)
  }

  function Effect(g: Game, i: Impact): TwoToOne {
    ResolveTwoToOne(i.generated, CountOn(g.board.stacks, i.target, i.kind.Opposite()))
  }

  predicate Attributed(stacks: seq<Stack>, pd: PdId, kind: Alignment, country: CountryId) {
    exists s :: s in stacks && s.pd == pd && s.kind == kind && s.attribution == country && s.count > 0
  }

  /** The countries among `countries` with at least one such cube on the PD, in the same order. */
  function Attributions(stacks: seq<Stack>, pd: PdId, kind: Alignment, countries: seq<CountryId>): seq<CountryId> {
    if countries == [] then []
    else
      (if Attributed(stacks, pd, kind, countries[0]) then [countries[0]] else [])
      + Attributions(stacks, pd, kind, countries[1..])
  }

  function SourcesOf(g: Game, i: Impact): seq<CountryId> {
    Attributions(g.board.stacks, i.target, i.kind.Opposite(), COUNTRIES)
  }

  /** Cubes are taken country by country, `removals` at most. */
  function AutomaticSelections(stacks: seq<Stack>, pd: PdId, kind: Alignment, countries: seq<CountryId>,
                               removals: nat): (sel: seq<CountryId>)
    ensures |sel| <= removals
  {
    if countries == [] then []
    else
      var first := TakeFrom(stacks, pd, kind, countries[0], removals);
      first + AutomaticSelections(stacks, pd, kind, countries[1..], removals - |first|)
  }

  function Copies(country: CountryId, count: nat): (r: seq<CountryId>)
    ensures |r| == count && forall n :: 0 <= n < count ==> r[n] == country
  {
    if count == 0 then [] else Copies(country, count - 1) + [country]
  }

  function TakeFrom(stacks: seq<Stack>, pd: PdId, kind: Alignment, country: CountryId,
                    removals: nat): (sel: seq<CountryId>)
    ensures |sel| <= removals
    ensures forall i :: 0 <= i < |sel| ==> sel[i] == country
  {
    if stacks == [] then []
    else
      var s := stacks[0];
      var here := if s.pd == pd && s.kind == kind && s.attribution == country then Min(s.count, removals) else 0;
      Copies(country, here) + TakeFrom(stacks[1..], pd, kind, country, removals - here)
  }

  function Resolve(cfg: Config, f: Flow, env: Envelope, at: nat, i: Impact): (v: Verdict)
    requires HasSlot(f.game, i.participant, at) && i.campaign in f.game.board.campaigns
    ensures v.Commit? ==> v.game.version == f.game.version
    ensures v.Commit? ==> HoldsOrCloses(cfg, f.game.turn, v.game.turn, i.participant, at)
  {
    var removals := Effect(f.game, i).removed;
    var sources := SourcesOf(f.game, i);
    if removals > 0 && |sources| > 1 then
      var choice := CampaignContinuation(i, removals, sources, f.refs + [|f.game.events| + 1], f.ledgers);
      var pending := ChoicePending(BaseFor(f.game, env, i.participant, at, i.campaign), choice);
      Commit(Suspend(f.game, env, ChoiceRequested(pending), LastRef(f.refs), pending))
    else
      CompleteActivation(cfg, f, env, at, i,
                         AutomaticSelections(f.game.board.stacks, i.target, i.kind.Opposite(), COUNTRIES, removals))
  }

  /** Position of the first stack with this key and at least `least` cubes, or the length of the list. */
  function FindStack(stacks: seq<Stack>, pd: PdId, kind: Alignment, country: CountryId, least: nat): (r: nat)
    ensures r <= |stacks|
    ensures r < |stacks| ==>
              stacks[r].pd == pd && stacks[r].kind == kind && stacks[r].attribution == country &&
              stacks[r].count >= least
    ensures forall j :: 0 <= j < r ==>
            !(stacks[j].pd == pd && stacks[j].kind == kind && stacks[j].attribution == country &&
              stacks[j].count >= least)
  {
    if stacks == [] then 0
    else if stacks[0].pd == pd && stacks[0].kind == kind && stacks[0].attribution == country &&
      stacks[0].count >= least then 0
    else 1 + FindStack(stacks[1..], pd, kind, country, least)
  }

  /** Records an influence change that has been made and emits its event. */
  function RecordInfluence(f: Flow, env: Envelope, stacks: seq<Stack>, pd: PdId, kind: Alignment, country: CountryId,
                           reason: InfluenceReason, delta: int, balance: nat): (r: Flow)
    ensures r.game == f.game.(board := f.game.board.(stacks := stacks),
                              audit := f.game.audit.(influenceLedger := r.game.audit.influenceLedger),
                                events := r.game.events)
  {
    var g := f.game;
    var id := InfluenceLedger(|g.audit.influenceLedger| + 1);
    var g1 := g.(board := g.board.(stacks := stacks),
                 audit := g.audit.(influenceLedger :=
                                   g.audit.influenceLedger +
                                     [InfluenceEntry(id, pd, kind, country, reason, delta, balance, g.version + 1)]));
    Continue(Flow(g1, f.refs, f.ledgers + [id]), env, InfluenceMutated(pd, kind, country, reason, delta, balance, id))
  }

  function RemoveCube(f: Flow, env: Envelope, i: Impact, country: CountryId): FlowResult {
    var stacks := f.game.board.stacks;
    var n := FindStack(stacks, i.target, i.kind.Opposite(), country, 1);
    if n == |stacks| then Stop(InvalidChoiceOption)
    else
      var left := stacks[n].count - 1;
      Go(RecordInfluence(f, env, stacks[n := stacks[n].(count := left)], i.target, i.kind.Opposite(), country,
                         Cancelled, -1, left))
  }

  function RemoveCubes(f: Flow, env: Envelope, i: Impact, selection: seq<CountryId>): (r: FlowResult)
    ensures r.Go? ==>
              var g := r.flow.game;
              g == f.game.(board := f.game.board.(stacks := g.board.stacks),
                           audit := f.game.audit.(influenceLedger := g.audit.influenceLedger), events := g.events)
  {
    if selection == [] then Go(f)
    else
      var r := RemoveCubes(f, env, i, selection[..|selection| - 1]);
      if r.Stop? then r else RemoveCube(r.flow, env, i, selection[|selection| - 1])
  }

  /** The board with the cubes added to the stack of their country, which is created if missing. */
  function AddCubes(stacks: seq<Stack>, i: Impact, placed: nat): seq<Stack> {
    if placed == 0 then stacks
    else
      var n := FindStack(stacks, i.target, i.kind, i.attribution, 0);
      if n < |stacks| then stacks[n := stacks[n].(count := stacks[n].count + placed)]
      else stacks + [Stack(i.target, i.kind, i.attribution, placed)]
  }

  function PlaceCubes(f: Flow, env: Envelope, i: Impact, placed: nat): (r: Flow)
    ensures r.game == f.game.(board := f.game.board.(stacks := r.game.board.stacks),
                              audit := f.game.audit.(influenceLedger := r.game.audit.influenceLedger),
                                events := r.game.events)
    ensures r.game.board.stacks == AddCubes(f.game.board.stacks, i, placed)
  {
    if placed == 0 then f
    else
      var stacks := f.game.board.stacks;
      var n := FindStack(stacks, i.target, i.kind, i.attribution, 0);
      var before := if n < |stacks| then stacks[n].count else 0;
      RecordInfluence(f, env, AddCubes(stacks, i, placed), i.target, i.kind, i.attribution, Placed, placed,
                      before + placed)
  }

  function Tally(selection: seq<CountryId>): map<CountryId, nat> {
    if selection == [] then map[]
    else
      var m := Tally(selection[..|selection| - 1]);
      var last := selection[|selection| - 1];
      m[last := Get(m, last, 0) + 1]
  }

  function AddVp(f: Flow, env: Envelope, p: ParticipantId, reason: VpReason, delta: int, before: int): (r: Flow)
    ensures r.game == f.game.(purse := f.game.purse.(vp := f.game.purse.vp[p := before + delta]),
                              audit := f.game.audit.(vpLedger := r.game.audit.vpLedger), events := r.game.events)
  {
    var g := f.game;
    var id := VpLedger(|g.audit.vpLedger| + 1);
    var g1 := g.(purse := g.purse.(vp := g.purse.vp[p := before + delta]),
                 audit := g.audit.(vpLedger :=
                                   g.audit.vpLedger + [VpEntry(id, p, reason, delta, before + delta, g.version + 1)]));
    Continue(Flow(g1, f.refs, f.ledgers + [id]), env, VpChanged(p, reason, delta, before + delta, id))
  }

  function ChangeHolder(f: Flow, env: Envelope, pd: PdId, previous: Option<ParticipantId>, next: Option<ParticipantId>,
                        reason: LegitimacyReason): (r: Flow)
    ensures r.game == f.game.(board := f.game.board.(legitimacy := f.game.board.legitimacy[pd := next]),
                              audit := f.game.audit.(legitimacyLedger := r.game.audit.legitimacyLedger),
                                events := r.game.events)
  {
    var g := f.game;
    var id := LegitimacyLedger(|g.audit.legitimacyLedger| + 1);
    var g1 := g.(board := g.board.(legitimacy := g.board.legitimacy[pd := next]),
                 audit := g.audit.(legitimacyLedger :=
                                   g.audit.legitimacyLedger +
                                     [LegitimacyEntry(id, pd, previous, next, reason, g.version + 1)]));
    Continue(Flow(g1, f.refs, f.ledgers + [id]), env, LegitimacyChanged(pd, previous, next, reason, id))
  }

  /** Victory points and legitimacy that follow from the cubes placed. */
  function Award(f: Flow, env: Envelope, i: Impact, placed: nat): (r: Flow)
    ensures r.game == f.game.(purse := f.game.purse.(vp := r.game.purse.vp),
                              audit := f.game.audit.(vpLedger := r.game.audit.vpLedger,
                                                     legitimacyLedger := r.game.audit.legitimacyLedger),
                                                       board := f.game.board.(legitimacy := r.game.board.legitimacy),
                                                         events := r.game.events)
  {
    var vp := VpOf(f.game, i.participant);
    if i.ertResult > 0 && placed > 0 then
      var f1 := AddVp(f, env, i.participant, CubePlaced, placed, vp);
      if i.legitimacyBefore.None? then
        var f2 := ChangeHolder(f1, env, i.target, None, Some(i.participant), Establish);
        AddVp(f2, env, i.participant, LegitimacyEstablished, 1, vp + placed)
      else if i.legitimacyBefore != Some(i.participant) then
        var f2 := ChangeHolder(f1, env, i.target, i.legitimacyBefore, None, Subvert);
        AddVp(f2, env, i.participant, LegitimacySubverted, 1, vp + placed)
      else f1
    else if i.ertResult < 0 && placed > 0 && Min(vp, placed) > 0 then
      AddVp(f, env, i.participant, Backlash, -Min(vp, placed), vp)
    else f
  }

  function CompleteActivation(cfg: Config, f: Flow, env: Envelope, at: nat, i: Impact,
                              selection: seq<CountryId>): (v: Verdict)
    requires HasSlot(f.game, i.participant, at) && i.campaign in f.game.board.campaigns
    ensures v.Commit? ==> v.game.version == f.game.version
    ensures v.Commit? ==> Closes(cfg, f.game.turn, v.game.turn, i.participant, at)
  {
    var effect := Effect(f.game, i);
    if |selection| != effect.removed then Reject(InvalidChoiceOption)
    else
      var removed := RemoveCubes(f, env, i, selection);
      if removed.Stop? then Reject(removed.error)
      else
        var moved := PlaceCubes(removed.flow, env, i, effect.placed);
        var n := |moved.game.audit.resolutions| + 1;
        var resolution := Resolution(n, i.target, i.kind, i.attribution, i.generated, 2 * effect.removed,
                                     Tally(selection), effect.placed);
        Finish(cfg, Award(moved, env, i, effect.placed), env, at, i, resolution)
  }

  function Finish(cfg: Config, f: Flow, env: Envelope, at: nat, i: Impact, resolution: Resolution): (v: Verdict)
    requires HasSlot(f.game, i.participant, at) && i.campaign in f.game.board.campaigns
    ensures v.Commit? ==> v.game.version == f.game.version
    ensures v.Commit? ==> Closes(cfg, f.game.turn, v.game.turn, i.participant, at)
  {
    var g := f.game;
    var campaign := g.board.campaigns[i.campaign];
    var activation := ActivationOf(g, i.campaign);
    var g1 := g.(audit := g.audit.(resolutions := g.audit.resolutions + [resolution]),
                 board := g.board.(campaigns :=
                                   g.board.campaigns[i.campaign :=
                                                     campaign.(activations := campaign.activations + 1)]));
    var closed := CloseSlot(cfg, g1, env, i.participant, at, Resolved, LastRef(f.refs));
    if i.campaign !in g.board.narratives then Reject(ObjectNoLongerValid)
    else
      var trace := TraceRefs(f.refs + [|g.events| + 1, |closed.events| + 1], f.ledgers);
      Commit(Emit(closed, env, ActivationCompleted(activation, i.campaign, resolution, trace),
                  Some(ByEvent(|closed.events|))))
  }

  // -------------------------------------------------------------- commands

  const SYSTEM_ACTOR := "M1_INTERNAL_SCHEDULER"

  function System(correlation: string, cause: Option<Cause>): Envelope {
    Envelope(SYSTEM_ACTOR, None, correlation, cause)
  }

  function By(actor: Actor, correlation: string): Envelope {
    Envelope(actor.user, Some(actor.participant), correlation, None)
  }

  predicate SeatedPlayer(cfg: Config, a: Actor) {
    a.role == PlayerActor && a.participant in cfg.users && cfg.users[a.participant] == a.user &&
    a.participant in cfg.seats && a.claimsMatch
  }

  predicate Facilitates(cfg: Config, a: Actor) {
    a.role == FacilitatorActor && cfg.facilitator == Some(a.participant) && a.participant in cfg.users &&
    cfg.users[a.participant] == a.user && a.claimsMatch
  }

  function RunNext(cfg: Config, g: Game, correlation: string, die: Option<int>): (v: Verdict)
    ensures v.Commit? ==> v.game.version == g.version
  {
    if g.turn.pending.Some? then Reject(SchedulerSuspended)
    else if g.turn.cursor.status == Complete then Reject(SchedulerComplete)
    else
      var cursor := Locate(cfg.order, g.turn.plan, g.turn.cursor);
      if cursor.status == Complete then Reject(SchedulerComplete)
      else
        var p := cfg.order[cursor.participant];
        RunSlot(cfg, g.(turn := g.turn.(cursor := cursor)), System(correlation, None), p, cursor.slot,
                cfg.hash(Gameplay(g, g.version)), die)
  }

  function RunConstruct(cfg: Config, g: Game, env: Envelope, p: ParticipantId, at: nat, a: Action,
                        cause: EventId): (v: Verdict)
    requires HasSlot(g, p, at) && a.Construct?
    ensures v.Commit? ==> v.game.version == g.version
    ensures v.Commit? ==> Closes(cfg, g.turn, v.game.turn, p, at)
  {
    var error := ConstructError(cfg, g, p, a);
    if error.Some? then Reject(error.value)
    else
      var built := ConstructCampaign(cfg, g, env, p, a, cause);
      Commit(CloseSlot(cfg, built, env, p, at, Resolved, Some(ByEvent(|built.events|))))
  }

  function RunSlot(cfg: Config, g: Game, env: Envelope, p: ParticipantId, at: nat, hash: int,
                   die: Option<int>): (v: Verdict)
    requires HasSlot(g, p, at)
    ensures v.Commit? ==> v.game.version == g.version
    ensures v.Commit? ==> HoldsOrCloses(cfg, Reveal(g, env, p, at).turn, v.game.turn, p, at)
  {
    var slot := g.turn.plan[p][at];
    var shown := Reveal(g, env, p, at);
    var revealed := |shown.events|;
    match slot.action
    case Construct(_, _, _, _) =>
      RunConstruct(cfg, shown, env, p, at, slot.action, revealed)
    case PlayBoost(card, campaign, index) =>
      if BoostError(cfg, shown, p, slot.action).Some? then Reject(BoostError(cfg, shown, p, slot.action).value)
      else
        Commit(PlanBoost(cfg, shown, env, p, at, BoostPlan(card, campaign, index), revealed))
    case Activate(_, _, _) =>
      StartActivation(cfg, shown, env, p, at, slot.action, hash, [revealed], die)
  }

  /** The slot is settled before BOOST_PLANNED is emitted; ACTION_RESOLVED follows it. */
  function PlanBoost(cfg: Config, g: Game, env: Envelope, p: ParticipantId, at: nat, plan: BoostPlan,
                     cause: EventId): Game
    requires HasSlot(g, p, at)
  {
    var g1 := Advance(cfg, Settle(g.(table := g.table.(boosts := g.table.boosts[p := plan])), p, at, Resolved));
    var g2 := Emit(g1, env, BoostPlanned(p, plan.card, plan.campaign, plan.activationIndex), Some(ByEvent(cause)));
    Emit(g2, env, ActionResolved(p, g.turn.plan[p][at].index, Resolved), Some(ByEvent(|g2.events|)))
  }

  function PendingSlot(g: Game, base: PendingBase): nat {
    FindSlot(SlotsOf(g.turn.plan, base.participant), base.index)
  }

  function TellNarrative(cfg: Config, g: Game, actor: Actor, inputId: string, correlation: string, campaign: CampaignId,
                         text: string, die: Option<int>): (v: Verdict)
    ensures v.Commit? ==> v.game.version == g.version
  {
    if g.turn.pending.None? || !g.turn.pending.value.NarrativePending? ||
      campaign != g.turn.pending.value.base.campaign then Reject(NarrativeNotAuthorized)
    else
      var pending := g.turn.pending.value;
      var base := pending.base;
      if !SeatedPlayer(cfg, actor) || actor.participant != base.participant then Reject(NarrativeNotAuthorized)
      else if !HasSlot(g, base.participant, PendingSlot(g, base)) ||
        base.campaign !in g.board.campaigns then Reject(ObjectNoLongerValid)
      else
        var cause := ByEvent(base.cause);
        var told := g.(board := g.board.(narratives := g.board.narratives[campaign :=
          Narrative(inputId, text, Player, actor.user, Some(base.participant), correlation, cause)]));
        var g1 := Resume(Emit(told, By(actor, correlation), NarrativeSubmitted(campaign, inputId, Player, text, None),
                              Some(cause)));
        var event := |g1.events|;
        AfterNarrative(cfg, Flow(g1, pending.k.refs + [event], []), System(base.correlation, Some(ByEvent(event))),
                       base.participant, PendingSlot(g, base), campaign, pending.k, Undecided, die, None)
  }

  /** Number of coalition members that contribute. */
  function Contributors(eligible: seq<ParticipantId>, decisions: map<ParticipantId, bool>): nat {
    if eligible == [] then 0
    else (if Get(decisions, eligible[0], false) then 1 else 0) + Contributors(eligible[1..], decisions)
  }

  function Responded(eligible: seq<ParticipantId>, decisions: map<ParticipantId, bool>): (r: seq<ParticipantId>)
    ensures |r| <= |eligible|
    ensures |r| == |eligible| <==> forall q :: q in eligible ==> q in decisions
  {
    if eligible == [] then []
    else (if eligible[0] in decisions then [eligible[0]] else []) + Responded(eligible[1..], decisions)
  }

  function Contribute(f: Flow, env: Envelope, p: ParticipantId, country: CountryId, cause: EventId): (r: Flow)
    ensures r.game == f.game.(purse := f.game.purse.(resources := r.game.purse.resources),
                              audit := f.game.audit.(resourceLedger := r.game.audit.resourceLedger),
                                events := r.game.events)
  {
    var g := f.game;
    var balance := Balance(g, country) - 1;
    var id := ResourceLedger(|g.audit.resourceLedger| + 1);
    var g1 := PushResource(SetBalance(g, country, balance), p, country, CoalitionContribution, -1, balance);
    Flow(Emit(g1, env, ContributionPaid(p, country, -1, balance, id), Some(ByEvent(cause))),
         f.refs + [|g.events| + 1], f.ledgers + [id])
  }

  function KeepWaiting(g: Game, pending: Pending): Game {
    g.(turn := g.turn.(pending := Some(pending)))
  }

  function RespondError(cfg: Config, g: Game, actor: Actor, request: ActivationId,
                        contributes: bool): (e: Option<Error>)
    ensures e.None? ==> actor.participant in cfg.seats
  {
    var p := actor.participant;
    if g.turn.pending.None? || !g.turn.pending.value.CoalitionPending? ||
      g.turn.pending.value.base.activation != request
    then Some(StaleContinuation)
    else if !SeatedPlayer(cfg, actor) || p !in g.turn.pending.value.eligible then Some(ChoiceNotAuthorized)
    else if p in g.turn.pending.value.decisions then Some(ChoiceAlreadyResolved)
    else if contributes && Balance(g, cfg.seats[p]) < 1 then Some(CostPaymentFailed)
    else None
  }

  /** The answer of a partner with the contribution booked, if there is one. */
  function Paid(cfg: Config, g: Game, env: Envelope, p: ParticipantId, contributes: bool): (r: Flow)
    requires g.turn.pending.Some? && g.turn.pending.value.CoalitionPending? && p in cfg.seats
    ensures r.game == g.(purse := g.purse.(resources := r.game.purse.resources),
                         audit := g.audit.(resourceLedger := r.game.audit.resourceLedger), events := r.game.events)
  {
    var pending := g.turn.pending.value;
    var f := Flow(g, pending.refs, pending.ledgers);
    if contributes then Contribute(f, env, p, cfg.seats[p], pending.base.cause) else f
  }

  function LastAnswer(cfg: Config, paid: Flow, env: Envelope, p: ParticipantId, contributes: bool, at: nat,
                      base: PendingBase,
                      k: NarrativeContinuation, bonus: nat, cause: Option<Cause>, die: Option<int>): (v: Verdict)
    ensures v.Commit? ==> v.game.version == paid.game.version
  {
    var event := |paid.game.events| + 1;
    var answered := Emit(paid.game, env, CoalitionResponded(p, contributes, None), cause);
    var resolved := Emit(Resume(answered), env, CoalitionResolved(base.campaign, bonus), Some(ByEvent(event)));
    AfterNarrative(cfg, Flow(resolved, paid.refs + [event] + [event + 1], paid.ledgers),
                   System(base.correlation, Some(ByEvent(event + 1))), base.participant, at, base.campaign, k,
                   Decided(bonus), die, None)
  }

  function Respond(cfg: Config, g: Game, actor: Actor, correlation: string, request: ActivationId, contributes: bool,
                   die: Option<int>): (v: Verdict)
    ensures v.Commit? ==> v.game.version == g.version
  {
    if RespondError(cfg, g, actor, request, contributes).Some? then
      Reject(RespondError(cfg, g, actor, request, contributes).value)
    else
      var pending := g.turn.pending.value;
      var base, p, env := pending.base, actor.participant, By(actor, correlation);
      var paid := Paid(cfg, g, env, p, contributes);
      var decisions := pending.decisions[p := contributes];
      var responded := Responded(pending.eligible, decisions);
      var event := |paid.game.events| + 1;
      var cause := if contributes then Some(ByEvent(|paid.game.events|)) else Some(ByEvent(base.cause));
      if |responded| != |pending.eligible| then
        var updated := CoalitionPending(base.(cause := event), pending.k, pending.eligible, responded, decisions,
                                        paid.refs + [event], paid.ledgers);
        Commit(KeepWaiting(Emit(paid.game, env, CoalitionResponded(p, contributes, Some(updated)), cause), updated))
      else if !HasSlot(g, base.participant, PendingSlot(g, base)) || base.campaign !in g.board.campaigns then
        Reject(ObjectNoLongerValid)
      else
        LastAnswer(cfg, paid, env, p, contributes, PendingSlot(g, base), base, pending.k,
                   Contributors(pending.eligible, decisions), cause, die)
  }

  function EnterDie(cfg: Config, g: Game, actor: Actor, request: ActivationId, value: int): (v: Verdict)
    ensures v.Commit? ==> v.game.version == g.version
  {
    if !(1 <= value <= 10) then Reject(InvalidDieValue)
    else if g.turn.pending.None? || !g.turn.pending.value.DiePending? ||
      g.turn.pending.value.base.activation != request then Reject(StaleContinuation)
    else
      var pending := g.turn.pending.value;
      var base := pending.base;
      if !(SeatedPlayer(cfg, actor) && actor.participant == base.participant) &&
        !Facilitates(cfg, actor) then Reject(ChoiceNotAuthorized)
      else if !HasSlot(g, base.participant, PendingSlot(g, base)) ||
        base.campaign !in g.board.campaigns then Reject(ObjectNoLongerValid)
      else
        AfterNarrative(cfg, Flow(Resume(g), pending.refs, pending.ledgers),
                       System(base.correlation, Some(ByEvent(base.cause))),
                       base.participant, PendingSlot(g, base), base.campaign, pending.k, Decided(pending.bonus), None,
                       Some(ManualRoll(value, actor.participant)))
  }

  /** Cubes of the last stack listed for this key. */
  function Available(stacks: seq<Stack>, pd: PdId, kind: Alignment, country: CountryId): nat {
    if stacks == [] then 0
    else
      var s := stacks[|stacks| - 1];
      if s.pd == pd && s.kind == kind && s.attribution == country then s.count
      else Available(stacks[..|stacks| - 1], pd, kind, country)
  }

  /** Every selected cube is still there when the ones selected before it have been taken. */
  predicate Takeable(stacks: seq<Stack>, pd: PdId, kind: Alignment, selection: seq<CountryId>) {
    forall n :: 0 <= n < |selection| ==>
      multiset(selection[..n])[selection[n]] < Available(stacks, pd, kind, selection[n])
  }

  function Selected(options: seq<CountryId>, selection: seq<nat>): (r: seq<CountryId>)
    requires forall n :: 0 <= n < |selection| ==> 1 <= selection[n] <= |options|
    ensures |r| == |selection|
    ensures forall n :: 0 <= n < |r| ==> r[n] == options[selection[n] - 1]
  {
    if selection == [] then []
    else [options[selection[0] - 1]] + Selected(options, selection[1..])
  }

  function ChoiceError(cfg: Config, g: Game, actor: Actor, choice: ActivationId, version: nat,
                       selection: seq<nat>): Option<Error> {
    if g.turn.pending.None? then Some(if choice in g.turn.resolvedChoices then ChoiceAlreadyResolved
                                      else InvalidChoiceOption)
    else if !g.turn.pending.value.ChoicePending? then Some(InvalidChoiceOption)
    else
      var pending := g.turn.pending.value;
      var k := pending.choice;
      if !SeatedPlayer(cfg, actor) || actor.participant != pending.base.participant then Some(ChoiceNotAuthorized)
      else if choice != pending.base.activation then Some(InvalidChoiceOption)
      else if version != 1 then Some(ChoiceVersionStale)
      else if |selection| != k.removals then Some(InvalidChoiceOption)
      else if exists n :: 0 <= n < |selection| && !(1 <= selection[n] <= |k.options|) then Some(InvalidChoiceOption)
      else if !Takeable(g.board.stacks, k.impact.target, k.impact.kind.Opposite(),
                        Selected(k.options, selection)) then Some(InvalidChoiceOption)
      else if !HasSlot(g, pending.base.participant, PendingSlot(g, pending.base)) ||
        k.impact.campaign !in g.board.campaigns ||
              k.impact.participant != pending.base.participant then Some(ObjectNoLongerValid)
      else None
  }

  function Choose(cfg: Config, g: Game, actor: Actor, correlation: string, choice: ActivationId, version: nat,
                  selection: seq<nat>): (v: Verdict)
    ensures v.Commit? ==> v.game.version == g.version
  {
    if ChoiceError(cfg, g, actor, choice, version,
                   selection).Some? then Reject(ChoiceError(cfg, g, actor, choice, version, selection).value)
    else
      var pending := g.turn.pending.value;
      var k := pending.choice;
      var told := Emit(g, By(actor, correlation), ChoiceResolved(choice, selection), Some(ByEvent(pending.base.cause)));
      var g1 := Resume(told.(turn := told.turn.(resolvedChoices := told.turn.resolvedChoices + [choice])));
      CompleteActivation(cfg, Flow(g1, k.refs + [|g1.events|], k.ledgers),
                         System(pending.base.correlation, Some(ByEvent(|g1.events|))),
                         PendingSlot(g, pending.base), k.impact, Selected(k.options, selection))
  }

  function Prepare(cfg: Config, g: Game, command: Command): (v: Verdict)
    ensures v.Commit? ==> v.game.version == g.version
  {
    match command
    case RunScheduler(correlation, die) => RunNext(cfg, g, correlation, die)
    case SubmitNarrative(actor, inputId, correlation, campaign, text, die) => TellNarrative(cfg, g, actor, inputId,
        correlation, campaign, text, die)
    case SubmitContribution(actor, correlation, request, contributes, die) => Respond(cfg, g, actor, correlation,
        request, contributes, die)
    case SubmitDie(actor, correlation, request, value) => EnterDie(cfg, g, actor, request, value)
    case SubmitChoice(actor, correlation, choice, version, selection) => Choose(cfg, g, actor, correlation, choice,
        version, selection)
  }

  /** A dispatched command: a stale version is refused, an accepted one commits the next version. */
  function Execute(cfg: Config, g: Game, expected: nat, command: Command): Verdict {
    if expected != g.version then Reject(StaleVersion)
    else
      var v := Prepare(cfg, g, command);
      if v.Reject? then v else Commit(v.game.(version := g.version + 1))
  }
}
