/**
 The adjudication part of a game as values: configuration fixed before the turn starts, the mutable
 board, the four kinds of suspended resolution, and the events that record every change.

 Template-string identifiers are modelled by the parts they are built from: an event id is its
 sequence number, a ledger id its ledger and position, an activation id its campaign and ordinal.
 */
module CampaignTypes {
  import opened Prelude

  type ParticipantId = nat
  type CardId = nat
  type DefinitionId = nat
  type PdId = nat
  type DtId = nat
  type EventId = nat
  type Positive = n: int | 0 < n witness 1

  // BASE_CARD_0xx definitions with a rule of their own.
  const COALITION_CARD: DefinitionId := 42
  const COMPONENT_COST_ONE_CARD: DefinitionId := 54
  const COMPONENT_COST_THREE_CARD: DefinitionId := 69
  const BOOST_CARD: DefinitionId := 87

  datatype CountryId = Arden | Dinesia | Fluma | Presque | Ursaria
  const COUNTRIES: seq<CountryId> := [Arden, Dinesia, Fluma, Presque, Ursaria]

  datatype Alignment = Malign | Resiliency {
    function Opposite(): Alignment {
      if this == Malign then Resiliency else Malign
    }
  }

  datatype Tier = Low | Medium | High
  datatype RuleAlignment = Aligned(alignment: Alignment) | Dual
  datatype ComponentSlot = Intent | Method | Amplifier
  datatype CardRule = CardRule(alignment: RuleAlignment, values: map<ComponentSlot, nat>, anyTarget: bool)

  datatype Assignment = Assignment(slot: ComponentSlot, card: CardId, definition: DefinitionId, influence: nat)
  datatype CampaignId = CampaignOf(owner: ParticipantId)
  datatype Row = RowI | RowII
  datatype Campaign = Campaign(
    owner: ParticipantId, row: Row, alignment: Alignment, targetDt: DtId,
    assignments: seq<Assignment>, activations: nat)

  datatype Stack = Stack(pd: PdId, kind: Alignment, attribution: CountryId, count: nat)

  datatype CursorStatus = Ready | Suspended | Complete
  datatype Cursor = Cursor(participant: nat, slot: nat, status: CursorStatus)

  datatype Action =
    | Construct(intent: CardId, method_: CardId, amplifier: Option<CardId>, targetDt: DtId)
    | Activate(campaign: CampaignId, target: Option<PdId>, useCore: bool)
    | PlayBoost(card: CardId, campaign: CampaignId, activationIndex: nat)
  datatype Outcome = Resolved | FailedCost
  datatype Slot = Slot(index: nat, action: Action, revealed: bool, outcome: Option<Outcome>)
  datatype Revealed = Revealed(participant: ParticipantId, index: nat, action: Action)

  datatype Zone = Pool | Deck | Hand | Discard | InCampaign | Removed
  datatype Card = Card(definition: DefinitionId, controller: Option<ParticipantId>, zone: Zone)
  datatype Holdings = Holdings(hand: seq<CardId>, discard: seq<CardId>)
  datatype BoostPlan = BoostPlan(card: CardId, campaign: CampaignId, activationIndex: nat)

  datatype Source = Player | Fixture
  datatype Cause = ByEvent(event: EventId) | ByInput(reference: string)
  datatype Narrative = Narrative(
    inputId: string, text: string, source: Source, actor: string,
    participant: Option<ParticipantId>, correlation: string, cause: Cause)

  datatype LedgerId = ResourceLedger(n: nat) | InfluenceLedger(n: nat) | LegitimacyLedger(n: nat) | VpLedger(n: nat)
  datatype ResourceReason = ActivationCost | ComponentCost | CoreModifier | CoalitionContribution
  datatype ResourceEntry = ResourceEntry(
    id: LedgerId, participant: ParticipantId, country: CountryId, reason: ResourceReason,
    delta: int, balanceAfter: int, version: nat)
  datatype InfluenceReason = Cancelled | Placed
  datatype InfluenceEntry = InfluenceEntry(
    id: LedgerId, pd: PdId, kind: Alignment, attribution: CountryId, reason: InfluenceReason,
    delta: int, balanceAfter: nat, version: nat)
  datatype LegitimacyReason = Establish | Subvert
  datatype LegitimacyEntry = LegitimacyEntry(
    id: LedgerId, pd: PdId, previous: Option<ParticipantId>, next: Option<ParticipantId>,
    reason: LegitimacyReason, version: nat)
  datatype VpReason = CubePlaced | Backlash | LegitimacyEstablished | LegitimacySubverted
  datatype VpEntry = VpEntry(
    id: LedgerId, participant: ParticipantId, reason: VpReason, delta: int, balanceAfter: int, version: nat)

  datatype ActivationId = ActivationId(campaign: CampaignId, ordinal: nat)
  datatype DieRoll = DieRoll(
    id: nat, participant: ParticipantId, raw: int, manual: bool, rng: Option<nat>,
    submitter: Option<ParticipantId>, version: nat)
  datatype Resolution = Resolution(
    id: nat, target: PdId, kind: Alignment, attribution: CountryId, generated: nat, consumed: nat,
    removedBy: map<CountryId, nat>, placed: nat)

  /** What a narrative suspension keeps of an activation that has been started. */
  datatype NarrativeContinuation = NarrativeContinuation(
    target: PdId, country: CountryId, baseCv: nat, effectiveCv: nat, baseTier: Tier,
    cost: nat, core: bool, preStateHash: int, refs: seq<EventId>)

  /** What the die decided, before any cube moves. */
  datatype Impact = Impact(
    participant: ParticipantId, index: nat, campaign: CampaignId, target: PdId, kind: Alignment,
    attribution: CountryId, generated: nat, ertResult: int, vpBefore: int,
    legitimacyBefore: Option<ParticipantId>)

  /** What an attribution choice keeps of an activation whose die has been rolled. */
  datatype CampaignContinuation = CampaignContinuation(
    impact: Impact, removals: nat, options: seq<CountryId>, refs: seq<EventId>, ledgers: seq<LedgerId>)

  datatype PendingBase = PendingBase(
    activation: ActivationId, participant: ParticipantId, index: nat, campaign: CampaignId,
    correlation: string, cause: EventId)

  datatype Pending =
    | NarrativePending(base: PendingBase, k: NarrativeContinuation)
    | CoalitionPending(base: PendingBase, k: NarrativeContinuation, eligible: seq<ParticipantId>,
                       responded: seq<ParticipantId>, decisions: map<ParticipantId, bool>,
                       refs: seq<EventId>, ledgers: seq<LedgerId>)
    | DiePending(base: PendingBase, k: NarrativeContinuation, bonus: nat, refs: seq<EventId>, ledgers: seq<LedgerId>)
    | ChoicePending(base: PendingBase, choice: CampaignContinuation)

  datatype TraceRefs = TraceRefs(events: seq<EventId>, ledgers: seq<LedgerId>)

  datatype Header = Header(
    sequence: EventId, version: Positive, actor: string, participant: Option<ParticipantId>,
    correlation: string, cause: Option<Cause>)

  datatype Body =
    | ActionRevealed(participant: ParticipantId, index: nat)
    | ActivationStarted(activation: ActivationId, campaign: CampaignId, participant: ParticipantId,
                        target: PdId, preStateHash: int)
    | NarrativeRequested(pending: Pending)
    | NarrativeSubmitted(campaign: CampaignId, inputId: string, source: Source, text: string, inputCause: Option<Cause>)
    | CoalitionRequested(pending: Pending)
    | CoalitionResponded(participant: ParticipantId, contributes: bool, update: Option<Pending>)
    | CoalitionResolved(campaign: CampaignId, contributors: nat)
    | PreRollReaction(stage: nat)
    | DieRequested(pending: Pending)
    | ContributionPaid(participant: ParticipantId, country: CountryId, delta: int, balanceAfter: int, ledger: LedgerId)
    | CostPaid(participant: ParticipantId, country: CountryId, amount: nat, tierCost: nat,
               componentCosts: seq<nat>, componentLedgers: seq<LedgerId>,
               coreCost: nat, coreLedger: Option<LedgerId>, balanceAfter: int, ledger: LedgerId)
    | BoostPlanned(participant: ParticipantId, card: CardId, campaign: CampaignId, activationIndex: nat)
    | BoostApplied(participant: ParticipantId, card: CardId)
    | DieRolled(roll: nat, participant: ParticipantId, raw: int, manual: bool, rng: Option<nat>,
                submitter: Option<ParticipantId>, legitimacyModifier: int, boostModifier: int,
                coreModifier: int, ertRoll: int)
    | ErtResolved(effectiveCv: nat, tier: Tier, result: int)
    | InfluenceMutated(pd: PdId, kind: Alignment, attribution: CountryId, influenceReason: InfluenceReason,
                       delta: int, countAfter: nat, ledger: LedgerId)
    | LegitimacyChanged(pd: PdId, previous: Option<ParticipantId>, next: Option<ParticipantId>,
                        legitimacyReason: LegitimacyReason, ledger: LedgerId)
    | VpChanged(participant: ParticipantId, vpReason: VpReason, delta: int, balanceAfter: int, ledger: LedgerId)
    | ChoiceRequested(pending: Pending)
    | ChoiceResolved(choice: ActivationId, selection: seq<nat>)
    | CampaignCreated(campaign: CampaignId, participant: ParticipantId, alignment: Alignment, targetDt: DtId,
                      intent: CardId, method_: CardId, amplifier: Option<CardId>)
    | ActionResolved(participant: ParticipantId, index: nat, outcome: Outcome)
    | ActivationCompleted(activation: ActivationId, campaign: CampaignId, resolution: Resolution, trace: TraceRefs)

  datatype Event = Event(head: Header, body: Body)

  /** Where the locked actions stand. */
  datatype Turn = Turn(
    plan: map<ParticipantId, seq<Slot>>,
    revealed: Option<Revealed>,
    cursor: Cursor,
    pending: Option<Pending>,
    resolvedChoices: seq<ActivationId>)

  datatype Table = Table(
    cards: map<CardId, Card>,
    holdings: map<ParticipantId, Holdings>,
    boosts: map<ParticipantId, BoostPlan>)

  datatype Board = Board(
    campaigns: map<CampaignId, Campaign>,
    stacks: seq<Stack>,
    legitimacy: map<PdId, Option<ParticipantId>>,
    narratives: map<CampaignId, Narrative>)

  datatype Purse = Purse(
    resources: map<CountryId, int>,
    coreUsed: set<ParticipantId>,
    vp: map<ParticipantId, int>)

  /** Append-only records. */
  datatype Audit = Audit(
    dice: seq<DieRoll>,
    resourceLedger: seq<ResourceEntry>,
    influenceLedger: seq<InfluenceEntry>,
    legitimacyLedger: seq<LegitimacyEntry>,
    vpLedger: seq<VpEntry>,
    resolutions: seq<Resolution>)

  datatype Game = Game(
    version: nat,
    turn: Turn,
    table: Table,
    board: Board,
    purse: Purse,
    audit: Audit,
    events: seq<Event>)

  datatype CampaignValue = CampaignValue(baseCv: nat, effectiveCv: nat, baseTier: Tier, cost: nat)

  /** What does not change while the locked actions are resolved, and the rules the engine looks up. */
  datatype Config = Config(
    order: seq<ParticipantId>,
    players: set<ParticipantId>,
    users: map<ParticipantId, string>,
    seats: map<ParticipantId, CountryId>,
    pds: map<PdId, set<DtId>>,
    rules: map<DefinitionId, CardRule>,
    manualDice: bool,
    facilitator: Option<ParticipantId>,
    valueOf: seq<Assignment> -> CampaignValue,
    ert: (Tier, Alignment, int) -> int,
    hash: Game -> int)

  /** Who an event is attributed to. */
  datatype Envelope = Envelope(actor: string, participant: Option<ParticipantId>, correlation: string,
                               cause: Option<Cause>)

  datatype ActorRole = PlayerActor | FacilitatorActor
  /** `claimsMatch`: the seat, country and permission claims agree with the actor's record. */
  datatype Actor = Actor(participant: ParticipantId, user: string, role: ActorRole, claimsMatch: bool)

  /** `die` is the answer of the random provider, absent when it throws. */
  datatype Command =
    | RunScheduler(correlation: string, die: Option<int>)
    | SubmitNarrative(actor: Actor, inputId: string, correlation: string, campaign: CampaignId, text: string,
                      die: Option<int>)
    | SubmitContribution(actor: Actor, correlation: string, request: ActivationId, contributes: bool, die: Option<int>)
    | SubmitDie(actor: Actor, correlation: string, request: ActivationId, value: int)
    | SubmitChoice(actor: Actor, correlation: string, choice: ActivationId, version: nat, selection: seq<nat>)

  datatype Error =
    | SchedulerSuspended | SchedulerComplete | InvalidPayload
    | CampaignIdConflict | CampaignRowOccupied | DuplicateCard | CardNotControlled | CardWrongZone
    | CampaignInvalidStructure | CardNotEligible | AlignmentMismatch | InvalidDt | InvalidActionPlan
    | CampaignNotFound | CampaignNotOwned | CampaignAlreadyActivated | InvalidTargetPd | InvalidActor
    | RollModifierAlreadyUsed | CostPaymentFailed | RandomProviderFailure | NarrativeNotAuthorized
    | NarrativeProvenance | StaleContinuation | ChoiceNotAuthorized | ChoiceAlreadyResolved
    | InvalidChoiceOption | ChoiceVersionStale | ObjectNoLongerValid | InvalidDieValue | StaleVersion
}
