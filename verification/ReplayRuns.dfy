/**
 From segments to runs: whatever sequence of commands the engine is given, replaying the events it
 emitted rebuilds the state it reached.
 */
module ReplayRuns {
  import opened Prelude
  import opened CampaignTypes
  import opened Adjudication
  import opened Replay
  import opened ReplaySegments

  // ----------------------------------------------------------- invariant

  ghost predicate CursorAt(cfg: Config, turn: Turn, p: ParticipantId, at: nat) {
    turn.cursor.participant < |cfg.order| && cfg.order[turn.cursor.participant] == p && turn.cursor.slot == at &&
    at < |SlotsOf(turn.plan, p)|
  }

  /** The cursor points at a locked slot. */
  ghost predicate AtSlot(cfg: Config, turn: Turn) {
    turn.cursor.participant < |cfg.order| && CursorAt(cfg, turn, cfg.order[turn.cursor.participant], turn.cursor.slot)
  }

  /** A suspended resolution belongs to the slot under the cursor and to an activation seen to start. */
  ghost predicate Awaits(cfg: Config, g: Game, pending: Pending, open: set<ActivationId>) {
    var b := pending.base;
    b.campaign in g.board.campaigns && b.activation == ActivationOf(g, b.campaign) && b.activation in open &&
    CursorAt(cfg, g.turn, b.participant, g.turn.cursor.slot) &&
    g.turn.plan[b.participant][g.turn.cursor.slot].index == b.index &&
    (pending.ChoicePending? ==> pending.choice.impact.participant == b.participant &&
                                pending.choice.impact.campaign == b.campaign)
  }

  ghost predicate Injective(seats: map<ParticipantId, CountryId>) {
    forall p, q :: p in seats && q in seats && seats[p] == seats[q] ==> p == q
  }

  /** A started activation can be paid from the seat of its owner. */
  ghost predicate Payable(cfg: Config, g: Game, p: ParticipantId, c: CampaignId, k: NarrativeContinuation) {
    p in cfg.seats && k.country == cfg.seats[p] && c in g.board.campaigns && !(k.core && p in g.purse.coreUsed) &&
    Balance(g, k.country) >= TotalCost(g.board.campaigns[c], k.cost, k.core)
  }

  /** Payable as long as no two players share a country: coalition partners pay from their own. */
  ghost predicate Funded(cfg: Config, g: Game, p: ParticipantId, c: CampaignId, k: NarrativeContinuation) {
    Injective(cfg.seats) ==> Payable(cfg, g, p, c, k)
  }

  /** What a suspended resolution has secured for its resumption. */
  ghost predicate Secured(cfg: Config, g: Game, pending: Pending) {
    match pending
    case NarrativePending(b, k) => Funded(cfg, g, b.participant, b.campaign, k)
    case CoalitionPending(b, k, eligible, responded, decisions, _, _) =>
      Funded(cfg, g, b.participant, b.campaign, k) && b.campaign in g.board.narratives && b.participant !in eligible
    case DiePending(b, k, _, _, _) => Funded(cfg, g, b.participant, b.campaign, k) && b.campaign in g.board.narratives
    case ChoicePending(b, choice) =>
      b.campaign in g.board.narratives && choice.removals > 0 && choice.removals == Effect(g, choice.impact).removed &&
      choice.options == SourcesOf(g, choice.impact)
  }

  /** What holds between two commands. */
  ghost predicate Steady(cfg: Config, g: Game, open: set<ActivationId>) {
    PlanOk(g.turn.plan) && UniqueStacks(g.board.stacks) &&
    (g.turn.pending.None? ==>
     g.turn.cursor.status != Suspended && (g.turn.cursor.status == Ready ==> AtSlot(cfg, g.turn))) &&
    (g.turn.pending.Some? ==> g.turn.cursor.status == Suspended && Awaits(cfg, g, g.turn.pending.value, open) &&
                               Secured(cfg, g, g.turn.pending.value))
  }

  /** What holds while the slot at `at` of participant p is being resolved. */
  ghost predicate Working(cfg: Config, g: Game, p: ParticipantId, at: nat) {
    PlanOk(g.turn.plan) && UniqueStacks(g.board.stacks) && CursorAt(cfg, g.turn, p, at)
  }

  function Synced(g: Game): Lag { Lag(g.version + 1, g.turn.pending, g.turn.cursor.status) }

  /** The replay has rebuilt everything a command committed. */
  ghost predicate Landed(cfg: Config, t: History, r: Replica, g: Game) {
    Shadows(cfg, t, r, g, Synced(g)) && Steady(cfg, g, r.open)
  }

  // ----------------------------------------------------- closing a slot

  /** The campaign and the resolution record change before the slot is closed; their event comes after. */
  function Completed(g: Game, closed: Game, c: CampaignId, resolution: Resolution): Game
    requires c in g.board.campaigns
  {
    var campaign := g.board.campaigns[c];
    closed.(audit := closed.audit.(resolutions := closed.audit.resolutions + [resolution]),
            board := closed.board.(campaigns :=
                                   closed.board.campaigns[c := campaign.(activations := campaign.activations + 1)]))
  }

  lemma FinishSplits(cfg: Config, f: Flow, env: Envelope, at: nat, i: Impact, resolution: Resolution)
    requires HasSlot(f.game, i.participant, at) && i.campaign in f.game.board.campaigns
    requires Finish(cfg, f, env, at, i, resolution).Commit?
    ensures var closed := CloseSlot(cfg, f.game, env, i.participant, at, Resolved, LastRef(f.refs));
            var trace := TraceRefs(f.refs + [|f.game.events| + 1, |closed.events| + 1], f.ledgers);
            var body := ActivationCompleted(ActivationOf(f.game, i.campaign), i.campaign, resolution, trace);
            Finish(cfg, f, env, at, i, resolution).game ==
            Emit(Completed(f.game, closed, i.campaign, resolution), env, body, Some(ByEvent(|closed.events|)))
  {
  }

  lemma FinishTracks(cfg: Config, t: History, r: Replica, f: Flow, env: Envelope, at: nat, i: Impact,
                     resolution: Resolution, status: CursorStatus) returns (next: Replica)
    requires HasSlot(f.game, i.participant, at) && i.campaign in f.game.board.campaigns
    requires ActivationOf(f.game, i.campaign) in r.open && Working(cfg, f.game, i.participant, at)
    requires f.game.turn.pending.None? && Finish(cfg, f, env, at, i, resolution).Commit?
    requires Shadows(cfg, t, r, f.game, Synced(f.game).(status := status))
    ensures Landed(cfg, t, next, Finish(cfg, f, env, at, i, resolution).game)
  {
    hide Finish, LastRef;
    var g := f.game;
    FinishSplits(cfg, f, env, at, i, resolution);
    var closed := CloseSlot(cfg, g, env, i.participant, at, Resolved, LastRef(f.refs));
    next := CloseTracks(cfg, t, r, g, env, i.participant, at, Resolved, LastRef(f.refs), Synced(g).(status := status));
    var done := Completed(g, closed, i.campaign, resolution);
    var trace := TraceRefs(f.refs + [|g.events| + 1, |closed.events| + 1], f.ledgers);
    var body := ActivationCompleted(ActivationOf(g, i.campaign), i.campaign, resolution, trace);
    next := TurnEmitted(cfg, t, next, closed, done, env, body, Some(ByEvent(|closed.events|)), Synced(closed),
                        next.(game := Behind(done, Synced(closed))), Synced(closed));
  }

  lemma CompleteTracks(cfg: Config, t: History, r: Replica, f: Flow, env: Envelope, at: nat, i: Impact,
                       selection: seq<CountryId>, status: CursorStatus) returns (next: Replica)
    requires HasSlot(f.game, i.participant, at) && i.campaign in f.game.board.campaigns
    requires ActivationOf(f.game, i.campaign) in r.open && Working(cfg, f.game, i.participant, at)
    requires f.game.turn.pending.None? && CompleteActivation(cfg, f, env, at, i, selection).Commit?
    requires Shadows(cfg, t, r, f.game, Synced(f.game).(status := status))
    ensures Landed(cfg, t, next, CompleteActivation(cfg, f, env, at, i, selection).game)
  {
    hide Finish, Award, PlaceCubes, RemoveCubes, Effect;
    var lag := Synced(f.game).(status := status);
    var effect := Effect(f.game, i);
    var removed := RemoveCubes(f, env, i, selection).flow;
    next := RemoveCubesTracks(cfg, t, r, f, env, i, selection, lag);
    var moved := PlaceCubes(removed, env, i, effect.placed);
    PlaceCubesKeepsUnique(removed, env, i, effect.placed);
    next := PlaceCubesTracks(cfg, t, next, removed, env, i, effect.placed, lag);
    var awarded := Award(moved, env, i, effect.placed);
    next := AwardTracks(cfg, t, next, moved, env, i, effect.placed, lag);
    var resolution := Resolution(|moved.game.audit.resolutions| + 1, i.target, i.kind, i.attribution, i.generated,
                                 2 * effect.removed, Tally(selection), effect.placed);
    next := FinishTracks(cfg, t, next, awarded, env, at, i, resolution, status);
  }

  // --------------------------------------------------------- suspending

  ghost predicate Requests(body: Body, pending: Pending) {
    body == NarrativeRequested(pending) || body == CoalitionRequested(pending) || body == DieRequested(pending) ||
    body == ChoiceRequested(pending)
  }

  lemma FundsStay(cfg: Config, g: Game, later: Game, p: ParticipantId, c: CampaignId, k: NarrativeContinuation)
    requires Funded(cfg, g, p, c, k) && later.board.campaigns == g.board.campaigns && later.purse == g.purse
    ensures Funded(cfg, later, p, c, k)
  {
  }

  lemma SecuredStays(cfg: Config, g: Game, later: Game, pending: Pending)
    requires Secured(cfg, g, pending) && later.board == g.board && later.purse == g.purse
    ensures Secured(cfg, later, pending)
  {
  }

  lemma SuspendTracks(cfg: Config, t: History, r: Replica, g: Game, env: Envelope, body: Body, cause: Option<Cause>,
                      pending: Pending, lag: Lag) returns (next: Replica)
    requires Requests(body, pending) && Shadows(cfg, t, r, g, lag)
    requires PlanOk(g.turn.plan) && UniqueStacks(g.board.stacks)
    requires Awaits(cfg, g, pending, r.open) && Secured(cfg, g, pending)
    ensures Landed(cfg, t, next, Suspend(g, env, body, cause, pending))
  {
    SecuredStays(cfg, g, Suspend(g, env, body, cause, pending), pending);
    hide Secured;
    var held := HoldOn(g, pending);
    next := InputEmitted(cfg, t, r, g, held, env, body, cause, lag, Synced(held));
  }

  lemma ResolveTracks(cfg: Config, t: History, r: Replica, f: Flow, env: Envelope, at: nat, i: Impact)
    returns (next: Replica)
    requires HasSlot(f.game, i.participant, at) && i.campaign in f.game.board.campaigns
    requires ActivationOf(f.game, i.campaign) in r.open && Working(cfg, f.game, i.participant, at)
    requires f.game.turn.pending.None? && Resolve(cfg, f, env, at, i).Commit? && i.campaign in f.game.board.narratives
    requires Shadows(cfg, t, r, f.game, Synced(f.game))
    ensures Landed(cfg, t, next, Resolve(cfg, f, env, at, i).game)
  {
    var g := f.game;
    var removals := Effect(g, i).removed;
    var sources := SourcesOf(g, i);
    if removals > 0 && |sources| > 1 {
      var choice := CampaignContinuation(i, removals, sources, f.refs + [|g.events| + 1], f.ledgers);
      var pending := ChoicePending(BaseFor(g, env, i.participant, at, i.campaign), choice);
      next := SuspendTracks(cfg, t, r, g, env, ChoiceRequested(pending), LastRef(f.refs), pending, Synced(g));
    } else {
      var selection := AutomaticSelections(g.board.stacks, i.target, i.kind.Opposite(), COUNTRIES, removals);
      next := CompleteTracks(cfg, t, r, f, env, at, i, selection, g.turn.cursor.status);
    }
  }

  // ------------------------------------------------- pay, roll, resolve

  /** A submitted die leaves its request pending in the replay until the roll is replayed. */
  ghost predicate DieLag(g: Game, lag: Lag) {
    g.turn.pending.None? && g.turn.cursor.status == Ready && lag.version <= g.version + 1 &&
    (lag == Synced(g).(version := lag.version) || (lag.pending.Some? && lag.pending.value.DiePending?))
  }

  lemma RollAndResolveTracks(cfg: Config, t: History, r: Replica, f: Flow, env: Envelope, p: ParticipantId, at: nat,
                             c: CampaignId, k: NarrativeContinuation, bonus: nat, die: Option<int>,
                             manual: Option<ManualRoll>, lag: Lag) returns (next: Replica)
    requires c in f.game.board.campaigns && HasSlot(f.game, p, at) && Working(cfg, f.game, p, at)
    requires ActivationOf(f.game, c) in r.open && DieLag(f.game, lag) && Shadows(cfg, t, r, f.game, lag)
    requires c in f.game.board.narratives
    requires RollAndResolve(cfg, f, env, p, at, c, k, bonus, die, manual).Commit?
    ensures Landed(cfg, t, next, RollAndResolve(cfg, f, env, p, at, c, k, bonus, die, manual).game)
  {
    hide Pay, ApplyBoost, Roll, Resolve, ResolutionInput, RollValue, BoostApplies;
    var index := f.game.turn.plan[p][at].index;
    var paid := Pay(f, env, p, c, k).flow;
    next := PayTracks(cfg, t, r, f, env, p, c, k, lag);
    var boosted := ApplyBoost(paid, env, p, index, c).flow;
    next := BoostTracks(cfg, t, next, paid, env, p, index, c, Caught(f.game, lag));
    var boost := if BoostApplies(f.game, p, index, c) then 1 else 0;
    var raw := RollValue(die, manual).value;
    var rolled := Roll(cfg, boosted, env, p, c, k, bonus, boost, raw, manual);
    next := RollTracks(cfg, t, next, boosted, env, p, c, k, bonus, boost, raw, manual, Caught(f.game, lag));
    next := ResolveTracks(cfg, t, next, rolled, env, at,
                          ResolutionInput(cfg, boosted.game, p, index, c, k, bonus, boost, raw));
  }

  lemma AskCoalitionTracks(cfg: Config, t: History, r: Replica, f: Flow, env: Envelope, p: ParticipantId, at: nat,
                           c: CampaignId, k: NarrativeContinuation, lag: Lag) returns (next: Replica)
    requires Working(cfg, f.game, p, at) && Shadows(cfg, t, r, f.game, lag)
    requires c in f.game.board.campaigns && ActivationOf(f.game, c) in r.open
    requires c in f.game.board.narratives && Funded(cfg, f.game, p, c, k)
    ensures Landed(cfg, t, next, AskCoalition(cfg, f, env, p, at, c, k))
  {
    hide Payable;
    var pending := CoalitionPending(BaseFor(f.game, env, p, at, c), k, Allies(cfg, cfg.order, p), [], map[],
                                    f.refs + [|f.game.events| + 1], []);
    next := SuspendTracks(cfg, t, r, f.game, env, CoalitionRequested(pending), LastRef(f.refs), pending, lag);
  }

  lemma AskDieTracks(cfg: Config, t: History, r: Replica, f: Flow, env: Envelope, p: ParticipantId, at: nat,
                     c: CampaignId, k: NarrativeContinuation, bonus: nat, lag: Lag) returns (next: Replica)
    requires Working(cfg, f.game, p, at) && Shadows(cfg, t, r, f.game, lag)
    requires c in f.game.board.campaigns && ActivationOf(f.game, c) in r.open
    requires c in f.game.board.narratives && Funded(cfg, f.game, p, c, k)
    ensures Landed(cfg, t, next, AskDie(f, env, p, at, c, k, bonus))
  {
    hide Payable;
    var pending := DiePending(BaseFor(f.game, env, p, at, c), k, bonus, f.refs + [|f.game.events| + 1], f.ledgers);
    next := SuspendTracks(cfg, t, r, f.game, env, DieRequested(pending), LastRef(f.refs), pending, lag);
  }

  lemma AfterNarrativeTracks(cfg: Config, t: History, r: Replica, f: Flow, env: Envelope, p: ParticipantId, at: nat,
                             c: CampaignId, k: NarrativeContinuation, coalition: Coalition, die: Option<int>,
                             manual: Option<ManualRoll>, lag: Lag) returns (next: Replica)
    requires Working(cfg, f.game, p, at) && DieLag(f.game, lag) && Shadows(cfg, t, r, f.game, lag)
    requires c in f.game.board.campaigns && ActivationOf(f.game, c) in r.open
    requires c in f.game.board.narratives && Funded(cfg, f.game, p, c, k)
    requires AfterNarrative(cfg, f, env, p, at, c, k, coalition, die, manual).Commit?
    ensures Landed(cfg, t, next, AfterNarrative(cfg, f, env, p, at, c, k, coalition, die, manual).game)
  {
    hide RollAndResolve, PreRoll, NeedsCoalition, Allies, Payable, AskCoalition, AskDie;
    var g := f.game;
    if NeedsCoalition(g.board.campaigns[c]) && coalition.Undecided? && Allies(cfg, cfg.order, p) != [] {
      next := AskCoalitionTracks(cfg, t, r, f, env, p, at, c, k, lag);
    } else {
      var bonus := if coalition.Decided? then coalition.bonus else 0;
      if manual.None? {
        var ready := PreRoll(f, env);
        next := PreRollTracks(cfg, t, r, f, env, lag);
        if cfg.manualDice {
          FundsStay(cfg, g, ready.game, p, c, k);
          next := AskDieTracks(cfg, t, next, ready, env, p, at, c, k, bonus, Caught(g, lag));
        } else {
          next := RollAndResolveTracks(cfg, t, next, ready, env, p, at, c, k, bonus, die, manual, Caught(g, lag));
        }
      } else {
        next := RollAndResolveTracks(cfg, t, r, f, env, p, at, c, k, bonus, die, manual, lag);
      }
    }
  }

  // -------------------------------------------------- the scheduler step

  /** The replay is level with a committed state. */
  ghost predicate Current(cfg: Config, t: History, r: Replica, g: Game) {
    Shadows(cfg, t, r, g, Synced(g).(version := g.version)) && Steady(cfg, g, r.open)
  }

  lemma RevealTracks(cfg: Config, t: History, r: Replica, g: Game, env: Envelope, p: ParticipantId, at: nat)
    returns (next: Replica)
    requires Shadows(cfg, t, r, g, Synced(g).(version := g.version)) && HasSlot(g, p, at) && Working(cfg, g, p, at)
    ensures Shadows(cfg, t, next, Reveal(g, env, p, at), Synced(g)) && Working(cfg, Reveal(g, env, p, at), p, at)
    ensures next.open == r.open && next.hash == Some(cfg.hash(Gameplay(g, g.version)))
  {
    var slot := g.turn.plan[p][at];
    FindSlotByIndex(g.turn.plan[p], at);
    var shown := Show(PutSlot(g, p, at, slot.(revealed := true)), Revealed(p, slot.index, slot.action));
    assert Gameplay(Behind(g, Synced(g)), g.version) == Gameplay(g, g.version);
    var reduced := Replica(Behind(shown, Synced(g)), Some(cfg.hash(Gameplay(g, g.version))), r.open);
    next := TurnEmitted(cfg, t, r, g, shown, env, ActionRevealed(p, slot.index), None, Synced(g).(version := g.version),
                        reduced, Synced(g));
  }

  lemma CloseLands(cfg: Config, t: History, r: Replica, g: Game, env: Envelope, p: ParticipantId, at: nat,
                   outcome: Outcome, cause: Option<Cause>) returns (next: Replica)
    requires HasSlot(g, p, at) && Working(cfg, g, p, at) && g.turn.pending.None? && Shadows(cfg, t, r, g, Synced(g))
    ensures Landed(cfg, t, next, CloseSlot(cfg, g, env, p, at, outcome, cause))
  {
    next := CloseTracks(cfg, t, r, g, env, p, at, outcome, cause, Synced(g));
  }

  lemma ConstructTracks(cfg: Config, t: History, r: Replica, g: Game, env: Envelope, p: ParticipantId, at: nat,
                        a: Action, cause: EventId) returns (next: Replica)
    requires HasSlot(g, p, at) && Working(cfg, g, p, at) && g.turn.pending.None? && Shadows(cfg, t, r, g, Synced(g))
    requires a.Construct? && RunConstruct(cfg, g, env, p, at, a, cause).Commit?
    ensures Landed(cfg, t, next, RunConstruct(cfg, g, env, p, at, a, cause).game)
  {
    hide ConstructError, CloseSlot;
    var built := ConstructCampaign(cfg, g, env, p, a, cause);
    next := CreatedTracks(cfg, t, r, g, env, p, a, cause);
    hide ConstructCampaign;
    next := CloseLands(cfg, t, next, built, env, p, at, Resolved, Some(ByEvent(|built.events|)));
  }

  lemma CreatedTracks(cfg: Config, t: History, r: Replica, g: Game, env: Envelope, p: ParticipantId, a: Action,
                      cause: EventId) returns (next: Replica)
    requires a.Construct? && ConstructError(cfg, g, p, a).None? && Shadows(cfg, t, r, g, Synced(g))
    ensures Shadows(cfg, t, next, ConstructCampaign(cfg, g, env, p, a, cause), Synced(g)) && next.open == r.open
  {
    hide TakeIntoCampaign;
    var alignment := cfg.rules[g.table.cards[a.intent].definition].alignment.alignment;
    var body := CampaignCreated(CampaignOf(p), p, alignment, a.targetDt, a.intent, a.method_, a.amplifier);
    var e := NewEvent(g, env, body, Some(ByEvent(cause)));
    var built := ConstructCampaign(cfg, g, env, p, a, cause).(events := g.events);
    CreatedReplays(cfg, g, env, p, a, cause, Synced(g), e);
    next := TurnEmitted(cfg, t, r, g, built, env, body, Some(ByEvent(cause)), Synced(g),
                        r.(game := Behind(built, Synced(g))), Synced(g));
  }

  lemma CreatedReplays(cfg: Config, g: Game, env: Envelope, p: ParticipantId, a: Action, cause: EventId, lag: Lag,
                       e: Event)
    requires a.Construct? && ConstructError(cfg, g, p, a).None?
    requires e.body == CampaignCreated(CampaignOf(p), p,
                                       cfg.rules[g.table.cards[a.intent].definition].alignment.alignment,
                                       a.targetDt, a.intent, a.method_, a.amplifier)
    ensures ReplayCreated(cfg, Behind(g, lag), e) ==
            Some(Behind(ConstructCampaign(cfg, g, env, p, a, cause).(events := g.events), lag))
  {
  }

  lemma PlanBoostTracks(cfg: Config, t: History, r: Replica, g: Game, env: Envelope, p: ParticipantId, at: nat,
                        plan: BoostPlan, cause: EventId) returns (next: Replica)
    requires HasSlot(g, p, at) && Working(cfg, g, p, at) && g.turn.pending.None? && Shadows(cfg, t, r, g, Synced(g))
    ensures Landed(cfg, t, next, PlanBoost(cfg, g, env, p, at, plan, cause))
  {
    var g1 := g.(table := g.table.(boosts := g.table.boosts[p := plan]));
    var planned := BoostPlanned(p, plan.card, plan.campaign, plan.activationIndex);
    next := EffectEmitted(cfg, t, r, g, g1, env, planned, Some(ByEvent(cause)), Synced(g), Synced(g));
    var g2 := Emit(g1, env, planned, Some(ByEvent(cause)));
    next := CloseLands(cfg, t, next, g2, env, p, at, Resolved, Some(ByEvent(|g2.events|)));
  }

  /** A seeded narrative is recorded again as it is. */
  lemma SeededNarrativeTracks(cfg: Config, t: History, r: Replica, f: Flow, env: Envelope, c: CampaignId)
    returns (next: Replica)
    requires Shadows(cfg, t, r, f.game, Synced(f.game)) && f.game.turn.pending.None? && c in f.game.board.narratives
    requires f.game.board.narratives[c].participant.None?
    ensures var n := f.game.board.narratives[c];
            var body := NarrativeSubmitted(c, n.inputId, n.source, n.text, Some(n.cause));
            Shadows(cfg, t, next, Continue(f, Envelope(n.actor, None, n.correlation, Some(n.cause)), body).game,
                    Synced(f.game))
    ensures next.open == r.open
  {
    var g := f.game;
    var n := g.board.narratives[c];
    var body := NarrativeSubmitted(c, n.inputId, n.source, n.text, Some(n.cause));
    assert g.board.narratives[c := n] == g.board.narratives;
    next := InputEmitted(cfg, t, r, g, g, Envelope(n.actor, None, n.correlation, Some(n.cause)), body, LastRef(f.refs),
                         Synced(g), Synced(g));
  }

  lemma StartedTracks(cfg: Config, t: History, r: Replica, f: Flow, env: Envelope, activation: ActivationId,
                      c: CampaignId,
                      p: ParticipantId, target: PdId, hash: int) returns (next: Replica)
    requires Shadows(cfg, t, r, f.game, Synced(f.game)) && r.hash == Some(hash)
    ensures Shadows(cfg, t, next, Continue(f, env, ActivationStarted(activation, c, p, target, hash)).game,
                    Synced(f.game))
    ensures next.open == r.open + {activation}
  {
    var g := f.game;
    next := TurnEmitted(cfg, t, r, g, g, env, ActivationStarted(activation, c, p, target, hash), LastRef(f.refs),
                        Synced(g),
                        Replica(Behind(g, Synced(g)), None, r.open + {activation}), Synced(g));
  }

  lemma StartTracks(cfg: Config, t: History, r: Replica, g: Game, env: Envelope, p: ParticipantId, at: nat, a: Action,
                    hash: int, refs: seq<EventId>, die: Option<int>) returns (next: Replica)
    requires a.Activate? && HasSlot(g, p, at) && Working(cfg, g, p, at) && g.turn.cursor.status == Ready
    requires g.turn.pending.None? && Shadows(cfg, t, r, g, Synced(g)) && r.hash == Some(hash)
    requires StartActivation(cfg, g, env, p, at, a, hash, refs, die).Commit?
    ensures Landed(cfg, t, next, StartActivation(cfg, g, env, p, at, a, hash, refs, die).game)
  {
    hide AfterNarrative, CloseSlot, ContinuationOf, TotalCost, LastRef;
    var campaign := g.board.campaigns[a.campaign];
    if Balance(g, cfg.seats[p]) < TotalCost(campaign, cfg.valueOf(campaign.assignments).cost, a.useCore) {
      next := CloseLands(cfg, t, r, g, env, p, at, FailedCost, LastRef(refs));
    } else {
      var activation := ActivationOf(g, a.campaign);
      var f := Flow(g, refs, []);
      next := StartedTracks(cfg, t, r, f, env, activation, a.campaign, p, a.target.value, hash);
      var started := Continue(f, env, ActivationStarted(activation, a.campaign, p, a.target.value, hash));
      var k := ContinuationOf(cfg, g, p, a, hash, started.refs);
      if a.campaign !in g.board.narratives {
        var pending := NarrativePending(BaseFor(started.game, env, p, at, a.campaign), k);
        next := SuspendTracks(cfg, t, next, started.game, env, NarrativeRequested(pending), LastRef(started.refs),
                              pending, Synced(g));
      } else {
        var n := g.board.narratives[a.campaign];
        next := SeededNarrativeTracks(cfg, t, next, started, env, a.campaign);
        var told := Continue(started, Envelope(n.actor, None, n.correlation, Some(n.cause)),
                             NarrativeSubmitted(a.campaign, n.inputId, n.source, n.text, Some(n.cause)));
        next := AfterNarrativeTracks(cfg, t, next, told, env, p, at, a.campaign, k, Undecided, die, None, Synced(g));
      }
    }
  }

  lemma RunSlotTracks(cfg: Config, t: History, r: Replica, g: Game, env: Envelope, p: ParticipantId, at: nat,
                      die: Option<int>)
    returns (next: Replica)
    requires Current(cfg, t, r, g) && g.turn.pending.None? && HasSlot(g, p, at) && Working(cfg, g, p, at)
    requires g.turn.cursor.status == Ready
    requires RunSlot(cfg, g, env, p, at, cfg.hash(Gameplay(g, g.version)), die).Commit?
    ensures Landed(cfg, t, next, RunSlot(cfg, g, env, p, at, cfg.hash(Gameplay(g, g.version)), die).game)
  {
    hide RunConstruct, StartActivation, PlanBoost, Reveal, Gameplay, BoostError;
    var slot := g.turn.plan[p][at];
    var shown := Reveal(g, env, p, at);
    next := RevealTracks(cfg, t, r, g, env, p, at);
    match slot.action
    case Construct(_, _, _, _) =>
      next := ConstructTracks(cfg, t, next, shown, env, p, at, slot.action, |shown.events|);
    case PlayBoost(card, campaign, index) =>
      next := PlanBoostTracks(cfg, t, next, shown, env, p, at, BoostPlan(card, campaign, index), |shown.events|);
    case Activate(_, _, _) =>
      next := StartTracks(cfg, t, next, shown, env, p, at, slot.action, cfg.hash(Gameplay(g, g.version)),
                          [|shown.events|], die);
  }

  lemma RunNextTracks(cfg: Config, t: History, r: Replica, g: Game, correlation: string, die: Option<int>)
    returns (next: Replica)
    requires Current(cfg, t, r, g) && RunNext(cfg, g, correlation, die).Commit?
    ensures Landed(cfg, t, next, RunNext(cfg, g, correlation, die).game)
  {
    hide RunSlot;
    next := RunSlotTracks(cfg, t, r, g, System(correlation, None), cfg.order[g.turn.cursor.participant],
                          g.turn.cursor.slot, die);
  }

  // ------------------------------------------------------ submitted inputs

  /** The slot named by a suspended resolution is the one under the cursor. */
  lemma PendingSlotIsCurrent(cfg: Config, g: Game, open: set<ActivationId>)
    requires Steady(cfg, g, open) && g.turn.pending.Some?
    ensures PendingSlot(g, g.turn.pending.value.base) == g.turn.cursor.slot
    ensures Working(cfg, g, g.turn.pending.value.base.participant, g.turn.cursor.slot)
  {
    FindSlotByIndex(g.turn.plan[g.turn.pending.value.base.participant], g.turn.cursor.slot);
  }

  lemma TellNarrativeTracks(cfg: Config, t: History, r: Replica, g: Game, actor: Actor, inputId: string,
                            correlation: string, campaign: CampaignId, text: string,
                              die: Option<int>) returns (next: Replica)
    requires Current(cfg, t, r, g) && TellNarrative(cfg, g, actor, inputId, correlation, campaign, text, die).Commit?
    ensures Landed(cfg, t, next, TellNarrative(cfg, g, actor, inputId, correlation, campaign, text, die).game)
  {
    hide AfterNarrative;
    PendingSlotIsCurrent(cfg, g, r.open);
    var pending := g.turn.pending.value;
    var base := pending.base;
    var narrative := Narrative(inputId, text, Player, actor.user, Some(base.participant), correlation,
                               ByEvent(base.cause));
    var told := g.(board := g.board.(narratives := g.board.narratives[campaign := narrative]));
    var body := NarrativeSubmitted(campaign, inputId, Player, text, None);
    var g1 := Resume(told);
    next := InputEmitted(cfg, t, r, g, g1, By(actor, correlation), body, Some(ByEvent(base.cause)),
                         Synced(g).(version := g.version), Synced(g1));
    var g2 := Resume(Emit(told, By(actor, correlation), body, Some(ByEvent(base.cause))));
    var env := System(base.correlation, Some(ByEvent(|g2.events|)));
    next := AfterNarrativeTracks(cfg, t, next, Flow(g2, pending.k.refs + [|g2.events|], []), env, base.participant,
                                 g.turn.cursor.slot, campaign, pending.k, Undecided, die, None, Synced(g2));
  }

  /** A partner pays from another country, so the activation stays payable. */
  lemma PaymentKeepsFunds(cfg: Config, g: Game, env: Envelope, p: ParticipantId, contributes: bool,
                          owner: ParticipantId,
                          c: CampaignId, k: NarrativeContinuation)
    requires g.turn.pending.Some? && g.turn.pending.value.CoalitionPending? && p in cfg.seats
    requires Funded(cfg, g, owner, c, k) && p != owner
    ensures Funded(cfg, Paid(cfg, g, env, p, contributes).game, owner, c, k)
  {
    hide TotalCost;
  }

  lemma ContributeTracks(cfg: Config, t: History, r: Replica, f: Flow, env: Envelope, p: ParticipantId,
                         country: CountryId,
                         cause: EventId) returns (next: Replica)
    requires Shadows(cfg, t, r, f.game, Synced(f.game).(version := f.game.version))
    ensures Shadows(cfg, t, next, Contribute(f, env, p, country, cause).game, Synced(f.game)) && next.open == r.open
  {
    var g := f.game;
    var balance := Balance(g, country) - 1;
    var g1 := PushResource(SetBalance(g, country, balance), p, country, CoalitionContribution, -1, balance);
    var body := ContributionPaid(p, country, -1, balance, ResourceLedger(|g.audit.resourceLedger| + 1));
    next := InputEmitted(cfg, t, r, g, g1, env, body, Some(ByEvent(cause)), Synced(g).(version := g.version),
                         Synced(g));
  }

  /** Both sides store the same updated request while answers are missing. */
  lemma WaitTracks(cfg: Config, t: History, r: Replica, g: Game, env: Envelope, p: ParticipantId, contributes: bool,
                   updated: Pending, cause: Option<Cause>, version: nat) returns (next: Replica)
    requires Shadows(cfg, t, r, g, Synced(g).(version := version))
    requires PlanOk(g.turn.plan) && UniqueStacks(g.board.stacks) && g.turn.cursor.status == Suspended
    requires Awaits(cfg, g, updated, r.open) && Secured(cfg, g, updated)
    ensures Landed(cfg, t, next,
                   KeepWaiting(Emit(g, env, CoalitionResponded(p, contributes, Some(updated)), cause), updated))
  {
    SecuredStays(cfg, g, KeepWaiting(Emit(g, env, CoalitionResponded(p, contributes, Some(updated)), cause), updated),
                 updated);
    hide Secured;
    var g1 := KeepWaiting(g, updated);
    next := InputEmitted(cfg, t, r, g, g1, env, CoalitionResponded(p, contributes, Some(updated)), cause,
                         Synced(g).(version := version), Synced(g1));
  }

  lemma PaidTracks(cfg: Config, t: History, r: Replica, g: Game, env: Envelope, p: ParticipantId, contributes: bool)
    returns (next: Replica)
    requires Shadows(cfg, t, r, g, Synced(g).(version := g.version)) && p in cfg.seats
    requires g.turn.pending.Some? && g.turn.pending.value.CoalitionPending?
    ensures var version := if contributes then g.version + 1 else g.version;
            Shadows(cfg, t, next, Paid(cfg, g, env, p, contributes).game, Synced(g).(version := version))
    ensures next.open == r.open
  {
    var pending := g.turn.pending.value;
    next := r;
    if contributes {
      next := ContributeTracks(cfg, t, r, Flow(g, pending.refs, pending.ledgers), env, p, cfg.seats[p],
                               pending.base.cause);
    }
  }

  lemma LastAnswerTracks(cfg: Config, t: History, r: Replica, paid: Flow, env: Envelope, p: ParticipantId,
                         contributes: bool,
                         at: nat, base: PendingBase, k: NarrativeContinuation, bonus: nat, cause: Option<Cause>,
                         die: Option<int>, version: nat) returns (next: Replica)
    requires Working(cfg, paid.game, base.participant, at)
    requires Shadows(cfg, t, r, paid.game, Synced(paid.game).(version := version))
    requires base.campaign in paid.game.board.campaigns && ActivationOf(paid.game, base.campaign) in r.open
    requires base.campaign in paid.game.board.narratives && Funded(cfg, paid.game, base.participant, base.campaign, k)
    requires LastAnswer(cfg, paid, env, p, contributes, at, base, k, bonus, cause, die).Commit?
    ensures Landed(cfg, t, next, LastAnswer(cfg, paid, env, p, contributes, at, base, k, bonus, cause, die).game)
  {
    hide AfterNarrative, Payable, PlanOk, UniqueStacks;
    var g, event := paid.game, |paid.game.events| + 1;
    next := InputEmitted(cfg, t, r, g, Resume(g), env, CoalitionResponded(p, contributes, None), cause,
                         Synced(g).(version := version), Synced(Resume(g)));
    var answered := Resume(Emit(g, env, CoalitionResponded(p, contributes, None), cause));
    next := InputEmitted(cfg, t, next, answered, answered, env, CoalitionResolved(base.campaign, bonus),
                         Some(ByEvent(event)), Synced(answered), Synced(answered));
    var resolved := Emit(answered, env, CoalitionResolved(base.campaign, bonus), Some(ByEvent(event)));
    FundsStay(cfg, g, resolved, base.participant, base.campaign, k);
    next := AfterNarrativeTracks(cfg, t, next, Flow(resolved, paid.refs + [event] + [event + 1], paid.ledgers),
                                 System(base.correlation, Some(ByEvent(event + 1))), base.participant, at,
                                   base.campaign, k,
                                 Decided(bonus), die, None, Synced(answered));
  }

  lemma RespondTracks(cfg: Config, t: History, r: Replica, g: Game, actor: Actor, correlation: string,
                      request: ActivationId,
                      contributes: bool, die: Option<int>) returns (next: Replica)
    requires Current(cfg, t, r, g) && Respond(cfg, g, actor, correlation, request, contributes, die).Commit?
    ensures Landed(cfg, t, next, Respond(cfg, g, actor, correlation, request, contributes, die).game)
  {
    hide LastAnswer, Responded, Contributors, Payable, SeatedPlayer;
    PendingSlotIsCurrent(cfg, g, r.open);
    var pending := g.turn.pending.value;
    var base, p, env := pending.base, actor.participant, By(actor, correlation);
    var paid := Paid(cfg, g, env, p, contributes);
    var version := if contributes then g.version + 1 else g.version;
    next := PaidTracks(cfg, t, r, g, env, p, contributes);
    PaymentKeepsFunds(cfg, g, env, p, contributes, base.participant, base.campaign, pending.k);
    hide Paid;
    var decisions := pending.decisions[p := contributes];
    var responded := Responded(pending.eligible, decisions);
    var event := |paid.game.events| + 1;
    var cause := if contributes then Some(ByEvent(|paid.game.events|)) else Some(ByEvent(base.cause));
    if |responded| != |pending.eligible| {
      var updated := CoalitionPending(base.(cause := event), pending.k, pending.eligible, responded, decisions,
                                      paid.refs + [event], paid.ledgers);
      next := WaitTracks(cfg, t, next, paid.game, env, p, contributes, updated, cause, version);
    } else {
      next := LastAnswerTracks(cfg, t, next, paid, env, p, contributes, g.turn.cursor.slot, base, pending.k,
                               Contributors(pending.eligible, decisions), cause, die, version);
    }
  }

  lemma EnterDieTracks(cfg: Config, t: History, r: Replica, g: Game, actor: Actor, request: ActivationId, value: int)
    returns (next: Replica)
    requires Current(cfg, t, r, g) && EnterDie(cfg, g, actor, request, value).Commit?
    ensures Landed(cfg, t, next, EnterDie(cfg, g, actor, request, value).game)
  {
    hide AfterNarrative, SeatedPlayer, Facilitates;
    PendingSlotIsCurrent(cfg, g, r.open);
    var pending := g.turn.pending.value;
    var base := pending.base;
    var env := System(base.correlation, Some(ByEvent(base.cause)));
    next := AfterNarrativeTracks(cfg, t, r, Flow(Resume(g), pending.refs, pending.ledgers), env, base.participant,
                                 g.turn.cursor.slot, base.campaign, pending.k, Decided(pending.bonus), None,
                                 Some(ManualRoll(value, actor.participant)), Synced(g).(version := g.version));
  }

  lemma ChooseTracks(cfg: Config, t: History, r: Replica, g: Game, actor: Actor, correlation: string,
                     choice: ActivationId,
                     version: nat, selection: seq<nat>) returns (next: Replica)
    requires Current(cfg, t, r, g) && Choose(cfg, g, actor, correlation, choice, version, selection).Commit?
    ensures Landed(cfg, t, next, Choose(cfg, g, actor, correlation, choice, version, selection).game)
  {
    hide CompleteActivation, Takeable, SeatedPlayer;
    PendingSlotIsCurrent(cfg, g, r.open);
    var pending := g.turn.pending.value;
    var k := pending.choice;
    var cause, body := Some(ByEvent(pending.base.cause)), ChoiceResolved(choice, selection);
    var g1 := Resume(g.(turn := g.turn.(resolvedChoices := g.turn.resolvedChoices + [choice])));
    next := InputEmitted(cfg, t, r, g, g1, By(actor, correlation), body, cause, Synced(g).(version := g.version),
                         Synced(g1).(status := Suspended));
    var told := Emit(g, By(actor, correlation), body, cause);
    var g2 := Resume(told.(turn := told.turn.(resolvedChoices := told.turn.resolvedChoices + [choice])));
    var env := System(pending.base.correlation, Some(ByEvent(|g2.events|)));
    next := CompleteTracks(cfg, t, next, Flow(g2, k.refs + [|g2.events|], k.ledgers), env, g.turn.cursor.slot, k.impact,
                           Selected(k.options, selection), Suspended);
  }

  // ----------------------------------------------------------------- runs

  lemma PrepareTracks(cfg: Config, t: History, r: Replica, g: Game, command: Command) returns (next: Replica)
    requires Current(cfg, t, r, g) && Prepare(cfg, g, command).Commit?
    ensures Landed(cfg, t, next, Prepare(cfg, g, command).game)
  {
    hide RunNext, TellNarrative, Respond, EnterDie, Choose;
    match command
    case RunScheduler(correlation, die) =>
      next := RunNextTracks(cfg, t, r, g, correlation, die);
    case SubmitNarrative(actor, inputId, correlation, campaign, text, die) =>
      next := TellNarrativeTracks(cfg, t, r, g, actor, inputId, correlation, campaign, text, die);
    case SubmitContribution(actor, correlation, request, contributes, die) =>
      next := RespondTracks(cfg, t, r, g, actor, correlation, request, contributes, die);
    case SubmitDie(actor, correlation, request, value) =>
      next := EnterDieTracks(cfg, t, r, g, actor, request, value);
    case SubmitChoice(actor, correlation, choice, version, selection) =>
      next := ChooseTracks(cfg, t, r, g, actor, correlation, choice, version, selection);
  }

  /** A dispatched command with the version its sender expects. */
  datatype Order = Order(expected: nat, command: Command)

  /** A rejected command leaves the stored game as it was. */
  function Step(cfg: Config, g: Game, o: Order): Game {
    var v := Execute(cfg, g, o.expected, o.command);
    if v.Commit? then v.game else g
  }

  function Run(cfg: Config, g: Game, orders: seq<Order>): Game {
    if orders == [] then g else Step(cfg, Run(cfg, g, orders[..|orders| - 1]), orders[|orders| - 1])
  }

  lemma StepTracks(cfg: Config, t: History, r: Replica, g: Game, o: Order) returns (next: Replica)
    requires Current(cfg, t, r, g)
    ensures Current(cfg, t, next, Step(cfg, g, o))
  {
    hide Prepare;
    next := r;
    if Execute(cfg, g, o.expected, o.command).Commit? {
      next := PrepareTracks(cfg, t, r, g, o.command);
    }
  }

  lemma {:induction false} RunTracks(cfg: Config, t: History, r: Replica, g: Game, orders: seq<Order>)
    returns (next: Replica)
    requires Current(cfg, t, r, g)
    ensures Current(cfg, t, next, Run(cfg, g, orders))
  {
    next := r;
    if orders != [] {
      next := RunTracks(cfg, t, r, g, orders[..|orders| - 1]);
      next := StepTracks(cfg, t, next, Run(cfg, g, orders[..|orders| - 1]), orders[|orders| - 1]);
    }
  }

  /** The history that relates a replica to exactly the events replayed on top of a snapshot. */
  ghost function HistoryFrom(cfg: Config, start: Game): History {
    (r: Replica, events: seq<Event>) =>
      start.events <= events && ReplayAll(cfg, Replica(start, None, {}), events[|start.events|..]) == Some(r)
  }

  lemma HistoryFollows(cfg: Config, start: Game)
    ensures Follows(cfg, HistoryFrom(cfg, start))
  {
    hide ReplayEvent;
    var n := |start.events|;
    forall r, events, e | HistoryFrom(cfg, start)(r, events) && ReplayEvent(cfg, r, e).Some?
      ensures HistoryFrom(cfg, start)(ReplayEvent(cfg, r, e).value, events + [e])
    {
      var longer := (events + [e])[n..];
      assert longer[..|longer| - 1] == events[n..];
    }
  }

  /**
   Replay refines live play. From any state between actions whose cursor points at a slot, whatever
   commands are accepted or rejected, the events are only appended to, and replaying the new ones over
   the starting state gives the whole live state back.
   */
  lemma ReplayRefinesRun(cfg: Config, start: Game, orders: seq<Order>)
    requires Steady(cfg, start, {})
    ensures start.events <= Run(cfg, start, orders).events
    ensures var played := Run(cfg, start, orders);
            var replayed := ReplayAll(cfg, Replica(start, None, {}), played.events[|start.events|..]);
            replayed.Some? && replayed.value.game == played
  {
    hide Run, ReplayAll;
    var r := Replica(start, None, {});
    HistoryFollows(cfg, start);
    assert HistoryFrom(cfg, start)(r, start.events) by {
      NothingReplayed(cfg, r);
      assert start.events[|start.events|..] == [];
    }
    var next := RunTracks(cfg, HistoryFrom(cfg, start), r, start, orders);
    assert HistoryFrom(cfg, start)(next, Run(cfg, start, orders).events);
  }

  lemma StepStaysSteady(cfg: Config, g: Game, open: set<ActivationId>, o: Order) returns (later: set<ActivationId>)
    requires Steady(cfg, g, open)
    ensures Steady(cfg, Step(cfg, g, o), later)
  {
    hide Steady, Step;
    var anything: History := (_, _) => true;
    assert Shadows(cfg, anything, Replica(g, None, open), g, Synced(g).(version := g.version));
    var r := StepTracks(cfg, anything, Replica(g, None, open), g, o);
    later := r.open;
  }

  /** Every state a run reaches is steady again. */
  lemma {:induction false} RunStaysSteady(cfg: Config, start: Game, open: set<ActivationId>, orders: seq<Order>)
    returns (later: set<ActivationId>)
    requires Steady(cfg, start, open)
    ensures Steady(cfg, Run(cfg, start, orders), later)
  {
    hide Steady, Step;
    later := open;
    if orders != [] {
      later := RunStaysSteady(cfg, start, open, orders[..|orders| - 1]);
      later := StepStaysSteady(cfg, Run(cfg, start, orders[..|orders| - 1]), later, orders[|orders| - 1]);
    }
  }

  lemma NothingReplayed(cfg: Config, r: Replica)
    ensures ReplayAll(cfg, r, []) == Some(r)
  {
  }

  // ------------------------------------------- where the cursors part

  /** Locating never moves a cursor backwards. */
  lemma {:induction false} LocateMovesForward(order: seq<ParticipantId>, plan: map<ParticipantId, seq<Slot>>, c: Cursor)
    ensures var r := Locate(order, plan, c);
            r.participant > c.participant || (r.participant == c.participant && r.slot >= c.slot)
    decreases |order| - c.participant
  {
    if c.participant < |order| && c.slot >= |SlotsOf(plan, order[c.participant])| {
      LocateMovesForward(order, plan, c.(participant := c.participant + 1, slot := 0));
    }
  }

  /**
   The engine looks for the next slot before it runs one, the replay only after an ACTION_RESOLVED
   event: once that slot is closed, their cursors agree exactly if the starting cursor already pointed
   at a slot.
   */
  lemma CursorsAgreeIffAtSlot(order: seq<ParticipantId>, plan: map<ParticipantId, seq<Slot>>, c: Cursor)
    requires c.status == Ready && Locate(order, plan, c).status == Ready
    ensures var live := Locate(order, plan, c);
            Locate(order, plan, live.(slot := live.slot + 1)) == ReplayLocate(order, plan, c.(slot := c.slot + 1)) <==>
            c.participant < |order| && c.slot < |SlotsOf(plan, order[c.participant])|
  {
    var live := Locate(order, plan, c);
    LocateAgrees(order, plan, c.(slot := c.slot + 1));
    LocateMovesForward(order, plan, live.(slot := live.slot + 1));
  }
}
