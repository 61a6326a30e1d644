/**
 What a command of the adjudication engine appends to the log: one event or more, numbered on, all under the
 version the commit brings.
 */
module CampaignEvents {
  import opened Prelude
  import opened CampaignTypes
  import opened Adjudication

  /** Between two working states of one command events have only been appended. */
  ghost predicate Stamps(g: Game, h: Game) {
    g.events <= h.events && h.version == g.version &&
    forall k :: |g.events| <= k < |h.events| ==>
      h.events[k].head.sequence == k + 1 && h.events[k].head.version == g.version + 1
  }

  /** At least one. */
  ghost predicate Appends(g: Game, h: Game) {
    Stamps(g, h) && |g.events| < |h.events|
  }

  lemma Both(a: Game, b: Game, c: Game)
    requires Stamps(a, b) && Stamps(b, c)
    ensures Stamps(a, c) && (|a.events| < |b.events| || |b.events| < |c.events| ==> Appends(a, c))
  {
  }

  /** One event more than `g`, whatever else has changed. */
  lemma OneMore(g: Game, h: Game, env: Envelope, body: Body, cause: Option<Cause>)
    requires h.version == g.version && h.events == g.events + [NewEvent(g, env, body, cause)]
    ensures Appends(g, h)
  {
  }

  lemma PayAppends(f: Flow, env: Envelope, p: ParticipantId, c: CampaignId, k: NarrativeContinuation)
    requires c in f.game.board.campaigns && Pay(f, env, p, c, k).Go?
    ensures Stamps(f.game, Pay(f, env, p, c, k).flow.game)
  {
    hide Booked, Receipt, ComponentCosts, TotalCost;
  }

  lemma BoostAppends(f: Flow, env: Envelope, p: ParticipantId, index: nat, c: CampaignId)
    requires ApplyBoost(f, env, p, index, c).Go?
    ensures Stamps(f.game, ApplyBoost(f, env, p, index, c).flow.game)
  {
    hide SpendBoost;
  }

  lemma RollAppends(cfg: Config, f: Flow, env: Envelope, p: ParticipantId, c: CampaignId, k: NarrativeContinuation,
                    bonus: nat, boost: int, raw: int, manual: Option<ManualRoll>)
    requires c in f.game.board.campaigns
    ensures Stamps(f.game, Roll(cfg, f, env, p, c, k, bonus, boost, raw, manual).game)
  {
    hide ErtRoll, ErtResult, LegitimacyModifier, TierFor;
  }

  lemma {:induction false} RemovalsAppend(f: Flow, env: Envelope, i: Impact, selection: seq<CountryId>)
    requires RemoveCubes(f, env, i, selection).Go?
    ensures Stamps(f.game, RemoveCubes(f, env, i, selection).flow.game)
  {
    if selection != [] {
      hide FindStack;
      RemovalsAppend(f, env, i, selection[..|selection| - 1]);
      var r := RemoveCubes(f, env, i, selection[..|selection| - 1]).flow;
      Both(f.game, r.game, RemoveCubes(f, env, i, selection).flow.game);
    }
  }

  lemma PlacingAppends(f: Flow, env: Envelope, i: Impact, placed: nat)
    ensures Stamps(f.game, PlaceCubes(f, env, i, placed).game)
  {
    hide AddCubes, FindStack;
  }

  lemma PointsAppend(f: Flow, env: Envelope, p: ParticipantId, reason: VpReason, delta: int, before: int)
    ensures Stamps(f.game, AddVp(f, env, p, reason, delta, before).game)
  {
  }

  lemma HolderAppends(f: Flow, env: Envelope, pd: PdId, previous: Option<ParticipantId>, next: Option<ParticipantId>,
                      reason: LegitimacyReason)
    ensures Stamps(f.game, ChangeHolder(f, env, pd, previous, next, reason).game)
  {
  }

  lemma HolderThenPoints(f: Flow, env: Envelope, i: Impact, previous: Option<ParticipantId>,
                         next: Option<ParticipantId>, reason: LegitimacyReason, why: VpReason, before: int)
    ensures Stamps(f.game, AddVp(ChangeHolder(f, env, i.target, previous, next, reason), env, i.participant, why, 1,
                                 before).game)
  {
    hide AddVp, ChangeHolder, Stamps;
    var changed := ChangeHolder(f, env, i.target, previous, next, reason);
    HolderAppends(f, env, i.target, previous, next, reason);
    PointsAppend(changed, env, i.participant, why, 1, before);
    Both(f.game, changed.game, AddVp(changed, env, i.participant, why, 1, before).game);
  }

  lemma AwardAppends(f: Flow, env: Envelope, i: Impact, placed: nat)
    ensures Stamps(f.game, Award(f, env, i, placed).game)
  {
    var vp, p := VpOf(f.game, i.participant), i.participant;
    if i.ertResult > 0 && placed > 0 {
      var f1 := AddVp(f, env, p, CubePlaced, placed, vp);
      PointsAppend(f, env, p, CubePlaced, placed, vp);
      HolderThenPoints(f1, env, i, None, Some(p), Establish, LegitimacyEstablished, vp + placed);
      HolderThenPoints(f1, env, i, i.legitimacyBefore, None, Subvert, LegitimacySubverted, vp + placed);
      hide AddVp, ChangeHolder, Stamps;
      Both(f.game, f1.game, Award(f, env, i, placed).game);
    } else {
      PointsAppend(f, env, p, Backlash, -Min(vp, placed), vp);
      hide AddVp, ChangeHolder;
    }
  }

  lemma ClosingAppends(cfg: Config, g: Game, env: Envelope, p: ParticipantId, at: nat, outcome: Outcome,
                       cause: Option<Cause>)
    requires HasSlot(g, p, at)
    ensures Appends(g, CloseSlot(cfg, g, env, p, at, outcome, cause))
  {
    hide Locate;
  }

  lemma FinishAppends(cfg: Config, f: Flow, env: Envelope, at: nat, i: Impact, resolution: Resolution)
    requires HasSlot(f.game, i.participant, at) && i.campaign in f.game.board.campaigns
    requires Finish(cfg, f, env, at, i, resolution).Commit?
    ensures Appends(f.game, Finish(cfg, f, env, at, i, resolution).game)
  {
    var g := f.game;
    var campaign := g.board.campaigns[i.campaign];
    var g1 := g.(audit := g.audit.(resolutions := g.audit.resolutions + [resolution]),
                 board := g.board.(campaigns :=
                                   g.board.campaigns[i.campaign :=
                                                     campaign.(activations := campaign.activations + 1)]));
    var closed := CloseSlot(cfg, g1, env, i.participant, at, Resolved, LastRef(f.refs));
    var trace := TraceRefs(f.refs + [|g.events| + 1, |closed.events| + 1], f.ledgers);
    var body := ActivationCompleted(ActivationOf(g, i.campaign), i.campaign, resolution, trace);
    ClosingAppends(cfg, g1, env, i.participant, at, Resolved, LastRef(f.refs));
    hide CloseSlot;
    OneMore(closed, Emit(closed, env, body, Some(ByEvent(|closed.events|))), env, body,
            Some(ByEvent(|closed.events|)));
    Both(g1, closed, Emit(closed, env, body, Some(ByEvent(|closed.events|))));
  }

  lemma CompletionAppends(cfg: Config, f: Flow, env: Envelope, at: nat, i: Impact, selection: seq<CountryId>)
    requires HasSlot(f.game, i.participant, at) && i.campaign in f.game.board.campaigns
    requires CompleteActivation(cfg, f, env, at, i, selection).Commit?
    ensures Appends(f.game, CompleteActivation(cfg, f, env, at, i, selection).game)
  {
    hide RemoveCubes, PlaceCubes, Award, Finish, Effect, Tally, Stamps;
    var effect := Effect(f.game, i);
    var removed := RemoveCubes(f, env, i, selection).flow;
    var moved := PlaceCubes(removed, env, i, effect.placed);
    var awarded := Award(moved, env, i, effect.placed);
    var resolution := Resolution(|moved.game.audit.resolutions| + 1, i.target, i.kind, i.attribution, i.generated,
                                 2 * effect.removed, Tally(selection), effect.placed);
    RemovalsAppend(f, env, i, selection);
    PlacingAppends(removed, env, i, effect.placed);
    AwardAppends(moved, env, i, effect.placed);
    FinishAppends(cfg, awarded, env, at, i, resolution);
    Both(f.game, removed.game, moved.game);
    Both(f.game, moved.game, awarded.game);
    Both(f.game, awarded.game, Finish(cfg, awarded, env, at, i, resolution).game);
  }

  lemma ResolutionAppends(cfg: Config, f: Flow, env: Envelope, at: nat, i: Impact)
    requires HasSlot(f.game, i.participant, at) && i.campaign in f.game.board.campaigns
    requires Resolve(cfg, f, env, at, i).Commit?
    ensures Appends(f.game, Resolve(cfg, f, env, at, i).game)
  {
    hide CompleteActivation, AutomaticSelections, SourcesOf, Effect;
    var removals := Effect(f.game, i).removed;
    if !(removals > 0 && |SourcesOf(f.game, i)| > 1) {
      CompletionAppends(cfg, f, env, at, i, AutomaticSelections(f.game.board.stacks, i.target, i.kind.Opposite(),
                                                                COUNTRIES, removals));
    }
  }

  lemma RollingAppends(cfg: Config, f: Flow, env: Envelope, p: ParticipantId, at: nat, c: CampaignId,
                       k: NarrativeContinuation, bonus: nat, die: Option<int>, manual: Option<ManualRoll>)
    requires c in f.game.board.campaigns && HasSlot(f.game, p, at)
    requires RollAndResolve(cfg, f, env, p, at, c, k, bonus, die, manual).Commit?
    ensures Appends(f.game, RollAndResolve(cfg, f, env, p, at, c, k, bonus, die, manual).game)
  {
    hide Pay, ApplyBoost, Roll, Resolve, ResolutionInput, RollValue, Stamps, BoostApplies;
    var index := f.game.turn.plan[p][at].index;
    var paid := Pay(f, env, p, c, k).flow;
    var boosted := ApplyBoost(paid, env, p, index, c).flow;
    var boost := if BoostApplies(f.game, p, index, c) then 1 else 0;
    var raw := RollValue(die, manual).value;
    var rolled := Roll(cfg, boosted, env, p, c, k, bonus, boost, raw, manual);
    var impact := ResolutionInput(cfg, boosted.game, p, index, c, k, bonus, boost, raw);
    PayAppends(f, env, p, c, k);
    BoostAppends(paid, env, p, index, c);
    RollAppends(cfg, boosted, env, p, c, k, bonus, boost, raw, manual);
    ResolutionAppends(cfg, rolled, env, at, impact);
    Both(f.game, paid.game, boosted.game);
    Both(f.game, boosted.game, rolled.game);
    Both(f.game, rolled.game, Resolve(cfg, rolled, env, at, impact).game);
  }

  lemma PreRollAppends(f: Flow, env: Envelope)
    ensures Stamps(f.game, PreRoll(f, env).game)
  {
  }

  lemma AskingAppends(cfg: Config, f: Flow, env: Envelope, p: ParticipantId, at: nat, c: CampaignId,
                      k: NarrativeContinuation, bonus: nat)
    requires c in f.game.board.campaigns && HasSlot(f.game, p, at)
    ensures Appends(f.game, AskCoalition(cfg, f, env, p, at, c, k))
    ensures Appends(f.game, AskDie(f, env, p, at, c, k, bonus))
  {
  }

  lemma NarrativeAppends(cfg: Config, f: Flow, env: Envelope, p: ParticipantId, at: nat, c: CampaignId,
                         k: NarrativeContinuation, coalition: Coalition, die: Option<int>, manual: Option<ManualRoll>)
    requires AfterNarrative(cfg, f, env, p, at, c, k, coalition, die, manual).Commit?
    ensures Appends(f.game, AfterNarrative(cfg, f, env, p, at, c, k, coalition, die, manual).game)
  {
    hide RollAndResolve, AskDie, AskCoalition, PreRoll, NeedsCoalition, Allies, Stamps;
    var bonus := if coalition.Decided? then coalition.bonus else 0;
    AskingAppends(cfg, f, env, p, at, c, k, bonus);
    PreRollAppends(f, env);
    var ready := if manual.None? then PreRoll(f, env) else f;
    if !(NeedsCoalition(f.game.board.campaigns[c]) && coalition.Undecided? && Allies(cfg, cfg.order, p) != []) {
      if cfg.manualDice && manual.None? {
        AskingAppends(cfg, ready, env, p, at, c, k, bonus);
        Both(f.game, ready.game, AskDie(ready, env, p, at, c, k, bonus));
      } else {
        RollingAppends(cfg, ready, env, p, at, c, k, bonus, die, manual);
        if manual.None? {
          Both(f.game, ready.game, RollAndResolve(cfg, ready, env, p, at, c, k, bonus, die, manual).game);
        }
      }
    }
  }

  // ---------------------------------------------------------------- commands

  lemma StartAppends(cfg: Config, g: Game, env: Envelope, p: ParticipantId, at: nat, a: Action, hash: int,
                     refs: seq<EventId>, die: Option<int>)
    requires a.Activate? && HasSlot(g, p, at) && StartActivation(cfg, g, env, p, at, a, hash, refs, die).Commit?
    ensures Appends(g, StartActivation(cfg, g, env, p, at, a, hash, refs, die).game)
  {
    assert ActivationError(cfg, g, p, a).None?;
    hide AfterNarrative, CloseSlot, TotalCost, Stamps;
    var campaign := g.board.campaigns[a.campaign];
    if Balance(g, cfg.seats[p]) < TotalCost(campaign, cfg.valueOf(campaign.assignments).cost, a.useCore) {
      ClosingAppends(cfg, g, env, p, at, FailedCost, LastRef(refs));
    } else {
      var body := ActivationStarted(ActivationOf(g, a.campaign), a.campaign, p, a.target.value, hash);
      var started := Continue(Flow(g, refs, []), env, body);
      OneMore(g, started.game, env, body, LastRef(refs));
      var k := ContinuationOf(cfg, g, p, a, hash, started.refs);
      if a.campaign !in g.board.narratives {
        var pending := NarrativePending(BaseFor(started.game, env, p, at, a.campaign), k);
        var asked := Suspend(started.game, env, NarrativeRequested(pending), LastRef(started.refs), pending);
        OneMore(started.game, asked, env, NarrativeRequested(pending), LastRef(started.refs));
        Both(g, started.game, asked);
      } else {
        var n := g.board.narratives[a.campaign];
        var teller := Envelope(n.actor, None, n.correlation, Some(n.cause));
        var line := NarrativeSubmitted(a.campaign, n.inputId, n.source, n.text, Some(n.cause));
        var told := Continue(started, teller, line);
        OneMore(started.game, told.game, teller, line, LastRef(started.refs));
        NarrativeAppends(cfg, told, env, p, at, a.campaign, k, Undecided, die, None);
        Both(g, started.game, told.game);
        Both(g, told.game, AfterNarrative(cfg, told, env, p, at, a.campaign, k, Undecided, die, None).game);
      }
    }
  }

  lemma ConstructAppends(cfg: Config, g: Game, env: Envelope, p: ParticipantId, a: Action, cause: EventId)
    requires a.Construct? && ConstructError(cfg, g, p, a).None?
    ensures Stamps(g, ConstructCampaign(cfg, g, env, p, a, cause))
  {
    hide ConstructError, AssignmentsOf, TakeIntoCampaign;
  }

  lemma PlanAppends(cfg: Config, g: Game, env: Envelope, p: ParticipantId, at: nat, plan: BoostPlan, cause: EventId)
    requires HasSlot(g, p, at)
    ensures Stamps(g, PlanBoost(cfg, g, env, p, at, plan, cause))
  {
    hide Locate;
  }

  lemma RevealAppends(g: Game, env: Envelope, p: ParticipantId, at: nat)
    requires HasSlot(g, p, at)
    ensures Appends(g, Reveal(g, env, p, at))
  {
  }

  lemma SlotAppends(cfg: Config, g: Game, env: Envelope, p: ParticipantId, at: nat, hash: int, die: Option<int>)
    requires HasSlot(g, p, at) && RunSlot(cfg, g, env, p, at, hash, die).Commit?
    ensures Appends(g, RunSlot(cfg, g, env, p, at, hash, die).game)
  {
    hide ConstructCampaign, ConstructError, BoostError, PlanBoost, StartActivation, CloseSlot, Reveal, Stamps;
    var slot := g.turn.plan[p][at];
    var shown := Reveal(g, env, p, at);
    var revealed := |shown.events|;
    RevealAppends(g, env, p, at);
    match slot.action
    case Construct(_, _, _, _) =>
      var built := ConstructCampaign(cfg, shown, env, p, slot.action, revealed);
      ConstructAppends(cfg, shown, env, p, slot.action, revealed);
      ClosingAppends(cfg, built, env, p, at, Resolved, Some(ByEvent(|built.events|)));
      Both(g, shown, built);
      Both(g, built, CloseSlot(cfg, built, env, p, at, Resolved, Some(ByEvent(|built.events|))));
    case PlayBoost(card, campaign, index) =>
      PlanAppends(cfg, shown, env, p, at, BoostPlan(card, campaign, index), revealed);
      Both(g, shown, PlanBoost(cfg, shown, env, p, at, BoostPlan(card, campaign, index), revealed));
    case Activate(_, _, _) =>
      StartAppends(cfg, shown, env, p, at, slot.action, hash, [revealed], die);
      Both(g, shown, StartActivation(cfg, shown, env, p, at, slot.action, hash, [revealed], die).game);
  }

  lemma NextAppends(cfg: Config, g: Game, correlation: string, die: Option<int>)
    requires RunNext(cfg, g, correlation, die).Commit?
    ensures Appends(g, RunNext(cfg, g, correlation, die).game)
  {
    hide RunSlot;
    var cursor := Locate(cfg.order, g.turn.plan, g.turn.cursor);
    var at := g.(turn := g.turn.(cursor := cursor));
    SlotAppends(cfg, at, System(correlation, None), cfg.order[cursor.participant], cursor.slot,
                cfg.hash(Gameplay(g, g.version)), die);
    hide Locate, Gameplay;
  }

  lemma TellingAppends(cfg: Config, g: Game, actor: Actor, inputId: string, correlation: string, campaign: CampaignId,
                       text: string, die: Option<int>)
    requires TellNarrative(cfg, g, actor, inputId, correlation, campaign, text, die).Commit?
    ensures Appends(g, TellNarrative(cfg, g, actor, inputId, correlation, campaign, text, die).game)
  {
    hide AfterNarrative, Stamps, PendingSlot;
    var pending := g.turn.pending.value;
    var base := pending.base;
    var cause := ByEvent(base.cause);
    var line := NarrativeSubmitted(campaign, inputId, Player, text, None);
    var told := g.(board := g.board.(narratives := g.board.narratives[campaign :=
      Narrative(inputId, text, Player, actor.user, Some(base.participant), correlation, cause)]));
    var g1 := Resume(Emit(told, By(actor, correlation), line, Some(cause)));
    assert g1.events == g.events + [NewEvent(g, By(actor, correlation), line, Some(cause))];
    OneMore(g, g1, By(actor, correlation), line, Some(cause));
    var f := Flow(g1, pending.k.refs + [|g1.events|], []);
    var env, at := System(base.correlation, Some(ByEvent(|g1.events|))), PendingSlot(g, base);
    NarrativeAppends(cfg, f, env, base.participant, at, campaign, pending.k, Undecided, die, None);
    Both(g, g1, AfterNarrative(cfg, f, env, base.participant, at, campaign, pending.k, Undecided, die, None).game);
  }

  lemma PaidAppends(cfg: Config, g: Game, env: Envelope, p: ParticipantId, contributes: bool)
    requires g.turn.pending.Some? && g.turn.pending.value.CoalitionPending? && p in cfg.seats
    ensures Stamps(g, Paid(cfg, g, env, p, contributes).game)
  {
  }

  lemma LastAnswerAppends(cfg: Config, paid: Flow, env: Envelope, p: ParticipantId, contributes: bool, at: nat,
                          base: PendingBase, k: NarrativeContinuation, bonus: nat, cause: Option<Cause>,
                          die: Option<int>)
    requires LastAnswer(cfg, paid, env, p, contributes, at, base, k, bonus, cause, die).Commit?
    ensures Appends(paid.game, LastAnswer(cfg, paid, env, p, contributes, at, base, k, bonus, cause, die).game)
  {
    hide AfterNarrative, Stamps;
    var event := |paid.game.events| + 1;
    var answer, summary := CoalitionResponded(p, contributes, None), CoalitionResolved(base.campaign, bonus);
    var answered := Emit(paid.game, env, answer, cause);
    var resolved := Emit(Resume(answered), env, summary, Some(ByEvent(event)));
    OneMore(paid.game, answered, env, answer, cause);
    OneMore(answered, resolved, env, summary, Some(ByEvent(event)));
    var f, system := Flow(resolved, paid.refs + [event] + [event + 1], paid.ledgers),
      System(base.correlation, Some(ByEvent(event + 1)));
    NarrativeAppends(cfg, f, system, base.participant, at, base.campaign, k, Decided(bonus), die, None);
    Both(paid.game, answered, resolved);
    Both(paid.game, resolved,
         AfterNarrative(cfg, f, system, base.participant, at, base.campaign, k, Decided(bonus), die, None).game);
  }

  lemma ResponseAppends(cfg: Config, g: Game, actor: Actor, correlation: string, request: ActivationId,
                        contributes: bool, die: Option<int>)
    requires Respond(cfg, g, actor, correlation, request, contributes, die).Commit?
    ensures Appends(g, Respond(cfg, g, actor, correlation, request, contributes, die).game)
  {
    assert RespondError(cfg, g, actor, request, contributes).None?;
    hide LastAnswer, Paid, Responded, Contributors, PendingSlot, Stamps;
    var pending := g.turn.pending.value;
    var base, p, env := pending.base, actor.participant, By(actor, correlation);
    var paid := Paid(cfg, g, env, p, contributes);
    PaidAppends(cfg, g, env, p, contributes);
    var decisions := pending.decisions[p := contributes];
    var responded := Responded(pending.eligible, decisions);
    var event := |paid.game.events| + 1;
    var cause := if contributes then Some(ByEvent(|paid.game.events|)) else Some(ByEvent(base.cause));
    if |responded| != |pending.eligible| {
      var updated := CoalitionPending(base.(cause := event), pending.k, pending.eligible, responded, decisions,
                                      paid.refs + [event], paid.ledgers);
      var body := CoalitionResponded(p, contributes, Some(updated));
      OneMore(paid.game, KeepWaiting(Emit(paid.game, env, body, cause), updated), env, body, cause);
      Both(g, paid.game, KeepWaiting(Emit(paid.game, env, body, cause), updated));
    } else {
      var bonus, at := Contributors(pending.eligible, decisions), PendingSlot(g, base);
      LastAnswerAppends(cfg, paid, env, p, contributes, at, base, pending.k, bonus, cause, die);
      Both(g, paid.game, LastAnswer(cfg, paid, env, p, contributes, at, base, pending.k, bonus, cause, die).game);
    }
  }

  lemma ResumedAppends(g: Game, h: Game)
    requires Appends(Resume(g), h)
    ensures Appends(g, h)
  {
  }

  lemma DieAppends(cfg: Config, g: Game, actor: Actor, request: ActivationId, value: int)
    requires EnterDie(cfg, g, actor, request, value).Commit?
    ensures Appends(g, EnterDie(cfg, g, actor, request, value).game)
  {
    hide AfterNarrative, Appends, PendingSlot;
    var pending := g.turn.pending.value;
    var base := pending.base;
    NarrativeAppends(cfg, Flow(Resume(g), pending.refs, pending.ledgers),
                     System(base.correlation, Some(ByEvent(base.cause))), base.participant, PendingSlot(g, base),
                     base.campaign, pending.k, Decided(pending.bonus), None,
                     Some(ManualRoll(value, actor.participant)));
    ResumedAppends(g, EnterDie(cfg, g, actor, request, value).game);
  }

  lemma ChoiceAppends(cfg: Config, g: Game, actor: Actor, correlation: string, choice: ActivationId, version: nat,
                      selection: seq<nat>)
    requires Choose(cfg, g, actor, correlation, choice, version, selection).Commit?
    ensures Appends(g, Choose(cfg, g, actor, correlation, choice, version, selection).game)
  {
    var pending := g.turn.pending.value;
    var k := pending.choice;
    var at, chosen := PendingSlot(g, pending.base), Selected(k.options, selection);
    hide CompleteActivation, Stamps, PendingSlot, Selected, Takeable, ChoiceError;
    var body, cause := ChoiceResolved(choice, selection), Some(ByEvent(pending.base.cause));
    var told := Emit(g, By(actor, correlation), body, cause);
    var g1 := Resume(told.(turn := told.turn.(resolvedChoices := told.turn.resolvedChoices + [choice])));
    OneMore(g, g1, By(actor, correlation), body, cause);
    var f := Flow(g1, k.refs + [|g1.events|], k.ledgers);
    var env := System(pending.base.correlation, Some(ByEvent(|g1.events|)));
    CompletionAppends(cfg, f, env, at, k.impact, chosen);
    Both(g, g1, CompleteActivation(cfg, f, env, at, k.impact, chosen).game);
  }

  /** Every accepted command appends an event, and what it appends carries the version it commits. */
  lemma EveryCommitAppends(cfg: Config, g: Game, expected: nat, command: Command)
    requires Execute(cfg, g, expected, command).Commit?
    ensures
      var after := Execute(cfg, g, expected, command).game;
      g.events < after.events && after.version == g.version + 1 &&
      forall k :: |g.events| <= k < |after.events| ==>
        after.events[k].head.sequence == k + 1 && after.events[k].head.version == after.version
  {
    hide RunNext, TellNarrative, Respond, EnterDie, Choose;
    match command
    case RunScheduler(correlation, die) => NextAppends(cfg, g, correlation, die);
    case SubmitNarrative(actor, inputId, correlation, campaign, text, die) =>
      TellingAppends(cfg, g, actor, inputId, correlation, campaign, text, die);
    case SubmitContribution(actor, correlation, request, contributes, die) =>
      ResponseAppends(cfg, g, actor, correlation, request, contributes, die);
    case SubmitDie(actor, correlation, request, value) => DieAppends(cfg, g, actor, request, value);
    case SubmitChoice(actor, correlation, choice, version, selection) =>
      ChoiceAppends(cfg, g, actor, correlation, choice, version, selection);
  }
}
