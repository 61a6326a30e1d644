/**
 What an activation waits for. After every step that has an activation go on, whether it waits for the partners of
 a coalition, for a die or for an attribution follows from its campaign, the table and the board; and an input is
 accepted from whoever it was asked of, and kept as it was given.
 */
module InputRequests {
  import opened Prelude
  import opened CampaignTypes
  import opened Adjudication
  import opened ReplaySegments
  import opened ReplayRuns
  import opened RollRecords
  import opened Choices
  import opened Transparency
  import opened CampaignOutcomes

  // ----------------------------------------------------------- the questions

  /** The campaign has the card that brings in partners, and there are other players. */
  ghost predicate WantsPartners(cfg: Config, campaign: Campaign, p: ParticipantId) {
    (exists x :: x in campaign.assignments && x.definition == COALITION_CARD) &&
    exists q :: q in cfg.order && q != p && q in cfg.players
  }

  /** A result cancels cubes and there is a choice of countries to lose them. */
  ghost predicate LeavesChoice(stacks: seq<Stack>, target: PdId, own: Alignment, result: int) {
    Size(result) >= 2 &&
    exists kind, c, d :: !Brings(own, result, kind) && c != d &&
      Attributed(stacks, target, kind, c) && Attributed(stacks, target, kind, d)
  }

  /**
   What an activation of campaign `c` on `target` waits for once its narrative is told. `answered`: the partners
   have answered; `rolled`: the die has been submitted.
   */
  ghost predicate WaitsFor(cfg: Config, before: Game, after: Game, p: ParticipantId, c: CampaignId, target: PdId,
                           answered: bool, rolled: bool)
    requires c in before.board.campaigns
  {
    var campaign, pending := before.board.campaigns[c], after.turn.pending;
    if WantsPartners(cfg, campaign, p) && !answered then
      pending.Some? && pending.value.CoalitionPending? && pending.value.decisions == map[] &&
      forall q :: q in pending.value.eligible <==> q in cfg.order && q != p && q in cfg.players
    else if cfg.manualDice && !rolled then pending.Some? && pending.value.DiePending?
    else if LeavesChoice(before.board.stacks, target, campaign.alignment, LastResult(after.events))
    then pending.Some? && pending.value.ChoicePending?
    else pending.None?
  }

  lemma {:induction false} AlliesAre(cfg: Config, order: seq<ParticipantId>, p: ParticipantId)
    ensures forall q :: q in Allies(cfg, order, p) <==> q in order && q != p && q in cfg.players
  {
    if order != [] {
      AlliesAre(cfg, order[1..], p);
      assert order == [order[0]] + order[1..];
    }
  }

  lemma PartnersWanted(cfg: Config, campaign: Campaign, p: ParticipantId)
    ensures WantsPartners(cfg, campaign, p) <==> NeedsCoalition(campaign) && Allies(cfg, cfg.order, p) != []
  {
    AlliesAre(cfg, cfg.order, p);
    if NeedsCoalition(campaign) && Allies(cfg, cfg.order, p) != [] {
      assert Allies(cfg, cfg.order, p)[0] in Allies(cfg, cfg.order, p);
      var i :| 0 <= i < |campaign.assignments| && campaign.assignments[i].definition == COALITION_CARD;
      assert campaign.assignments[i] in campaign.assignments;
    }
  }

  lemma {:induction false} AttributionsAre(stacks: seq<Stack>, pd: PdId, kind: Alignment, countries: seq<CountryId>)
    requires Distinct(countries)
    ensures Distinct(Attributions(stacks, pd, kind, countries))
    ensures forall c :: c in Attributions(stacks, pd, kind, countries) <==>
                        c in countries && Attributed(stacks, pd, kind, c)
  {
    if countries != [] {
      hide Attributed;
      AttributionsAre(stacks, pd, kind, countries[1..]);
      assert countries == [countries[0]] + countries[1..];
      assert countries[0] !in countries[1..];
    }
  }

  /** More than one country has cubes to lose. */
  lemma SeveralSources(stacks: seq<Stack>, pd: PdId, kind: Alignment)
    ensures |Attributions(stacks, pd, kind, COUNTRIES)| > 1 <==>
            exists c, d :: c != d && Attributed(stacks, pd, kind, c) && Attributed(stacks, pd, kind, d)
  {
    var sources := Attributions(stacks, pd, kind, COUNTRIES);
    AttributionsAre(stacks, pd, kind, COUNTRIES);
    hide Attributed, Attributions;
    if |sources| > 1 {
      assert sources[0] in sources && sources[1] in sources;
    }
    if c, d :| c != d && Attributed(stacks, pd, kind, c) && Attributed(stacks, pd, kind, d) {
      EveryCountry(c);
      EveryCountry(d);
      assert c in sources && d in sources;
    }
  }

  lemma EveryCountry(c: CountryId)
    ensures c in COUNTRIES
  {
    match c case Arden => case Dinesia => case Fluma => case Presque => case Ursaria =>
  }

  lemma {:induction false} SomeAreCounted(stacks: seq<Stack>, pd: PdId, kind: Alignment, c: CountryId)
    requires Attributed(stacks, pd, kind, c)
    ensures CountOn(stacks, pd, kind) > 0
  {
    var s :| s in stacks && s.pd == pd && s.kind == kind && s.attribution == c && s.count > 0;
    var last := |stacks| - 1;
    if stacks[last] != s {
      assert stacks == stacks[..last] + [stacks[last]];
      SomeAreCounted(stacks[..last], pd, kind, c);
    }
  }

  lemma ChoiceIsLeft(g: Game, i: Impact, own: Alignment, r: int)
    requires i.generated == Size(r) && Brings(own, r, i.kind)
    ensures Effect(g, i).removed > 0 && |SourcesOf(g, i)| > 1 <==> LeavesChoice(g.board.stacks, i.target, own, r)
  {
    var stacks, opposing := g.board.stacks, i.kind.Opposite();
    SeveralSources(stacks, i.target, opposing);
    hide Attributions, Attributed, CountOn;
    if c, d :| c != d && Attributed(stacks, i.target, opposing, c) && Attributed(stacks, i.target, opposing, d) {
      SomeAreCounted(stacks, i.target, opposing, c);
      assert !Brings(own, r, opposing);
    }
    assert forall kind :: !Brings(own, r, kind) ==> kind == opposing;
  }

  lemma ResolutionWaits(cfg: Config, f: Flow, env: Envelope, at: nat, i: Impact, own: Alignment, r: int)
    requires HasSlot(f.game, i.participant, at) && i.campaign in f.game.board.campaigns && f.game.turn.pending.None?
    requires i.generated == Size(r) && Brings(own, r, i.kind) && LastResult(f.game.events) == r
    requires Resolve(cfg, f, env, at, i).Commit?
    ensures var after := Resolve(cfg, f, env, at, i).game;
            LastResult(after.events) == r &&
            if LeavesChoice(f.game.board.stacks, i.target, own, r)
            then after.turn.pending.Some? && after.turn.pending.value.ChoicePending?
            else after.turn.pending.None?
  {
    ChoiceIsLeft(f.game, i, own, r);
    hide LeavesChoice, Effect, SourcesOf, CompleteActivation, AutomaticSelections, LastRef, Brings, Size;
    var removals := Effect(f.game, i).removed;
    if removals > 0 && |SourcesOf(f.game, i)| > 1 {
    } else {
      hide LastResult;
      CompletionKeepsResult(cfg, f, env, at, i, AutomaticSelections(f.game.board.stacks, i.target, i.kind.Opposite(),
                                                                   COUNTRIES, removals));
    }
  }

  lemma ImpactFacts(cfg: Config, g: Game, p: ParticipantId, index: nat, c: CampaignId, k: NarrativeContinuation,
                    bonus: nat, boost: int, raw: int)
    requires c in g.board.campaigns
    ensures var i := ResolutionInput(cfg, g, p, index, c, k, bonus, boost, raw);
            var r := ErtResult(cfg, g, p, c, k, bonus, boost, raw);
            i.participant == p && i.campaign == c && i.target == k.target && i.generated == Size(r) &&
            Brings(g.board.campaigns[c].alignment, r, i.kind)
  {
    hide ErtResult;
  }

  lemma RollingWaits(cfg: Config, f: Flow, env: Envelope, p: ParticipantId, at: nat, c: CampaignId,
                     k: NarrativeContinuation, bonus: nat, die: Option<int>, manual: Option<ManualRoll>)
    requires c in f.game.board.campaigns && HasSlot(f.game, p, at) && f.game.turn.pending.None?
    requires RollAndResolve(cfg, f, env, p, at, c, k, bonus, die, manual).Commit?
    ensures var after := RollAndResolve(cfg, f, env, p, at, c, k, bonus, die, manual).game;
            if LeavesChoice(f.game.board.stacks, k.target, f.game.board.campaigns[c].alignment,
                            LastResult(after.events))
            then after.turn.pending.Some? && after.turn.pending.value.ChoicePending?
            else after.turn.pending.None?
  {
    hide Pay, ApplyBoost, Roll, Resolve, ResolutionInput, RollValue, BoostApplies, ErtResult, LeavesChoice, LastResult,
      Brings, Size;
    var index := f.game.turn.plan[p][at].index;
    var boosted := ApplyBoost(Pay(f, env, p, c, k).flow, env, p, index, c).flow;
    var boost := if BoostApplies(f.game, p, index, c) then 1 else 0;
    var raw := RollValue(die, manual).value;
    var rolled := Roll(cfg, boosted, env, p, c, k, bonus, boost, raw, manual);
    ImpactFacts(cfg, boosted.game, p, index, c, k, bonus, boost, raw);
    RollRecordsResult(cfg, boosted, env, p, c, k, bonus, boost, raw, manual);
    ResolutionWaits(cfg, rolled, env, at, ResolutionInput(cfg, boosted.game, p, index, c, k, bonus, boost, raw),
                    boosted.game.board.campaigns[c].alignment,
                    ErtResult(cfg, boosted.game, p, c, k, bonus, boost, raw));
  }

  /** From the narrative on. */
  lemma NarrativeWaits(cfg: Config, f: Flow, env: Envelope, p: ParticipantId, at: nat, c: CampaignId,
                       k: NarrativeContinuation, coalition: Coalition, die: Option<int>, manual: Option<ManualRoll>)
    requires f.game.turn.pending.None? && AfterNarrative(cfg, f, env, p, at, c, k, coalition, die, manual).Commit?
    ensures c in f.game.board.campaigns
    ensures WaitsFor(cfg, f.game, AfterNarrative(cfg, f, env, p, at, c, k, coalition, die, manual).game, p, c, k.target,
                     coalition.Decided?, manual.Some?)
  {
    hide RollAndResolve, PreRoll, NeedsCoalition, WantsPartners, LeavesChoice, Allies, LastRef, LastResult;
    PartnersWanted(cfg, f.game.board.campaigns[c], p);
    AlliesAre(cfg, cfg.order, p);
    if !(NeedsCoalition(f.game.board.campaigns[c]) && coalition.Undecided? && Allies(cfg, cfg.order, p) != []) {
      var bonus := if coalition.Decided? then coalition.bonus else 0;
      var ready := if manual.None? then PreRoll(f, env) else f;
      if !(cfg.manualDice && manual.None?) {
        RollingWaits(cfg, ready, env, p, at, c, k, bonus, die, manual);
      }
    }
  }

  lemma WaitsAlike(cfg: Config, a: Game, b: Game, after: Game, p: ParticipantId, c: CampaignId, target: PdId,
                   answered: bool, rolled: bool)
    requires a.board.campaigns == b.board.campaigns && a.board.stacks == b.board.stacks && c in a.board.campaigns
    requires WaitsFor(cfg, a, after, p, c, target, answered, rolled)
    ensures WaitsFor(cfg, b, after, p, c, target, answered, rolled)
  {
    hide WantsPartners, LeavesChoice;
  }

  // ------------------------------------------------------------- commands

  /** Starting an activation asks for a narrative exactly if none is stored, and goes on with one that is. */
  lemma StartWaits(cfg: Config, g: Game, open: set<ActivationId>, a: Course, correlation: string, die: Option<int>)
    requires Steady(cfg, g, open) && g.turn.pending.None? && Begins(cfg, g, a)
    requires RunNext(cfg, g, correlation, die).Commit?
    ensures var after := RunNext(cfg, g, correlation, die).game;
            if a.c !in g.board.narratives then after.turn.pending.Some? && after.turn.pending.value.NarrativePending?
            else WaitsFor(cfg, g, after, a.p, a.c, a.k.target, false, false)
  {
    var p, at := cfg.order[g.turn.cursor.participant], g.turn.cursor.slot;
    var env := System(correlation, None);
    var shown := Reveal(g, env, p, at);
    var action, hash := g.turn.plan[p][at].action, cfg.hash(Gameplay(g, g.version));
    assert Bare(shown) == Bare(Reveal(g, NOONE, p, at));
    PlainIsBare(cfg, shown, p, action);
    assert a == CourseOf(cfg, Bare(shown), p, at, action, |g.audit.resourceLedger|);
    assert a.k.target == action.target.value;
    hide StartActivation, Reveal, Gameplay, ContinuationOf, UniqueStacks, PlanOk, WaitsFor, Bare;
    StartedWaits(cfg, shown, env, p, at, action, hash, [|shown.events|], die);
    if a.c in g.board.narratives {
      WaitsAlike(cfg, shown, g, RunNext(cfg, g, correlation, die).game, p, a.c, a.k.target, false, false);
    }
  }

  lemma StartedWaits(cfg: Config, g: Game, env: Envelope, p: ParticipantId, at: nat, action: Action, hash: int,
                     refs: seq<EventId>, die: Option<int>)
    requires action.Activate? && HasSlot(g, p, at) && ActivationError(cfg, g, p, action).None?
    requires Affordable(cfg, g, p, action) && g.turn.pending.None?
    requires StartActivation(cfg, g, env, p, at, action, hash, refs, die).Commit?
    ensures var after := StartActivation(cfg, g, env, p, at, action, hash, refs, die).game;
            if action.campaign !in g.board.narratives
            then after.turn.pending.Some? && after.turn.pending.value.NarrativePending?
            else WaitsFor(cfg, g, after, p, action.campaign, action.target.value, false, false)
  {
    hide AfterNarrative, TotalCost, LastRef, WaitsFor, CloseSlot;
    if action.campaign in g.board.narratives {
      var n := g.board.narratives[action.campaign];
      var started := Continue(Flow(g, refs, []), env,
        ActivationStarted(ActivationOf(g, action.campaign), action.campaign, p, action.target.value, hash));
      var told := Continue(started, Envelope(n.actor, None, n.correlation, Some(n.cause)),
        NarrativeSubmitted(action.campaign, n.inputId, n.source, n.text, Some(n.cause)));
      var k := ContinuationOf(cfg, g, p, action, hash, started.refs);
      NarrativeWaits(cfg, told, env, p, at, action.campaign, k, Undecided, die, None);
      WaitsAlike(cfg, told.game, g, StartActivation(cfg, g, env, p, at, action, hash, refs, die).game, p,
                 action.campaign, action.target.value, false, false);
    }
  }

  /** What the activation that gets this input goes on to wait for. */
  ghost predicate GoesOn(cfg: Config, g: Game, after: Game, command: Command)
    requires g.turn.pending.Some? && g.turn.pending.value.base.campaign in g.board.campaigns
  {
    var pending := g.turn.pending.value;
    var p, c := pending.base.participant, pending.base.campaign;
    match command
    case RunScheduler(_, _) => false
    case SubmitNarrative(_, _, _, _, _, _) =>
      pending.NarrativePending? && WaitsFor(cfg, g, after, p, c, pending.k.target, false, false)
    case SubmitContribution(actor, _, _, contributes, _) =>
      pending.CoalitionPending? &&
      var decisions := pending.decisions[actor.participant := contributes];
      if exists q :: q in pending.eligible && q !in decisions
      then
        after.turn.pending.Some? && after.turn.pending.value.CoalitionPending? &&
        after.turn.pending.value.eligible == pending.eligible && after.turn.pending.value.decisions == decisions
      else WaitsFor(cfg, g, after, p, c, pending.k.target, true, false)
    case SubmitDie(_, _, _, _) => pending.DiePending? && WaitsFor(cfg, g, after, p, c, pending.k.target, true, true)
    case SubmitChoice(_, _, _, _, _) => pending.ChoicePending? && after.turn.pending.None?
  }

  lemma TellingWaits(cfg: Config, g: Game, actor: Actor, inputId: string, correlation: string, campaign: CampaignId,
                     text: string, die: Option<int>)
    requires TellNarrative(cfg, g, actor, inputId, correlation, campaign, text, die).Commit?
    requires g.turn.pending.Some? && g.turn.pending.value.base.campaign in g.board.campaigns
    ensures GoesOn(cfg, g, TellNarrative(cfg, g, actor, inputId, correlation, campaign, text, die).game,
                   SubmitNarrative(actor, inputId, correlation, campaign, text, die))
  {
    hide AfterNarrative, PendingSlot, SeatedPlayer, WaitsFor;
    var pending := g.turn.pending.value;
    var base, cause := pending.base, ByEvent(pending.base.cause);
    var told := g.(board := g.board.(narratives := g.board.narratives[campaign :=
      Narrative(inputId, text, Player, actor.user, Some(base.participant), correlation, cause)]));
    var g1 := Resume(Emit(told, By(actor, correlation), NarrativeSubmitted(campaign, inputId, Player, text, None),
                          Some(cause)));
    NarrativeWaits(cfg, Flow(g1, pending.k.refs + [|g1.events|], []),
                   System(base.correlation, Some(ByEvent(|g1.events|))), base.participant, PendingSlot(g, base),
                   campaign, pending.k, Undecided, die, None);
    WaitsAlike(cfg, g1, g, TellNarrative(cfg, g, actor, inputId, correlation, campaign, text, die).game,
               base.participant, campaign, pending.k.target, false, false);
  }

  lemma LastAnswerWaits(cfg: Config, paid: Flow, env: Envelope, p: ParticipantId, contributes: bool, at: nat,
                        base: PendingBase, k: NarrativeContinuation, bonus: nat, cause: Option<Cause>,
                        die: Option<int>)
    requires LastAnswer(cfg, paid, env, p, contributes, at, base, k, bonus, cause, die).Commit?
    requires base.campaign in paid.game.board.campaigns
    ensures WaitsFor(cfg, paid.game, LastAnswer(cfg, paid, env, p, contributes, at, base, k, bonus, cause, die).game,
                     base.participant, base.campaign, k.target, true, false)
  {
    hide AfterNarrative, WaitsFor;
    var event := |paid.game.events| + 1;
    var answered := Emit(paid.game, env, CoalitionResponded(p, contributes, None), cause);
    var resolved := Emit(Resume(answered), env, CoalitionResolved(base.campaign, bonus), Some(ByEvent(event)));
    NarrativeWaits(cfg, Flow(resolved, paid.refs + [event] + [event + 1], paid.ledgers),
                   System(base.correlation, Some(ByEvent(event + 1))), base.participant, at, base.campaign, k,
                   Decided(bonus), die, None);
    WaitsAlike(cfg, resolved, paid.game,
               LastAnswer(cfg, paid, env, p, contributes, at, base, k, bonus, cause, die).game, base.participant,
               base.campaign, k.target, true, false);
  }

  lemma AnswerWaits(cfg: Config, g: Game, actor: Actor, correlation: string, request: ActivationId, contributes: bool,
                    die: Option<int>)
    requires Respond(cfg, g, actor, correlation, request, contributes, die).Commit?
    requires g.turn.pending.Some? && g.turn.pending.value.base.campaign in g.board.campaigns
    ensures GoesOn(cfg, g, Respond(cfg, g, actor, correlation, request, contributes, die).game,
                   SubmitContribution(actor, correlation, request, contributes, die))
  {
    AllowedAnswer(cfg, g, actor, request, contributes);
    hide LastAnswer, PendingSlot, RespondError, WaitsFor, Responded, Contributors, Paid;
    var pending := g.turn.pending.value;
    var base, p, env := pending.base, actor.participant, By(actor, correlation);
    var paid := Paid(cfg, g, env, p, contributes);
    var decisions := pending.decisions[p := contributes];
    if |Responded(pending.eligible, decisions)| == |pending.eligible| {
      var event := |paid.game.events| + 1;
      var cause := if contributes then Some(ByEvent(|paid.game.events|)) else Some(ByEvent(base.cause));
      LastAnswerWaits(cfg, paid, env, p, contributes, PendingSlot(g, base), base, pending.k,
                      Contributors(pending.eligible, decisions), cause, die);
      WaitsAlike(cfg, paid.game, g, Respond(cfg, g, actor, correlation, request, contributes, die).game,
                 base.participant, base.campaign, pending.k.target, true, false);
    }
  }

  lemma DieWaits(cfg: Config, g: Game, actor: Actor, request: ActivationId, value: int, correlation: string)
    requires EnterDie(cfg, g, actor, request, value).Commit?
    requires g.turn.pending.Some? && g.turn.pending.value.base.campaign in g.board.campaigns
    ensures GoesOn(cfg, g, EnterDie(cfg, g, actor, request, value).game, SubmitDie(actor, correlation, request, value))
  {
    hide AfterNarrative, PendingSlot, SeatedPlayer, Facilitates, WaitsFor;
    var pending := g.turn.pending.value;
    var base := pending.base;
    NarrativeWaits(cfg, Flow(Resume(g), pending.refs, pending.ledgers),
                   System(base.correlation, Some(ByEvent(base.cause))), base.participant, PendingSlot(g, base),
                   base.campaign, pending.k, Decided(pending.bonus), None, Some(ManualRoll(value, actor.participant)));
    WaitsAlike(cfg, Resume(g), g, EnterDie(cfg, g, actor, request, value).game, base.participant, base.campaign,
               pending.k.target, true, true);
  }

  lemma ChoiceEnds(cfg: Config, g: Game, actor: Actor, correlation: string, choice: ActivationId, version: nat,
                   selection: seq<nat>)
    requires Choose(cfg, g, actor, correlation, choice, version, selection).Commit?
    requires g.turn.pending.Some? && g.turn.pending.value.base.campaign in g.board.campaigns
    ensures GoesOn(cfg, g, Choose(cfg, g, actor, correlation, choice, version, selection).game,
                   SubmitChoice(actor, correlation, choice, version, selection))
  {
    hide CompleteActivation, PendingSlot, SeatedPlayer, Takeable;
  }

  /** After every accepted input the activation waits for what its campaign, the table and the board call for. */
  lemma EveryInputGoesOn(cfg: Config, g: Game, open: set<ActivationId>, command: Command)
    requires Steady(cfg, g, open) && g.turn.pending.Some? && Prepare(cfg, g, command).Commit?
    ensures g.turn.pending.value.base.campaign in g.board.campaigns
    ensures GoesOn(cfg, g, Prepare(cfg, g, command).game, command)
  {
    hide RunSlot, TellNarrative, Respond, EnterDie, Choose, UniqueStacks, PlanOk, Secured, GoesOn;
    match command
    case RunScheduler(_, _) =>
    case SubmitNarrative(actor, inputId, correlation, campaign, text, die) =>
      TellingWaits(cfg, g, actor, inputId, correlation, campaign, text, die);
    case SubmitContribution(actor, correlation, request, contributes, die) =>
      AnswerWaits(cfg, g, actor, correlation, request, contributes, die);
    case SubmitDie(actor, correlation, request, value) => DieWaits(cfg, g, actor, request, value, correlation);
    case SubmitChoice(actor, correlation, choice, version, selection) =>
      ChoiceEnds(cfg, g, actor, correlation, choice, version, selection);
  }

  // -------------------------------------------------------- who may answer

  /** The actor is the user on record for the participant, with that participant's claims. */
  predicate OnRecord(cfg: Config, actor: Actor) {
    actor.participant in cfg.users && cfg.users[actor.participant] == actor.user && actor.claimsMatch
  }

  predicate IsPlayer(cfg: Config, actor: Actor) {
    actor.role == PlayerActor && actor.participant in cfg.seats && OnRecord(cfg, actor)
  }

  /** The input is the one waited for, from someone it is asked of, and can be carried out. */
  ghost predicate Entitled(cfg: Config, g: Game, command: Command) {
    g.turn.pending.Some? &&
    var pending := g.turn.pending.value;
    match command
    case RunScheduler(_, _) => false
    case SubmitNarrative(actor, _, _, campaign, _, _) =>
      pending.NarrativePending? && campaign == pending.base.campaign &&
      IsPlayer(cfg, actor) && actor.participant == pending.base.participant
    case SubmitContribution(actor, _, request, contributes, _) =>
      pending.CoalitionPending? && request == pending.base.activation &&
      IsPlayer(cfg, actor) && actor.participant in pending.eligible && actor.participant !in pending.decisions &&
      (contributes ==> Balance(g, cfg.seats[actor.participant]) >= 1)
    case SubmitDie(actor, _, request, value) =>
      pending.DiePending? && request == pending.base.activation && 1 <= value <= 10 &&
      ((IsPlayer(cfg, actor) && actor.participant == pending.base.participant) ||
       (actor.role == FacilitatorActor && cfg.facilitator == Some(actor.participant) && OnRecord(cfg, actor)))
    case SubmitChoice(actor, _, choice, version, selection) =>
      pending.ChoicePending? && choice == pending.base.activation && version == 1 &&
      IsPlayer(cfg, actor) && actor.participant == pending.base.participant &&
      var k := pending.choice;
      |selection| == k.removals && (forall n :: 0 <= n < |selection| ==> 1 <= selection[n] <= |k.options|) &&
      Enough(g.board.stacks, k.impact.target, k.impact.kind.Opposite(), multiset(Selected(k.options, selection)))
  }

  lemma ChoiceErrorIff(cfg: Config, g: Game, actor: Actor, correlation: string, choice: ActivationId, version: nat,
                       selection: seq<nat>)
    requires g.turn.pending.Some? && g.turn.pending.value.ChoicePending? ==>
               var b, i := g.turn.pending.value.base, g.turn.pending.value.choice.impact;
               HasSlot(g, b.participant, PendingSlot(g, b)) && i.campaign in g.board.campaigns &&
               i.participant == b.participant
    ensures ChoiceError(cfg, g, actor, choice, version, selection).None? <==>
            Entitled(cfg, g, SubmitChoice(actor, correlation, choice, version, selection))
  {
    hide PendingSlot, HasSlot, Takeable, Enough;
    if g.turn.pending.Some? && g.turn.pending.value.ChoicePending? {
      var k := g.turn.pending.value.choice;
      if forall n :: 0 <= n < |selection| ==> 1 <= selection[n] <= |k.options| {
        TakeableIsEnough(g.board.stacks, k.impact.target, k.impact.kind.Opposite(), Selected(k.options, selection));
      }
    }
  }

  lemma ChoiceEntitled(cfg: Config, g: Game, open: set<ActivationId>, actor: Actor, correlation: string,
                       choice: ActivationId, version: nat, selection: seq<nat>)
    requires Steady(cfg, g, open)
    ensures Choose(cfg, g, actor, correlation, choice, version, selection).Commit? <==>
            Entitled(cfg, g, SubmitChoice(actor, correlation, choice, version, selection))
  {
    ValidChoiceCompletes(cfg, g, open, actor, correlation, choice, version, selection);
    hide Entitled, ChoiceError, Choose, UniqueStacks, PlanOk, PendingSlot;
    if g.turn.pending.Some? && g.turn.pending.value.ChoicePending? {
      PendingSlotIsCurrent(cfg, g, open);
      hide Secured;
    }
    ChoiceErrorIff(cfg, g, actor, correlation, choice, version, selection);
  }

  /** What stops an activation once its input has been accepted. */
  predicate EngineError(e: Error) {
    e in {ObjectNoLongerValid, RollModifierAlreadyUsed, CostPaymentFailed, InvalidChoiceOption} || ResumeError(e)
  }

  lemma {:induction false} RemovalError(f: Flow, env: Envelope, i: Impact, selection: seq<CountryId>)
    ensures var r := RemoveCubes(f, env, i, selection); r.Stop? ==> EngineError(r.error)
  {
    if selection != [] {
      RemovalError(f, env, i, selection[..|selection| - 1]);
      hide FindStack, RecordInfluence;
    }
  }

  lemma ResolutionError(cfg: Config, f: Flow, env: Envelope, at: nat, i: Impact)
    requires HasSlot(f.game, i.participant, at) && i.campaign in f.game.board.campaigns
    ensures var v := Resolve(cfg, f, env, at, i); v.Reject? ==> EngineError(v.error)
  {
    hide RemoveCubes, PlaceCubes, Award, Effect, SourcesOf, AutomaticSelections, Tally, CloseSlot, LastRef, EngineError;
    var selection := AutomaticSelections(f.game.board.stacks, i.target, i.kind.Opposite(), COUNTRIES,
                                         Effect(f.game, i).removed);
    RemovalError(f, env, i, selection);
    assert EngineError(InvalidChoiceOption) && EngineError(ObjectNoLongerValid) by { EngineErrors(); }
  }

  lemma EngineErrors()
    ensures EngineError(InvalidChoiceOption) && EngineError(ObjectNoLongerValid)
  {
  }

  lemma ResumptionError(cfg: Config, f: Flow, env: Envelope, p: ParticipantId, at: nat, c: CampaignId,
                        k: NarrativeContinuation, coalition: Coalition, die: Option<int>, manual: Option<ManualRoll>)
    ensures var v := AfterNarrative(cfg, f, env, p, at, c, k, coalition, die, manual);
            v.Reject? ==> EngineError(v.error)
  {
    hide RollAndResolve, PreRoll, AskCoalition, AskDie, NeedsCoalition, Allies;
    if c in f.game.board.campaigns && HasSlot(f.game, p, at) {
      var ready := if manual.None? then PreRoll(f, env) else f;
      RollingError(cfg, ready, env, p, at, c, k, if coalition.Decided? then coalition.bonus else 0, die, manual);
    }
  }

  lemma RollingError(cfg: Config, f: Flow, env: Envelope, p: ParticipantId, at: nat, c: CampaignId,
                     k: NarrativeContinuation, bonus: nat, die: Option<int>, manual: Option<ManualRoll>)
    requires c in f.game.board.campaigns && HasSlot(f.game, p, at)
    ensures var v := RollAndResolve(cfg, f, env, p, at, c, k, bonus, die, manual);
            v.Reject? ==> EngineError(v.error)
  {
    hide Resolve, Roll, ResolutionInput, RollValue, SpendBoost, Booked, Receipt, TotalCost, ComponentCosts;
    var index := f.game.turn.plan[p][at].index;
    var paid := Pay(f, env, p, c, k);
    if paid.Go? {
      var boosted := ApplyBoost(paid.flow, env, p, index, c);
      if boosted.Go? && RollValue(die, manual).Some? {
        var boost := if BoostApplies(f.game, p, index, c) then 1 else 0;
        var raw := RollValue(die, manual).value;
        ResolutionError(cfg, Roll(cfg, boosted.flow, env, p, c, k, bonus, boost, raw, manual), env, at,
                        ResolutionInput(cfg, boosted.flow.game, p, index, c, k, bonus, boost, raw));
      }
    }
  }

  lemma OthersEntitled(cfg: Config, g: Game, command: Command)
    requires !command.SubmitChoice? && !command.RunScheduler? && Prepare(cfg, g, command).Commit?
    ensures Entitled(cfg, g, command)
  {
    hide AfterNarrative, LastAnswer, Paid, Responded, Contributors, PendingSlot;
  }

  /**
   An input is accepted only from someone entitled to give it; and one who is gets refused only because a planned
   boost is gone or the random provider gives no die, a choice never.
   */
  lemma InputAcceptedIff(cfg: Config, g: Game, open: set<ActivationId>, command: Command)
    requires Steady(cfg, g, open) && Injective(cfg.seats) && !command.RunScheduler?
    ensures var v := Prepare(cfg, g, command);
            (v.Commit? ==> Entitled(cfg, g, command)) &&
            (Entitled(cfg, g, command) && v.Reject? ==> !command.SubmitChoice? && ResumeError(v.error))
  {
    hide Steady, TellNarrative, Respond, EnterDie, Choose, Entitled, RunNext;
    if Prepare(cfg, g, command).Commit? && !command.SubmitChoice? {
      OthersEntitled(cfg, g, command);
    }
    match command
    case RunScheduler(_, _) =>
    case SubmitNarrative(actor, inputId, correlation, campaign, text, die) =>
      NarrativeNeverFailsForCost(cfg, g, open, actor, inputId, correlation, campaign, text, die);
      NarrativeEntitled(cfg, g, actor, inputId, correlation, campaign, text, die);
    case SubmitContribution(actor, correlation, request, contributes, die) =>
      AnswerNeverFailsForCost(cfg, g, open, actor, correlation, request, contributes, die);
      AnswerEntitled(cfg, g, actor, correlation, request, contributes, die);
    case SubmitDie(actor, correlation, request, value) =>
      DieNeverFailsForCost(cfg, g, open, actor, request, value);
      DieEntitled(cfg, g, actor, correlation, request, value);
    case SubmitChoice(actor, correlation, choice, version, selection) =>
      ChoiceEntitled(cfg, g, open, actor, correlation, choice, version, selection);
  }

  lemma NarrativeEntitled(cfg: Config, g: Game, actor: Actor, inputId: string, correlation: string,
                          campaign: CampaignId, text: string, die: Option<int>)
    ensures Entitled(cfg, g, SubmitNarrative(actor, inputId, correlation, campaign, text, die)) ==>
              TellNarrative(cfg, g, actor, inputId, correlation, campaign, text, die) != Reject(NarrativeNotAuthorized)
  {
    if Entitled(cfg, g, SubmitNarrative(actor, inputId, correlation, campaign, text, die)) {
      hide AfterNarrative, PendingSlot, HasSlot;
      var pending := g.turn.pending.value;
      var base, cause := pending.base, ByEvent(pending.base.cause);
      var told := g.(board := g.board.(narratives := g.board.narratives[campaign :=
        Narrative(inputId, text, Player, actor.user, Some(base.participant), correlation, cause)]));
      var g1 := Resume(Emit(told, By(actor, correlation), NarrativeSubmitted(campaign, inputId, Player, text, None),
                            Some(cause)));
      ResumptionError(cfg, Flow(g1, pending.k.refs + [|g1.events|], []),
                      System(base.correlation, Some(ByEvent(|g1.events|))), base.participant, PendingSlot(g, base),
                      campaign, pending.k, Undecided, die, None);
    }
  }

  lemma AnswerEntitled(cfg: Config, g: Game, actor: Actor, correlation: string, request: ActivationId,
                       contributes: bool, die: Option<int>)
    ensures Entitled(cfg, g, SubmitContribution(actor, correlation, request, contributes, die)) ==>
              RespondError(cfg, g, actor, request, contributes).None?
  {
  }

  lemma DieChecked(cfg: Config, g: Game, actor: Actor, correlation: string, request: ActivationId, value: int)
    requires Entitled(cfg, g, SubmitDie(actor, correlation, request, value))
    ensures 1 <= value <= 10 && g.turn.pending.Some? && g.turn.pending.value.DiePending? &&
            g.turn.pending.value.base.activation == request
    ensures (SeatedPlayer(cfg, actor) && actor.participant == g.turn.pending.value.base.participant) ||
            Facilitates(cfg, actor)
  {
  }

  lemma DieEntitled(cfg: Config, g: Game, actor: Actor, correlation: string, request: ActivationId, value: int)
    ensures var v := EnterDie(cfg, g, actor, request, value);
            Entitled(cfg, g, SubmitDie(actor, correlation, request, value)) && v.Reject? ==>
              v.error !in {InvalidDieValue, StaleContinuation, ChoiceNotAuthorized}
  {
    hide AfterNarrative, PendingSlot, HasSlot, Entitled, SeatedPlayer, Facilitates;
    if Entitled(cfg, g, SubmitDie(actor, correlation, request, value)) {
      DieChecked(cfg, g, actor, correlation, request, value);
      var pending := g.turn.pending.value;
      var base := pending.base;
      ResumptionError(cfg, Flow(Resume(g), pending.refs, pending.ledgers),
                      System(base.correlation, Some(ByEvent(base.cause))), base.participant, PendingSlot(g, base),
                      base.campaign, pending.k, Decided(pending.bonus), None,
                      Some(ManualRoll(value, actor.participant)));
      EngineErrorsOnly();
      hide EngineError;
    }
  }

  lemma EngineErrorsOnly()
    ensures forall e {:trigger EngineError(e)} :: EngineError(e) ==>
              e !in {InvalidDieValue, StaleContinuation, ChoiceNotAuthorized}
  {
  }

  // ------------------------------------------------------- what is kept

  /** The stored narratives are the same; at most one die has been rolled since, with the value of this input. */
  ghost predicate Rolls(g: Game, after: Game, p: ParticipantId, die: Option<int>, manual: Option<ManualRoll>) {
    after.board.narratives == g.board.narratives &&
    (after.audit.dice == g.audit.dice ||
     exists d ::
       after.audit.dice == g.audit.dice + [d] && d.participant == p && d.manual == manual.Some? && 1 <= d.raw <= 10 &&
       if manual.Some? then d.raw == manual.value.value && d.submitter == Some(manual.value.submitter)
       else die == Some(d.raw) && d.submitter.None?)
  }

  lemma CompletionKeepsDice(cfg: Config, f: Flow, env: Envelope, at: nat, i: Impact, selection: seq<CountryId>)
    requires HasSlot(f.game, i.participant, at) && i.campaign in f.game.board.campaigns
    requires CompleteActivation(cfg, f, env, at, i, selection).Commit?
    ensures var after := CompleteActivation(cfg, f, env, at, i, selection).game;
            after.board.narratives == f.game.board.narratives && after.audit.dice == f.game.audit.dice
  {
    hide RemoveCubes, PlaceCubes, Award, Effect, Tally, LastRef, Locate;
  }

  lemma ResolutionKeepsDice(cfg: Config, f: Flow, env: Envelope, at: nat, i: Impact)
    requires HasSlot(f.game, i.participant, at) && i.campaign in f.game.board.campaigns
    requires Resolve(cfg, f, env, at, i).Commit?
    ensures var after := Resolve(cfg, f, env, at, i).game;
            after.board.narratives == f.game.board.narratives && after.audit.dice == f.game.audit.dice
  {
    hide CompleteActivation, AutomaticSelections, Effect, SourcesOf, LastRef;
    var removals := Effect(f.game, i).removed;
    if !(removals > 0 && |SourcesOf(f.game, i)| > 1) {
      CompletionKeepsDice(cfg, f, env, at, i,
                          AutomaticSelections(f.game.board.stacks, i.target, i.kind.Opposite(), COUNTRIES, removals));
    }
  }

  lemma RollingRolls(cfg: Config, f: Flow, env: Envelope, p: ParticipantId, at: nat, c: CampaignId,
                     k: NarrativeContinuation, bonus: nat, die: Option<int>, manual: Option<ManualRoll>)
    requires c in f.game.board.campaigns && HasSlot(f.game, p, at) && (manual.Some? ==> 1 <= manual.value.value <= 10)
    requires RollAndResolve(cfg, f, env, p, at, c, k, bonus, die, manual).Commit?
    ensures Rolls(f.game, RollAndResolve(cfg, f, env, p, at, c, k, bonus, die, manual).game, p, die, manual)
    ensures RollAndResolve(cfg, f, env, p, at, c, k, bonus, die, manual).game.audit.dice != f.game.audit.dice
  {
    hide Pay, ApplyBoost, Resolve, ResolutionInput, BoostApplies, ErtResult, ErtRoll, LegitimacyModifier, TierFor,
      LastRef;
    var index := f.game.turn.plan[p][at].index;
    var boosted := ApplyBoost(Pay(f, env, p, c, k).flow, env, p, index, c).flow;
    var boost := if BoostApplies(f.game, p, index, c) then 1 else 0;
    var raw := RollValue(die, manual).value;
    var rolled := Roll(cfg, boosted, env, p, c, k, bonus, boost, raw, manual);
    ResolutionKeepsDice(cfg, rolled, env, at, ResolutionInput(cfg, boosted.game, p, index, c, k, bonus, boost, raw));
    assert rolled.game.audit.dice ==
           f.game.audit.dice + [rolled.game.audit.dice[|f.game.audit.dice|]];
  }

  lemma NarrativeRolls(cfg: Config, f: Flow, env: Envelope, p: ParticipantId, at: nat, c: CampaignId,
                       k: NarrativeContinuation, coalition: Coalition, die: Option<int>, manual: Option<ManualRoll>)
    requires manual.Some? ==> 1 <= manual.value.value <= 10
    requires AfterNarrative(cfg, f, env, p, at, c, k, coalition, die, manual).Commit?
    ensures var after := AfterNarrative(cfg, f, env, p, at, c, k, coalition, die, manual).game;
            Rolls(f.game, after, p, die, manual) &&
            (manual.Some? && coalition.Decided? ==> after.audit.dice != f.game.audit.dice)
  {
    hide RollAndResolve, PreRoll, NeedsCoalition, Allies, LastRef;
    if !(NeedsCoalition(f.game.board.campaigns[c]) && coalition.Undecided? && Allies(cfg, cfg.order, p) != []) {
      var bonus := if coalition.Decided? then coalition.bonus else 0;
      var ready := if manual.None? then PreRoll(f, env) else f;
      if !(cfg.manualDice && manual.None?) {
        RollingRolls(cfg, ready, env, p, at, c, k, bonus, die, manual);
      }
    }
  }

  lemma RollsAlike(a: Game, b: Game, after: Game, p: ParticipantId, die: Option<int>, manual: Option<ManualRoll>)
    requires a.board.narratives == b.board.narratives && a.audit.dice == b.audit.dice && Rolls(a, after, p, die, manual)
    ensures Rolls(b, after, p, die, manual)
  {
  }

  /** What an accepted input leaves on record: the text, the answer, the value or the countries as given. */
  ghost predicate Kept(g: Game, after: Game, command: Command)
    requires g.turn.pending.Some?
  {
    var pending := g.turn.pending.value;
    var p := pending.base.participant;
    match command
    case RunScheduler(_, _) => false
    case SubmitNarrative(actor, inputId, correlation, campaign, text, die) =>
      var line := Narrative(inputId, text, Player, actor.user, Some(p), correlation, ByEvent(pending.base.cause));
      Rolls(g.(board := g.board.(narratives := g.board.narratives[campaign := line])), after, p, die, None)
    case SubmitContribution(_, _, _, _, die) => Rolls(g, after, p, die, None)
    case SubmitDie(actor, _, _, value) =>
      Rolls(g, after, p, None, Some(ManualRoll(value, actor.participant))) && after.audit.dice != g.audit.dice &&
      LastRaw(after) == value
    case SubmitChoice(_, _, _, _, selection) =>
      pending.ChoicePending? &&
      (forall n :: 0 <= n < |selection| ==> 1 <= selection[n] <= |pending.choice.options|) &&
      LastTaken(after) == multiset(Selected(pending.choice.options, selection)) &&
      Rolls(g, after, p, None, None) && after.audit.dice == g.audit.dice
  }

  lemma TellingKept(cfg: Config, g: Game, actor: Actor, inputId: string, correlation: string, campaign: CampaignId,
                    text: string, die: Option<int>)
    requires TellNarrative(cfg, g, actor, inputId, correlation, campaign, text, die).Commit?
    ensures g.turn.pending.Some? &&
            Kept(g, TellNarrative(cfg, g, actor, inputId, correlation, campaign, text, die).game,
                 SubmitNarrative(actor, inputId, correlation, campaign, text, die))
  {
    hide AfterNarrative, PendingSlot, SeatedPlayer, Rolls;
    var pending := g.turn.pending.value;
    var base, cause := pending.base, ByEvent(pending.base.cause);
    var told := g.(board := g.board.(narratives := g.board.narratives[campaign :=
      Narrative(inputId, text, Player, actor.user, Some(base.participant), correlation, cause)]));
    var g1 := Resume(Emit(told, By(actor, correlation), NarrativeSubmitted(campaign, inputId, Player, text, None),
                          Some(cause)));
    NarrativeRolls(cfg, Flow(g1, pending.k.refs + [|g1.events|], []),
                   System(base.correlation, Some(ByEvent(|g1.events|))), base.participant, PendingSlot(g, base),
                   campaign, pending.k, Undecided, die, None);
    RollsAlike(g1, told, TellNarrative(cfg, g, actor, inputId, correlation, campaign, text, die).game,
               base.participant, die, None);
  }

  lemma LastAnswerKept(cfg: Config, paid: Flow, env: Envelope, p: ParticipantId, contributes: bool, at: nat,
                       base: PendingBase, k: NarrativeContinuation, bonus: nat, cause: Option<Cause>,
                       die: Option<int>)
    requires LastAnswer(cfg, paid, env, p, contributes, at, base, k, bonus, cause, die).Commit?
    ensures Rolls(paid.game, LastAnswer(cfg, paid, env, p, contributes, at, base, k, bonus, cause, die).game,
                  base.participant, die, None)
  {
    hide AfterNarrative, Rolls;
    var event := |paid.game.events| + 1;
    var answered := Emit(paid.game, env, CoalitionResponded(p, contributes, None), cause);
    var resolved := Emit(Resume(answered), env, CoalitionResolved(base.campaign, bonus), Some(ByEvent(event)));
    NarrativeRolls(cfg, Flow(resolved, paid.refs + [event] + [event + 1], paid.ledgers),
                   System(base.correlation, Some(ByEvent(event + 1))), base.participant, at, base.campaign, k,
                   Decided(bonus), die, None);
    RollsAlike(resolved, paid.game, LastAnswer(cfg, paid, env, p, contributes, at, base, k, bonus, cause, die).game,
               base.participant, die, None);
  }

  lemma AnswerKept(cfg: Config, g: Game, actor: Actor, correlation: string, request: ActivationId, contributes: bool,
                   die: Option<int>)
    requires Respond(cfg, g, actor, correlation, request, contributes, die).Commit?
    ensures g.turn.pending.Some? && Kept(g, Respond(cfg, g, actor, correlation, request, contributes, die).game,
                                         SubmitContribution(actor, correlation, request, contributes, die))
  {
    AllowedAnswer(cfg, g, actor, request, contributes);
    hide LastAnswer, PendingSlot, RespondError, Responded, Contributors, Paid;
    var pending := g.turn.pending.value;
    var base, p, env := pending.base, actor.participant, By(actor, correlation);
    var paid := Paid(cfg, g, env, p, contributes);
    var decisions := pending.decisions[p := contributes];
    if |Responded(pending.eligible, decisions)| == |pending.eligible| {
      hide Rolls;
      var event := |paid.game.events| + 1;
      var cause := if contributes then Some(ByEvent(|paid.game.events|)) else Some(ByEvent(base.cause));
      LastAnswerKept(cfg, paid, env, p, contributes, PendingSlot(g, base), base, pending.k,
                     Contributors(pending.eligible, decisions), cause, die);
      RollsAlike(paid.game, g, Respond(cfg, g, actor, correlation, request, contributes, die).game, base.participant,
                 die, None);
    }
  }

  lemma DieKept(cfg: Config, g: Game, actor: Actor, request: ActivationId, value: int, correlation: string)
    requires EnterDie(cfg, g, actor, request, value).Commit?
    ensures g.turn.pending.Some? &&
            Kept(g, EnterDie(cfg, g, actor, request, value).game, SubmitDie(actor, correlation, request, value))
  {
    hide AfterNarrative, PendingSlot, SeatedPlayer, Facilitates;
    var pending := g.turn.pending.value;
    var base := pending.base;
    NarrativeRolls(cfg, Flow(Resume(g), pending.refs, pending.ledgers),
                   System(base.correlation, Some(ByEvent(base.cause))), base.participant, PendingSlot(g, base),
                   base.campaign, pending.k, Decided(pending.bonus), None, Some(ManualRoll(value, actor.participant)));
  }

  lemma ChoiceKept(cfg: Config, g: Game, actor: Actor, correlation: string, choice: ActivationId, version: nat,
                   selection: seq<nat>)
    requires Choose(cfg, g, actor, correlation, choice, version, selection).Commit?
    ensures g.turn.pending.Some? && Kept(g, Choose(cfg, g, actor, correlation, choice, version, selection).game,
                                         SubmitChoice(actor, correlation, choice, version, selection))
  {
    hide CompleteActivation, PendingSlot, SeatedPlayer, Takeable, LastTaken;
    var pending := g.turn.pending.value;
    var k := pending.choice;
    var told := Emit(g, By(actor, correlation), ChoiceResolved(choice, selection), Some(ByEvent(pending.base.cause)));
    var g1 := Resume(told.(turn := told.turn.(resolvedChoices := told.turn.resolvedChoices + [choice])));
    var f, env := Flow(g1, k.refs + [|g1.events|], k.ledgers),
      System(pending.base.correlation, Some(ByEvent(|g1.events|)));
    CompletionRecords(cfg, f, env, PendingSlot(g, pending.base), k.impact, Selected(k.options, selection));
    CompletionKeepsDice(cfg, f, env, PendingSlot(g, pending.base), k.impact, Selected(k.options, selection));
  }

  lemma EveryInputIsKept(cfg: Config, g: Game, command: Command)
    requires !command.RunScheduler? && Prepare(cfg, g, command).Commit?
    ensures g.turn.pending.Some? && Kept(g, Prepare(cfg, g, command).game, command)
  {
    hide TellNarrative, Respond, EnterDie, Choose, Kept, RunNext;
    match command
    case RunScheduler(_, _) =>
    case SubmitNarrative(actor, inputId, correlation, campaign, text, die) =>
      TellingKept(cfg, g, actor, inputId, correlation, campaign, text, die);
    case SubmitContribution(actor, correlation, request, contributes, die) =>
      AnswerKept(cfg, g, actor, correlation, request, contributes, die);
    case SubmitDie(actor, correlation, request, value) => DieKept(cfg, g, actor, request, value, correlation);
    case SubmitChoice(actor, correlation, choice, version, selection) =>
      ChoiceKept(cfg, g, actor, correlation, choice, version, selection);
  }
}
