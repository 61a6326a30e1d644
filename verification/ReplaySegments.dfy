/**
 Segment by segment, the replay of the events that an engine step emits rebuilds what the step did.

 Between two events the engine and the replay may disagree on three things only: the version (bumped by
 the first event in the replay, at the commit in the engine), the pending resolution and the cursor
 status. `Lag` is that disagreement; every segment lemma holds under any lag.
 */
module ReplaySegments {
  import opened Prelude
  import opened CampaignTypes
  import opened Adjudication
  import opened Replay

  datatype Lag = Lag(version: nat, pending: Option<Pending>, status: CursorStatus)

  function Behind(g: Game, lag: Lag): Game {
    g.(version := lag.version, turn := g.turn.(pending := lag.pending, cursor := g.turn.cursor.(status := lag.status)))
  }

  /** The lag once at least one event of the command has been replayed. */
  function Caught(g: Game, lag: Lag): Lag { lag.(version := g.version + 1) }

  /** A history relates replicas to the events replayed; it must follow the replay loop. */
  type History = (Replica, seq<Event>) -> bool

  ghost predicate Follows(cfg: Config, t: History) {
    forall r, events, e {:trigger t(r, events), ReplayEvent(cfg, r, e)} ::
      t(r, events) && ReplayEvent(cfg, r, e).Some? ==> t(ReplayEvent(cfg, r, e).value, events + [e])
  }

  ghost predicate Shadows(cfg: Config, t: History, r: Replica, g: Game, lag: Lag) {
    Follows(cfg, t) && t(r, g.events) && r.game == Behind(g, lag) && lag.version <= g.version + 1
  }

  /** An event that the replay reduces to the state in which it was emitted keeps the shadow. */
  lemma EffectEmitted(cfg: Config, t: History, r: Replica, g: Game, g1: Game, env: Envelope, body: Body,
                      cause: Option<Cause>,
                      lag: Lag, after: Lag) returns (next: Replica)
    requires Shadows(cfg, t, r, g, lag) && IsEffect(body)
    requires g1.events == g.events && g1.version == g.version && after.version == g.version + 1
    requires ReduceEffect(Behind(g, Caught(g, lag)), NewEvent(g1, env, body, cause)) == Some(Behind(g1, after))
    ensures Shadows(cfg, t, next, Emit(g1, env, body, cause), after) && next.open == r.open
  {
    next := ReplayEvent(cfg, r, NewEvent(g1, env, body, cause)).value;
  }

  lemma InputEmitted(cfg: Config, t: History, r: Replica, g: Game, g1: Game, env: Envelope, body: Body,
                     cause: Option<Cause>,
                     lag: Lag, after: Lag) returns (next: Replica)
    requires Shadows(cfg, t, r, g, lag) && !IsEffect(body) && !IsTurn(body)
    requires g1.events == g.events && g1.version == g.version && after.version == g.version + 1
    requires ReduceInput(Behind(g, Caught(g, lag)), NewEvent(g1, env, body, cause)) == Behind(g1, after)
    ensures Shadows(cfg, t, next, Emit(g1, env, body, cause), after) && next.open == r.open
  {
    next := ReplayEvent(cfg, r, NewEvent(g1, env, body, cause)).value;
  }

  lemma TurnEmitted(cfg: Config, t: History, r: Replica, g: Game, g1: Game, env: Envelope, body: Body,
                    cause: Option<Cause>,
                    lag: Lag, reduced: Replica, after: Lag) returns (next: Replica)
    requires Shadows(cfg, t, r, g, lag) && IsTurn(body)
    requires g1.events == g.events && g1.version == g.version && after.version == g.version + 1
    requires ReduceTurn(cfg, r.(game := Behind(g, Caught(g, lag))), NewEvent(g1, env, body, cause)) == Some(reduced)
    requires reduced.game == Behind(g1, after)
    ensures Shadows(cfg, t, next, Emit(g1, env, body, cause), after) && next.open == reduced.open
    ensures next.hash == reduced.hash
  {
    next := ReplayEvent(cfg, r, NewEvent(g1, env, body, cause)).value;
  }

  lemma PreRollStep(cfg: Config, t: History, r: Replica, f: Flow, env: Envelope, stage: nat, lag: Lag)
    returns (next: Replica)
    requires Shadows(cfg, t, r, f.game, lag)
    ensures Shadows(cfg, t, next, Continue(f, env, PreRollReaction(stage)).game, Caught(f.game, lag))
    ensures next.open == r.open
  {
    next := InputEmitted(cfg, t, r, f.game, f.game, env, PreRollReaction(stage), LastRef(f.refs), lag,
                         Caught(f.game, lag));
  }

  lemma PreRollTracks(cfg: Config, t: History, r: Replica, f: Flow, env: Envelope, lag: Lag) returns (next: Replica)
    requires Shadows(cfg, t, r, f.game, lag)
    ensures Shadows(cfg, t, next, PreRoll(f, env).game, Caught(f.game, lag)) && next.open == r.open
  {
    var f1 := Continue(f, env, PreRollReaction(0));
    var f2 := Continue(f1, env, PreRollReaction(1));
    next := PreRollStep(cfg, t, r, f, env, 0, lag);
    next := PreRollStep(cfg, t, next, f1, env, 1, Caught(f.game, lag));
    next := PreRollStep(cfg, t, next, f2, env, 2, Caught(f.game, lag));
  }

  // ------------------------------------------------------------------- pay

  lemma {:induction false} ListedMatchesPushed(g: Game, e: Event, lag: Lag, p: ParticipantId, country: CountryId,
                                               costs: seq<nat>,
                                               ids: seq<LedgerId>, balance: int)
    requires |ids| >= |costs| && e.head.version == g.version + 1
    requires forall i :: 0 <= i < |costs| ==> ids[i] == ResourceLedger(|g.audit.resourceLedger| + 1 + i)
    ensures PushListed(Behind(g, lag), e, p, country, costs, ids, balance) ==
            Behind(PushComponents(g, p, country, costs, balance), lag)
  {
    if costs != [] {
      ListedMatchesPushed(g, e, lag, p, country, costs[..|costs| - 1], ids, balance);
    }
  }

  lemma ReceiptReplays(g: Game, p: ParticipantId, country: CountryId, cost: nat, costs: seq<nat>, core: bool, lag: Lag,
                       e: Event)
    requires e.body == Receipt(g, p, country, cost, costs, core) && e.head.version == g.version + 1
    ensures ReplayCost(Behind(g, lag), e) == Some(Behind(Booked(g, p, country, cost, costs, core), lag))
  {
    hide Sum, PushListed;
    var before := Balance(g, country);
    var after := before - cost - Sum(costs) - CoreCost(core);
    var g1 := PushResource(SetBalance(g, country, after), p, country, ActivationCost, -(cost as int), before - cost);
    ListedMatchesPushed(g1, e, lag, p, country, costs, e.body.componentLedgers, before - cost);
  }

  lemma PayTracks(cfg: Config, t: History, r: Replica, f: Flow, env: Envelope, p: ParticipantId, c: CampaignId,
                  k: NarrativeContinuation, lag: Lag) returns (next: Replica)
    requires c in f.game.board.campaigns && Pay(f, env, p, c, k).Go?
    requires Shadows(cfg, t, r, f.game, lag)
    ensures Shadows(cfg, t, next, Pay(f, env, p, c, k).flow.game, Caught(f.game, lag)) && next.open == r.open
  {
    var g := f.game;
    var costs := ComponentCosts(g.board.campaigns[c].assignments);
    var booked, receipt := Booked(g, p, k.country, k.cost, costs, k.core),
      Receipt(g, p, k.country, k.cost, costs, k.core);
    ReceiptReplays(g, p, k.country, k.cost, costs, k.core, Caught(g, lag),
                   NewEvent(booked, env, receipt, LastRef(f.refs)));
    next := EffectEmitted(cfg, t, r, g, booked, env, receipt, LastRef(f.refs), lag, Caught(g, lag));
  }

  // ----------------------------------------------------------------- boost

  lemma BoostTracks(cfg: Config, t: History, r: Replica, f: Flow, env: Envelope, p: ParticipantId, index: nat,
                    c: CampaignId, lag: Lag) returns (next: Replica)
    requires ApplyBoost(f, env, p, index, c).Go?
    requires Shadows(cfg, t, r, f.game, lag) && lag.version == f.game.version + 1
    ensures Shadows(cfg, t, next, ApplyBoost(f, env, p, index, c).flow.game, lag) && next.open == r.open
  {
    var g := f.game;
    if BoostApplies(g, p, index, c) {
      var card := g.table.boosts[p].card;
      var g1 := SpendBoost(g, p, card);
      assert SpendBoost(Behind(g, lag), p, card) == Behind(g1, lag);
      next := EffectEmitted(cfg, t, r, g, g1, env, BoostApplied(p, card), LastRef(f.refs), lag, lag);
    } else {
      next := r;
    }
  }

  // ------------------------------------------------------------------ roll

  /** Replaying the roll closes a pending die request, as the engine did when it resumed. */
  function Rolled(lag: Lag): Lag {
    if lag.pending.Some? && lag.pending.value.DiePending? then lag.(pending := None, status := Ready) else lag
  }

  lemma RollTracks(cfg: Config, t: History, r: Replica, f: Flow, env: Envelope, p: ParticipantId, c: CampaignId,
                   k: NarrativeContinuation, bonus: nat, boost: int, raw: int, manual: Option<ManualRoll>, lag: Lag)
    returns (next: Replica)
    requires c in f.game.board.campaigns
    requires Shadows(cfg, t, r, f.game, lag) && lag.version == f.game.version + 1
    ensures Shadows(cfg, t, next, Roll(cfg, f, env, p, c, k, bonus, boost, raw, manual).game, Rolled(lag))
    ensures next.open == r.open
  {
    var g := f.game;
    var d := |g.audit.dice| + 1;
    var rng := if manual.None? then Some(d) else None;
    var submitter := if manual.Some? then Some(manual.value.submitter) else None;
    var g1 := g.(audit := g.audit.(dice :=
                                   g.audit.dice + [DieRoll(d, p, raw, manual.Some?, rng, submitter, g.version + 1)]));
    var die := DieRolled(d, p, raw, manual.Some?, rng, submitter, LegitimacyModifier(g, p, k), boost,
                         CoreBonus(k.core), ErtRoll(g, p, k, boost, raw));
    var r1 := EffectEmitted(cfg, t, r, g, g1, env, die, LastRef(f.refs), lag, Rolled(lag));
    var f1 := Continue(Flow(g1, f.refs, f.ledgers), env, die);
    next := InputEmitted(cfg, t, r1, f1.game, f1.game, env,
      ErtResolved(k.effectiveCv + bonus, TierFor(k.effectiveCv + bonus),
                  ErtResult(cfg, g, p, c, k, bonus, boost, raw)), LastRef(f1.refs), Rolled(lag), Rolled(lag));
  }

  // ----------------------------------------------------------------- cubes

  ghost predicate SameKey(a: Stack, b: Stack) {
    a.pd == b.pd && a.kind == b.kind && a.attribution == b.attribution
  }

  /** At most one stack for each PD, kind and attribution. */
  ghost predicate UniqueStacks(stacks: seq<Stack>) {
    forall i, j :: 0 <= i < j < |stacks| ==> !SameKey(stacks[i], stacks[j])
  }

  lemma InfluenceTracks(cfg: Config, t: History, r: Replica, f: Flow, env: Envelope, stacks: seq<Stack>, pd: PdId,
                        kind: Alignment, country: CountryId, reason: InfluenceReason, delta: int, balance: nat,
                          lag: Lag)
    returns (next: Replica)
    requires Shadows(cfg, t, r, f.game, lag) && lag.version == f.game.version + 1
    requires var at := FindStack(f.game.board.stacks, pd, kind, country, 0);
             stacks == if at < |f.game.board.stacks| then f.game.board.stacks[at :=
                 f.game.board.stacks[at].(count := balance)]
                       else f.game.board.stacks + [Stack(pd, kind, country, balance)]
    ensures Shadows(cfg, t, next, RecordInfluence(f, env, stacks, pd, kind, country, reason, delta, balance).game, lag)
    ensures next.open == r.open
  {
    var g := f.game;
    var id := InfluenceLedger(|g.audit.influenceLedger| + 1);
    var g1 := g.(board := g.board.(stacks := stacks),
                 audit := g.audit.(influenceLedger :=
                                   g.audit.influenceLedger +
                                     [InfluenceEntry(id, pd, kind, country, reason, delta, balance, g.version + 1)]));
    next := EffectEmitted(cfg, t, r, g, g1, env, InfluenceMutated(pd, kind, country, reason, delta, balance, id),
                          LastRef(f.refs), lag, lag);
  }

  lemma FoundByKey(stacks: seq<Stack>, pd: PdId, kind: Alignment, country: CountryId)
    requires UniqueStacks(stacks)
    requires FindStack(stacks, pd, kind, country, 1) < |stacks|
    ensures FindStack(stacks, pd, kind, country, 0) == FindStack(stacks, pd, kind, country, 1)
  {
    var i, j := FindStack(stacks, pd, kind, country, 0), FindStack(stacks, pd, kind, country, 1);
    if i < j { assert SameKey(stacks[i], stacks[j]); }
  }

  lemma RemoveCubeTracks(cfg: Config, t: History, r: Replica, f: Flow, env: Envelope, i: Impact, country: CountryId,
                         lag: Lag)
    returns (next: Replica)
    requires RemoveCube(f, env, i, country).Go? && UniqueStacks(f.game.board.stacks)
    requires Shadows(cfg, t, r, f.game, lag) && lag.version == f.game.version + 1
    ensures Shadows(cfg, t, next, RemoveCube(f, env, i, country).flow.game, lag) && next.open == r.open
    ensures UniqueStacks(RemoveCube(f, env, i, country).flow.game.board.stacks)
  {
    var stacks := f.game.board.stacks;
    var at := FindStack(stacks, i.target, i.kind.Opposite(), country, 1);
    var left := stacks[at].count - 1;
    FoundByKey(stacks, i.target, i.kind.Opposite(), country);
    next := InfluenceTracks(cfg, t, r, f, env, stacks[at := stacks[at].(count := left)], i.target, i.kind.Opposite(),
                            country, Cancelled, -1, left, lag);
  }

  lemma {:induction false} RemoveCubesTracks(cfg: Config, t: History, r: Replica, f: Flow, env: Envelope, i: Impact,
                                             selection: seq<CountryId>, lag: Lag) returns (next: Replica)
    requires RemoveCubes(f, env, i, selection).Go? && UniqueStacks(f.game.board.stacks)
    requires Shadows(cfg, t, r, f.game, lag) && lag.version == f.game.version + 1
    ensures Shadows(cfg, t, next, RemoveCubes(f, env, i, selection).flow.game, lag) && next.open == r.open
    ensures UniqueStacks(RemoveCubes(f, env, i, selection).flow.game.board.stacks)
  {
    if selection == [] {
      next := r;
    } else {
      var init := selection[..|selection| - 1];
      var r1 := RemoveCubesTracks(cfg, t, r, f, env, i, init, lag);
      next := RemoveCubeTracks(cfg, t, r1, RemoveCubes(f, env, i, init).flow, env, i, selection[|selection| - 1], lag);
    }
  }

  lemma PlaceCubesKeepsUnique(f: Flow, env: Envelope, i: Impact, placed: nat)
    requires UniqueStacks(f.game.board.stacks)
    ensures UniqueStacks(PlaceCubes(f, env, i, placed).game.board.stacks)
  {
  }

  lemma PlaceCubesTracks(cfg: Config, t: History, r: Replica, f: Flow, env: Envelope, i: Impact, placed: nat, lag: Lag)
    returns (next: Replica)
    requires Shadows(cfg, t, r, f.game, lag) && lag.version == f.game.version + 1
    ensures Shadows(cfg, t, next, PlaceCubes(f, env, i, placed).game, lag) && next.open == r.open
  {
    if placed == 0 {
      next := r;
    } else {
      var stacks := f.game.board.stacks;
      var at := FindStack(stacks, i.target, i.kind, i.attribution, 0);
      var before := if at < |stacks| then stacks[at].count else 0;
      var moved := if at < |stacks| then stacks[at := stacks[at].(count := before + placed)]
                   else stacks + [Stack(i.target, i.kind, i.attribution, placed)];
      next := InfluenceTracks(cfg, t, r, f, env, moved, i.target, i.kind, i.attribution, Placed, placed,
                              before + placed, lag);
    }
  }

  // ----------------------------------------------------------------- award

  lemma VpTracks(cfg: Config, t: History, r: Replica, f: Flow, env: Envelope, p: ParticipantId, reason: VpReason,
                 delta: int, before: int, lag: Lag) returns (next: Replica)
    requires Shadows(cfg, t, r, f.game, lag) && lag.version == f.game.version + 1
    ensures Shadows(cfg, t, next, AddVp(f, env, p, reason, delta, before).game, lag) && next.open == r.open
  {
    var g := f.game;
    var id := VpLedger(|g.audit.vpLedger| + 1);
    var g1 := g.(purse := g.purse.(vp := g.purse.vp[p := before + delta]),
                 audit := g.audit.(vpLedger :=
                                   g.audit.vpLedger + [VpEntry(id, p, reason, delta, before + delta, g.version + 1)]));
    next := EffectEmitted(cfg, t, r, g, g1, env, VpChanged(p, reason, delta, before + delta, id), LastRef(f.refs), lag,
                          lag);
  }

  lemma HolderTracks(cfg: Config, t: History, r: Replica, f: Flow, env: Envelope, pd: PdId,
                     previous: Option<ParticipantId>,
                     holder: Option<ParticipantId>, reason: LegitimacyReason, lag: Lag) returns (next: Replica)
    requires Shadows(cfg, t, r, f.game, lag) && lag.version == f.game.version + 1
    ensures Shadows(cfg, t, next, ChangeHolder(f, env, pd, previous, holder, reason).game, lag) && next.open == r.open
  {
    var g := f.game;
    var id := LegitimacyLedger(|g.audit.legitimacyLedger| + 1);
    var g1 := g.(board := g.board.(legitimacy := g.board.legitimacy[pd := holder]),
                 audit := g.audit.(legitimacyLedger :=
                                   g.audit.legitimacyLedger +
                                     [LegitimacyEntry(id, pd, previous, holder, reason, g.version + 1)]));
    next := EffectEmitted(cfg, t, r, g, g1, env, LegitimacyChanged(pd, previous, holder, reason, id), LastRef(f.refs),
                          lag, lag);
  }

  lemma HolderAndVpTracks(cfg: Config, t: History, r: Replica, f: Flow, env: Envelope, i: Impact,
                          holder: Option<ParticipantId>,
                          reason: LegitimacyReason, vpReason: VpReason, before: int, lag: Lag) returns (next: Replica)
    requires Shadows(cfg, t, r, f.game, lag) && lag.version == f.game.version + 1
    ensures var f1 := ChangeHolder(f, env, i.target, i.legitimacyBefore, holder, reason);
            Shadows(cfg, t, next, AddVp(f1, env, i.participant, vpReason, 1, before).game, lag) && next.open == r.open
  {
    next := HolderTracks(cfg, t, r, f, env, i.target, i.legitimacyBefore, holder, reason, lag);
    var f1 := ChangeHolder(f, env, i.target, i.legitimacyBefore, holder, reason);
    next := VpTracks(cfg, t, next, f1, env, i.participant, vpReason, 1, before, lag);
  }

  lemma GainTracks(cfg: Config, t: History, r: Replica, f: Flow, env: Envelope, i: Impact, placed: nat, lag: Lag)
    returns (next: Replica)
    requires i.ertResult > 0 && placed > 0
    requires Shadows(cfg, t, r, f.game, lag) && lag.version == f.game.version + 1
    ensures Shadows(cfg, t, next, Award(f, env, i, placed).game, lag) && next.open == r.open
  {
    var vp := VpOf(f.game, i.participant);
    var f1 := AddVp(f, env, i.participant, CubePlaced, placed, vp);
    next := VpTracks(cfg, t, r, f, env, i.participant, CubePlaced, placed, vp, lag);
    if i.legitimacyBefore.None? {
      next := HolderAndVpTracks(cfg, t, next, f1, env, i, Some(i.participant), Establish, LegitimacyEstablished,
                                vp + placed, lag);
    } else if i.legitimacyBefore != Some(i.participant) {
      next := HolderAndVpTracks(cfg, t, next, f1, env, i, None, Subvert, LegitimacySubverted, vp + placed, lag);
    }
  }

  lemma AwardTracks(cfg: Config, t: History, r: Replica, f: Flow, env: Envelope, i: Impact, placed: nat, lag: Lag)
    returns (next: Replica)
    requires Shadows(cfg, t, r, f.game, lag) && lag.version == f.game.version + 1
    ensures Shadows(cfg, t, next, Award(f, env, i, placed).game, lag) && next.open == r.open
  {
    var vp := VpOf(f.game, i.participant);
    if i.ertResult > 0 && placed > 0 {
      next := GainTracks(cfg, t, r, f, env, i, placed, lag);
    } else if i.ertResult < 0 && placed > 0 && Min(vp, placed) > 0 {
      next := VpTracks(cfg, t, r, f, env, i.participant, Backlash, -Min(vp, placed), vp, lag);
    } else {
      next := r;
    }
  }

  // ------------------------------------------------------------- slots

  ghost predicate PlanOk(plan: map<ParticipantId, seq<Slot>>) {
    forall p, i :: p in plan && 0 <= i < |plan[p]| ==> plan[p][i].index == i + 1
  }

  lemma FindSlotByIndex(slots: seq<Slot>, at: nat)
    requires at < |slots| && forall i :: 0 <= i < |slots| ==> slots[i].index == i + 1
    ensures FindSlot(slots, at + 1) == at
  {
    assert slots[at].index == at + 1;
  }

  lemma {:induction false} LocateAgrees(order: seq<ParticipantId>, plan: map<ParticipantId, seq<Slot>>, c: Cursor)
    ensures ReplayLocate(order, plan, c) == Locate(order, plan, c.(status := Ready))
    decreases |order| - c.participant
  {
    if c.participant < |order| && c.slot >= |SlotsOf(plan, order[c.participant])| {
      LocateAgrees(order, plan, c.(participant := c.participant + 1, slot := 0));
    }
  }

  /** Closing a slot sets the cursor to Ready or Complete on both sides, whatever the status lag was. */
  lemma CloseTracks(cfg: Config, t: History, r: Replica, g: Game, env: Envelope, p: ParticipantId, at: nat,
                    outcome: Outcome, cause: Option<Cause>, lag: Lag) returns (next: Replica)
    requires HasSlot(g, p, at) && PlanOk(g.turn.plan)
    requires Shadows(cfg, t, r, g, lag) && lag.version == g.version + 1 && lag.pending == g.turn.pending
    ensures var closed := CloseSlot(cfg, g, env, p, at, outcome, cause);
            Shadows(cfg, t, next, closed, Lag(g.version + 1, closed.turn.pending, closed.turn.cursor.status)) &&
              next.open == r.open
    ensures PlanOk(CloseSlot(cfg, g, env, p, at, outcome, cause).turn.plan)
  {
    var slots := g.turn.plan[p];
    FindSlotByIndex(slots, at);
    var settled := Settle(g, p, at, outcome);
    LocateAgrees(cfg.order, settled.turn.plan, Behind(g, lag).turn.cursor.(slot := g.turn.cursor.slot + 1));
    assert ReplayAdvance(cfg, Settle(Behind(g, lag), p, at, outcome)) ==
           Behind(Advance(cfg, settled), Lag(g.version + 1, g.turn.pending, Advance(cfg, settled).turn.cursor.status));
    var after := Lag(g.version + 1, g.turn.pending, Advance(cfg, settled).turn.cursor.status);
    next := TurnEmitted(cfg, t, r, g, Advance(cfg, settled), env, ActionResolved(p, g.turn.plan[p][at].index, outcome),
                        cause, lag,
                        r.(game := Behind(Advance(cfg, settled), after)), after);
  }
}
