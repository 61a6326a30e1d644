/**
 The result an activation has in the log. What follows its roll, up to the end of the activation, appends no
 further result, so the last one recorded is that of the activation that has just ended.
 */
module RollRecords {
  import opened Prelude
  import opened CampaignTypes
  import opened Adjudication

  /** The result of the last roll in the log. */
  function LastResult(events: seq<Event>): int {
    if events == [] then 0
    else
      var body := events[|events| - 1].body;
      if body.ErtResolved? then body.result else LastResult(events[..|events| - 1])
  }

  /** Events have been appended, none of them the result of a roll. */
  ghost predicate Quiet(g: Game, h: Game) {
    g.events <= h.events && forall n :: |g.events| <= n < |h.events| ==> !h.events[n].body.ErtResolved?
  }

  lemma {:induction false} QuietKeepsResult(g: Game, h: Game)
    requires Quiet(g, h)
    ensures LastResult(h.events) == LastResult(g.events)
    decreases |h.events|
  {
    if |g.events| < |h.events| {
      QuietKeepsResult(g, h.(events := h.events[..|h.events| - 1]));
    } else {
      assert h.events == g.events;
    }
  }

  lemma QuietThen(a: Game, b: Game, c: Game)
    requires Quiet(a, b) && Quiet(b, c)
    ensures Quiet(a, c)
  {
  }

  lemma RollRecordsResult(cfg: Config, f: Flow, env: Envelope, p: ParticipantId, c: CampaignId,
                          k: NarrativeContinuation, bonus: nat, boost: int, raw: int, manual: Option<ManualRoll>)
    requires c in f.game.board.campaigns
    ensures LastResult(Roll(cfg, f, env, p, c, k, bonus, boost, raw, manual).game.events) ==
            ErtResult(cfg, f.game, p, c, k, bonus, boost, raw)
  {
    hide ErtResult, ErtRoll, LegitimacyModifier, LastRef, TierFor;
  }

  lemma {:induction false} RemovalsQuiet(f: Flow, env: Envelope, i: Impact, selection: seq<CountryId>)
    requires RemoveCubes(f, env, i, selection).Go?
    ensures Quiet(f.game, RemoveCubes(f, env, i, selection).flow.game)
  {
    if selection != [] {
      hide FindStack;
      RemovalsQuiet(f, env, i, selection[..|selection| - 1]);
      var r := RemoveCubes(f, env, i, selection[..|selection| - 1]).flow;
      QuietThen(f.game, r.game, RemoveCubes(f, env, i, selection).flow.game);
    }
  }

  lemma PlacingQuiet(f: Flow, env: Envelope, i: Impact, placed: nat)
    ensures Quiet(f.game, PlaceCubes(f, env, i, placed).game)
  {
    hide AddCubes, FindStack;
  }

  lemma PointsQuiet(f: Flow, env: Envelope, p: ParticipantId, reason: VpReason, delta: int, before: int)
    ensures Quiet(f.game, AddVp(f, env, p, reason, delta, before).game)
  {
  }

  lemma HolderQuiet(f: Flow, env: Envelope, pd: PdId, previous: Option<ParticipantId>, next: Option<ParticipantId>,
                    reason: LegitimacyReason)
    ensures Quiet(f.game, ChangeHolder(f, env, pd, previous, next, reason).game)
  {
  }

  lemma AwardQuiet(f: Flow, env: Envelope, i: Impact, placed: nat)
    ensures Quiet(f.game, Award(f, env, i, placed).game)
  {
    hide AddVp, ChangeHolder, Quiet;
    var vp, p := VpOf(f.game, i.participant), i.participant;
    if i.ertResult > 0 && placed > 0 {
      var f1 := AddVp(f, env, p, CubePlaced, placed, vp);
      PointsQuiet(f, env, p, CubePlaced, placed, vp);
      var next, reason, why := if i.legitimacyBefore.None? then Some(p) else None,
        if i.legitimacyBefore.None? then Establish else Subvert,
        if i.legitimacyBefore.None? then LegitimacyEstablished else LegitimacySubverted;
      var f2 := ChangeHolder(f1, env, i.target, i.legitimacyBefore, next, reason);
      var f3 := AddVp(f2, env, p, why, 1, vp + placed);
      HolderQuiet(f1, env, i.target, i.legitimacyBefore, next, reason);
      PointsQuiet(f2, env, p, why, 1, vp + placed);
      QuietThen(f.game, f1.game, f2.game);
      QuietThen(f.game, f2.game, f3.game);
    } else {
      PointsQuiet(f, env, p, Backlash, -Min(vp, placed), vp);
      NothingQuiet(f.game);
    }
  }

  lemma NothingQuiet(g: Game)
    ensures Quiet(g, g)
  {
  }

  lemma FinishQuiet(cfg: Config, f: Flow, env: Envelope, at: nat, i: Impact, resolution: Resolution)
    requires HasSlot(f.game, i.participant, at) && i.campaign in f.game.board.campaigns
    requires Finish(cfg, f, env, at, i, resolution).Commit?
    ensures Quiet(f.game, Finish(cfg, f, env, at, i, resolution).game)
  {
    hide Locate, LastRef;
  }

  lemma CompletionQuiet(cfg: Config, f: Flow, env: Envelope, at: nat, i: Impact, selection: seq<CountryId>)
    requires HasSlot(f.game, i.participant, at) && i.campaign in f.game.board.campaigns
    requires CompleteActivation(cfg, f, env, at, i, selection).Commit?
    ensures Quiet(f.game, CompleteActivation(cfg, f, env, at, i, selection).game)
  {
    hide RemoveCubes, PlaceCubes, Award, Finish, Effect, Tally, Quiet;
    var effect := Effect(f.game, i);
    var removed := RemoveCubes(f, env, i, selection).flow;
    var moved := PlaceCubes(removed, env, i, effect.placed);
    var awarded := Award(moved, env, i, effect.placed);
    var resolution := Resolution(|moved.game.audit.resolutions| + 1, i.target, i.kind, i.attribution, i.generated,
                                 2 * effect.removed, Tally(selection), effect.placed);
    RemovalsQuiet(f, env, i, selection);
    PlacingQuiet(removed, env, i, effect.placed);
    AwardQuiet(moved, env, i, effect.placed);
    FinishQuiet(cfg, awarded, env, at, i, resolution);
    QuietThen(f.game, removed.game, moved.game);
    QuietThen(f.game, moved.game, awarded.game);
    QuietThen(f.game, awarded.game, Finish(cfg, awarded, env, at, i, resolution).game);
  }

  /** Nothing after the roll records another result. */
  lemma CompletionKeepsResult(cfg: Config, f: Flow, env: Envelope, at: nat, i: Impact, selection: seq<CountryId>)
    requires HasSlot(f.game, i.participant, at) && i.campaign in f.game.board.campaigns
    requires CompleteActivation(cfg, f, env, at, i, selection).Commit?
    ensures LastResult(CompleteActivation(cfg, f, env, at, i, selection).game.events) == LastResult(f.game.events)
  {
    CompletionQuiet(cfg, f, env, at, i, selection);
    hide CompleteActivation;
    QuietKeepsResult(f.game, CompleteActivation(cfg, f, env, at, i, selection).game);
  }
}
