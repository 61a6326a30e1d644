/**
 The trace of an activation as the engine records it against the trace the replay reconstructs. The
 replay lists every event from the reveal to the completion and one ledger id for each event that has one;
 the engine's own lists can miss the request for a narrative and hold more ids than the cost event shows.
 They agree exactly for activations with a seeded narrative, no component cost and no core modifier.
 */
module TraceReplay {
  import opened Prelude
  import opened CampaignTypes
  import opened Adjudication
  import opened ReplaySegments
  import opened ReplayRuns

  // ----------------------------------------------------- reconstruction

  /** Event ids from..upto in order, without `gap`. */
  function Ids(from: nat, upto: nat, gap: nat): seq<EventId> {
    if upto < from then [] else if upto == 0 then [0]
    else Ids(from, upto - 1, gap) + if upto == gap then [] else [upto]
  }

  /** The ledger id in an event's payload. */
  function LedgerOf(b: Body): seq<LedgerId> {
    match b
    case ContributionPaid(_, _, _, _, id) => [id]
    case CostPaid(_, _, _, _, _, _, _, _, _, id) => [id]
    case InfluenceMutated(_, _, _, _, _, _, id) => [id]
    case LegitimacyChanged(_, _, _, _, id) => [id]
    case VpChanged(_, _, _, _, id) => [id]
    case _ => []
  }

  function Listed(events: seq<Event>): seq<LedgerId> {
    if events == [] then [] else Listed(events[..|events| - 1]) + LedgerOf(events[|events| - 1].body)
  }

  /** Ledger lines booked by a cost event beyond the one it names. */
  function Unlisted(b: Body): nat {
    if b.CostPaid? then |b.componentCosts| + (if b.coreCost > 0 then 1 else 0) else 0
  }

  function Extra(events: seq<Event>): nat {
    if events == [] then 0 else Extra(events[..|events| - 1]) + Unlisted(events[|events| - 1].body)
  }

  /** Where the replay last saw this activation start; the length of the list if it did not. */
  function StartIndex(events: seq<Event>, activation: ActivationId): nat {
    if events == [] then 0
    else
      var last := events[|events| - 1].body;
      if last.ActivationStarted? && last.activation == activation then |events| - 1
      else
        var before := StartIndex(events[..|events| - 1], activation);
        if before == |events| - 1 then |events| else before
  }

  /** The events of the activation completed by event m: from the reveal before its start. */
  function SliceOf(events: seq<Event>, m: nat): seq<Event>
    requires m < |events| && events[m].body.ActivationCompleted?
  {
    var s := StartIndex(events[..m], events[m].body.activation);
    if 0 < s <= m then events[s - 1..m + 1] else []
  }

  /** The comparison of the recorded with the reconstructed references. */
  predicate TraceMatches(events: seq<Event>, m: nat)
    requires m < |events| && events[m].body.ActivationCompleted?
  {
    var slice := SliceOf(events, m);
    events[m].body.trace == TraceRefs(seq(|slice|, n requires 0 <= n < |slice| => slice[n].head.sequence),
                                      Listed(slice))
  }

  /** The narrative had been seeded, and the cost was the tier cost alone. */
  ghost predicate Simple(slice: seq<Event>) {
    (forall n :: 0 <= n < |slice| ==> !slice[n].body.NarrativeRequested?) && Extra(slice) == 0
  }

  ghost predicate Lawful(events: seq<Event>, m: nat)
    requires m < |events| && events[m].body.ActivationCompleted?
  {
    SliceOf(events, m) != [] && (TraceMatches(events, m) <==> Simple(SliceOf(events, m)))
  }

  /** The law holds for every activation completed after the first n0 events. */
  ghost predicate AllLawful(events: seq<Event>, n0: nat) {
    forall m :: n0 <= m < |events| && events[m].body.ActivationCompleted? ==> Lawful(events, m)
  }

  // ------------------------------------------------------ keeping the books

  ghost predicate Numbered(events: seq<Event>, n0: nat) {
    forall n :: n0 <= n < |events| ==> events[n].head.sequence == n + 1
  }

  /** The ledger references of an activation against the ids its events show. */
  ghost predicate Tallied(ledgers: seq<LedgerId>, slice: seq<Event>) {
    |ledgers| == |Listed(slice)| + Extra(slice) && (Extra(slice) == 0 ==> ledgers == Listed(slice))
  }

  /** An activation under way: its reveal is event s, and `gap` is the id its references miss. */
  ghost predicate Traced(events: seq<Event>, refs: seq<EventId>, ledgers: seq<LedgerId>, act: ActivationId, s: nat,
                         n0: nat) {
    n0 <= s && s + 2 <= |events| && Numbered(events, n0) && AllLawful(events, n0) &&
    StartIndex(events, act) == s + 1 && !events[s].body.NarrativeRequested? &&
      !events[s + 1].body.NarrativeRequested? &&
    (forall n :: s + 2 < n < |events| ==> !events[n].body.NarrativeRequested?) &&
    refs == Ids(s + 1, |events|, Gap(events, s)) && Tallied(ledgers, events[s..])
  }

  function Gap(events: seq<Event>, s: nat): nat {
    if s + 2 < |events| && events[s + 2].body.NarrativeRequested? then s + 3 else 0
  }

  /** Bodies an activation emits between its start and its completion, requests for a narrative aside. */
  predicate Inner(b: Body) {
    !b.ActivationStarted? && !b.ActivationCompleted? && !b.NarrativeRequested?
  }

  /** What comes later does not change the law for the activations completed so far. */
  lemma LawStays(events: seq<Event>, e: Event, n0: nat)
    requires AllLawful(events, n0)
    ensures forall m :: n0 <= m < |events| && events[m].body.ActivationCompleted? ==> Lawful(events + [e], m)
    ensures !e.body.ActivationCompleted? ==> AllLawful(events + [e], n0)
  {
    forall m | n0 <= m < |events| && events[m].body.ActivationCompleted?
      ensures Lawful(events + [e], m)
    {
      SamePrefix(events, e, m);
    }
  }

  lemma SamePrefix(events: seq<Event>, e: Event, m: nat)
    requires m < |events| && events[m].body.ActivationCompleted?
    ensures Lawful(events, m) == Lawful(events + [e], m)
  {
    assert (events + [e])[..m] == events[..m];
    var s := StartIndex(events[..m], events[m].body.activation);
    if 0 < s <= m {
      assert (events + [e])[s - 1..m + 1] == events[s - 1..m + 1];
    }
  }

  /** One more event of the activation, referenced like all the others. */
  lemma InnerTraced(events: seq<Event>, refs: seq<EventId>, ledgers: seq<LedgerId>, act: ActivationId, s: nat, n0: nat,
                    e: Event, more: seq<LedgerId>)
    requires Traced(events, refs, ledgers, act, s, n0) && Inner(e.body) && e.head.sequence == |events| + 1
    requires |more| == |LedgerOf(e.body)| + Unlisted(e.body) && (Unlisted(e.body) == 0 ==> more == LedgerOf(e.body))
    ensures Traced(events + [e], refs + [|events| + 1], ledgers + more, act, s, n0)
  {
    LawStays(events, e, n0);
    var all := events + [e];
    assert all[..|events|] == events;
    assert all[s..][..|all[s..]| - 1] == events[s..];
    assert Gap(all, s) == Gap(events, s);
    assert |events| + 1 != Gap(events, s);
  }

  // -------------------------------------------------------- one activation

  /** Which activation is under way, where it was revealed, and where the run began. */
  datatype Mark = Mark(act: ActivationId, s: nat, n0: nat)

  ghost predicate On(f: Flow, k: Mark) {
    Traced(f.game.events, f.refs, f.ledgers, k.act, k.s, k.n0)
  }

  /** One emitted event, whatever else the step changes. */
  lemma Emitted(f: Flow, next: Flow, e: Event, more: seq<LedgerId>, k: Mark)
    requires On(f, k) && Inner(e.body) && e.head.sequence == |f.game.events| + 1
    requires next.game.events == f.game.events + [e] && next.refs == f.refs + [|f.game.events| + 1]
    requires next.ledgers == f.ledgers + more
    requires |more| == |LedgerOf(e.body)| + Unlisted(e.body) && (Unlisted(e.body) == 0 ==> more == LedgerOf(e.body))
    ensures On(next, k)
  {
    InnerTraced(f.game.events, f.refs, f.ledgers, k.act, k.s, k.n0, e, more);
  }

  /** An event without a ledger line. */
  lemma PlainEvent(f: Flow, env: Envelope, body: Body, g: Game, k: Mark)
    requires On(f, k) && Inner(body) && LedgerOf(body) == [] && !body.CostPaid? && g.events == f.game.events
    ensures On(Continue(Flow(g, f.refs, f.ledgers), env, body), k)
  {
    hide On;
    var next := Continue(Flow(g, f.refs, f.ledgers), env, body);
    assert next.ledgers == f.ledgers + [];
    Emitted(f, next, NewEvent(g, env, body, LastRef(f.refs)), [], k);
  }

  /** An event with its one ledger line. */
  lemma LedgerEvent(f: Flow, env: Envelope, body: Body, g: Game, id: LedgerId, k: Mark)
    requires On(f, k) && Inner(body) && LedgerOf(body) == [id] && !body.CostPaid? && g.events == f.game.events
    ensures On(Continue(Flow(g, f.refs, f.ledgers + [id]), env, body), k)
  {
    hide On;
    var next := Continue(Flow(g, f.refs, f.ledgers + [id]), env, body);
    Emitted(f, next, NewEvent(g, env, body, LastRef(f.refs)), [id], k);
  }

  lemma PreRollOn(f: Flow, env: Envelope, k: Mark)
    requires On(f, k)
    ensures On(PreRoll(f, env), k)
  {
    hide On;
    var f1 := Continue(f, env, PreRollReaction(0));
    var f2 := Continue(f1, env, PreRollReaction(1));
    PlainEvent(f, env, PreRollReaction(0), f.game, k);
    PlainEvent(f1, env, PreRollReaction(1), f1.game, k);
    PlainEvent(f2, env, PreRollReaction(2), f2.game, k);
  }

  lemma PayOn(f: Flow, env: Envelope, p: ParticipantId, c: CampaignId, n: NarrativeContinuation, k: Mark)
    requires On(f, k) && c in f.game.board.campaigns && Pay(f, env, p, c, n).Go?
    ensures On(Pay(f, env, p, c, n).flow, k)
  {
    hide On, Booked, TotalCost, ComponentCosts, Sum;
    var g, costs := f.game, ComponentCosts(f.game.board.campaigns[c].assignments);
    var booked, body := Booked(g, p, n.country, n.cost, costs, n.core), Receipt(g, p, n.country, n.cost, costs, n.core);
    var ids := ResourceIds(|g.audit.resourceLedger| + 1, 1 + |costs| + if n.core then 1 else 0);
    Emitted(f, Pay(f, env, p, c, n).flow, NewEvent(booked, env, body, LastRef(f.refs)), ids, k);
  }

  lemma BoostOn(f: Flow, env: Envelope, p: ParticipantId, index: nat, c: CampaignId, k: Mark)
    requires On(f, k) && ApplyBoost(f, env, p, index, c).Go?
    ensures On(ApplyBoost(f, env, p, index, c).flow, k)
  {
    hide On, SpendBoost;
    if BoostApplies(f.game, p, index, c) {
      var card := f.game.table.boosts[p].card;
      PlainEvent(f, env, BoostApplied(p, card), SpendBoost(f.game, p, card), k);
    }
  }

  lemma RollOn(cfg: Config, f: Flow, env: Envelope, p: ParticipantId, c: CampaignId, n: NarrativeContinuation,
               bonus: nat,
               boost: int, raw: int, manual: Option<ManualRoll>, k: Mark)
    requires On(f, k) && c in f.game.board.campaigns
    ensures On(Roll(cfg, f, env, p, c, n, bonus, boost, raw, manual), k)
  {
    hide On, ErtRoll, ErtResult, LegitimacyModifier, TierFor, CoreBonus;
    var g, d := f.game, |f.game.audit.dice| + 1;
    var rng := if manual.None? then Some(d) else None;
    var submitter := if manual.Some? then Some(manual.value.submitter) else None;
    var g1 := g.(audit := g.audit.(dice :=
                                   g.audit.dice + [DieRoll(d, p, raw, manual.Some?, rng, submitter, g.version + 1)]));
    var die := DieRolled(d, p, raw, manual.Some?, rng, submitter, LegitimacyModifier(g, p, n), boost,
                         CoreBonus(n.core), ErtRoll(g, p, n, boost, raw));
    PlainEvent(f, env, die, g1, k);
    var rolled := Continue(Flow(g1, f.refs, f.ledgers), env, die);
    PlainEvent(rolled, env, ErtResolved(n.effectiveCv + bonus, TierFor(n.effectiveCv + bonus),
                                        ErtResult(cfg, g, p, c, n, bonus, boost, raw)), rolled.game, k);
  }

  lemma InfluenceOn(f: Flow, env: Envelope, stacks: seq<Stack>, pd: PdId, kind: Alignment, country: CountryId,
                    reason: InfluenceReason, delta: int, balance: nat, k: Mark)
    requires On(f, k)
    ensures On(RecordInfluence(f, env, stacks, pd, kind, country, reason, delta, balance), k)
  {
    hide On;
    var g, id := f.game, InfluenceLedger(|f.game.audit.influenceLedger| + 1);
    var g1 := g.(board := g.board.(stacks := stacks), audit := g.audit.(influenceLedger := g.audit.influenceLedger +
      [InfluenceEntry(id, pd, kind, country, reason, delta, balance, g.version + 1)]));
    LedgerEvent(f, env, InfluenceMutated(pd, kind, country, reason, delta, balance, id), g1, id, k);
  }

  lemma {:induction false} RemovalsOn(f: Flow, env: Envelope, i: Impact, selection: seq<CountryId>, k: Mark)
    requires On(f, k) && RemoveCubes(f, env, i, selection).Go?
    ensures On(RemoveCubes(f, env, i, selection).flow, k)
  {
    hide On, RecordInfluence;
    if selection != [] {
      var init, last := selection[..|selection| - 1], selection[|selection| - 1];
      RemovalsOn(f, env, i, init, k);
      var f1 := RemoveCubes(f, env, i, init).flow;
      var stacks := f1.game.board.stacks;
      var at := FindStack(stacks, i.target, i.kind.Opposite(), last, 1);
      var left := stacks[at].count - 1;
      InfluenceOn(f1, env, stacks[at := stacks[at].(count := left)], i.target, i.kind.Opposite(), last, Cancelled, -1,
                  left, k);
    }
  }

  lemma PlacingOn(f: Flow, env: Envelope, i: Impact, placed: nat, k: Mark)
    requires On(f, k)
    ensures On(PlaceCubes(f, env, i, placed), k)
  {
    hide On, AddCubes, RecordInfluence;
    if placed > 0 {
      var stacks := f.game.board.stacks;
      var n := FindStack(stacks, i.target, i.kind, i.attribution, 0);
      var before := if n < |stacks| then stacks[n].count else 0;
      InfluenceOn(f, env, AddCubes(stacks, i, placed), i.target, i.kind, i.attribution, Placed, placed,
                  before + placed, k);
    }
  }

  lemma PointsOn(f: Flow, env: Envelope, p: ParticipantId, reason: VpReason, delta: int, before: int, k: Mark)
    requires On(f, k)
    ensures On(AddVp(f, env, p, reason, delta, before), k)
  {
    hide On;
    var g, id := f.game, VpLedger(|f.game.audit.vpLedger| + 1);
    var g1 := g.(purse := g.purse.(vp := g.purse.vp[p := before + delta]),
                 audit := g.audit.(vpLedger := g.audit.vpLedger +
      [VpEntry(id, p, reason, delta, before + delta, g.version + 1)]));
    LedgerEvent(f, env, VpChanged(p, reason, delta, before + delta, id), g1, id, k);
  }

  lemma HolderOn(f: Flow, env: Envelope, pd: PdId, previous: Option<ParticipantId>, holder: Option<ParticipantId>,
                 reason: LegitimacyReason, k: Mark)
    requires On(f, k)
    ensures On(ChangeHolder(f, env, pd, previous, holder, reason), k)
  {
    hide On;
    var g, id := f.game, LegitimacyLedger(|f.game.audit.legitimacyLedger| + 1);
    var g1 := g.(board := g.board.(legitimacy := g.board.legitimacy[pd := holder]),
                 audit := g.audit.(legitimacyLedger :=
      g.audit.legitimacyLedger + [LegitimacyEntry(id, pd, previous, holder, reason, g.version + 1)]));
    LedgerEvent(f, env, LegitimacyChanged(pd, previous, holder, reason, id), g1, id, k);
  }

  lemma AwardOn(f: Flow, env: Envelope, i: Impact, placed: nat, k: Mark)
    requires On(f, k)
    ensures On(Award(f, env, i, placed), k)
  {
    hide On, AddVp, ChangeHolder;
    var p, vp := i.participant, VpOf(f.game, i.participant);
    var f1 := AddVp(f, env, p, CubePlaced, placed, vp);
    PointsOn(f, env, p, CubePlaced, placed, vp, k);
    PointsOn(f, env, p, Backlash, -Min(vp, placed), vp, k);
    var established := ChangeHolder(f1, env, i.target, None, Some(p), Establish);
    HolderOn(f1, env, i.target, None, Some(p), Establish, k);
    PointsOn(established, env, p, LegitimacyEstablished, 1, vp + placed, k);
    var subverted := ChangeHolder(f1, env, i.target, i.legitimacyBefore, None, Subvert);
    HolderOn(f1, env, i.target, i.legitimacyBefore, None, Subvert, k);
    PointsOn(subverted, env, p, LegitimacySubverted, 1, vp + placed, k);
  }

  // ------------------------------------------------------------ completion

  lemma {:induction false} IdsShape(from: nat, upto: nat, gap: nat)
    requires 0 < from <= upto + 1
    ensures |Ids(from, upto, gap)| == upto + 1 - from - if from <= gap <= upto then 1 else 0
    ensures gap == 0 ==> forall n :: 0 <= n < |Ids(from, upto, gap)| ==> Ids(from, upto, gap)[n] == from + n
  {
    if upto >= from {
      IdsShape(from, upto - 1, gap);
    }
  }

  lemma SliceIds(slice: seq<Event>, from: nat)
    requires 0 < from && forall n :: 0 <= n < |slice| ==> slice[n].head.sequence == from + n
    ensures seq(|slice|, n requires 0 <= n < |slice| => slice[n].head.sequence) == Ids(from, from + |slice| - 1, 0)
  {
    IdsShape(from, from + |slice| - 1, 0);
  }

  /** References that miss at most the narrative request, and ledgers that hold at most the unlisted lines. */
  lemma MatchIff(slice: seq<Event>, refs: seq<EventId>, ledgers: seq<LedgerId>, from: nat, gap: nat)
    requires 0 < from && slice != [] && forall n :: 0 <= n < |slice| ==> slice[n].head.sequence == from + n
    requires refs == Ids(from, from + |slice| - 1, gap) && Tallied(ledgers, slice)
    requires if gap == 0 then forall n :: 0 <= n < |slice| ==> !slice[n].body.NarrativeRequested?
             else from <= gap < from + |slice| && slice[gap - from].body.NarrativeRequested?
    ensures var rebuilt := TraceRefs(seq(|slice|, n requires 0 <= n < |slice| => slice[n].head.sequence),
                                     Listed(slice));
            (TraceRefs(refs, ledgers) == rebuilt) <==> Simple(slice)
  {
    hide Ids, Listed, Extra;
    SliceIds(slice, from);
    IdsShape(from, from + |slice| - 1, gap);
    IdsShape(from, from + |slice| - 1, 0);
  }

  /** The completion event closes the books: the law holds for it as it does for all before. */
  lemma CompletedLawful(events: seq<Event>, refs: seq<EventId>, ledgers: seq<LedgerId>, k: Mark, e: Event)
    requires Traced(events, refs, ledgers, k.act, k.s, k.n0)
    requires e.head.sequence == |events| + 1 && e.body.ActivationCompleted? && e.body.activation == k.act
    requires e.body.trace == TraceRefs(refs + [|events| + 1], ledgers)
    ensures Numbered(events + [e], k.n0) && AllLawful(events + [e], k.n0)
  {
    LawStays(events, e, k.n0);
    var all, m, gap := events + [e], |events|, Gap(events, k.s);
    var slice := all[k.s..];
    assert all[..m] == events;
    assert SliceOf(all, m) == slice;
    assert slice[..|slice| - 1] == events[k.s..];
    hide StartIndex, SliceOf, Lawful;
    MatchIff(slice, refs + [m + 1], ledgers, k.s + 1, gap);
    LastLawful(all, m, slice);
  }

  lemma LastLawful(all: seq<Event>, m: nat, slice: seq<Event>)
    requires m < |all| && all[m].body.ActivationCompleted? && SliceOf(all, m) == slice && slice != []
    requires var rebuilt := TraceRefs(seq(|slice|, n requires 0 <= n < |slice| => slice[n].head.sequence),
                                      Listed(slice));
             (all[m].body.trace == rebuilt) <==> Simple(slice)
    ensures Lawful(all, m)
  {
  }

  /** Between commands: everything completed is lawful, and a waiting activation has its books in order. */
  ghost predicate Filed(g: Game, n0: nat) {
    n0 <= |g.events| && Numbered(g.events, n0) && AllLawful(g.events, n0) &&
    (g.turn.pending.Some? ==> exists s {:trigger WaitsFrom(g, s, n0)} :: WaitsFrom(g, s, n0))
  }

  ghost predicate WaitsFrom(g: Game, s: nat, n0: nat)
    requires g.turn.pending.Some?
  {
    var pending := g.turn.pending.value;
    var act := pending.base.activation;
    match pending
    case NarrativePending(_, k) =>
      |g.events| == s + 3 && g.events[s + 2].body.NarrativeRequested? &&
        Traced(g.events[..s + 2], k.refs, [], act, s, n0)
    case CoalitionPending(_, _, _, _, _, refs, ledgers) => Traced(g.events, refs, ledgers, act, s, n0)
    case DiePending(_, _, _, refs, ledgers) => Traced(g.events, refs, ledgers, act, s, n0)
    case ChoicePending(_, choice) => Traced(g.events, choice.refs, choice.ledgers, act, s, n0)
  }

  lemma FinishFiled(cfg: Config, f: Flow, env: Envelope, at: nat, i: Impact, resolution: Resolution, k: Mark)
    requires HasSlot(f.game, i.participant, at) && i.campaign in f.game.board.campaigns && f.game.turn.pending.None?
    requires On(f, k) && k.act == ActivationOf(f.game, i.campaign) && Finish(cfg, f, env, at, i, resolution).Commit?
    ensures Filed(Finish(cfg, f, env, at, i, resolution).game, k.n0)
  {
    FinishSplits(cfg, f, env, at, i, resolution);
    hide Finish, Traced, LastRef, Locate;
    var closed := CloseSlot(cfg, f.game, env, i.participant, at, Resolved, LastRef(f.refs));
    var e := closed.events[|f.game.events|];
    assert f.ledgers + [] == f.ledgers;
    InnerTraced(f.game.events, f.refs, f.ledgers, k.act, k.s, k.n0, e, []);
    var g := Finish(cfg, f, env, at, i, resolution).game;
    CompletedLawful(closed.events, f.refs + [|f.game.events| + 1], f.ledgers, k, g.events[|closed.events|]);
    TracedIsLong(f.game.events, f.refs, f.ledgers, k);
  }

  lemma TracedIsLong(events: seq<Event>, refs: seq<EventId>, ledgers: seq<LedgerId>, k: Mark)
    requires Traced(events, refs, ledgers, k.act, k.s, k.n0)
    ensures k.n0 <= |events| && Numbered(events, k.n0) && AllLawful(events, k.n0)
  {
  }

  lemma CompletionFiled(cfg: Config, f: Flow, env: Envelope, at: nat, i: Impact, selection: seq<CountryId>, k: Mark)
    requires HasSlot(f.game, i.participant, at) && i.campaign in f.game.board.campaigns && f.game.turn.pending.None?
    requires On(f, k) && k.act == ActivationOf(f.game, i.campaign)
    requires CompleteActivation(cfg, f, env, at, i, selection).Commit?
    ensures Filed(CompleteActivation(cfg, f, env, at, i, selection).game, k.n0)
  {
    hide On, RemoveCubes, PlaceCubes, Award, Finish, Effect, Tally, Filed;
    var effect := Effect(f.game, i);
    var removed := RemoveCubes(f, env, i, selection).flow;
    RemovalsOn(f, env, i, selection, k);
    var moved := PlaceCubes(removed, env, i, effect.placed);
    PlacingOn(removed, env, i, effect.placed, k);
    AwardOn(moved, env, i, effect.placed, k);
    var resolution := Resolution(|moved.game.audit.resolutions| + 1, i.target, i.kind, i.attribution, i.generated,
                                 2 * effect.removed, Tally(selection), effect.placed);
    FinishFiled(cfg, Award(moved, env, i, effect.placed), env, at, i, resolution, k);
  }

  /** A request whose own id is among the references it stores. */
  lemma RequestFiled(f: Flow, env: Envelope, body: Body, pending: Pending, k: Mark)
    requires On(f, k) && Requests(body, pending) && !pending.NarrativePending? && pending.base.activation == k.act
    requires pending.CoalitionPending? ==>
             pending.refs == f.refs + [|f.game.events| + 1] && pending.ledgers == f.ledgers
    requires pending.DiePending? ==> pending.refs == f.refs + [|f.game.events| + 1] && pending.ledgers == f.ledgers
    requires pending.ChoicePending? ==>
             pending.choice.refs == f.refs + [|f.game.events| + 1] && pending.choice.ledgers == f.ledgers
    requires body != NarrativeRequested(pending)
    ensures Filed(Suspend(f.game, env, body, LastRef(f.refs), pending), k.n0)
  {
    hide Traced;
    var g := Suspend(f.game, env, body, LastRef(f.refs), pending);
    assert f.ledgers + [] == f.ledgers;
    InnerTraced(f.game.events, f.refs, f.ledgers, k.act, k.s, k.n0, g.events[|f.game.events|], []);
    assert WaitsFrom(g, k.s, k.n0);
    TracedIsLong(g.events, f.refs + [|f.game.events| + 1], f.ledgers, k);
  }

  lemma ResolutionFiled(cfg: Config, f: Flow, env: Envelope, at: nat, i: Impact, k: Mark)
    requires HasSlot(f.game, i.participant, at) && i.campaign in f.game.board.campaigns && f.game.turn.pending.None?
    requires On(f, k) && k.act == ActivationOf(f.game, i.campaign) && Resolve(cfg, f, env, at, i).Commit?
    ensures Filed(Resolve(cfg, f, env, at, i).game, k.n0)
  {
    hide On, CompleteActivation, AutomaticSelections, Effect, SourcesOf, Filed, Suspend;
    var removals, sources := Effect(f.game, i).removed, SourcesOf(f.game, i);
    if removals > 0 && |sources| > 1 {
      var choice := CampaignContinuation(i, removals, sources, f.refs + [|f.game.events| + 1], f.ledgers);
      var pending := ChoicePending(BaseFor(f.game, env, i.participant, at, i.campaign), choice);
      RequestFiled(f, env, ChoiceRequested(pending), pending, k);
    } else {
      CompletionFiled(cfg, f, env, at, i,
                      AutomaticSelections(f.game.board.stacks, i.target, i.kind.Opposite(), COUNTRIES, removals), k);
    }
  }

  lemma RollAndResolveFiled(cfg: Config, f: Flow, env: Envelope, p: ParticipantId, at: nat, c: CampaignId,
                            n: NarrativeContinuation, bonus: nat, die: Option<int>, manual: Option<ManualRoll>, k: Mark)
    requires c in f.game.board.campaigns && HasSlot(f.game, p, at) && f.game.turn.pending.None?
    requires On(f, k) && k.act == ActivationOf(f.game, c)
    requires RollAndResolve(cfg, f, env, p, at, c, n, bonus, die, manual).Commit?
    ensures Filed(RollAndResolve(cfg, f, env, p, at, c, n, bonus, die, manual).game, k.n0)
  {
    hide On, Pay, ApplyBoost, Roll, Resolve, ResolutionInput, BoostApplies, RollValue, Filed;
    var index := f.game.turn.plan[p][at].index;
    var paid := Pay(f, env, p, c, n).flow;
    PayOn(f, env, p, c, n, k);
    var boosted := ApplyBoost(paid, env, p, index, c).flow;
    BoostOn(paid, env, p, index, c, k);
    var boost := if BoostApplies(f.game, p, index, c) then 1 else 0;
    var raw := RollValue(die, manual).value;
    var rolled := Roll(cfg, boosted, env, p, c, n, bonus, boost, raw, manual);
    RollOn(cfg, boosted, env, p, c, n, bonus, boost, raw, manual, k);
    ResolutionFiled(cfg, rolled, env, at, ResolutionInput(cfg, boosted.game, p, index, c, n, bonus, boost, raw), k);
  }

  lemma NarrativeFiled(cfg: Config, f: Flow, env: Envelope, p: ParticipantId, at: nat, c: CampaignId,
                       n: NarrativeContinuation, coalition: Coalition, die: Option<int>, manual: Option<ManualRoll>,
                         k: Mark)
    requires f.game.turn.pending.None? && On(f, k) && c in f.game.board.campaigns && k.act == ActivationOf(f.game, c)
    requires coalition.Undecided? ==> f.ledgers == []
    requires AfterNarrative(cfg, f, env, p, at, c, n, coalition, die, manual).Commit?
    ensures Filed(AfterNarrative(cfg, f, env, p, at, c, n, coalition, die, manual).game, k.n0)
  {
    hide On, RollAndResolve, PreRoll, NeedsCoalition, Allies, Filed, Suspend;
    if NeedsCoalition(f.game.board.campaigns[c]) && coalition.Undecided? && Allies(cfg, cfg.order, p) != [] {
      var pending := CoalitionPending(BaseFor(f.game, env, p, at, c), n, Allies(cfg, cfg.order, p), [], map[],
                                      f.refs + [|f.game.events| + 1], []);
      RequestFiled(f, env, CoalitionRequested(pending), pending, k);
    } else {
      var bonus := if coalition.Decided? then coalition.bonus else 0;
      var ready := if manual.None? then PreRoll(f, env) else f;
      PreRollOn(f, env, k);
      PreRollKeepsLedgers(f, env);
      if cfg.manualDice && manual.None? {
        var pending := DiePending(BaseFor(ready.game, env, p, at, c), n, bonus, ready.refs + [|ready.game.events| + 1],
                                  f.ledgers);
        RequestFiled(ready, env, DieRequested(pending), pending, k);
      } else {
        RollAndResolveFiled(cfg, ready, env, p, at, c, n, bonus, die, manual, k);
      }
    }
  }

  lemma PreRollKeepsLedgers(f: Flow, env: Envelope)
    ensures PreRoll(f, env).ledgers == f.ledgers
  {
  }

  // -------------------------------------------------------------- commands

  ghost predicate Clean(events: seq<Event>, n0: nat) {
    n0 <= |events| && Numbered(events, n0) && AllLawful(events, n0)
  }

  lemma EmitClean(g: Game, env: Envelope, body: Body, cause: Option<Cause>, n0: nat)
    requires Clean(g.events, n0) && !body.ActivationCompleted?
    ensures Clean(Emit(g, env, body, cause).events, n0)
  {
    LawStays(g.events, NewEvent(g, env, body, cause), n0);
  }

  lemma StartedTraced(events: seq<Event>, e: Event, act: ActivationId, n0: nat)
    requires Clean(events, n0) && n0 < |events| && events[|events| - 1].body.ActionRevealed?
    requires e.head.sequence == |events| + 1 && e.body.ActivationStarted? && e.body.activation == act
    ensures Traced(events + [e], [|events|, |events| + 1], [], act, |events| - 1, n0)
  {
    LawStays(events, e, n0);
    var all, s := events + [e], |events| - 1;
    assert all[..|all| - 1] == events;
    assert all[s..] == [events[s]] + [e];
    assert all[s..][..1] == [events[s]];
    assert [events[s]][..0] == [];
    assert Listed([events[s]]) == [] && Extra([events[s]]) == 0 by {
      assert [events[s]][..|[events[s]]| - 1] == [] && [events[s]][|[events[s]]| - 1] == events[s];
    }
    assert Listed(all[s..]) == [] && Extra(all[s..]) == 0;
    assert Ids(s + 1, s, 0) == [];
    assert Ids(s + 1, s + 1, 0) == [s + 1];
    assert Ids(s + 1, s + 2, 0) == [s + 1] + [s + 2];
  }

  lemma StartedOn(g: Game, env: Envelope, body: Body, act: ActivationId, n0: nat)
    requires Clean(g.events, n0) && n0 < |g.events| && g.events[|g.events| - 1].body.ActionRevealed?
    requires body.ActivationStarted? && body.activation == act
    ensures var started := Continue(Flow(g, [|g.events|], []), env, body);
            On(started, Mark(act, |g.events| - 1, n0)) && started.ledgers == [] && started.game.events != []
  {
    hide Traced, Clean;
    var refs := [|g.events|];
    StartedTraced(g.events, NewEvent(g, env, body, LastRef(refs)), act, n0);
    assert refs + [|g.events| + 1] == [|g.events|, |g.events| + 1];
  }

  lemma StartFiled(cfg: Config, g: Game, env: Envelope, p: ParticipantId, at: nat, a: Action, hash: int,
                   die: Option<int>, n0: nat)
    requires a.Activate? && HasSlot(g, p, at) && g.turn.pending.None? && Clean(g.events, n0) && n0 < |g.events|
    requires g.events[|g.events| - 1].body.ActionRevealed?
    requires StartActivation(cfg, g, env, p, at, a, hash, [|g.events|], die).Commit?
    ensures Filed(StartActivation(cfg, g, env, p, at, a, hash, [|g.events|], die).game, n0)
  {
    hide AfterNarrative, ContinuationOf, TotalCost, On, Clean, Locate, CloseSlot, Filed, LastRef, Suspend;
    var refs, campaign := [|g.events|], g.board.campaigns[a.campaign];
    if Balance(g, cfg.seats[p]) < TotalCost(campaign, cfg.valueOf(campaign.assignments).cost, a.useCore) {
      ClosedFiled(cfg, g, env, p, at, FailedCost, LastRef(refs), n0);
    } else {
      var act, k := ActivationOf(g, a.campaign), Mark(ActivationOf(g, a.campaign), |g.events| - 1, n0);
      var body := ActivationStarted(act, a.campaign, p, a.target.value, hash);
      var started := Continue(Flow(g, refs, []), env, body);
      StartedOn(g, env, body, act, n0);
      if a.campaign in g.board.narratives {
        var n := g.board.narratives[a.campaign];
        var tale, teller := NarrativeSubmitted(a.campaign, n.inputId, n.source, n.text, Some(n.cause)),
          Envelope(n.actor, None, n.correlation, Some(n.cause));
        PlainEvent(started, teller, tale, started.game, k);
        NarrativeFiled(cfg, Continue(started, teller, tale), env, p, at, a.campaign,
                       ContinuationOf(cfg, g, p, a, hash, started.refs), Undecided, die, None, k);
      } else {
        NarrativeAskedFiled(started, env, p, at, a.campaign, ContinuationOf(cfg, g, p, a, hash, started.refs), k);
      }
    }
  }

  lemma CloseSlotEmits(cfg: Config, g: Game, env: Envelope, p: ParticipantId, at: nat, outcome: Outcome,
                       cause: Option<Cause>)
    requires HasSlot(g, p, at)
    ensures var closed := CloseSlot(cfg, g, env, p, at, outcome, cause);
            closed.turn.pending == g.turn.pending &&
            closed.events == Emit(g, env, ActionResolved(p, g.turn.plan[p][at].index, outcome), cause).events
  {
    hide Locate;
  }

  lemma ClosedFiled(cfg: Config, g: Game, env: Envelope, p: ParticipantId, at: nat, outcome: Outcome,
                    cause: Option<Cause>, n0: nat)
    requires HasSlot(g, p, at) && g.turn.pending.None? && Clean(g.events, n0)
    ensures Filed(CloseSlot(cfg, g, env, p, at, outcome, cause), n0)
  {
    CloseSlotEmits(cfg, g, env, p, at, outcome, cause);
    hide Numbered, AllLawful, CloseSlot;
    EmitClean(g, env, ActionResolved(p, g.turn.plan[p][at].index, outcome), cause, n0);
  }

  lemma CleanFiled(g: Game, n0: nat)
    requires Clean(g.events, n0) && g.turn.pending.None?
    ensures Filed(g, n0)
  {
  }

  lemma NarrativeAskedFiled(f: Flow, env: Envelope, p: ParticipantId, at: nat, c: CampaignId, n: NarrativeContinuation,
                            k: Mark)
    requires On(f, k) && |f.game.events| == k.s + 2 && c in f.game.board.campaigns && HasSlot(f.game, p, at)
    requires f.ledgers == [] && n.refs == f.refs && k.act == ActivationOf(f.game, c)
    ensures var pending := NarrativePending(BaseFor(f.game, env, p, at, c), n);
            Filed(Suspend(f.game, env, NarrativeRequested(pending), LastRef(f.refs), pending), k.n0)
  {
    var pending := NarrativePending(BaseFor(f.game, env, p, at, c), n);
    var g := Suspend(f.game, env, NarrativeRequested(pending), LastRef(f.refs), pending);
    assert Clean(f.game.events, k.n0);
    EmitClean(f.game, env, NarrativeRequested(pending), LastRef(f.refs), k.n0);
    hide Traced, AllLawful, LastRef;
    assert g.events[..k.s + 2] == f.game.events;
    assert WaitsFrom(g, k.s, k.n0);
  }

  lemma ConstructEmits(cfg: Config, g: Game, env: Envelope, p: ParticipantId, a: Action, cause: EventId)
    requires a.Construct? && ConstructError(cfg, g, p, a).None?
    ensures var built := ConstructCampaign(cfg, g, env, p, a, cause);
            |built.events| == |g.events| + 1 && built.events[..|g.events|] == g.events &&
            built.events[|g.events|].body.CampaignCreated? && built.events[|g.events|].head.sequence == |g.events| + 1
  {
    hide TakeIntoCampaign;
  }

  lemma ConstructFiled(cfg: Config, g: Game, env: Envelope, p: ParticipantId, at: nat, a: Action, cause: EventId,
                       n0: nat)
    requires HasSlot(g, p, at) && g.turn.pending.None? && Clean(g.events, n0) && a.Construct?
    requires RunConstruct(cfg, g, env, p, at, a, cause).Commit?
    ensures Filed(RunConstruct(cfg, g, env, p, at, a, cause).game, n0)
  {
    hide ConstructError, ConstructCampaign, CloseSlot, Filed, AllLawful;
    var built := ConstructCampaign(cfg, g, env, p, a, cause);
    ConstructEmits(cfg, g, env, p, a, cause);
    assert built.events == g.events + [built.events[|g.events|]];
    LawStays(g.events, built.events[|g.events|], n0);
    ClosedFiled(cfg, built, env, p, at, Resolved, Some(ByEvent(|built.events|)), n0);
  }

  lemma PlanBoostFiled(cfg: Config, g: Game, env: Envelope, p: ParticipantId, at: nat, plan: BoostPlan, cause: EventId,
                       n0: nat)
    requires HasSlot(g, p, at) && g.turn.pending.None? && Clean(g.events, n0)
    ensures Filed(PlanBoost(cfg, g, env, p, at, plan, cause), n0)
  {
    hide Clean, Locate;
    var body := BoostPlanned(p, plan.card, plan.campaign, plan.activationIndex);
    var planned := Emit(g, env, body, Some(ByEvent(cause)));
    EmitClean(g, env, body, Some(ByEvent(cause)), n0);
    EmitClean(planned, env, ActionResolved(p, g.turn.plan[p][at].index, Resolved), Some(ByEvent(|planned.events|)), n0);
    CleanFiled(PlanBoost(cfg, g, env, p, at, plan, cause), n0);
  }

  lemma RunSlotFiled(cfg: Config, g: Game, env: Envelope, p: ParticipantId, at: nat, hash: int, die: Option<int>,
                     n0: nat)
    requires HasSlot(g, p, at) && g.turn.pending.None? && Clean(g.events, n0)
    requires RunSlot(cfg, g, env, p, at, hash, die).Commit?
    ensures Filed(RunSlot(cfg, g, env, p, at, hash, die).game, n0)
  {
    hide StartActivation, BoostError, RunConstruct, PlanBoost, Numbered, AllLawful, Filed;
    var shown, a := Reveal(g, env, p, at), g.turn.plan[p][at].action;
    EmitClean(g, env, ActionRevealed(p, g.turn.plan[p][at].index), None, n0);
    match a
    case Construct(_, _, _, _) => ConstructFiled(cfg, shown, env, p, at, a, |shown.events|, n0);
    case PlayBoost(card, campaign, index) =>
      PlanBoostFiled(cfg, shown, env, p, at, BoostPlan(card, campaign, index), |shown.events|, n0);
    case Activate(_, _, _) => StartFiled(cfg, shown, env, p, at, a, hash, die, n0);
  }

  lemma TellNarrativeFiled(cfg: Config, g: Game, open: set<ActivationId>, actor: Actor, inputId: string,
                           correlation: string,
                           campaign: CampaignId, text: string, die: Option<int>, n0: nat)
    requires Steady(cfg, g, open) && Filed(g, n0)
    requires TellNarrative(cfg, g, actor, inputId, correlation, campaign, text, die).Commit?
    ensures Filed(TellNarrative(cfg, g, actor, inputId, correlation, campaign, text, die).game, n0)
  {
    var s: nat :| WaitsFrom(g, s, n0);
    hide AfterNarrative, PendingSlot, SeatedPlayer, PlanOk, UniqueStacks, Secured, Numbered, AllLawful;
    var pending := g.turn.pending.value;
    var base, cause := pending.base, ByEvent(pending.base.cause);
    var told := g.(board := g.board.(narratives := g.board.narratives[campaign :=
      Narrative(inputId, text, Player, actor.user, Some(base.participant), correlation, cause)]));
    var body := NarrativeSubmitted(campaign, inputId, Player, text, None);
    var g1 := Resume(Emit(told, By(actor, correlation), body, Some(cause)));
    assert Clean(g.events, n0);
    ToldTraced(g.events, NewEvent(told, By(actor, correlation), body, Some(cause)), pending.k.refs, base.activation, s,
               n0);
    hide Traced, Filed, Clean;
    NarrativeFiled(cfg, Flow(g1, pending.k.refs + [|g1.events|], []),
                   System(base.correlation, Some(ByEvent(|g1.events|))),
                   base.participant, PendingSlot(g, base), campaign, pending.k, Undecided, die, None,
                     Mark(base.activation, s, n0));
  }

  /** The references go on after the told narrative, without the request in between. */
  lemma ToldTraced(events: seq<Event>, e: Event, refs: seq<EventId>, act: ActivationId, s: nat, n0: nat)
    requires Clean(events, n0) && |events| == s + 3 && events[s + 2].body.NarrativeRequested?
    requires Traced(events[..s + 2], refs, [], act, s, n0)
    requires e.head.sequence == |events| + 1 && e.body.NarrativeSubmitted?
    ensures Traced(events + [e], refs + [|events| + 1], [], act, s, n0)
  {
    var started, all := events[..s + 2], events + [e];
    LawStays(events, e, n0);
    assert events[..|events| - 1] == started;
    assert all[..|all| - 1] == events;
    assert all[s..][..3] == events[s..] && events[s..][..2] == started[s..];
    assert Listed(all[s..]) == Listed(events[s..]) == Listed(started[s..]);
    assert Ids(s + 1, s + 3, s + 3) == Ids(s + 1, s + 2, s + 3) + [];
    GapBeyond(s + 1, s + 2, s + 3);
  }

  lemma {:induction false} GapBeyond(from: nat, upto: nat, gap: nat)
    requires upto < gap
    ensures Ids(from, upto, gap) == Ids(from, upto, 0)
  {
    if from <= upto && upto > 0 {
      GapBeyond(from, upto - 1, gap);
    }
  }

  lemma PaidOn(cfg: Config, g: Game, env: Envelope, p: ParticipantId, contributes: bool, k: Mark)
    requires g.turn.pending.Some? && g.turn.pending.value.CoalitionPending? && p in cfg.seats
    requires Traced(g.events, g.turn.pending.value.refs, g.turn.pending.value.ledgers, k.act, k.s, k.n0)
    ensures On(Paid(cfg, g, env, p, contributes), k)
  {
    hide Traced;
    var pending := g.turn.pending.value;
    if contributes {
      var f, paid := Flow(g, pending.refs, pending.ledgers), Paid(cfg, g, env, p, contributes);
      Emitted(f, paid, paid.game.events[|g.events|], [ResourceLedger(|g.audit.resourceLedger| + 1)], k);
    }
  }

  lemma WaitingFiled(f: Flow, env: Envelope, p: ParticipantId, contributes: bool, updated: Pending,
                     cause: Option<Cause>, k: Mark)
    requires On(f, k) && updated.CoalitionPending? && updated.base.activation == k.act
    requires updated.refs == f.refs + [|f.game.events| + 1] && updated.ledgers == f.ledgers
    ensures Filed(KeepWaiting(Emit(f.game, env, CoalitionResponded(p, contributes, Some(updated)), cause), updated),
                  k.n0)
  {
    hide Traced;
    var body := CoalitionResponded(p, contributes, Some(updated));
    var g := KeepWaiting(Emit(f.game, env, body, cause), updated);
    assert f.ledgers + [] == f.ledgers;
    InnerTraced(f.game.events, f.refs, f.ledgers, k.act, k.s, k.n0, NewEvent(f.game, env, body, cause), []);
    assert WaitsFrom(g, k.s, k.n0);
    TracedIsLong(g.events, updated.refs, updated.ledgers, k);
  }

  lemma LastAnswerFiled(cfg: Config, paid: Flow, env: Envelope, p: ParticipantId, contributes: bool, at: nat,
                        base: PendingBase,
                        n: NarrativeContinuation, bonus: nat, cause: Option<Cause>, die: Option<int>, k: Mark)
    requires On(paid, k) && base.campaign in paid.game.board.campaigns
    requires k.act == ActivationOf(paid.game, base.campaign)
    requires LastAnswer(cfg, paid, env, p, contributes, at, base, n, bonus, cause, die).Commit?
    ensures Filed(LastAnswer(cfg, paid, env, p, contributes, at, base, n, bonus, cause, die).game, k.n0)
  {
    hide Traced, AfterNarrative, Filed;
    var event, answer, resolution := |paid.game.events| + 1, CoalitionResponded(p, contributes, None),
      CoalitionResolved(base.campaign, bonus);
    var answered := Emit(paid.game, env, answer, cause);
    var resolved := Emit(Resume(answered), env, resolution, Some(ByEvent(event)));
    assert paid.ledgers + [] == paid.ledgers;
    InnerTraced(paid.game.events, paid.refs, paid.ledgers, k.act, k.s, k.n0, NewEvent(paid.game, env, answer, cause),
                []);
    InnerTraced(answered.events, paid.refs + [event], paid.ledgers, k.act, k.s, k.n0,
                NewEvent(Resume(answered), env, resolution, Some(ByEvent(event))), []);
    NarrativeFiled(cfg, Flow(resolved, paid.refs + [event] + [event + 1], paid.ledgers),
                   System(base.correlation, Some(ByEvent(event + 1))), base.participant, at, base.campaign, n,
                   Decided(bonus), die, None, k);
  }

  lemma CoalitionBooks(cfg: Config, g: Game, open: set<ActivationId>, n0: nat) returns (s: nat)
    requires Steady(cfg, g, open) && Filed(g, n0) && g.turn.pending.Some? && g.turn.pending.value.CoalitionPending?
    ensures var pending := g.turn.pending.value;
            Traced(g.events, pending.refs, pending.ledgers, pending.base.activation, s, n0) &&
            pending.base.campaign in g.board.campaigns &&
              pending.base.activation == ActivationOf(g, pending.base.campaign)
  {
    hide Traced, PlanOk, UniqueStacks, Secured, Numbered, AllLawful;
    s :| WaitsFrom(g, s, n0);
  }

  lemma ChoiceBooks(cfg: Config, g: Game, open: set<ActivationId>, n0: nat) returns (s: nat)
    requires Steady(cfg, g, open) && Filed(g, n0) && g.turn.pending.Some? && g.turn.pending.value.ChoicePending?
    ensures var b, k := g.turn.pending.value.base, g.turn.pending.value.choice;
            Traced(g.events, k.refs, k.ledgers, b.activation, s, n0) && k.impact.campaign in g.board.campaigns &&
            b.activation == ActivationOf(g, k.impact.campaign)
  {
    hide Traced, PlanOk, UniqueStacks, Secured, Numbered, AllLawful;
    s :| WaitsFrom(g, s, n0);
  }

  lemma RespondFiled(cfg: Config, g: Game, open: set<ActivationId>, actor: Actor, correlation: string,
                     request: ActivationId,
                     contributes: bool, die: Option<int>, n0: nat)
    requires Steady(cfg, g, open) && Filed(g, n0)
    requires Respond(cfg, g, actor, correlation, request, contributes, die).Commit?
    ensures Filed(Respond(cfg, g, actor, correlation, request, contributes, die).game, n0)
  {
    hide LastAnswer, Responded, Contributors, Paid, PendingSlot, SeatedPlayer, Steady, Traced, Filed, KeepWaiting, On;
    var s := CoalitionBooks(cfg, g, open, n0);
    var pending := g.turn.pending.value;
    var base, p, env, k := pending.base, actor.participant, By(actor, correlation),
      Mark(pending.base.activation, s, n0);
    var paid := Paid(cfg, g, env, p, contributes);
    PaidOn(cfg, g, env, p, contributes, k);
    var decisions := pending.decisions[p := contributes];
    var responded := Responded(pending.eligible, decisions);
    var event := |paid.game.events| + 1;
    var cause := if contributes then Some(ByEvent(|paid.game.events|)) else Some(ByEvent(base.cause));
    if |responded| != |pending.eligible| {
      var updated := CoalitionPending(base.(cause := event), pending.k, pending.eligible, responded, decisions,
                                      paid.refs + [event], paid.ledgers);
      WaitingFiled(paid, env, p, contributes, updated, cause, k);
    } else {
      LastAnswerFiled(cfg, paid, env, p, contributes, PendingSlot(g, base), base, pending.k,
                      Contributors(pending.eligible, decisions), cause, die, k);
    }
  }

  lemma EnterDieFiled(cfg: Config, g: Game, open: set<ActivationId>, actor: Actor, request: ActivationId, value: int,
                      n0: nat)
    requires Steady(cfg, g, open) && Filed(g, n0) && EnterDie(cfg, g, actor, request, value).Commit?
    ensures Filed(EnterDie(cfg, g, actor, request, value).game, n0)
  {
    var s: nat :| WaitsFrom(g, s, n0);
    hide AfterNarrative, PendingSlot, SeatedPlayer, Facilitates, PlanOk, UniqueStacks, Secured, Traced, Filed;
    var pending := g.turn.pending.value;
    var base := pending.base;
    NarrativeFiled(cfg, Flow(Resume(g), pending.refs, pending.ledgers),
                   System(base.correlation, Some(ByEvent(base.cause))),
                   base.participant, PendingSlot(g, base), base.campaign, pending.k, Decided(pending.bonus), None,
                   Some(ManualRoll(value, actor.participant)), Mark(base.activation, s, n0));
  }

  lemma ChooseFiled(cfg: Config, g: Game, open: set<ActivationId>, actor: Actor, correlation: string,
                    choice: ActivationId,
                    version: nat, selection: seq<nat>, n0: nat)
    requires Steady(cfg, g, open) && Filed(g, n0)
    requires Choose(cfg, g, actor, correlation, choice, version, selection).Commit?
    ensures Filed(Choose(cfg, g, actor, correlation, choice, version, selection).game, n0)
  {
    hide CompleteActivation, PendingSlot, SeatedPlayer, Takeable, Steady, Traced, Filed;
    var s := ChoiceBooks(cfg, g, open, n0);
    var pending := g.turn.pending.value;
    var k, body, cause := pending.choice, ChoiceResolved(choice, selection), Some(ByEvent(pending.base.cause));
    var told := Emit(g, By(actor, correlation), body, cause);
    var g1 := Resume(told.(turn := told.turn.(resolvedChoices := told.turn.resolvedChoices + [choice])));
    assert k.ledgers + [] == k.ledgers;
    InnerTraced(g.events, k.refs, k.ledgers, pending.base.activation, s, n0,
                NewEvent(g, By(actor, correlation), body, cause), []);
    CompletionFiled(cfg, Flow(g1, k.refs + [|g1.events|], k.ledgers),
                    System(pending.base.correlation, Some(ByEvent(|g1.events|))), PendingSlot(g, pending.base),
                      k.impact,
                    Selected(k.options, selection), Mark(pending.base.activation, s, n0));
  }

  lemma PrepareFiled(cfg: Config, g: Game, open: set<ActivationId>, command: Command, n0: nat)
    requires Steady(cfg, g, open) && Filed(g, n0) && Prepare(cfg, g, command).Commit?
    ensures Filed(Prepare(cfg, g, command).game, n0)
  {
    hide TellNarrative, Respond, EnterDie, Choose, RunSlot, Steady;
    match command
    case RunScheduler(correlation, die) =>
      var cursor := Locate(cfg.order, g.turn.plan, g.turn.cursor);
      RunSlotFiled(cfg, g.(turn := g.turn.(cursor := cursor)), System(correlation, None), cfg.order[cursor.participant],
                   cursor.slot, cfg.hash(Gameplay(g, g.version)), die, n0);
    case SubmitNarrative(actor, inputId, correlation, campaign, text, die) =>
      TellNarrativeFiled(cfg, g, open, actor, inputId, correlation, campaign, text, die, n0);
    case SubmitContribution(actor, correlation, request, contributes, die) =>
      RespondFiled(cfg, g, open, actor, correlation, request, contributes, die, n0);
    case SubmitDie(actor, correlation, request, value) => EnterDieFiled(cfg, g, open, actor, request, value, n0);
    case SubmitChoice(actor, correlation, choice, version, selection) =>
      ChooseFiled(cfg, g, open, actor, correlation, choice, version, selection, n0);
  }

  lemma {:induction false} RunFiled(cfg: Config, start: Game, orders: seq<Order>)
    requires Steady(cfg, start, {})
    ensures Filed(Run(cfg, start, orders), |start.events|)
  {
    hide Steady, Filed, Prepare;
    if orders == [] {
      NothingFiled(cfg, start);
    } else {
      var init, o := orders[..|orders| - 1], orders[|orders| - 1];
      RunFiled(cfg, start, init);
      var g := Run(cfg, start, init);
      var open := RunStaysSteady(cfg, start, {}, init);
      if Execute(cfg, g, o.expected, o.command).Commit? {
        PrepareFiled(cfg, g, open, o.command, |start.events|);
        VersionFiled(Prepare(cfg, g, o.command).game, g.version + 1, |start.events|);
      }
    }
  }

  lemma NothingFiled(cfg: Config, start: Game)
    requires Steady(cfg, start, {})
    ensures Filed(start, |start.events|)
  {
    hide PlanOk, UniqueStacks;
  }

  lemma VersionFiled(g: Game, version: nat, n0: nat)
    requires Filed(g, n0)
    ensures Filed(g.(version := version), n0)
  {
    if g.turn.pending.Some? {
      var s: nat :| WaitsFrom(g, s, n0);
      assert WaitsFrom(g.(version := version), s, n0);
    }
  }

  /**
   When replay accepts a trace. In every run, for every activation it completed, the references recorded
   with the completion equal those the replay rebuilds from the events exactly if no narrative had to be
   requested and nothing but the tier cost was paid. Otherwise the replay rejects the run at that event.
   */
  lemma TraceMatchesIff(cfg: Config, start: Game, orders: seq<Order>, m: nat)
    requires Steady(cfg, start, {})
    requires |start.events| <= m < |Run(cfg, start, orders).events|
    requires Run(cfg, start, orders).events[m].body.ActivationCompleted?
    ensures var events := Run(cfg, start, orders).events;
            SliceOf(events, m) != [] && (TraceMatches(events, m) <==> Simple(SliceOf(events, m)))
  {
    hide Steady, Run, Simple, TraceMatches, SliceOf;
    RunFiled(cfg, start, orders);
    assert Lawful(Run(cfg, start, orders).events, m);
  }
}
