/**
 The walk over the locked slots: in initiative order, each settled once, until none is left.
 */
module Scheduler {
  import opened Prelude
  import opened CampaignTypes
  import opened Adjudication
  import opened ReplaySegments
  import opened ReplayRuns

  /** Position j of the i-th participant comes before the cursor. */
  predicate Before(c: Cursor, i: nat, j: nat) {
    i < c.participant || (i == c.participant && j < c.slot)
  }

  function OutcomeAt(cfg: Config, plan: map<ParticipantId, seq<Slot>>, i: nat, j: nat): Option<Outcome>
    requires i < |cfg.order| && j < |SlotsOf(plan, cfg.order[i])|
  {
    SlotsOf(plan, cfg.order[i])[j].outcome
  }

  /** The settled slots are exactly those before the cursor. */
  ghost predicate InOrder(cfg: Config, turn: Turn) {
    forall i: nat, j: nat :: i < |cfg.order| && j < |SlotsOf(turn.plan, cfg.order[i])| ==>
      (OutcomeAt(cfg, turn.plan, i, j).Some? <==> Before(turn.cursor, i, j))
  }

  /** Locked slots at or after position j of the i-th participant. */
  function Remaining(order: seq<ParticipantId>, plan: map<ParticipantId, seq<Slot>>, i: nat, j: nat): nat
    decreases |order| - i
  {
    if i >= |order| then 0 else Max(0, |SlotsOf(plan, order[i])| - j) + Remaining(order, plan, i + 1, 0)
  }

  /** Locked slots at or after the cursor. */
  function Left(cfg: Config, turn: Turn): nat {
    Remaining(cfg.order, turn.plan, turn.cursor.participant, turn.cursor.slot)
  }

  /** Looking for the next slot passes over participants without one and loses nothing. */
  lemma {:induction false} LocateSkipsNothing(cfg: Config, plan: map<ParticipantId, seq<Slot>>, c: Cursor)
    ensures var r := Locate(cfg.order, plan, c);
            Remaining(cfg.order, plan, r.participant, r.slot) == Remaining(cfg.order, plan, c.participant, c.slot) &&
            (forall i: nat, j: nat :: i < |cfg.order| && j < |SlotsOf(plan, cfg.order[i])| ==>
             (Before(r, i, j) <==> Before(c, i, j))) &&
            (c.status == Ready ==> (r.status == Complete <==> Remaining(cfg.order, plan, c.participant, c.slot) == 0))
    decreases |cfg.order| - c.participant
  {
    if c.participant < |cfg.order| && c.slot >= |SlotsOf(plan, cfg.order[c.participant])| {
      LocateSkipsNothing(cfg, plan, c.(participant := c.participant + 1, slot := 0));
    }
  }

  /** Only the lengths of the slot lists count. */
  lemma {:induction false} RemainingBySizes(order: seq<ParticipantId>, plan: map<ParticipantId, seq<Slot>>,
                                            other: map<ParticipantId, seq<Slot>>, i: nat, j: nat)
    requires forall p :: |SlotsOf(plan, p)| == |SlotsOf(other, p)|
    ensures Remaining(order, plan, i, j) == Remaining(order, other, i, j)
    decreases |order| - i
  {
    if i < |order| {
      RemainingBySizes(order, plan, other, i + 1, 0);
    }
  }

  /** The same cursor position over slots with the same outcomes. */
  ghost predicate SameProgress(a: Turn, b: Turn) {
    a.cursor.participant == b.cursor.participant && a.cursor.slot == b.cursor.slot &&
    (forall p :: |SlotsOf(a.plan, p)| == |SlotsOf(b.plan, p)|) &&
    (forall p, j :: 0 <= j < |SlotsOf(a.plan, p)| ==> SlotsOf(a.plan, p)[j].outcome == SlotsOf(b.plan, p)[j].outcome)
  }

  /** `after` is `before`, up to what does not matter here, with the slot under the cursor left open or settled. */
  ghost predicate OneSlot(cfg: Config, before: Turn, after: Turn) {
    exists mid, p, at {:trigger HoldsOrCloses(cfg, mid, after, p, at)} ::
      SameProgress(before, mid) && CursorAt(cfg, mid, p, at) && HoldsOrCloses(cfg, mid, after, p, at)
  }

  lemma RunNextMoves(cfg: Config, g: Game, open: set<ActivationId>, correlation: string, die: Option<int>)
    requires Steady(cfg, g, open) && RunNext(cfg, g, correlation, die).Commit?
    ensures OneSlot(cfg, g.turn, RunNext(cfg, g, correlation, die).game.turn)
  {
    hide RunSlot;
    var p, at := cfg.order[g.turn.cursor.participant], g.turn.cursor.slot;
    var mid := Reveal(g, System(correlation, None), p, at).turn;
    assert SameProgress(g.turn, mid);
    assert HoldsOrCloses(cfg, mid, RunNext(cfg, g, correlation, die).game.turn, p, at);
  }

  lemma TellNarrativeMoves(cfg: Config, g: Game, open: set<ActivationId>, actor: Actor, inputId: string,
                           correlation: string,
                           campaign: CampaignId, text: string, die: Option<int>)
    requires Steady(cfg, g, open) && TellNarrative(cfg, g, actor, inputId, correlation, campaign, text, die).Commit?
    ensures OneSlot(cfg, g.turn, TellNarrative(cfg, g, actor, inputId, correlation, campaign, text, die).game.turn)
  {
    PendingSlotIsCurrent(cfg, g, open);
    hide AfterNarrative, SeatedPlayer, Steady;
    var mid, p, at := Resume(g).turn, g.turn.pending.value.base.participant, g.turn.cursor.slot;
    assert HoldsOrCloses(cfg, mid, TellNarrative(cfg, g, actor, inputId, correlation, campaign, text, die).game.turn,
                         p, at);
  }

  lemma RespondMoves(cfg: Config, g: Game, open: set<ActivationId>, actor: Actor, correlation: string,
                     request: ActivationId,
                     contributes: bool, die: Option<int>)
    requires Steady(cfg, g, open) && Respond(cfg, g, actor, correlation, request, contributes, die).Commit?
    ensures OneSlot(cfg, g.turn, Respond(cfg, g, actor, correlation, request, contributes, die).game.turn)
  {
    PendingSlotIsCurrent(cfg, g, open);
    hide AfterNarrative, SeatedPlayer, Contribute, Responded, Contributors, PlanOk, UniqueStacks, Awaits, Secured;
    var p, at := g.turn.pending.value.base.participant, g.turn.cursor.slot;
    var after := Respond(cfg, g, actor, correlation, request, contributes, die).game.turn;
    assert HoldsOrCloses(cfg, Resume(g).turn, after, p, at) || HoldsOrCloses(cfg, g.turn, after, p, at);
  }

  lemma EnterDieMoves(cfg: Config, g: Game, open: set<ActivationId>, actor: Actor, request: ActivationId, value: int)
    requires Steady(cfg, g, open) && EnterDie(cfg, g, actor, request, value).Commit?
    ensures OneSlot(cfg, g.turn, EnterDie(cfg, g, actor, request, value).game.turn)
  {
    PendingSlotIsCurrent(cfg, g, open);
    hide AfterNarrative, SeatedPlayer, Facilitates, Steady, HoldsOrCloses;
    var mid, p, at := Resume(g).turn, g.turn.pending.value.base.participant, g.turn.cursor.slot;
    assert HoldsOrCloses(cfg, mid, EnterDie(cfg, g, actor, request, value).game.turn, p, at);
  }

  lemma ChooseMoves(cfg: Config, g: Game, open: set<ActivationId>, actor: Actor, correlation: string,
                    choice: ActivationId,
                    version: nat, selection: seq<nat>)
    requires Steady(cfg, g, open) && Choose(cfg, g, actor, correlation, choice, version, selection).Commit?
    ensures OneSlot(cfg, g.turn, Choose(cfg, g, actor, correlation, choice, version, selection).game.turn)
  {
    PendingSlotIsCurrent(cfg, g, open);
    hide CompleteActivation, SeatedPlayer, Takeable, Steady;
    var mid := Resume(g).turn.(resolvedChoices := g.turn.resolvedChoices + [choice]);
    var p, at := g.turn.pending.value.base.participant, g.turn.cursor.slot;
    assert HoldsOrCloses(cfg, mid, Choose(cfg, g, actor, correlation, choice, version, selection).game.turn, p, at);
  }

  lemma PrepareMoves(cfg: Config, g: Game, open: set<ActivationId>, command: Command)
    requires Steady(cfg, g, open) && Prepare(cfg, g, command).Commit?
    ensures OneSlot(cfg, g.turn, Prepare(cfg, g, command).game.turn)
  {
    hide RunNext, TellNarrative, Respond, EnterDie, Choose, OneSlot, Steady;
    match command
    case RunScheduler(correlation, die) => RunNextMoves(cfg, g, open, correlation, die);
    case SubmitNarrative(actor, inputId, correlation, campaign, text, die) =>
      TellNarrativeMoves(cfg, g, open, actor, inputId, correlation, campaign, text, die);
    case SubmitContribution(actor, correlation, request, contributes, die) =>
      RespondMoves(cfg, g, open, actor, correlation, request, contributes, die);
    case SubmitDie(actor, correlation, request, value) => EnterDieMoves(cfg, g, open, actor, request, value);
    case SubmitChoice(actor, correlation, choice, version, selection) =>
      ChooseMoves(cfg, g, open, actor, correlation, choice, version, selection);
  }

  // ---------------------------------------------------------- progress

  /** No slot list changes its length and an outcome once recorded is never changed. */
  ghost predicate Kept(before: Turn, after: Turn) {
    (forall p :: |SlotsOf(before.plan, p)| == |SlotsOf(after.plan, p)|) &&
    (forall p, j :: 0 <= j < |SlotsOf(before.plan, p)| && SlotsOf(before.plan, p)[j].outcome.Some? ==>
      SlotsOf(after.plan, p)[j].outcome == SlotsOf(before.plan, p)[j].outcome)
  }

  /** The walk has ended exactly if no slot is left. */
  ghost predicate EndsWhenDone(cfg: Config, turn: Turn) {
    turn.cursor.status == Complete <==> Left(cfg, turn) == 0
  }

  /** Settling the slot under the cursor leaves one less; every other outcome stays as it is. */
  lemma ClosingSettlesOne(cfg: Config, turn: Turn, after: Turn, p: ParticipantId, at: nat)
    requires Distinct(cfg.order) && CursorAt(cfg, turn, p, at) && InOrder(cfg, turn) && Closes(cfg, turn, after, p, at)
    ensures InOrder(cfg, after) && Kept(turn, after) && EndsWhenDone(cfg, after)
    ensures Left(cfg, after) == Left(cfg, turn) - 1
  {
    var next := Cursor(turn.cursor.participant, turn.cursor.slot + 1, Ready);
    LocateSkipsNothing(cfg, after.plan, next);
    RemainingBySizes(cfg.order, turn.plan, after.plan, turn.cursor.participant, turn.cursor.slot);
    forall i: nat, j: nat | i < |cfg.order| && j < |SlotsOf(after.plan, cfg.order[i])|
      ensures OutcomeAt(cfg, after.plan, i, j).Some? <==> Before(next, i, j)
    {
      assert OutcomeAt(cfg, turn.plan, i, j).Some? <==> Before(turn.cursor, i, j);
    }
    assert !Before(turn.cursor, turn.cursor.participant, at);
    assert OutcomeAt(cfg, turn.plan, turn.cursor.participant, at).None?;
  }

  lemma SameProgressKeeps(cfg: Config, a: Turn, b: Turn)
    requires SameProgress(a, b)
    ensures InOrder(cfg, a) ==> InOrder(cfg, b)
    ensures Left(cfg, b) == Left(cfg, a) && Kept(a, b)
  {
    RemainingBySizes(cfg.order, a.plan, b.plan, a.cursor.participant, a.cursor.slot);
    if InOrder(cfg, a) {
      forall i: nat, j: nat | i < |cfg.order| && j < |SlotsOf(b.plan, cfg.order[i])|
        ensures OutcomeAt(cfg, b.plan, i, j).Some? <==> Before(b.cursor, i, j)
      {
        assert OutcomeAt(cfg, a.plan, i, j).Some? <==> Before(a.cursor, i, j);
      }
    }
  }

  lemma OneSlotProgress(cfg: Config, before: Turn, after: Turn)
    requires Distinct(cfg.order) && InOrder(cfg, before) && OneSlot(cfg, before, after)
    ensures InOrder(cfg, after) && Kept(before, after) && EndsWhenDone(cfg, after)
    ensures Left(cfg, after) == Left(cfg, before) - if after.cursor.status == Suspended then 0 else 1
  {
    var mid, p, at :| SameProgress(before, mid) && CursorAt(cfg, mid, p, at) && HoldsOrCloses(cfg, mid, after, p, at);
    SameProgressKeeps(cfg, before, mid);
    if Holds(mid, after) {
      SameProgressKeeps(cfg, mid, after);
      assert Left(cfg, mid) > 0;
    } else {
      ClosingSettlesOne(cfg, mid, after, p, at);
    }
  }

  /** The slots before the cursor are the settled ones, and the walk ends when none is left. */
  ghost predicate Walking(cfg: Config, turn: Turn) {
    InOrder(cfg, turn) && EndsWhenDone(cfg, turn)
  }

  /**
   One command: slots keep being settled in initiative order, one at most, and no outcome is revised. An
   accepted command that leaves nothing suspended has settled exactly one slot.
   */
  lemma StepProgress(cfg: Config, g: Game, open: set<ActivationId>, o: Order)
    requires Distinct(cfg.order) && Steady(cfg, g, open) && Walking(cfg, g.turn)
    ensures var after := Step(cfg, g, o).turn;
            Walking(cfg, after) && Kept(g.turn, after) &&
            Left(cfg, after) == Left(cfg, g.turn) -
              if Execute(cfg, g, o.expected, o.command).Commit? && after.cursor.status != Suspended then 1 else 0
  {
    hide Prepare, InOrder, Kept, OneSlot, EndsWhenDone, Left;
    if Execute(cfg, g, o.expected, o.command).Commit? {
      PrepareMoves(cfg, g, open, o.command);
      OneSlotProgress(cfg, g.turn, Prepare(cfg, g, o.command).game.turn);
    } else {
      SameProgressKeeps(cfg, g.turn, g.turn);
    }
  }

  /** Every state a run reaches still settles its slots in order, and no recorded outcome has changed. */
  lemma {:induction false} RunProgress(cfg: Config, start: Game, orders: seq<Order>)
    requires Distinct(cfg.order) && Steady(cfg, start, {}) && Walking(cfg, start.turn)
    ensures var played := Run(cfg, start, orders).turn;
            Walking(cfg, played) && Kept(start.turn, played) && Left(cfg, played) <= Left(cfg, start.turn)
  {
    hide Walking, Left, Step, Steady;
    if orders == [] {
      SameProgressKeeps(cfg, start.turn, start.turn);
    } else {
      var init := orders[..|orders| - 1];
      var open := RunStaysSteady(cfg, start, {}, init);
      RunProgress(cfg, start, init);
      StepProgress(cfg, Run(cfg, start, init), open, orders[|orders| - 1]);
    }
  }

  /** With at most three slots for each of at most five players a turn has at most fifteen. */
  lemma {:induction false} AtMostFifteen(order: seq<ParticipantId>, plan: map<ParticipantId, seq<Slot>>, i: nat, j: nat)
    requires i <= |order| && forall p :: |SlotsOf(plan, p)| <= 3
    ensures Remaining(order, plan, i, j) <= 3 * (|order| - i)
    decreases |order| - i
  {
    if i < |order| {
      AtMostFifteen(order, plan, i + 1, 0);
    }
  }
}
