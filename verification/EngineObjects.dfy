/**
 The engine as the program runs it: a working copy of the state whose fields are updated step by step, and
 loops over slots, costs, cubes and events. Each method is proved to compute the function of
 `Adjudication.dfy` or `Replay.dfy` of the same step.
 */
module EngineObjects {
  import opened Prelude
  import opened CampaignTypes
  import opened Adjudication
  import opened Replay
  import opened ReplaySegments
  import opened ReplayRuns
  import opened Scheduler
  import opened Choices

  /** The cloned state on which one command works; it is stored only if the command is accepted. */
  class Working {
    const cfg: Config
    var version: nat
    var turn: Turn
    var table: Table
    var board: Board
    var purse: Purse
    var audit: Audit
    var events: seq<Event>

    function View(): Game
      reads this
    {
      Game(version, turn, table, board, purse, audit, events)
    }

    constructor (cfg: Config, g: Game)
      ensures View() == g && this.cfg == cfg
    {
      this.cfg := cfg;
      version, turn, table, board, purse, audit, events := g.version, g.turn, g.table, g.board, g.purse, g.audit,
        g.events;
    }

    method AppendEvent(env: Envelope, body: Body, cause: Option<Cause>) returns (id: EventId)
      modifies this`events
      ensures View() == Emit(old(View()), env, body, cause) && id == |events|
    {
      var sequence := |events| + 1;
      events := events + [Event(Header(sequence, version + 1, env.actor, env.participant, env.correlation,
                                       if cause.Some? then cause else env.cause), body)];
      id := sequence;
    }

    /** Appends an event caused by the last reference and adds it to the references. */
    method AppendReferenced(env: Envelope, body: Body, refs: seq<EventId>) returns (more: seq<EventId>)
      modifies this`events
      ensures View() == Emit(old(View()), env, body, LastRef(refs)) && more == refs + [|events|]
    {
      var id := AppendEvent(env, body, if refs == [] then None else Some(ByEvent(refs[|refs| - 1])));
      more := refs + [id];
    }

    // ----------------------------------------------------- the slot cursor

    method LocateNextSlot() returns (found: bool)
      requires turn.cursor.status != Complete
      modifies this`turn
      ensures turn == old(turn).(cursor := Locate(cfg.order, old(turn.plan), old(turn.cursor)),
                                 revealed := if found then old(turn.revealed) else None)
      ensures found <==> turn.cursor.status != Complete
    {
      while turn.cursor.participant < |cfg.order|
        invariant turn == old(turn).(cursor := turn.cursor) && turn.cursor.status == old(turn.cursor.status)
        invariant Locate(cfg.order, turn.plan, turn.cursor) == Locate(cfg.order, old(turn.plan), old(turn.cursor))
        decreases |cfg.order| - turn.cursor.participant
      {
        var p := cfg.order[turn.cursor.participant];
        if p in turn.plan && turn.cursor.slot < |turn.plan[p]| {
          return true;
        }
        turn := turn.(cursor := turn.cursor.(participant := turn.cursor.participant + 1, slot := 0));
      }
      turn := turn.(cursor := turn.cursor.(status := Complete), revealed := None);
      found := false;
    }

    method AdvanceScheduler()
      modifies this`turn
      ensures View() == Advance(cfg, old(View()))
    {
      turn := turn.(cursor := Cursor(turn.cursor.participant, turn.cursor.slot + 1, Ready), revealed := None);
      var found := LocateNextSlot();
    }

    method SettleSlot(p: ParticipantId, at: nat, outcome: Outcome)
      requires at < |SlotsOf(turn.plan, p)|
      modifies this`turn
      ensures View() == Settle(old(View()), p, at, outcome)
    {
      turn := turn.(plan := turn.plan[p := turn.plan[p][at := turn.plan[p][at].(outcome := Some(outcome))]]);
    }

    method Close(env: Envelope, p: ParticipantId, at: nat, outcome: Outcome, cause: Option<Cause>) returns (id: EventId)
      requires at < |SlotsOf(turn.plan, p)|
      modifies this`turn, this`events
      ensures View() == CloseSlot(cfg, old(View()), env, p, at, outcome, cause) && id == |events|
    {
      var index := turn.plan[p][at].index;
      SettleSlot(p, at, outcome);
      AdvanceScheduler();
      id := AppendEvent(env, ActionResolved(p, index, outcome), cause);
    }

    // ------------------------------------------------------------- payment

    method PushResource(p: ParticipantId, country: CountryId, reason: ResourceReason, delta: int, balance: int)
      returns (id: LedgerId)
      modifies this`audit
      ensures View() == Adjudication.PushResource(old(View()), p, country, reason, delta, balance)
      ensures id == ResourceLedger(|old(audit.resourceLedger)| + 1)
    {
      id := ResourceLedger(|audit.resourceLedger| + 1);
      audit := audit.(resourceLedger :=
                      audit.resourceLedger + [ResourceEntry(id, p, country, reason, delta, balance, version + 1)]);
    }

    /** Component costs are booked one by one, each line showing what is left. */
    method PayComponents(p: ParticipantId, country: CountryId, costs: seq<nat>, balance: int)
      returns (ids: seq<LedgerId>, left: int)
      modifies this`audit
      ensures View() == PushComponents(old(View()), p, country, costs, balance)
      ensures ids == ResourceIds(|old(audit.resourceLedger)| + 1, |costs|) && left == balance - Sum(costs)
    {
      ids, left := [], balance;
      assert costs[..0] == [];
      for n := 0 to |costs|
        invariant View() == PushComponents(old(View()), p, country, costs[..n], balance)
        invariant |ids| == n && forall i :: 0 <= i < n ==> ids[i] == ResourceLedger(|old(audit.resourceLedger)| + 1 + i)
        invariant left == balance - Sum(costs[..n])
      {
        assert costs[..n + 1][..n] == costs[..n];
        left := left - costs[n];
        var id := PushResource(p, country, ComponentCost, -(costs[n] as int), left);
        ids := ids + [id];
      }
      assert costs[..|costs|] == costs;
    }

    /** Deducts the whole cost and books its parts: the tier cost, each component, the core modifier. */
    method BookCosts(p: ParticipantId, country: CountryId, cost: nat, costs: seq<nat>, core: bool)
      returns (base: LedgerId, components: seq<LedgerId>, modifier: Option<LedgerId>)
      modifies this`purse, this`audit
      ensures View() == Booked(old(View()), p, country, cost, costs, core)
      ensures var first := |old(audit.resourceLedger)| + 1;
              base == ResourceLedger(first) && components == ResourceIds(first + 1, |costs|) &&
              modifier == if core then Some(ResourceLedger(first + 1 + |costs|)) else None
    {
      hide PushComponents, Sum, Booked;
      BookedInOrder(View(), p, country, cost, costs, core);
      var available := Get(purse.resources, country, 0);
      purse := purse.(resources := purse.resources[country := available - cost - Sum(costs) - CoreCost(core)]);
      base := PushResource(p, country, ActivationCost, -(cost as int), available - cost);
      var left;
      components, left := PayComponents(p, country, costs, available - cost);
      modifier := None;
      if core {
        var id := PushResource(p, country, CoreModifier, -2, left - 2);
        purse := purse.(coreUsed := purse.coreUsed + {p});
        modifier := Some(id);
      }
    }

    method PayCosts(env: Envelope, p: ParticipantId, c: CampaignId, k: NarrativeContinuation, refs: seq<EventId>,
                    ledgers: seq<LedgerId>)
      returns (error: Option<Error>, refs': seq<EventId>, ledgers': seq<LedgerId>)
      requires c in board.campaigns
      modifies this`purse, this`audit, this`events
      ensures var r := Pay(Flow(old(View()), refs, ledgers), env, p, c, k);
              if error.Some? then r == Stop(error.value) else r == Go(Flow(View(), refs', ledgers'))
    {
      hide Booked;
      error, refs', ledgers' := None, refs, ledgers;
      var costs := ComponentCosts(board.campaigns[c].assignments);
      if k.core && p in purse.coreUsed {
        return Some(RollModifierAlreadyUsed), refs, ledgers;
      }
      var available := Get(purse.resources, k.country, 0);
      if available < TotalCost(board.campaigns[c], k.cost, k.core) {
        return Some(CostPaymentFailed), refs, ledgers;
      }
      var base, components, modifier := BookCosts(p, k.country, k.cost, costs, k.core);
      var body := CostPaid(p, k.country, k.cost + Sum(costs) + CoreCost(k.core), k.cost, costs, components,
                           CoreCost(k.core), modifier,
                           available - k.cost - Sum(costs) - CoreCost(k.core), base);
      refs' := AppendReferenced(env, body, refs);
      ledgers' := ledgers + ([base] + components + if modifier.Some? then [modifier.value] else []);
    }

    // --------------------------------------------------------------- boost

    method DiscardCard(p: ParticipantId, card: CardId)
      modifies this`table
      ensures View() == DiscardFromHand(old(View()), p, card)
    {
      if card in table.cards {
        table := table.(cards := table.cards[card := table.cards[card].(zone := Discard)]);
      }
      if p in table.holdings {
        var h := table.holdings[p];
        table := table.(holdings := table.holdings[p :=
          Holdings(Without(h.hand, card), if card in h.discard then h.discard else h.discard + [card])]);
      }
    }

    method UseBoost(env: Envelope, p: ParticipantId, index: nat, c: CampaignId, refs: seq<EventId>,
                    ledgers: seq<LedgerId>)
      returns (error: Option<Error>, refs': seq<EventId>)
      modifies this`table, this`events
      ensures var r := ApplyBoost(Flow(old(View()), refs, ledgers), env, p, index, c);
              if error.Some? then r == Stop(error.value) else r == Go(Flow(View(), refs', ledgers))
    {
      error, refs' := None, refs;
      if p in table.boosts && table.boosts[p].campaign == c && table.boosts[p].activationIndex == index {
        var card := table.boosts[p].card;
        if !(card in table.cards && table.cards[card].controller == Some(p) && table.cards[card].zone == Hand) ||
           table.cards[card].definition != BOOST_CARD || p !in table.holdings {
          return Some(CardNotEligible), refs;
        }
        DiscardCard(p, card);
        table := table.(boosts := table.boosts - {p});
        refs' := AppendReferenced(env, BoostApplied(p, card), refs);
      }
    }

    // --------------------------------------------------------------- cubes

    method RemoveOne(env: Envelope, i: Impact, country: CountryId, refs: seq<EventId>, ledgers: seq<LedgerId>)
      returns (error: Option<Error>, refs': seq<EventId>, ledgers': seq<LedgerId>)
      modifies this`board, this`audit, this`events
      ensures var r := RemoveCube(Flow(old(View()), refs, ledgers), env, i, country);
              if error.Some? then r == Stop(error.value) else r == Go(Flow(View(), refs', ledgers'))
    {
      error, refs', ledgers' := None, refs, ledgers;
      var at := FindStack(board.stacks, i.target, i.kind.Opposite(), country, 1);
      if at == |board.stacks| {
        return Some(InvalidChoiceOption), refs, ledgers;
      }
      var left := board.stacks[at].count - 1;
      var id := InfluenceLedger(|audit.influenceLedger| + 1);
      board := board.(stacks := board.stacks[at := board.stacks[at].(count := left)]);
      audit := audit.(influenceLedger := audit.influenceLedger +
        [InfluenceEntry(id, i.target, i.kind.Opposite(), country, Cancelled, -1, left, version + 1)]);
      ledgers' := ledgers + [id];
      refs' := AppendReferenced(env, InfluenceMutated(i.target, i.kind.Opposite(), country, Cancelled, -1, left, id),
                                refs);
    }

    /** Takes the selected cubes one after the other; the first that is not there stops it. */
    method RemoveSelected(env: Envelope, i: Impact, selection: seq<CountryId>, refs: seq<EventId>,
                          ledgers: seq<LedgerId>)
      returns (error: Option<Error>, refs': seq<EventId>, ledgers': seq<LedgerId>)
      modifies this`board, this`audit, this`events
      ensures var r := RemoveCubes(Flow(old(View()), refs, ledgers), env, i, selection);
              if error.Some? then r == Stop(error.value) else r == Go(Flow(View(), refs', ledgers'))
    {
      hide RemoveCube;
      error, refs', ledgers' := None, refs, ledgers;
      ghost var f := Flow(View(), refs, ledgers);
      assert selection[..0] == [];
      for n := 0 to |selection|
        invariant RemoveCubes(f, env, i, selection[..n]) == Go(Flow(View(), refs', ledgers'))
      {
        assert selection[..n + 1][..n] == selection[..n];
        error, refs', ledgers' := RemoveOne(env, i, selection[n], refs', ledgers');
        if error.Some? {
          RemovalsStop(f, env, i, selection, n + 1);
          return;
        }
      }
      error := None;
      assert selection[..|selection|] == selection;
    }

    method Place(env: Envelope, i: Impact, placed: nat, refs: seq<EventId>, ledgers: seq<LedgerId>)
      returns (refs': seq<EventId>, ledgers': seq<LedgerId>)
      modifies this`board, this`audit, this`events
      ensures Flow(View(), refs', ledgers') == PlaceCubes(Flow(old(View()), refs, ledgers), env, i, placed)
    {
      refs', ledgers' := refs, ledgers;
      if placed > 0 {
        var at := FindStack(board.stacks, i.target, i.kind, i.attribution, 0);
        var balance := placed;
        if at == |board.stacks| {
          board := board.(stacks := board.stacks + [Stack(i.target, i.kind, i.attribution, placed)]);
        } else {
          balance := board.stacks[at].count + placed;
          board := board.(stacks := board.stacks[at := board.stacks[at].(count := balance)]);
        }
        var id := InfluenceLedger(|audit.influenceLedger| + 1);
        audit := audit.(influenceLedger := audit.influenceLedger +
          [InfluenceEntry(id, i.target, i.kind, i.attribution, Placed, placed, balance, version + 1)]);
        ledgers' := ledgers + [id];
        refs' := AppendReferenced(env, InfluenceMutated(i.target, i.kind, i.attribution, Placed, placed, balance, id),
                                  refs);
      }
    }

    // ------------------------------------------- points and legitimacy

    method AddPoints(env: Envelope, p: ParticipantId, reason: VpReason, delta: int, before: int, refs: seq<EventId>,
                     ledgers: seq<LedgerId>)
      returns (after: int, refs': seq<EventId>, ledgers': seq<LedgerId>)
      modifies this`purse, this`audit, this`events
      ensures Flow(View(), refs', ledgers') == AddVp(Flow(old(View()), refs, ledgers), env, p, reason, delta, before)
      ensures after == before + delta
    {
      after := before + delta;
      purse := purse.(vp := purse.vp[p := after]);
      var id := VpLedger(|audit.vpLedger| + 1);
      audit := audit.(vpLedger := audit.vpLedger + [VpEntry(id, p, reason, delta, after, version + 1)]);
      ledgers' := ledgers + [id];
      refs' := AppendReferenced(env, VpChanged(p, reason, delta, after, id), refs);
    }

    method SetHolder(env: Envelope, pd: PdId, previous: Option<ParticipantId>, holder: Option<ParticipantId>,
                     reason: LegitimacyReason,
                     refs: seq<EventId>, ledgers: seq<LedgerId>)
      returns (refs': seq<EventId>, ledgers': seq<LedgerId>)
      modifies this`board, this`audit, this`events
      ensures Flow(View(), refs', ledgers') ==
              ChangeHolder(Flow(old(View()), refs, ledgers), env, pd, previous, holder, reason)
    {
      board := board.(legitimacy := board.legitimacy[pd := holder]);
      var id := LegitimacyLedger(|audit.legitimacyLedger| + 1);
      audit := audit.(legitimacyLedger :=
                      audit.legitimacyLedger + [LegitimacyEntry(id, pd, previous, holder, reason, version + 1)]);
      ledgers' := ledgers + [id];
      refs' := AppendReferenced(env, LegitimacyChanged(pd, previous, holder, reason, id), refs);
    }

    method AwardPoints(env: Envelope, i: Impact, placed: nat, refs: seq<EventId>, ledgers: seq<LedgerId>)
      returns (refs': seq<EventId>, ledgers': seq<LedgerId>)
      modifies this`purse, this`board, this`audit, this`events
      ensures Flow(View(), refs', ledgers') == Award(Flow(old(View()), refs, ledgers), env, i, placed)
    {
      hide AddVp, ChangeHolder;
      refs', ledgers' := refs, ledgers;
      var p, vp := i.participant, Get(purse.vp, i.participant, 0);
      if i.ertResult > 0 && placed > 0 {
        vp, refs', ledgers' := AddPoints(env, p, CubePlaced, placed, vp, refs', ledgers');
        if i.legitimacyBefore.None? {
          refs', ledgers' := SetHolder(env, i.target, None, Some(p), Establish, refs', ledgers');
          vp, refs', ledgers' := AddPoints(env, p, LegitimacyEstablished, 1, vp, refs', ledgers');
        } else if i.legitimacyBefore != Some(p) {
          refs', ledgers' := SetHolder(env, i.target, i.legitimacyBefore, None, Subvert, refs', ledgers');
          vp, refs', ledgers' := AddPoints(env, p, LegitimacySubverted, 1, vp, refs', ledgers');
        }
      } else if i.ertResult < 0 && placed > 0 {
        var delta := -Min(vp, placed);
        if delta < 0 {
          vp, refs', ledgers' := AddPoints(env, p, Backlash, delta, vp, refs', ledgers');
        }
      }
    }

    // --------------------------------------------------------- resolution

    method FinishActivation(env: Envelope, at: nat, i: Impact, resolution: Resolution, refs: seq<EventId>,
                            ledgers: seq<LedgerId>)
      returns (error: Option<Error>)
      requires at < |SlotsOf(turn.plan, i.participant)| && i.campaign in board.campaigns
      modifies this`turn, this`board, this`audit, this`events
      ensures var v := Finish(cfg, Flow(old(View()), refs, ledgers), env, at, i, resolution);
              if error.Some? then v == Reject(error.value) else v == Commit(View())
    {
      hide Locate;
      var campaign := board.campaigns[i.campaign];
      var activation := ActivationId(i.campaign, campaign.activations + 1);
      audit := audit.(resolutions := audit.resolutions + [resolution]);
      board := board.(campaigns := board.campaigns[i.campaign := campaign.(activations := campaign.activations + 1)]);
      var resolved := Close(env, i.participant, at, Resolved, if refs == [] then None
                            else Some(ByEvent(refs[|refs| - 1])));
      if i.campaign !in board.narratives {
        return Some(ObjectNoLongerValid);
      }
      var trace := TraceRefs(refs + [resolved, |events| + 1], ledgers);
      var completed := AppendEvent(env, ActivationCompleted(activation, i.campaign, resolution, trace),
                                   Some(ByEvent(resolved)));
      error := None;
    }

    method CompleteImpact(env: Envelope, at: nat, i: Impact, selection: seq<CountryId>, refs: seq<EventId>,
                          ledgers: seq<LedgerId>)
      returns (error: Option<Error>)
      requires at < |SlotsOf(turn.plan, i.participant)| && i.campaign in board.campaigns
      modifies this`turn, this`board, this`purse, this`audit, this`events
      ensures var v := CompleteActivation(cfg, Flow(old(View()), refs, ledgers), env, at, i, selection);
              if error.Some? then v == Reject(error.value) else v == Commit(View())
    {
      hide RemoveCubes, PlaceCubes, Award, Finish, Tally, AddCubes;
      ghost var f := Flow(View(), refs, ledgers);
      var opposing := CountOn(board.stacks, i.target, i.kind.Opposite());
      var effect := ResolveTwoToOne(i.generated, opposing);
      if |selection| != effect.removed {
        return Some(InvalidChoiceOption);
      }
      var refs', ledgers';
      error, refs', ledgers' := RemoveSelected(env, i, selection, refs, ledgers);
      if error.Some? {
        return;
      }
      refs', ledgers' := Place(env, i, effect.placed, refs', ledgers');
      var resolution := Resolution(|audit.resolutions| + 1, i.target, i.kind, i.attribution, i.generated,
                                   2 * effect.removed,
                                   Tally(selection), effect.placed);
      refs', ledgers' := AwardPoints(env, i, effect.placed, refs', ledgers');
      error := FinishActivation(env, at, i, resolution, refs', ledgers');
    }

    /** Cubes of one country, stack by stack, until there are enough. */
    static method TakeOfCountry(stacks: seq<Stack>, pd: PdId, kind: Alignment, country: CountryId, removals: nat)
      returns (taken: seq<CountryId>)
      ensures taken == TakeFrom(stacks, pd, kind, country, removals)
    {
      hide TakeFrom, Copies;
      taken := [];
      assert stacks[0..] == stacks;
      TakeFromNothing(stacks, pd, kind, country);
      for n := 0 to |stacks|
        invariant |taken| <= removals
        invariant TakeFrom(stacks, pd, kind, country, removals) ==
                  taken + TakeFrom(stacks[n..], pd, kind, country, removals - |taken|)
      {
        TakeFromNext(stacks, n, pd, kind, country, removals - |taken|);
        if stacks[n].pd == pd && stacks[n].kind == kind && stacks[n].attribution == country {
          var cubes := TakeOfStack(country, stacks[n].count, removals - |taken|);
          taken := taken + cubes;
        }
      }
    }

    static method TakeOfStack(country: CountryId, available: nat, wanted: nat) returns (cubes: seq<CountryId>)
      ensures cubes == Copies(country, Min(available, wanted))
    {
      cubes := [];
      var count := 0;
      while count < available && |cubes| < wanted
        invariant count <= Min(available, wanted) && cubes == Copies(country, count)
      {
        cubes := cubes + [country];
        count := count + 1;
      }
    }

    /** Cubes are listed country by country until there are enough. */
    static method Automatic(stacks: seq<Stack>, pd: PdId, kind: Alignment, removals: nat)
      returns (selection: seq<CountryId>)
      ensures selection == AutomaticSelections(stacks, pd, kind, COUNTRIES, removals)
    {
      hide TakeFrom;
      selection := [];
      for c := 0 to |COUNTRIES|
        invariant |selection| <= removals
        invariant AutomaticSelections(stacks, pd, kind, COUNTRIES, removals) ==
                  selection + AutomaticSelections(stacks, pd, kind, COUNTRIES[c..], removals - |selection|)
      {
        var taken := TakeOfCountry(stacks, pd, kind, COUNTRIES[c], removals - |selection|);
        selection := selection + taken;
        assert COUNTRIES[c..][1..] == COUNTRIES[c + 1..];
      }
    }

    method HoldFor(env: Envelope, body: Body, cause: Option<Cause>, pending: Pending)
      modifies this`turn, this`events
      ensures View() == Suspend(old(View()), env, body, cause, pending)
    {
      var id := AppendEvent(env, body, cause);
      turn := turn.(pending := Some(pending), cursor := turn.cursor.(status := Suspended));
    }

    method ResolveImpact(env: Envelope, at: nat, i: Impact, refs: seq<EventId>, ledgers: seq<LedgerId>)
      returns (error: Option<Error>)
      requires at < |SlotsOf(turn.plan, i.participant)| && i.campaign in board.campaigns
      modifies this`turn, this`board, this`purse, this`audit, this`events
      ensures var v := Resolve(cfg, Flow(old(View()), refs, ledgers), env, at, i);
              if error.Some? then v == Reject(error.value) else v == Commit(View())
    {
      hide CompleteActivation, Attributions, AutomaticSelections;
      var removals := ResolveTwoToOne(i.generated, CountOn(board.stacks, i.target, i.kind.Opposite())).removed;
      var sources := Attributions(board.stacks, i.target, i.kind.Opposite(), COUNTRIES);
      if removals > 0 && |sources| > 1 {
        var base := PendingBase(ActivationId(i.campaign, board.campaigns[i.campaign].activations + 1), i.participant,
                                turn.plan[i.participant][at].index, i.campaign, env.correlation, |events| + 1);
        var pending := ChoicePending(base, CampaignContinuation(i, removals, sources, refs + [|events| + 1], ledgers));
        HoldFor(env, ChoiceRequested(pending), if refs == [] then None else Some(ByEvent(refs[|refs| - 1])), pending);
        error := None;
      } else {
        var selection := Automatic(board.stacks, i.target, i.kind.Opposite(), removals);
        error := CompleteImpact(env, at, i, selection, refs, ledgers);
      }
    }

    // ---------------------------------------------------- one activation

    method RollDie(env: Envelope, p: ParticipantId, c: CampaignId, k: NarrativeContinuation, bonus: nat, boost: int,
                   raw: int,
                   manual: Option<ManualRoll>, refs: seq<EventId>, ghost ledgers: seq<LedgerId>)
      returns (refs': seq<EventId>, result: int)
      requires c in board.campaigns
      modifies this`audit, this`events
      ensures Flow(View(), refs', ledgers) ==
              Roll(cfg, Flow(old(View()), refs, ledgers), env, p, c, k, bonus, boost, raw, manual)
      ensures result == ErtResult(cfg, old(View()), p, c, k, bonus, boost, raw)
    {
      var holder := Get(board.legitimacy, k.target, None);
      var modifier := if holder == Some(p) then 1 else 0;
      var ertRoll := NormaliseRoll(raw + modifier + boost + CoreBonus(k.core));
      var id := |audit.dice| + 1;
      var rng := if manual.None? then Some(id) else None;
      var submitter := if manual.Some? then Some(manual.value.submitter) else None;
      audit := audit.(dice := audit.dice + [DieRoll(id, p, raw, manual.Some?, rng, submitter, version + 1)]);
      refs' := AppendReferenced(env,
                                DieRolled(id, p, raw, manual.Some?, rng, submitter, modifier, boost, CoreBonus(k.core),
                                          ertRoll), refs);
      var effectiveCv := k.effectiveCv + bonus;
      result := cfg.ert(TierFor(effectiveCv), board.campaigns[c].alignment, ertRoll);
      refs' := AppendReferenced(env, ErtResolved(effectiveCv, TierFor(effectiveCv), result), refs');
    }

    /** Rolls and works out what the roll will do to the board. */
    method RollForImpact(env: Envelope, p: ParticipantId, index: nat, c: CampaignId, k: NarrativeContinuation,
                         bonus: nat, boost: int,
                         raw: int, manual: Option<ManualRoll>, refs: seq<EventId>, ghost ledgers: seq<LedgerId>)
      returns (refs': seq<EventId>, i: Impact)
      requires c in board.campaigns
      modifies this`audit, this`events
      ensures Flow(View(), refs', ledgers) ==
              Roll(cfg, Flow(old(View()), refs, ledgers), env, p, c, k, bonus, boost, raw, manual)
      ensures i == ResolutionInput(cfg, old(View()), p, index, c, k, bonus, boost, raw)
    {
      hide Roll, ErtResult;
      var own, result := board.campaigns[c].alignment, 0;
      refs', result := RollDie(env, p, c, k, bonus, boost, raw, manual, refs, ledgers);
      i := Impact(p, index, c, k.target, if result >= 0 then own else own.Opposite(), k.country,
                  if result >= 0 then result
                    else -result, result, Get(purse.vp, p, 0), Get(board.legitimacy, k.target, None));
    }

    method PayRollResolve(env: Envelope, p: ParticipantId, at: nat, c: CampaignId, k: NarrativeContinuation, bonus: nat,
                          die: Option<int>, manual: Option<ManualRoll>, refs: seq<EventId>, ledgers: seq<LedgerId>)
      returns (error: Option<Error>)
      requires at < |SlotsOf(turn.plan, p)| && c in board.campaigns
      modifies this`turn, this`table, this`board, this`purse, this`audit, this`events
      ensures var v := RollAndResolve(cfg, Flow(old(View()), refs, ledgers), env, p, at, c, k, bonus, die, manual);
              if error.Some? then v == Reject(error.value) else v == Commit(View())
    {
      hide Pay, ApplyBoost, Roll, Resolve, ResolutionInput;
      var index := turn.plan[p][at].index;
      var boost := if p in table.boosts && table.boosts[p].campaign == c &&
        table.boosts[p].activationIndex == index then 1 else 0;
      var refs', ledgers', i;
      error, refs', ledgers' := PayCosts(env, p, c, k, refs, ledgers);
      if error.Some? {
        return;
      }
      error, refs' := UseBoost(env, p, index, c, refs', ledgers');
      if error.Some? {
        return;
      }
      var raw: int;
      if manual.Some? {
        raw := manual.value.value;
      } else if die.Some? && 1 <= die.value <= 10 {
        raw := die.value;
      } else {
        return Some(RandomProviderFailure);
      }
      refs', i := RollForImpact(env, p, index, c, k, bonus, boost, raw, manual, refs', ledgers');
      error := ResolveImpact(env, at, i, refs', ledgers');
    }

    /** Opens, evaluates and closes the reaction window. */
    method OpenReactions(env: Envelope, refs: seq<EventId>, ghost ledgers: seq<LedgerId>) returns (refs': seq<EventId>)
      modifies this`events
      ensures Flow(View(), refs', ledgers) == PreRoll(Flow(old(View()), refs, ledgers), env)
    {
      refs' := refs;
      ghost var f := Flow(View(), refs, ledgers);
      for stage := 0 to 3
        invariant Flow(View(), refs', ledgers) == Reactions(f, env, stage)
      {
        refs' := AppendReferenced(env, PreRollReaction(stage), refs');
      }
      assert Reactions(f, env, 2) == Continue(Reactions(f, env, 1), env, PreRollReaction(1));
    }

    method ContinueAfterNarrative(env: Envelope, p: ParticipantId, at: nat, c: CampaignId, k: NarrativeContinuation,
                                  coalition: Coalition,
                                  die: Option<int>, manual: Option<ManualRoll>, refs: seq<EventId>,
                                    ledgers: seq<LedgerId>)
      returns (error: Option<Error>)
      modifies this`turn, this`table, this`board, this`purse, this`audit, this`events
      ensures var v := AfterNarrative(cfg, Flow(old(View()), refs, ledgers), env, p, at, c, k, coalition, die, manual);
              if error.Some? then v == Reject(error.value) else v == Commit(View())
    {
      hide RollAndResolve, Allies, PreRoll;
      if c !in board.campaigns || !(at < |SlotsOf(turn.plan, p)|) {
        return Some(ObjectNoLongerValid);
      }
      var index, activation := turn.plan[p][at].index, ActivationId(c, board.campaigns[c].activations + 1);
      if NeedsCoalition(board.campaigns[c]) && coalition.Undecided? {
        var eligible := Allies(cfg, cfg.order, p);
        if eligible != [] {
          var base := PendingBase(activation, p, index, c, env.correlation, |events| + 1);
          var pending := CoalitionPending(base, k, eligible, [], map[], refs + [|events| + 1], []);
          HoldFor(env, CoalitionRequested(pending), if refs == [] then None
                  else Some(ByEvent(refs[|refs| - 1])), pending);
          return None;
        }
      }
      var bonus := if coalition.Decided? then coalition.bonus else 0;
      var refs': seq<EventId> := refs;
      if manual.None? {
        refs' := OpenReactions(env, refs, ledgers);
        if cfg.manualDice {
          var base := PendingBase(activation, p, index, c, env.correlation, |events| + 1);
          var pending := DiePending(base, k, bonus, refs' + [|events| + 1], ledgers);
          HoldFor(env, DieRequested(pending), if refs' == [] then None else Some(ByEvent(refs'[|refs'| - 1])), pending);
          return None;
        }
      }
      error := PayRollResolve(env, p, at, c, k, bonus, die, manual, refs', ledgers);
    }

    // ------------------------------------------------------------- slots

    method Start(env: Envelope, p: ParticipantId, at: nat, a: Action, hash: int, refs: seq<EventId>, die: Option<int>)
      returns (error: Option<Error>)
      requires a.Activate? && at < |SlotsOf(turn.plan, p)|
      modifies this`turn, this`table, this`board, this`purse, this`audit, this`events
      ensures var v := StartActivation(cfg, old(View()), env, p, at, a, hash, refs, die);
              if error.Some? then v == Reject(error.value) else v == Commit(View())
    {
      hide AfterNarrative, CloseSlot, ActivationError, TotalCost;
      if ActivationError(cfg, View(), p, a).Some? {
        return ActivationError(cfg, View(), p, a);
      }
      error := StartChecked(env, p, at, a, hash, refs, die);
    }

    method StartChecked(env: Envelope, p: ParticipantId, at: nat, a: Action, hash: int, refs: seq<EventId>,
                        die: Option<int>)
      returns (error: Option<Error>)
      requires a.Activate? && at < |SlotsOf(turn.plan, p)| && ActivationError(cfg, View(), p, a).None?
      modifies this`turn, this`table, this`board, this`purse, this`audit, this`events
      ensures var v := StartActivation(cfg, old(View()), env, p, at, a, hash, refs, die);
              if error.Some? then v == Reject(error.value) else v == Commit(View())
    {
      hide AfterNarrative, CloseSlot, TotalCost;
      var campaign := board.campaigns[a.campaign];
      var value := cfg.valueOf(campaign.assignments);
      if Get(purse.resources, cfg.seats[p], 0) < TotalCost(campaign, value.cost, a.useCore) {
        var failed := Close(env, p, at, FailedCost, if refs == [] then None else Some(ByEvent(refs[|refs| - 1])));
        return None;
      }
      var activation, index := ActivationId(a.campaign, campaign.activations + 1), turn.plan[p][at].index;
      var refs' := AppendReferenced(env, ActivationStarted(activation, a.campaign, p, a.target.value, hash), refs);
      var k := NarrativeContinuation(a.target.value, cfg.seats[p], value.baseCv, value.effectiveCv, value.baseTier,
                                     value.cost,
                                     a.useCore, hash, refs');
      if a.campaign !in board.narratives {
        var pending := NarrativePending(PendingBase(activation, p, index, a.campaign, env.correlation, |events| + 1),
                                        k);
        HoldFor(env, NarrativeRequested(pending), Some(ByEvent(refs'[|refs'| - 1])), pending);
        return None;
      }
      var n := board.narratives[a.campaign];
      if n.source != Fixture || n.participant.Some? {
        return Some(NarrativeProvenance);
      }
      refs' := AppendReferenced(Envelope(n.actor, None, n.correlation, Some(n.cause)),
                                NarrativeSubmitted(a.campaign, n.inputId, n.source, n.text, Some(n.cause)), refs');
      error := ContinueAfterNarrative(env, p, at, a.campaign, k, Undecided, die, None, refs', []);
    }

    /** The cards go into the campaign one by one. */
    method TakeCards(p: ParticipantId, cards: seq<CardId>)
      modifies this`table
      ensures View() == TakenAll(old(View()), p, cards)
    {
      assert cards[..0] == [];
      for n := 0 to |cards|
        invariant View() == TakenAll(old(View()), p, cards[..n])
      {
        assert cards[..n + 1][..n] == cards[..n];
        if cards[n] in table.cards {
          table := table.(cards := table.cards[cards[n] := table.cards[cards[n]].(zone := InCampaign)]);
          if p in table.holdings {
            table := table.(holdings :=
                            table.holdings[p := table.holdings[p].(hand := Without(table.holdings[p].hand, cards[n]))]);
          }
        }
      }
      assert cards[..|cards|] == cards;
    }

    method Construct(env: Envelope, p: ParticipantId, at: nat, a: Action, cause: EventId) returns (error: Option<Error>)
      requires a.Construct? && at < |SlotsOf(turn.plan, p)|
      modifies this`turn, this`table, this`board, this`events
      ensures var v := RunConstruct(cfg, old(View()), env, p, at, a, cause);
              if error.Some? then v == Reject(error.value) else v == Commit(View())
    {
      hide CloseSlot, TakenAll, TakeIntoCampaign;
      error := ConstructError(cfg, View(), p, a);
      if error.Some? {
        return;
      }
      var alignment := cfg.rules[table.cards[a.intent].definition].alignment.alignment;
      var campaign := Campaign(p, RowI, alignment, a.targetDt,
                               AssignmentsOf(cfg, View(), a.intent, a.method_, a.amplifier), 0);
      board := board.(campaigns := board.campaigns[CampaignOf(p) := campaign]);
      TakenInOrder(View(), p, a);
      TakeCards(p, CardsOf(a));
      var created := AppendEvent(env,
                                 CampaignCreated(CampaignOf(p), p, alignment, a.targetDt, a.intent, a.method_,
                                                 a.amplifier),
                                 Some(ByEvent(cause)));
      var resolved := Close(env, p, at, Resolved, Some(ByEvent(created)));
    }

    method Boost(env: Envelope, p: ParticipantId, at: nat, plan: BoostPlan, cause: EventId)
      requires at < |SlotsOf(turn.plan, p)|
      modifies this`turn, this`table, this`events
      ensures View() == PlanBoost(cfg, old(View()), env, p, at, plan, cause)
    {
      hide Locate;
      var index := turn.plan[p][at].index;
      table := table.(boosts := table.boosts[p := plan]);
      SettleSlot(p, at, Resolved);
      AdvanceScheduler();
      var planned := AppendEvent(env, BoostPlanned(p, plan.card, plan.campaign, plan.activationIndex),
                                 Some(ByEvent(cause)));
      var resolved := AppendEvent(env, ActionResolved(p, index, Resolved), Some(ByEvent(planned)));
    }

    method RevealSlot(env: Envelope, p: ParticipantId, at: nat) returns (id: EventId)
      requires at < |SlotsOf(turn.plan, p)|
      modifies this`turn, this`events
      ensures View() == Reveal(old(View()), env, p, at) && id == |events|
    {
      var slot := turn.plan[p][at];
      id := AppendEvent(env, ActionRevealed(p, slot.index), None);
      turn := turn.(plan := turn.plan[p := turn.plan[p][at := slot.(revealed := true)]],
                    revealed := Some(Revealed(p, slot.index, slot.action)));
    }

    method RunScheduled(correlation: string, die: Option<int>) returns (error: Option<Error>)
      modifies this`turn, this`table, this`board, this`purse, this`audit, this`events
      ensures var v := RunNext(cfg, old(View()), correlation, die);
              if error.Some? then v == Reject(error.value) else v == Commit(View())
    {
      hide RunSlot, Gameplay;
      if turn.pending.Some? {
        return Some(SchedulerSuspended);
      }
      if turn.cursor.status == Complete {
        return Some(SchedulerComplete);
      }
      var hash := cfg.hash(Gameplay(View(), version));
      var found := LocateNextSlot();
      if !found {
        return Some(SchedulerComplete);
      }
      error := RunFound(System(correlation, None), cfg.order[turn.cursor.participant], turn.cursor.slot, hash, die);
    }

    method RunFound(env: Envelope, p: ParticipantId, at: nat, hash: int, die: Option<int>)
      returns (error: Option<Error>)
      requires at < |SlotsOf(turn.plan, p)|
      modifies this`turn, this`table, this`board, this`purse, this`audit, this`events
      ensures var v := RunSlot(cfg, old(View()), env, p, at, hash, die);
              if error.Some? then v == Reject(error.value) else v == Commit(View())
    {
      hide RunConstruct, StartActivation, PlanBoost, BoostError, Reveal;
      var action := turn.plan[p][at].action;
      var revealed := RevealSlot(env, p, at);
      match action
      case Construct(_, _, _, _) =>
        error := Construct(env, p, at, action, revealed);
      case PlayBoost(card, campaign, index) =>
        error := BoostError(cfg, View(), p, action);
        if error.None? {
          Boost(env, p, at, BoostPlan(card, campaign, index), revealed);
        }
      case Activate(_, _, _) =>
        error := Start(env, p, at, action, hash, [revealed], die);
    }

    // ------------------------------------------------------------- inputs

    method Tell(actor: Actor, inputId: string, correlation: string, campaign: CampaignId, text: string,
                die: Option<int>)
      returns (error: Option<Error>)
      modifies this`turn, this`table, this`board, this`purse, this`audit, this`events
      ensures var v := TellNarrative(cfg, old(View()), actor, inputId, correlation, campaign, text, die);
              if error.Some? then v == Reject(error.value) else v == Commit(View())
    {
      hide AfterNarrative;
      if turn.pending.None? || !turn.pending.value.NarrativePending? || campaign != turn.pending.value.base.campaign {
        return Some(NarrativeNotAuthorized);
      }
      var pending := turn.pending.value;
      var base := pending.base;
      if !SeatedPlayer(cfg, actor) || actor.participant != base.participant {
        return Some(NarrativeNotAuthorized);
      }
      var at := FindSlot(SlotsOf(turn.plan, base.participant), base.index);
      if at == |SlotsOf(turn.plan, base.participant)| || base.campaign !in board.campaigns {
        return Some(ObjectNoLongerValid);
      }
      var cause := ByEvent(base.cause);
      board := board.(narratives := board.narratives[campaign :=
        Narrative(inputId, text, Player, actor.user, Some(base.participant), correlation, cause)]);
      var told := AppendEvent(By(actor, correlation), NarrativeSubmitted(campaign, inputId, Player, text, None),
                              Some(cause));
      turn := turn.(pending := None, cursor := turn.cursor.(status := Ready));
      error := ContinueAfterNarrative(System(base.correlation, Some(ByEvent(told))), base.participant, at, campaign,
                                      pending.k,
                                      Undecided, die, None, pending.k.refs + [told], []);
    }

    method TakeContribution(env: Envelope, p: ParticipantId, contributes: bool)
      returns (refs: seq<EventId>, ledgers: seq<LedgerId>)
      requires turn.pending.Some? && turn.pending.value.CoalitionPending? && p in cfg.seats
      modifies this`purse, this`audit, this`events
      ensures Flow(View(), refs, ledgers) == Paid(cfg, old(View()), env, p, contributes)
    {
      var pending := turn.pending.value;
      refs, ledgers := pending.refs, pending.ledgers;
      if contributes {
        var country, balance := cfg.seats[p], Get(purse.resources, cfg.seats[p], 0) - 1;
        purse := purse.(resources := purse.resources[country := balance]);
        var ledger := PushResource(p, country, CoalitionContribution, -1, balance);
        var paid := AppendEvent(env, ContributionPaid(p, country, -1, balance, ledger),
                                Some(ByEvent(pending.base.cause)));
        refs, ledgers := refs + [paid], ledgers + [ledger];
      }
    }

    method Answer(actor: Actor, correlation: string, request: ActivationId, contributes: bool, die: Option<int>)
      returns (error: Option<Error>)
      modifies this`turn, this`table, this`board, this`purse, this`audit, this`events
      ensures var v := Respond(cfg, old(View()), actor, correlation, request, contributes, die);
              if error.Some? then v == Reject(error.value) else v == Commit(View())
    {
      hide AfterNarrative, Responded, Contributors, Paid;
      error := RespondError(cfg, View(), actor, request, contributes);
      if error.Some? {
        return;
      }
      var pending := turn.pending.value;
      var base, p, env := pending.base, actor.participant, By(actor, correlation);
      var refs, ledgers := TakeContribution(env, p, contributes);
      var decisions := pending.decisions[p := contributes];
      var responded := Responded(pending.eligible, decisions);
      var cause := Some(ByEvent(if contributes then |events| else base.cause));
      if |responded| != |pending.eligible| {
        var event := |events| + 1;
        var updated := CoalitionPending(base.(cause := event), pending.k, pending.eligible, responded, decisions,
                                        refs + [event], ledgers);
        var id := AppendEvent(env, CoalitionResponded(p, contributes, Some(updated)), cause);
        turn := turn.(pending := Some(updated));
        return None;
      }
      var event := AppendEvent(env, CoalitionResponded(p, contributes, None), cause);
      var at := FindSlot(SlotsOf(turn.plan, base.participant), base.index);
      if at == |SlotsOf(turn.plan, base.participant)| || base.campaign !in board.campaigns {
        return Some(ObjectNoLongerValid);
      }
      turn := turn.(pending := None, cursor := turn.cursor.(status := Ready));
      var bonus := Contributors(pending.eligible, decisions);
      var resolved := AppendEvent(env, CoalitionResolved(base.campaign, bonus), Some(ByEvent(event)));
      error := ContinueAfterNarrative(System(base.correlation, Some(ByEvent(resolved))), base.participant, at,
                                      base.campaign, pending.k,
                                      Decided(bonus), die, None, refs + [event] + [resolved], ledgers);
    }

    method SubmitRoll(actor: Actor, request: ActivationId, value: int) returns (error: Option<Error>)
      modifies this`turn, this`table, this`board, this`purse, this`audit, this`events
      ensures var v := EnterDie(cfg, old(View()), actor, request, value);
              if error.Some? then v == Reject(error.value) else v == Commit(View())
    {
      hide AfterNarrative;
      if !(1 <= value <= 10) {
        return Some(InvalidDieValue);
      }
      if turn.pending.None? || !turn.pending.value.DiePending? || turn.pending.value.base.activation != request {
        return Some(StaleContinuation);
      }
      var pending := turn.pending.value;
      var base := pending.base;
      if !(SeatedPlayer(cfg, actor) && actor.participant == base.participant) && !Facilitates(cfg, actor) {
        return Some(ChoiceNotAuthorized);
      }
      var at := FindSlot(SlotsOf(turn.plan, base.participant), base.index);
      if at == |SlotsOf(turn.plan, base.participant)| || base.campaign !in board.campaigns {
        return Some(ObjectNoLongerValid);
      }
      turn := turn.(pending := None, cursor := turn.cursor.(status := Ready));
      error := ContinueAfterNarrative(System(base.correlation, Some(ByEvent(base.cause))), base.participant, at,
                                      base.campaign, pending.k,
                                      Decided(pending.bonus), None, Some(ManualRoll(value, actor.participant)),
                                        pending.refs, pending.ledgers);
    }

    /** Counts the cubes of each country on the PD; a later stack of the same country replaces an earlier one. */
    static method CountAvailable(stacks: seq<Stack>, pd: PdId, kind: Alignment) returns (counts: map<CountryId, nat>)
      ensures forall c :: Get(counts, c, 0) == Available(stacks, pd, kind, c)
    {
      counts := map[];
      assert stacks[..0] == [];
      for n := 0 to |stacks|
        invariant forall c :: Get(counts, c, 0) == Available(stacks[..n], pd, kind, c)
      {
        assert stacks[..n + 1][..n] == stacks[..n];
        if stacks[n].pd == pd && stacks[n].kind == kind {
          counts := counts[stacks[n].attribution := stacks[n].count];
        }
      }
      assert stacks[..|stacks|] == stacks;
    }

    /** Takes the selections off the counts one after the other. */
    static method CanTake(stacks: seq<Stack>, pd: PdId, kind: Alignment, selection: seq<CountryId>) returns (ok: bool)
      ensures ok == Takeable(stacks, pd, kind, selection)
    {
      hide Available, Takeable;
      var counts := CountAvailable(stacks, pd, kind);
      TakeableNothing(stacks, pd, kind, selection);
      for n := 0 to |selection|
        invariant Takeable(stacks, pd, kind, selection[..n])
        invariant forall c :: Get(counts, c, 0) == Available(stacks, pd, kind, c) - multiset(selection[..n])[c]
      {
        TakeableStep(stacks, pd, kind, selection, n);
        var left := Get(counts, selection[n], 0);
        if left <= 0 {
          return false;
        }
        assert selection[..n + 1] == selection[..n] + [selection[n]];
        counts := counts[selection[n] := left - 1];
      }
      assert selection[..|selection|] == selection;
      ok := true;
    }

    method CheckChoice(actor: Actor, choice: ActivationId, version': nat, selection: seq<nat>)
      returns (error: Option<Error>)
      ensures error == ChoiceError(cfg, View(), actor, choice, version', selection)
    {
      hide Takeable;
      if turn.pending.None? {
        return Some(if choice in turn.resolvedChoices then ChoiceAlreadyResolved else InvalidChoiceOption);
      }
      if !turn.pending.value.ChoicePending? {
        return Some(InvalidChoiceOption);
      }
      var base, k := turn.pending.value.base, turn.pending.value.choice;
      if !SeatedPlayer(cfg, actor) || actor.participant != base.participant {
        return Some(ChoiceNotAuthorized);
      }
      if choice != base.activation {
        return Some(InvalidChoiceOption);
      }
      if version' != 1 {
        return Some(ChoiceVersionStale);
      }
      if |selection| != k.removals || exists n :: 0 <= n < |selection| && !(1 <= selection[n] <= |k.options|) {
        return Some(InvalidChoiceOption);
      }
      var ok := CanTake(board.stacks, k.impact.target, k.impact.kind.Opposite(), Selected(k.options, selection));
      if !ok {
        return Some(InvalidChoiceOption);
      }
      if FindSlot(SlotsOf(turn.plan, base.participant), base.index) == |SlotsOf(turn.plan, base.participant)| ||
         k.impact.campaign !in board.campaigns || k.impact.participant != base.participant {
        return Some(ObjectNoLongerValid);
      }
      error := None;
    }

    method MakeChoice(actor: Actor, correlation: string, choice: ActivationId, version': nat, selection: seq<nat>)
      returns (error: Option<Error>)
      modifies this`turn, this`board, this`purse, this`audit, this`events
      ensures var v := Choose(cfg, old(View()), actor, correlation, choice, version', selection);
              if error.Some? then v == Reject(error.value) else v == Commit(View())
    {
      hide CompleteActivation, Takeable;
      error := CheckChoice(actor, choice, version', selection);
      if error.Some? {
        return;
      }
      var base, k := turn.pending.value.base, turn.pending.value.choice;
      var told := AppendEvent(By(actor, correlation), ChoiceResolved(choice, selection), Some(ByEvent(base.cause)));
      turn := turn.(resolvedChoices := turn.resolvedChoices + [choice], pending := None,
                    cursor := turn.cursor.(status := Ready));
      var at := FindSlot(SlotsOf(turn.plan, base.participant), base.index);
      error := CompleteImpact(System(base.correlation, Some(ByEvent(told))), at, k.impact,
                              Selected(k.options, selection),
                              k.refs + [told], k.ledgers);
    }

    method Perform(command: Command) returns (error: Option<Error>)
      modifies this`turn, this`table, this`board, this`purse, this`audit, this`events
      ensures var v := Prepare(cfg, old(View()), command);
              if error.Some? then v == Reject(error.value) else v == Commit(View())
    {
      hide RunNext, TellNarrative, Respond, EnterDie, Choose;
      match command
      case RunScheduler(correlation, die) => error := RunScheduled(correlation, die);
      case SubmitNarrative(actor, inputId, correlation, campaign, text, die) =>
        error := Tell(actor, inputId, correlation, campaign, text, die);
      case SubmitContribution(actor, correlation, request, contributes, die) =>
        error := Answer(actor, correlation, request, contributes, die);
      case SubmitDie(actor, correlation, request, value) => error := SubmitRoll(actor, request, value);
      case SubmitChoice(actor, correlation, choice, version', selection) =>
        error := MakeChoice(actor, correlation, choice, version', selection);
    }
  }

  /** The first stages of the reaction window before a roll. */
  ghost function Reactions(f: Flow, env: Envelope, stages: nat): Flow {
    if stages == 0 then f else Continue(Reactions(f, env, stages - 1), env, PreRollReaction(stages - 1))
  }

  /** The stored game; a command works on a copy and its result replaces the game only when accepted. */
  class Store {
    const cfg: Config
    var game: Game

    constructor (cfg: Config, g: Game)
      ensures game == g && this.cfg == cfg
    {
      this.cfg, game := cfg, g;
    }

    method Dispatch(expected: nat, command: Command) returns (error: Option<Error>)
      modifies this
      ensures game == Step(cfg, old(game), Order(expected, command))
      ensures error.Some? <==> Execute(cfg, old(game), expected, command).Reject?
      ensures error.Some? ==> game == old(game) && Execute(cfg, old(game), expected, command) == Reject(error.value)
    {
      hide Prepare;
      if expected != game.version {
        return Some(StaleVersion);
      }
      var working := new Working(cfg, game);
      error := working.Perform(command);
      if error.None? {
        game := working.View().(version := game.version + 1);
      }
    }

    /**
     Runs slot after slot until an input is needed, a command is rejected or the turn is over. With at most
     fifteen slots left the guard of a hundred rounds is never reached.
     */
    method RunUntilBlocked(correlation: string, die: nat -> Option<int>, ghost open: set<ActivationId>)
      returns (overrun: bool, ghost orders: seq<Order>)
      requires Distinct(cfg.order) && Steady(cfg, game, open) && Walking(cfg, game.turn) && Left(cfg, game.turn) <= 15
      modifies this
      ensures !overrun && game == Run(cfg, old(game), orders) && Walking(cfg, game.turn)
      ensures game.turn.pending.Some? || game.turn.cursor.status == Complete ||
              exists n :: Execute(cfg, game, game.version, RunScheduler(correlation, die(n))).Reject?
    {
      hide Prepare, Steady, InOrder, Left, Run;
      ghost var known := open;
      orders := [];
      assert Run(cfg, game, []) == game by { RunNothing(cfg, game); }
      for guard := 0 to 100
        invariant Steady(cfg, game, known) && Walking(cfg, game.turn) && Left(cfg, game.turn) <= 15 - guard
        invariant game == Run(cfg, old(game), orders)
      {
        if game.turn.cursor.status == Complete || game.turn.pending.Some? {
          return false, orders;
        }
        ghost var before, o := game, Order(game.version, RunScheduler(correlation, die(guard)));
        StepProgress(cfg, before, known, o);
        known := StepStaysSteady(cfg, before, known, o);
        var error := Dispatch(game.version, RunScheduler(correlation, die(guard)));
        if error.Some? {
          return false, orders;
        }
        RunOneMore(cfg, old(game), orders, o);
        orders := orders + [o];
        SuspendedWaits(cfg, game, known);
        if game.turn.pending.Some? {
          return false, orders;
        }
      }
      overrun := true;
    }
  }

  lemma RunNothing(cfg: Config, g: Game)
    ensures Run(cfg, g, []) == g
  {
  }

  lemma RunOneMore(cfg: Config, g: Game, orders: seq<Order>, o: Order)
    ensures Run(cfg, g, orders + [o]) == Step(cfg, Run(cfg, g, orders), o)
  {
    assert (orders + [o])[..|orders|] == orders;
  }

  lemma SuspendedWaits(cfg: Config, g: Game, open: set<ActivationId>)
    requires Steady(cfg, g, open)
    ensures g.turn.pending.Some? <==> g.turn.cursor.status == Suspended
  {
  }

  /** The replay loop over recorded events, updating one state in place. */
  class Replayer {
    const cfg: Config
    var game: Game
    var hash: Option<int>
    var open: set<ActivationId>

    function View(): Replica
      reads this
    {
      Replica(game, hash, open)
    }

    constructor (cfg: Config, snapshot: Game)
      ensures View() == Replica(snapshot, None, {}) && this.cfg == cfg
    {
      this.cfg, game, hash, open := cfg, snapshot, None, {};
    }

    method AdvanceCursor()
      modifies this`game
      ensures game == ReplayAdvance(cfg, old(game))
    {
      var cursor := game.turn.cursor.(slot := game.turn.cursor.slot + 1);
      ghost var from := cursor;
      var plan := game.turn.plan;
      while cursor.participant < |cfg.order|
        invariant ReplayLocate(cfg.order, plan, cursor) == ReplayLocate(cfg.order, plan, from)
        decreases |cfg.order| - cursor.participant
      {
        var p := cfg.order[cursor.participant];
        if p in plan && cursor.slot < |plan[p]| {
          game := game.(turn := game.turn.(cursor := cursor.(status := Ready), revealed := None));
          return;
        }
        cursor := cursor.(participant := cursor.participant + 1, slot := 0);
      }
      game := game.(turn := game.turn.(cursor := cursor.(status := Complete), revealed := None));
    }

    /** Applies one event; false where the replay throws. */
    method Apply(e: Event) returns (ok: bool)
      modifies this
      ensures ok <==> ReplayEvent(cfg, old(View()), e).Some?
      ensures ok ==> ReplayEvent(cfg, old(View()), e) == Some(View())
    {
      if e.head.sequence != |game.events| + 1 {
        return false;
      }
      var recorded := game.events;
      game := game.(version := Max(game.version, e.head.version));
      if e.body.ActionResolved? {
        var at := FindSlot(SlotsOf(game.turn.plan, e.body.participant), e.body.index);
        if at == |SlotsOf(game.turn.plan, e.body.participant)| {
          return false;
        }
        var slots := game.turn.plan[e.body.participant];
        game := game.(turn := game.turn.(plan :=
                                         game.turn.plan[e.body.participant :=
                                                        slots[at := slots[at].(outcome := Some(e.body.outcome))]]));
        AdvanceCursor();
      } else {
        var reduced := Reduce(cfg, View(), e);
        if reduced.None? {
          return false;
        }
        game, hash, open := reduced.value.game, reduced.value.hash, reduced.value.open;
      }
      game := game.(events := game.events + [e]);
      ok := true;
    }

    method ReplayAllEvents(events: seq<Event>) returns (ok: bool)
      modifies this
      ensures ok <==> ReplayAll(cfg, old(View()), events).Some?
      ensures ok ==> ReplayAll(cfg, old(View()), events) == Some(View())
    {
      hide ReplayEvent;
      ghost var start := View();
      assert events[..0] == [];
      for n := 0 to |events|
        invariant ReplayAll(cfg, start, events[..n]) == Some(View())
      {
        assert events[..n + 1][..n] == events[..n];
        ok := Apply(events[n]);
        if !ok {
          ReplayStops(cfg, start, events, n + 1);
          return false;
        }
      }
      assert events[..|events|] == events;
      ok := true;
    }
  }

  lemma {:induction false} ReplayStops(cfg: Config, r: Replica, events: seq<Event>, n: nat)
    requires n <= |events| && ReplayAll(cfg, r, events[..n]).None?
    ensures ReplayAll(cfg, r, events).None?
  {
    if n == |events| {
      assert events[..n] == events;
    } else {
      var init := events[..|events| - 1];
      assert init[..n] == events[..n];
      ReplayStops(cfg, r, init, n);
    }
  }

  function TakenAll(g: Game, p: ParticipantId, cards: seq<CardId>): Game {
    if cards == [] then g else TakeIntoCampaign(TakenAll(g, p, cards[..|cards| - 1]), p, cards[|cards| - 1])
  }

  lemma TakenInOrder(g: Game, p: ParticipantId, a: Action)
    requires a.Construct?
    ensures var two := TakeIntoCampaign(TakeIntoCampaign(g, p, a.intent), p, a.method_);
            TakenAll(g, p, CardsOf(a)) == if a.amplifier.Some? then TakeIntoCampaign(two, p, a.amplifier.value) else two
  {
    hide TakeIntoCampaign;
    var two := [a.intent, a.method_];
    assert two[..1] == [a.intent] && [a.intent][..0] == [];
    assert TakenAll(g, p, [a.intent]) == TakeIntoCampaign(g, p, a.intent);
    if a.amplifier.Some? {
      assert CardsOf(a)[..2] == two;
    } else {
      assert CardsOf(a) == two;
    }
  }

  lemma TakeableNothing(stacks: seq<Stack>, pd: PdId, kind: Alignment, selection: seq<CountryId>)
    ensures Takeable(stacks, pd, kind, selection[..0]) && multiset(selection[..0]) == multiset{}
  {
    assert selection[..0] == [];
  }

  /** A selection is taken as far as the next one, which is there or is not. */
  lemma TakeableStep(stacks: seq<Stack>, pd: PdId, kind: Alignment, selection: seq<CountryId>, n: nat)
    requires n < |selection| && Takeable(stacks, pd, kind, selection[..n])
    ensures var there := multiset(selection[..n])[selection[n]] < Available(stacks, pd, kind, selection[n]);
            (there ==> Takeable(stacks, pd, kind, selection[..n + 1])) &&
              (!there ==> !Takeable(stacks, pd, kind, selection))
  {
    hide Available, Enough;
    if multiset(selection[..n])[selection[n]] < Available(stacks, pd, kind, selection[n]) {
      assert selection[..n + 1] == selection[..n] + [selection[n]];
      TakeableIsEnough(stacks, pd, kind, selection[..n]);
      TakeableIsEnough(stacks, pd, kind, selection[..n + 1]);
      OneMore(stacks, pd, kind, selection[..n], selection[n]);
      hide Takeable;
    }
  }

  lemma TakeFromNext(stacks: seq<Stack>, n: nat, pd: PdId, kind: Alignment, country: CountryId, removals: nat)
    requires n < |stacks|
    ensures var s := stacks[n];
            var here := if s.pd == pd && s.kind == kind && s.attribution == country then Min(s.count, removals) else 0;
            TakeFrom(stacks[n..], pd, kind, country, removals) ==
            Copies(country, here) + TakeFrom(stacks[n + 1..], pd, kind, country, removals - here)
  {
    assert stacks[n..][1..] == stacks[n + 1..];
  }

  lemma TakeFromNothing(stacks: seq<Stack>, pd: PdId, kind: Alignment, country: CountryId)
    ensures forall removals: nat :: TakeFrom(stacks[|stacks|..], pd, kind, country, removals) == []
    ensures Copies(country, 0) == []
  {
  }

  lemma BookedInOrder(g: Game, p: ParticipantId, country: CountryId, cost: nat, costs: seq<nat>, core: bool)
    ensures var left := Balance(g, country) - cost;
            var after := left - Sum(costs) - CoreCost(core);
            var tier := Adjudication.PushResource(SetBalance(g, country, after), p, country, ActivationCost,
                                                  -(cost as int), left);
            var all := PushComponents(tier, p, country, costs, left);
            Booked(g, p, country, cost, costs, core) ==
            if core then UseCore(Adjudication.PushResource(all, p, country, CoreModifier, -2, after), p) else all
  {
    hide PushComponents, Sum;
  }

  /** A removal that stops early stops the whole list. */
  lemma {:induction false} RemovalsStop(f: Flow, env: Envelope, i: Impact, selection: seq<CountryId>, n: nat)
    requires n <= |selection| && RemoveCubes(f, env, i, selection[..n]).Stop?
    ensures RemoveCubes(f, env, i, selection) == RemoveCubes(f, env, i, selection[..n])
  {
    if n == |selection| {
      assert selection[..n] == selection;
    } else {
      var init := selection[..|selection| - 1];
      assert init[..n] == selection[..n];
      RemovalsStop(f, env, i, init, n);
    }
  }
}
