/** The turn's state as the effect and cleanup code changes it in place, and the coordinator of the viral cleanup. */
module ViralObjects {
  import opened Prelude
  import opened CampaignTypes
  import opened Adjudication
  import opened ViralSnapshot
  import opened ViralTies
  import I = DirectInfluence
  import A = CampaignAging
  import V = ViralCleanup

  class M2BState {
    var influence: seq<Stack>
    var regime: I.Regime
    var triggers: seq<I.Trigger>
    var campaigns: seq<A.Held>
    var cards: map<CardId, A.LifeCard>

    constructor (influence: seq<Stack>, regime: I.Regime, triggers: seq<I.Trigger>, campaigns: seq<A.Held>,
                 cards: map<CardId, A.LifeCard>)
      ensures this.influence == influence && this.regime == regime && this.triggers == triggers
      ensures this.campaigns == campaigns && this.cards == cards
    {
      this.influence, this.regime, this.triggers, this.campaigns, this.cards := influence, regime, triggers, campaigns,
        cards;
    }

    method CountCubes(pd: PdId, kind: Alignment) returns (total: nat)
      ensures total == CountOn(influence, pd, kind)
    {
      total := 0;
      var i := 0;
      while i < |influence|
        invariant 0 <= i <= |influence| && total == CountOn(influence[..i], pd, kind)
      {
        assert influence[..i + 1][..i] == influence[..i];
        if I.On(influence[i], pd, kind) {
          total := total + influence[i].count;
        }
        i := i + 1;
      }
      assert influence[..i] == influence;
    }

    /** Takes cubes from one stack after the other until enough are gone. */
    method RemoveCubes(pd: PdId, kind: Alignment, removals: nat)
      modifies this`influence
      ensures influence == I.TakeFirst(old(influence), pd, kind, removals)
    {
      var remaining, i := removals, 0;
      ghost var before := influence;
      while i < |influence|
        invariant 0 <= i <= |influence| == |before| && forall j :: i <= j < |before| ==> influence[j] == before[j]
        invariant influence[..i] == I.TakeFirst(before[..i], pd, kind, removals)
        invariant remaining == removals - Min(removals, CountOn(before[..i], pd, kind))
      {
        var s := influence[i];
        assert before[..i + 1][..i] == before[..i];
        ghost var done := influence[..i];
        if I.On(s, pd, kind) {
          var taken := Min(s.count, remaining);
          influence := influence[i := s.(count := s.count - taken)];
          remaining := remaining - taken;
        }
        assert influence[..i + 1] == done + [influence[i]];
        i := i + 1;
      }
      assert before[..i] == before && influence[..i] == influence;
    }

    /** Counts the opposing cubes, takes what is cancelled, then finds or adds the own stack. */
    method ApplyDirectInfluence(pd: PdId, kind: Alignment, country: CountryId, generated: nat)
      returns (placed: nat, removed: nat)
      modifies this`influence
      ensures I.Influenced(influence, placed, removed) == I.Influence(old(influence), pd, kind, country, generated)
    {
      var opposing := CountCubes(pd, kind.Opposite());
      var resolution := ResolveTwoToOne(generated, opposing);
      RemoveCubes(pd, kind.Opposite(), resolution.removed);
      var n := I.FindStack(influence, pd, kind, country);
      if n == |influence| {
        influence := influence + [Stack(pd, kind, country, resolution.placed)];
      } else {
        influence := influence[n := influence[n].(count := influence[n].count + resolution.placed)];
      }
      return resolution.placed, resolution.removed;
    }

    ghost function Ledger(): I.Ledger
      reads this
    {
      I.Ledger(influence, regime, triggers)
    }

    /** The units of one spend, each on the next target. */
    method TriggerSpend(spend: I.Spend, targets: seq<PdId>)
      requires spend.amount <= |targets|
      modifies this`influence, this`triggers
      ensures Ledger() == I.TriggerUnits(old(Ledger()), spend, spend.amount, targets)
    {
      hide I.Influence;
      var unit := 0;
      while unit < spend.amount
        invariant 0 <= unit <= spend.amount
        invariant Ledger() == I.TriggerUnits(old(Ledger()), spend, unit, targets)
      {
        var placed, removed := ApplyDirectInfluence(targets[unit], Malign, Fluma, 2);
        triggers := triggers + [I.Trigger(spend.id, unit + 1, targets[unit], placed, removed)];
        unit := unit + 1;
      }
    }

    /** Works off every spend due, in order, and marks it as processed. */
    method ResolveFlumaRegimeSpends(fluma: bool, actor: ParticipantId, spends: seq<I.Spend>, targets: seq<PdId>,
                                    arden: set<PdId>)
      returns (ok: bool)
      modifies this`influence, this`regime, this`triggers
      ensures ok == I.ResolveSpends(old(Ledger()), fluma, actor, spends, targets, arden).Some?
      ensures Ledger() == if ok then I.ResolveSpends(old(Ledger()), fluma, actor, spends, targets, arden).value
              else old(Ledger())
    {
      hide I.TriggerUnits;
      var due := I.Due(spends, actor, regime.processed);
      if !fluma || |targets| != I.Units(due) || exists i :: 0 <= i < |targets| && targets[i] !in arden {
        return false;
      }
      ghost var before := Ledger();
      var targetIndex, k := 0, 0;
      while k < |due|
        invariant 0 <= k <= |due| && targetIndex == I.Units(due[..k]) <= |targets|
        invariant Ledger() == I.TriggerAll(before, due[..k], targets)
      {
        var spend := due[k];
        assert due[..k + 1][..k] == due[..k];
        UnitsGrow(due, k + 1);
        TriggerSpend(spend, targets[targetIndex..]);
        regime := regime.(processed := regime.processed + [spend.id]);
        targetIndex := targetIndex + spend.amount;
        k := k + 1;
      }
      assert due[..k] == due;
      regime := regime.(active := true);
      return true;
    }

    method DiscardCampaign(c: A.Held)
      modifies this`campaigns, this`cards
      ensures cards == A.DiscardAll(old(cards), c.cards) && campaigns == A.Delete(old(campaigns), c.id)
    {
      var i := 0;
      ghost var before := cards;
      while i < |c.cards|
        invariant 0 <= i <= |c.cards| && cards == A.DiscardAll(before, c.cards[..i]) && campaigns == old(campaigns)
      {
        assert c.cards[..i + 1][..i] == c.cards[..i];
        if c.cards[i] in cards {
          cards := cards[c.cards[i] := A.Discarded(cards[c.cards[i]])];
        }
        i := i + 1;
      }
      assert c.cards[..i] == c.cards;
      campaigns := A.Delete(campaigns, c.id);
    }

    /** Discards the second row and moves the first down, both as they stood before. */
    method CleanupCampaignAging() returns (aged: seq<nat>, discarded: seq<nat>)
      modifies this`campaigns, this`cards
      ensures A.Aged(A.Stock(campaigns, cards), aged, discarded) == A.Age(A.Stock(old(campaigns), old(cards)))
    {
      ghost var before := A.Stock(campaigns, cards);
      var second, first := A.InRow(campaigns, RowII), A.InRow(campaigns, RowI);
      var i := 0;
      while i < |second|
        invariant 0 <= i <= |second| && A.Stock(campaigns, cards) == A.DiscardCampaigns(before, second[..i])
      {
        assert second[..i + 1][..i] == second[..i];
        DiscardCampaign(second[i]);
        i := i + 1;
      }
      assert second[..i] == second;
      ghost var kept, left := campaigns, cards;
      i := 0;
      while i < |first|
        invariant 0 <= i <= |first| && campaigns == A.MoveAllDown(kept, first[..i]) && cards == left
      {
        assert first[..i + 1][..i] == first[..i];
        campaigns := A.MoveDown(campaigns, first[i].id);
        i := i + 1;
      }
      assert first[..i] == first;
      return A.IdsOf(first), A.IdsOf(second);
    }
  }

  lemma {:induction false} UnitsGrow(spends: seq<I.Spend>, k: nat)
    requires k <= |spends|
    ensures I.Units(spends[..k]) <= I.Units(spends)
  {
    if k < |spends| {
      var init := spends[..|spends| - 1];
      assert init[..k] == spends[..k];
      UnitsGrow(init, k);
    } else {
      assert spends[..k] == spends;
    }
  }

  /** The viral part of the cleanup as the dispatcher's reducers work on a game's state. */
  class ViralCoordinator {
    var version: nat
    var resolution: bool
    var field: Field
    var continuation: Option<V.Continuation>
    var choice: Option<V.Choice>
    var asked: seq<V.ChoiceId>
    var attempts: seq<V.Attempt>

    function Contents(): V.State
      reads this
    {
      V.State(version, resolution, field, continuation, choice, asked, attempts)
    }

    constructor (s: V.State)
      ensures Contents() == s
    {
      version, resolution, field, continuation := s.version, s.resolution, s.field, s.continuation;
      choice, asked, attempts := s.choice, s.asked, s.attempts;
    }

    method AskDestination()
      requires continuation.Some?
      modifies this
      ensures Contents() == V.AskDestination(old(Contents()), old(continuation).value)
    {
      var c := continuation.value;
      if c.next < |c.origins| {
        var o := c.origins[c.next];
        var id := V.DestinationChoice(c.id, c.next, o.pd);
        choice := Some(V.Choice(id, version + 1, o.owner, V.PdOptions(o.destinations)));
        asked := asked + [id];
      } else {
        choice, continuation, resolution := None, None, false;
      }
    }

    /** Before the snapshot: decide what decides itself, ask for the first tie left, or take the snapshot. */
    method AdvanceViralCleanup()
      requires continuation.Some?
      modifies this
      ensures Contents() == V.Advance(old(Contents()), old(continuation).value)
    {
      hide Ties, Automatic, Origins, V.AskDestination;
      var c := continuation.value;
      if !c.resolving {
        c := c.(ties := c.ties + Automatic(field, c.short, c.ties, field.owners));
        var ties := Ties(field, c.short, c.ties);
        if ties != [] {
          var id := V.TypeChoice(c.id, ties[0].pd);
          choice := Some(V.Choice(id, version + 1, ties[0].owner, [V.OfKind(Malign), V.OfKind(Resiliency)]));
          asked := asked + [id];
          continuation := Some(c);
          return;
        }
        c := c.(expectedVersion := version + 1, resolving := true, origins := Origins(field, c.short, c.ties),
                next := 0);
        continuation := Some(c);
      }
      ghost var middle := Contents();
      AskDestination();
      SameAsk(middle, old(Contents()), c);
    }

    lemma SameAsk(s: V.State, t: V.State, c: V.Continuation)
      requires s == t.(continuation := Some(c))
      ensures V.AskDestination(s, c) == V.AskDestination(t, c)
    {
    }

    method RunM2Cleanup(short: bool)
      modifies this
      ensures Contents() == V.Start(old(Contents()), short)
    {
      hide V.Advance;
      ghost var before := Contents();
      var c := V.Continuation(version + 1, version + 1, false, short, map[], [], 0);
      continuation := Some(c);
      AdvanceViralCleanup();
      SameAdvance(before.(continuation := Some(c)), before, c);
      version := version + 1;
    }

    /** Advancing sets the continuation itself; what it was before does not matter. */
    lemma SameAdvance(s: V.State, t: V.State, c: V.Continuation)
      requires s == t.(continuation := Some(c))
      ensures V.Advance(s, c) == V.Advance(t, c)
    {
      hide Ties, Automatic, Origins;
    }

    lemma SameAdvanceWithoutChoice(s: V.State, c: V.Continuation)
      ensures V.Advance(s.(choice := None), c) == V.Advance(s, c)
    {
      hide Ties, Automatic, Origins;
    }

    method SubmitViralChoice(m: V.Submission) returns (refusal: Option<V.Refusal>)
      modifies this
      ensures
        match V.Submit(old(Contents()), m)
        case Refused(reason) => refusal == Some(reason) && Contents() == old(Contents())
        case Accepted(s) => refusal.None? && Contents() == s
    {
      hide V.Advance, V.ResolveOrigin;
      if !resolution {
        return Some(V.WrongPhase);
      }
      if choice.None? || continuation.None? || choice.value.id != m.id {
        return Some(V.Stale);
      }
      if choice.value.version != version || continuation.value.expectedVersion != version {
        return Some(V.Stale);
      }
      if m.participant != choice.value.chooser {
        return Some(V.NotAuthorized);
      }
      if m.selection !in choice.value.options {
        return Some(V.InvalidOption);
      }
      var c := continuation.value;
      ghost var before := Contents();
      match m.selection {
        case OfKind(kind) =>
          c := c.(expectedVersion := version + 1, ties := c.ties[m.id.pd := kind]);
        case OfPd(destination) =>
          if !c.resolving || c.next >= |c.origins| || c.origins[c.next].pd != m.id.pd {
            return Some(V.Stale);
          }
          var resolved := V.ResolveOrigin(field, c.origins[c.next], destination, m.first, m.second, c.short);
          if resolved.Failed? {
            return Some(resolved.reason);
          }
          field := field.(influence := resolved.influence);
          attempts := attempts + [resolved.attempt];
          c := c.(expectedVersion := version + 1, next := c.next + 1);
      }
      ghost var resolvedState := Contents();
      choice := None;
      continuation := Some(c);
      AdvanceViralCleanup();
      SameAdvance(resolvedState.(choice := None, continuation := Some(c)), resolvedState.(choice := None), c);
      SameAdvanceWithoutChoice(resolvedState, c);
      version := version + 1;
      refusal := None;
    }
  }
}
