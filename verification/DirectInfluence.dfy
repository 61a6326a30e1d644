/**
 Influence placed directly on a population: two generated cubes cancel one opposing cube, taken from the first
 stacks first, and the rest is placed on the country's own stack.
 */
module DirectInfluence {
  import opened Prelude
  import opened CampaignTypes
  import opened Adjudication
  import Choices

  predicate On(s: Stack, pd: PdId, kind: Alignment) {
    s.pd == pd && s.kind == kind
  }

  /** n cubes taken from the stacks of one kind on one population, the first stacks first. */
  function TakeFirst(stacks: seq<Stack>, pd: PdId, kind: Alignment, n: nat): (r: seq<Stack>)
    ensures |r| == |stacks|
  {
    if stacks == [] then []
    else
      var init, s := stacks[..|stacks| - 1], stacks[|stacks| - 1];
      var left := n - Min(n, CountOn(init, pd, kind));
      TakeFirst(init, pd, kind, n) + [if On(s, pd, kind) then s.(count := s.count - Min(s.count, left)) else s]
  }

  /** The first stack of this population, kind and country, or the length. */
  function FindStack(stacks: seq<Stack>, pd: PdId, kind: Alignment, country: CountryId): (n: nat)
    ensures n <= |stacks|
    ensures n < |stacks| ==> On(stacks[n], pd, kind) && stacks[n].attribution == country
    ensures forall i :: 0 <= i < n ==> !(On(stacks[i], pd, kind) && stacks[i].attribution == country)
  {
    if stacks == [] then 0
    else
      var n := FindStack(stacks[..|stacks| - 1], pd, kind, country);
      if n < |stacks| - 1 then n
      else if On(stacks[n], pd, kind) && stacks[n].attribution == country then n else |stacks|
  }

  function Place(stacks: seq<Stack>, pd: PdId, kind: Alignment, country: CountryId, placed: nat): seq<Stack> {
    var n := FindStack(stacks, pd, kind, country);
    if n == |stacks| then stacks + [Stack(pd, kind, country, placed)]
    else stacks[n := stacks[n].(count := stacks[n].count + placed)]
  }

  datatype Influenced = Influenced(stacks: seq<Stack>, placed: nat, removed: nat)

  function Influence(stacks: seq<Stack>, pd: PdId, kind: Alignment, country: CountryId, generated: nat): Influenced {
    var r := ResolveTwoToOne(generated, CountOn(stacks, pd, kind.Opposite()));
    Influenced(Place(TakeFirst(stacks, pd, kind.Opposite(), r.removed), pd, kind, country, r.placed), r.placed,
               r.removed)
  }

  // ------------------------------------------------------------- what it does

  lemma {:induction false} TakeFirstCounts(stacks: seq<Stack>, pd: PdId, kind: Alignment, n: nat, p: PdId, k: Alignment)
    ensures CountOn(TakeFirst(stacks, pd, kind, n), p, k) ==
            CountOn(stacks, p, k) - if p == pd && k == kind then Min(n, CountOn(stacks, pd, kind)) else 0
  {
    if stacks != [] {
      TakeFirstCounts(stacks[..|stacks| - 1], pd, kind, n, p, k);
      var taken := TakeFirst(stacks, pd, kind, n);
      assert taken[..|taken| - 1] == TakeFirst(stacks[..|stacks| - 1], pd, kind, n);
    }
  }

  lemma PlaceCounts(stacks: seq<Stack>, pd: PdId, kind: Alignment, country: CountryId, placed: nat, p: PdId,
                    k: Alignment)
    ensures CountOn(Place(stacks, pd, kind, country, placed), p, k) ==
            CountOn(stacks, p, k) + if p == pd && k == kind then placed else 0
  {
    var n := FindStack(stacks, pd, kind, country);
    if n == |stacks| {
      var more := stacks + [Stack(pd, kind, country, placed)];
      assert more[..|more| - 1] == stacks;
    } else {
      Choices.CountAfterUpdate(stacks, n, stacks[n].(count := stacks[n].count + placed), p, k);
    }
  }

  /**
   Generated cubes are either placed or cancel one opposing cube per pair; the opposing kind falls by what was
   removed and the own kind grows by what was placed, nothing else on the board changes, and while an opposing
   cube survives at most one is placed.
   */
  lemma InfluenceIsConserved(stacks: seq<Stack>, pd: PdId, kind: Alignment, country: CountryId, generated: nat,
                             p: PdId, k: Alignment)
    ensures
      var r := Influence(stacks, pd, kind, country, generated);
      generated == r.placed + 2 * r.removed && r.removed <= CountOn(stacks, pd, kind.Opposite()) &&
      CountOn(r.stacks, p, k) ==
        CountOn(stacks, p, k) - (if p == pd && k == kind.Opposite() then r.removed else 0) + (if p == pd &&
            k == kind then r.placed else 0) &&
      (CountOn(r.stacks, pd, kind.Opposite()) > 0 ==> r.placed <= 1)
  {
    var r := ResolveTwoToOne(generated, CountOn(stacks, pd, kind.Opposite()));
    var taken := TakeFirst(stacks, pd, kind.Opposite(), r.removed);
    TakeFirstCounts(stacks, pd, kind.Opposite(), r.removed, p, k);
    PlaceCounts(taken, pd, kind, country, r.placed, p, k);
    TakeFirstCounts(stacks, pd, kind.Opposite(), r.removed, pd, kind.Opposite());
    PlaceCounts(taken, pd, kind, country, r.placed, pd, kind.Opposite());
  }

  /** The cubes of one country. */
  function CountBy(stacks: seq<Stack>, pd: PdId, kind: Alignment, country: CountryId): nat {
    if stacks == [] then 0
    else
      var s := stacks[|stacks| - 1];
      CountBy(stacks[..|stacks| - 1], pd, kind, country) +
      if On(s, pd, kind) && s.attribution == country then s.count else 0
  }

  lemma {:induction false} TakeFirstSpares(stacks: seq<Stack>, pd: PdId, kind: Alignment, n: nat, p: PdId,
                                           k: Alignment, c: CountryId)
    requires p != pd || k != kind
    ensures CountBy(TakeFirst(stacks, pd, kind, n), p, k, c) == CountBy(stacks, p, k, c)
  {
    if stacks != [] {
      TakeFirstSpares(stacks[..|stacks| - 1], pd, kind, n, p, k, c);
      var taken := TakeFirst(stacks, pd, kind, n);
      assert taken[..|taken| - 1] == TakeFirst(stacks[..|stacks| - 1], pd, kind, n);
    }
  }

  lemma {:induction false} CountByAfterUpdate(stacks: seq<Stack>, n: nat, more: nat, p: PdId, k: Alignment,
                                              c: CountryId)
    requires n < |stacks|
    ensures CountBy(stacks[n := stacks[n].(count := stacks[n].count + more)], p, k, c) ==
            CountBy(stacks, p, k, c) + if On(stacks[n], p, k) && stacks[n].attribution == c then more else 0
  {
    var last := |stacks| - 1;
    var moved := stacks[n := stacks[n].(count := stacks[n].count + more)];
    if n < last {
      assert moved[..last] == stacks[..last][n := stacks[n].(count := stacks[n].count + more)];
      CountByAfterUpdate(stacks[..last], n, more, p, k, c);
    } else {
      assert moved[..last] == stacks[..last];
    }
  }

  lemma PlaceBelongs(stacks: seq<Stack>, pd: PdId, kind: Alignment, country: CountryId, placed: nat, p: PdId,
                     k: Alignment, c: CountryId)
    ensures CountBy(Place(stacks, pd, kind, country, placed), p, k, c) ==
            CountBy(stacks, p, k, c) + if p == pd && k == kind && c == country then placed else 0
  {
    var n := FindStack(stacks, pd, kind, country);
    if n == |stacks| {
      var more := stacks + [Stack(pd, kind, country, placed)];
      assert more[..|more| - 1] == stacks;
    } else {
      CountByAfterUpdate(stacks, n, placed, p, k, c);
    }
  }

  /** The placed cubes are the named country's; only opposing cubes on the same population are taken from anyone. */
  lemma InfluenceBelongs(stacks: seq<Stack>, pd: PdId, kind: Alignment, country: CountryId, generated: nat,
                         p: PdId, k: Alignment, c: CountryId)
    requires p != pd || k == kind
    ensures
      var r := Influence(stacks, pd, kind, country, generated);
      CountBy(r.stacks, p, k, c) ==
      CountBy(stacks, p, k, c) + if p == pd && k == kind && c == country then r.placed else 0
  {
    var r := ResolveTwoToOne(generated, CountOn(stacks, pd, kind.Opposite()));
    TakeFirstSpares(stacks, pd, kind.Opposite(), r.removed, p, k, c);
    PlaceBelongs(TakeFirst(stacks, pd, kind.Opposite(), r.removed), pd, kind, country, r.placed, p, k, c);
  }

  /** A stack is touched only when every earlier opposing stack has been emptied. */
  lemma {:induction false} FirstStacksFirst(stacks: seq<Stack>, pd: PdId, kind: Alignment, n: nat, i: nat, j: nat)
    requires i < j < |stacks| && On(stacks[i], pd, kind)
    ensures
      var taken := TakeFirst(stacks, pd, kind, n);
      taken[j].count < stacks[j].count ==> taken[i].count == 0
  {
    var init := stacks[..|stacks| - 1];
    if j < |stacks| - 1 {
      FirstStacksFirst(init, pd, kind, n, i, j);
    } else if On(stacks[j], pd, kind) && n > CountOn(init, pd, kind) {
      AllTaken(init, pd, kind, n, i);
    }
  }

  lemma {:induction false} AllTaken(stacks: seq<Stack>, pd: PdId, kind: Alignment, n: nat, i: nat)
    requires i < |stacks| && On(stacks[i], pd, kind) && n >= CountOn(stacks, pd, kind)
    ensures TakeFirst(stacks, pd, kind, n)[i].count == 0
  {
    var init := stacks[..|stacks| - 1];
    if i < |init| {
      AllTaken(init, pd, kind, n, i);
    }
  }

  // ------------------------------------------------------ resource spends

  /** A spend by some participant; every unit of it may trigger the regime ability of another. */
  datatype Spend = Spend(id: nat, participant: ParticipantId, amount: nat)

  /** What the ability has been worked off. */
  datatype Regime = Regime(active: bool, processed: seq<nat>)

  datatype Trigger = Trigger(spend: nat, unit: nat, pd: PdId, placed: nat, removed: nat)

  datatype Ledger = Ledger(stacks: seq<Stack>, regime: Regime, triggers: seq<Trigger>)

  function Due(spends: seq<Spend>, actor: ParticipantId, processed: seq<nat>): seq<Spend> {
    if spends == [] then []
    else
      var last := spends[|spends| - 1];
      Due(spends[..|spends| - 1], actor, processed) +
      if last.participant != actor && last.id !in processed then [last] else []
  }

  function Units(spends: seq<Spend>): nat {
    if spends == [] then 0 else Units(spends[..|spends| - 1]) + spends[|spends| - 1].amount
  }

  /** The units of one spend, each placing two malign cubes on its own target. */
  function TriggerUnits(l: Ledger, spend: Spend, units: nat, targets: seq<PdId>): Ledger
    requires units <= |targets|
  {
    if units == 0 then l
    else
      var before, pd := TriggerUnits(l, spend, units - 1, targets), targets[units - 1];
      var r := Influence(before.stacks, pd, Malign, Fluma, 2);
      before.(stacks := r.stacks, triggers := before.triggers + [Trigger(spend.id, units, pd, r.placed, r.removed)])
  }

  function TriggerAll(l: Ledger, spends: seq<Spend>, targets: seq<PdId>): Ledger
    requires |targets| >= Units(spends)
  {
    if spends == [] then l
    else
      var init, last := spends[..|spends| - 1], spends[|spends| - 1];
      var before := TriggerAll(l, init, targets);
      var done := TriggerUnits(before, last, last.amount, targets[Units(init)..]);
      done.(regime := done.regime.(processed := done.regime.processed + [last.id]))
  }

  /** None: refused, and nothing changes. `arden` holds the populations that may be targeted. */
  function ResolveSpends(l: Ledger, fluma: bool, actor: ParticipantId, spends: seq<Spend>, targets: seq<PdId>,
                         arden: set<PdId>): Option<Ledger> {
    var due := Due(spends, actor, l.regime.processed);
    if !fluma || |targets| != Units(due) || exists i :: 0 <= i < |targets| && targets[i] !in arden then None
    else
      var done := TriggerAll(l, due, targets);
      Some(done.(regime := done.regime.(active := true)))
  }

  function Placed(triggers: seq<Trigger>): nat {
    if triggers == [] then 0 else Placed(triggers[..|triggers| - 1]) + triggers[|triggers| - 1].placed
  }

  function Removed(triggers: seq<Trigger>): nat {
    if triggers == [] then 0 else Removed(triggers[..|triggers| - 1]) + triggers[|triggers| - 1].removed
  }

  function Ids(spends: seq<Spend>): seq<nat> {
    seq(|spends|, i requires 0 <= i < |spends| => spends[i].id)
  }

  lemma AppendTrigger(triggers: seq<Trigger>, t: Trigger)
    ensures Placed(triggers + [t]) == Placed(triggers) + t.placed
    ensures Removed(triggers + [t]) == Removed(triggers) + t.removed
  {
    assert (triggers + [t])[..|triggers|] == triggers;
  }

  /** This many units were triggered, two cubes each. */
  ghost predicate Triggered(l: Ledger, done: Ledger, units: nat) {
    l.triggers <= done.triggers && |done.triggers| == |l.triggers| + units &&
    2 * units == (Placed(done.triggers) - Placed(l.triggers)) + 2 * (Removed(done.triggers) - Removed(l.triggers))
  }

  ghost predicate Aimed(l: Ledger, done: Ledger, targets: seq<PdId>, units: nat) {
    units <= |targets| && |done.triggers| == |l.triggers| + units &&
    forall u :: 0 <= u < units ==> done.triggers[|l.triggers| + u].pd == targets[u]
  }

  lemma OneMore(before: Ledger, spend: nat, unit: nat, pd: PdId)
    ensures
      var r := Influence(before.stacks, pd, Malign, Fluma, 2);
      Triggered(before, before.(stacks := r.stacks,
                                triggers := before.triggers + [Trigger(spend, unit, pd, r.placed, r.removed)]), 1)
  {
    var r := Influence(before.stacks, pd, Malign, Fluma, 2);
    InfluenceIsConserved(before.stacks, pd, Malign, Fluma, 2, 0, Malign);
    hide Influence;
    AppendTrigger(before.triggers, Trigger(spend, unit, pd, r.placed, r.removed));
  }

  lemma TriggeredOn(l: Ledger, before: Ledger, done: Ledger, units: nat, more: nat)
    requires Triggered(l, before, units) && Triggered(before, done, more)
    ensures Triggered(l, done, units + more)
  {
  }

  lemma AimOn(l: Ledger, before: Ledger, done: Ledger, targets: seq<PdId>, units: nat, more: nat)
    requires Aimed(l, before, targets, units) && before.triggers <= done.triggers && units + more <= |targets|
    requires Aimed(before, done, targets[units..], more)
    ensures Aimed(l, done, targets, units + more)
  {
    forall u | 0 <= u < units + more
      ensures done.triggers[|l.triggers| + u].pd == targets[u]
    {
      if u >= units {
        assert targets[units..][u - units] == targets[u];
      }
    }
  }

  lemma Untouched(l: Ledger, targets: seq<PdId>)
    ensures Triggered(l, l, 0) && Aimed(l, l, targets, 0)
  {
  }

  lemma {:induction false} UnitsTrigger(l: Ledger, spend: Spend, units: nat, targets: seq<PdId>)
    requires units <= |targets|
    ensures
      var done := TriggerUnits(l, spend, units, targets);
      done.regime == l.regime && Triggered(l, done, units) && Aimed(l, done, targets, units) &&
        l.triggers <= done.triggers
  {
    hide Influence, Triggered, Aimed;
    if units == 0 {
      Untouched(l, targets);
    } else {
      UnitsTrigger(l, spend, units - 1, targets);
      var before := TriggerUnits(l, spend, units - 1, targets);
      var done := TriggerUnits(l, spend, units, targets);
      OneMore(before, spend.id, units, targets[units - 1]);
      AimOne(before, done, targets, units - 1);
      TriggeredOn(l, before, done, units - 1, 1);
      AimOn(l, before, done, targets, units - 1, 1);
    }
  }

  lemma AimOne(before: Ledger, done: Ledger, targets: seq<PdId>, n: nat)
    requires n < |targets| && |done.triggers| == |before.triggers| + 1
    requires done.triggers[|before.triggers|].pd == targets[n]
    ensures Aimed(before, done, targets[n..], 1)
  {
  }

  /** Every unit due places two cubes on the next target, and every spend due is marked as processed, in order. */
  lemma {:induction false} SpendsTrigger(l: Ledger, spends: seq<Spend>, targets: seq<PdId>)
    requires |targets| >= Units(spends)
    ensures
      var done := TriggerAll(l, spends, targets);
      done.regime.processed == l.regime.processed + Ids(spends) && Triggered(l, done, Units(spends)) &&
      Aimed(l, done, targets, Units(spends))
  {
    hide TriggerUnits, Triggered, Aimed;
    if spends == [] {
      Untouched(l, targets);
    } else {
      var init, last := spends[..|spends| - 1], spends[|spends| - 1];
      SpendsTrigger(l, init, targets);
      LastSpend(l, TriggerAll(l, init, targets), last, targets, Units(init));
      assert Ids(spends) == Ids(init) + [last.id];
    }
  }

  lemma LastSpend(l: Ledger, before: Ledger, last: Spend, targets: seq<PdId>, units: nat)
    requires |targets| >= units + last.amount && Triggered(l, before, units) && Aimed(l, before, targets, units)
    ensures
      var done := TriggerUnits(before, last, last.amount, targets[units..]);
      var marked := done.(regime := done.regime.(processed := done.regime.processed + [last.id]));
      Triggered(l, marked, units + last.amount) && Aimed(l, marked, targets, units + last.amount) &&
        done.regime == before.regime
  {
    hide TriggerUnits, Triggered, Aimed;
    UnitsTrigger(before, last, last.amount, targets[units..]);
    var done := TriggerUnits(before, last, last.amount, targets[units..]);
    TriggeredOn(l, before, done, units, last.amount);
    AimOn(l, before, done, targets, units, last.amount);
    SameTriggers(l, done, done.(regime := done.regime.(processed := done.regime.processed + [last.id])), targets,
                 units + last.amount);
  }

  lemma SameTriggers(l: Ledger, done: Ledger, other: Ledger, targets: seq<PdId>, units: nat)
    requires Triggered(l, done, units) && Aimed(l, done, targets, units) && other.triggers == done.triggers
    ensures Triggered(l, other, units) && Aimed(l, other, targets, units)
  {
  }

  lemma {:induction false} NothingDue(spends: seq<Spend>, actor: ParticipantId, processed: seq<nat>, more: seq<nat>)
    requires forall s :: s in Due(spends, actor, processed) ==> s.id in more
    ensures Due(spends, actor, processed + more) == []
  {
    if spends != [] {
      var last := spends[|spends| - 1];
      NothingDue(spends[..|spends| - 1], actor, processed, more);
      assert last in Due(spends, actor, processed) || last.participant == actor || last.id in processed;
    }
  }

  /** Each spend triggers once: resolving again, with nothing spent since, finds nothing due and moves no cube. */
  lemma SpendsTriggerOnce(l: Ledger, actor: ParticipantId, spends: seq<Spend>, targets: seq<PdId>, arden: set<PdId>)
    requires ResolveSpends(l, true, actor, spends, targets, arden).Some?
    ensures
      var done := ResolveSpends(l, true, actor, spends, targets, arden).value;
      ResolveSpends(done, true, actor, spends, [], arden) == Some(done) &&
      2 * |targets| == (Placed(done.triggers) - Placed(l.triggers)) +
        2 * (Removed(done.triggers) - Removed(l.triggers)) &&
      forall more :: more != [] ==> ResolveSpends(done, true, actor, spends, more, arden).None?
  {
    var due := Due(spends, actor, l.regime.processed);
    SpendsTrigger(l, due, targets);
    forall s | s in due
      ensures s.id in Ids(due)
    {
      var i :| 0 <= i < |due| && due[i] == s;
      assert Ids(due)[i] == s.id;
    }
    NothingDue(spends, actor, l.regime.processed, Ids(due));
  }

  // ------------------------------------------------- the board of the regime

  /** Cubes placed on, and taken from, a population by the triggers. */
  function PlacedAt(triggers: seq<Trigger>, pd: PdId): nat {
    if triggers == [] then 0
    else
      var t := triggers[|triggers| - 1];
      PlacedAt(triggers[..|triggers| - 1], pd) + if t.pd == pd then t.placed else 0
  }

  function RemovedAt(triggers: seq<Trigger>, pd: PdId): nat {
    if triggers == [] then 0
    else
      var t := triggers[|triggers| - 1];
      RemovedAt(triggers[..|triggers| - 1], pd) + if t.pd == pd then t.removed else 0
  }

  /** Between two states the board has changed by what the new triggers say: malign cubes of Fluma's were added. */
  ghost predicate Malicious(l: Ledger, done: Ledger, pd: PdId, c: CountryId) {
    CountBy(done.stacks, pd, Malign, c) ==
    CountBy(l.stacks, pd, Malign, c) +
    (if c == Fluma then PlacedAt(done.triggers, pd) - PlacedAt(l.triggers, pd) else 0) &&
    CountOn(done.stacks, pd, Resiliency) ==
    CountOn(l.stacks, pd, Resiliency) - (RemovedAt(done.triggers, pd) - RemovedAt(l.triggers, pd))
  }

  lemma MaliciousOn(l: Ledger, before: Ledger, done: Ledger, pd: PdId, c: CountryId)
    requires Malicious(l, before, pd, c) && Malicious(before, done, pd, c)
    ensures Malicious(l, done, pd, c)
  {
    hide CountBy, CountOn, PlacedAt, RemovedAt;
  }

  lemma TriggerCounted(triggers: seq<Trigger>, t: Trigger, pd: PdId)
    ensures PlacedAt(triggers + [t], pd) == PlacedAt(triggers, pd) + if t.pd == pd then t.placed else 0
    ensures RemovedAt(triggers + [t], pd) == RemovedAt(triggers, pd) + if t.pd == pd then t.removed else 0
  {
    assert (triggers + [t])[..|triggers|] == triggers;
  }

  lemma OneUnitIsMalicious(before: Ledger, spend: nat, unit: nat, target: PdId, pd: PdId, c: CountryId)
    ensures
      var r := Influence(before.stacks, target, Malign, Fluma, 2);
      Malicious(before, before.(stacks := r.stacks,
                                triggers := before.triggers + [Trigger(spend, unit, target, r.placed, r.removed)]),
                pd, c)
  {
    hide Influence, CountBy, CountOn, PlacedAt, RemovedAt;
    var r := Influence(before.stacks, target, Malign, Fluma, 2);
    TriggerCounted(before.triggers, Trigger(spend, unit, target, r.placed, r.removed), pd);
    InfluenceBelongs(before.stacks, target, Malign, Fluma, 2, pd, Malign, c);
    InfluenceIsConserved(before.stacks, target, Malign, Fluma, 2, pd, Resiliency);
  }

  lemma NothingMalicious(l: Ledger, pd: PdId, c: CountryId)
    ensures Malicious(l, l, pd, c)
  {
    hide CountBy, CountOn, PlacedAt, RemovedAt;
  }

  lemma {:induction false} UnitsAreMalicious(l: Ledger, spend: Spend, units: nat, targets: seq<PdId>, pd: PdId,
                                             c: CountryId)
    requires units <= |targets|
    ensures Malicious(l, TriggerUnits(l, spend, units, targets), pd, c)
  {
    hide Influence, Malicious;
    if units == 0 {
      NothingMalicious(l, pd, c);
    } else {
      var before := TriggerUnits(l, spend, units - 1, targets);
      UnitsAreMalicious(l, spend, units - 1, targets, pd, c);
      OneUnitIsMalicious(before, spend.id, units, targets[units - 1], pd, c);
      MaliciousOn(l, before, TriggerUnits(l, spend, units, targets), pd, c);
    }
  }

  /**
   The regime ability is Fluma's and malign: for every population the malign cubes of Fluma grow by what the
   triggers placed there, those of every other country stay, and the resiliency cubes fall by what was removed.
   */
  lemma {:induction false} SpendsAreMalicious(l: Ledger, spends: seq<Spend>, targets: seq<PdId>, pd: PdId,
                                              c: CountryId)
    requires |targets| >= Units(spends)
    ensures Malicious(l, TriggerAll(l, spends, targets), pd, c)
  {
    hide TriggerUnits, CountBy, CountOn, PlacedAt, RemovedAt;
    if spends != [] {
      var init, last := spends[..|spends| - 1], spends[|spends| - 1];
      SpendsAreMalicious(l, init, targets, pd, c);
      UnitsAreMalicious(TriggerAll(l, init, targets), last, last.amount, targets[Units(init)..], pd, c);
    }
  }
}
