/**
 Cancelling cubes. Which selections can be carried out, what they leave on the board, and why neither an
 automatic nor an accepted answer can leave a started activation without a way to end.
 */
module Choices {
  import opened Prelude
  import opened CampaignTypes
  import opened Adjudication
  import opened ReplaySegments
  import opened ReplayRuns

  // ------------------------------------------------- carrying out a selection

  predicate Keyed(s: Stack, pd: PdId, kind: Alignment, country: CountryId) {
    s.pd == pd && s.kind == kind && s.attribution == country
  }

  /** For each country, no more cubes are taken than it has on the PD. */
  ghost predicate Enough(stacks: seq<Stack>, pd: PdId, kind: Alignment, taken: multiset<CountryId>) {
    forall c {:trigger taken[c]} :: taken[c] <= Available(stacks, pd, kind, c)
  }

  function Fewer(s: Stack, pd: PdId, kind: Alignment, taken: multiset<CountryId>): Stack {
    if s.pd == pd && s.kind == kind then s.(count := Max(0, s.count - taken[s.attribution])) else s
  }

  /** The board after a multiset of cubes has been taken; no order is involved. */
  function Taken(stacks: seq<Stack>, pd: PdId, kind: Alignment, taken: multiset<CountryId>): (r: seq<Stack>)
    ensures |r| == |stacks|
    ensures forall n :: 0 <= n < |r| ==> r[n] == Fewer(stacks[n], pd, kind, taken)
  {
    seq(|stacks|, n requires 0 <= n < |stacks| => Fewer(stacks[n], pd, kind, taken))
  }

  lemma {:induction false} AvailableIsCount(stacks: seq<Stack>, n: nat)
    requires UniqueStacks(stacks) && n < |stacks|
    ensures Available(stacks, stacks[n].pd, stacks[n].kind, stacks[n].attribution) == stacks[n].count
  {
    if n < |stacks| - 1 {
      assert !SameKey(stacks[n], stacks[|stacks| - 1]);
      AvailableIsCount(stacks[..|stacks| - 1], n);
    }
  }

  lemma {:induction false} AvailableMeansStack(stacks: seq<Stack>, pd: PdId, kind: Alignment, country: CountryId)
    returns (n: nat)
    requires Available(stacks, pd, kind, country) > 0
    ensures n < |stacks| && Keyed(stacks[n], pd, kind, country)
    ensures stacks[n].count == Available(stacks, pd, kind, country)
  {
    n := |stacks| - 1;
    if !Keyed(stacks[n], pd, kind, country) {
      n := AvailableMeansStack(stacks[..n], pd, kind, country);
    }
  }

  /** The first non-empty stack of a country is found exactly if the country has a cube there. */
  lemma FoundIfAvailable(stacks: seq<Stack>, pd: PdId, kind: Alignment, country: CountryId)
    requires UniqueStacks(stacks)
    ensures FindStack(stacks, pd, kind, country, 1) < |stacks| <==> Available(stacks, pd, kind, country) > 0
  {
    var at := FindStack(stacks, pd, kind, country, 1);
    if at < |stacks| {
      AvailableIsCount(stacks, at);
    } else if Available(stacks, pd, kind, country) > 0 {
      var n := AvailableMeansStack(stacks, pd, kind, country);
    }
  }

  lemma TakeOne(stacks: seq<Stack>, pd: PdId, kind: Alignment, at: nat)
    requires UniqueStacks(stacks) && at < |stacks| && stacks[at].pd == pd && stacks[at].kind == kind
    requires stacks[at].count > 0
    ensures stacks[at := stacks[at].(count := stacks[at].count - 1)] ==
            Taken(stacks, pd, kind, multiset{stacks[at].attribution})
  {
    assert forall n :: 0 <= n < |stacks| && n != at ==> !SameKey(stacks[n], stacks[at]);
  }

  /** Taking one cube: possible exactly if there is one, and it changes that stack's count only. */
  lemma RemoveCubeExact(f: Flow, env: Envelope, i: Impact, country: CountryId)
    requires UniqueStacks(f.game.board.stacks)
    ensures var r, stacks := RemoveCube(f, env, i, country), f.game.board.stacks;
            (r.Go? <==> Available(stacks, i.target, i.kind.Opposite(), country) > 0) &&
            (r.Go? ==> r.flow.game.board.stacks == Taken(stacks, i.target, i.kind.Opposite(), multiset{country}))
  {
    hide Available, Taken, UniqueStacks;
    var stacks := f.game.board.stacks;
    FoundIfAvailable(stacks, i.target, i.kind.Opposite(), country);
    var at := FindStack(stacks, i.target, i.kind.Opposite(), country, 1);
    if at < |stacks| {
      TakeOne(stacks, i.target, i.kind.Opposite(), at);
    }
  }

  lemma TakenKeepsUnique(stacks: seq<Stack>, pd: PdId, kind: Alignment, taken: multiset<CountryId>)
    requires UniqueStacks(stacks)
    ensures UniqueStacks(Taken(stacks, pd, kind, taken))
  {
    var r := Taken(stacks, pd, kind, taken);
    forall n, m | 0 <= n < m < |r|
      ensures !SameKey(r[n], r[m])
    {
      assert !SameKey(stacks[n], stacks[m]);
    }
  }

  lemma {:induction false} TakenLeaves(stacks: seq<Stack>, pd: PdId, kind: Alignment, taken: multiset<CountryId>,
                                       country: CountryId)
    ensures Available(Taken(stacks, pd, kind, taken), pd, kind, country) ==
            Max(0, Available(stacks, pd, kind, country) - taken[country])
  {
    if stacks != [] {
      var init := stacks[..|stacks| - 1];
      assert Taken(stacks, pd, kind, taken)[..|stacks| - 1] == Taken(init, pd, kind, taken);
      TakenLeaves(init, pd, kind, taken, country);
    }
  }

  lemma TakenTwice(stacks: seq<Stack>, pd: PdId, kind: Alignment, a: multiset<CountryId>, b: multiset<CountryId>)
    ensures Taken(Taken(stacks, pd, kind, a), pd, kind, b) == Taken(stacks, pd, kind, a + b)
  {
  }

  lemma OneMore(stacks: seq<Stack>, pd: PdId, kind: Alignment, init: seq<CountryId>, last: CountryId)
    ensures Enough(stacks, pd, kind, multiset(init + [last])) <==>
            Enough(stacks, pd, kind, multiset(init)) && multiset(init)[last] < Available(stacks, pd, kind, last)
  {
    var all := multiset(init + [last]);
    assert forall c :: all[c] == multiset(init)[c] + (if c == last then 1 else 0);
    if Enough(stacks, pd, kind, all) {
      assert all[last] <= Available(stacks, pd, kind, last);
      forall c
        ensures multiset(init)[c] <= Available(stacks, pd, kind, c)
      {
        assert all[c] <= Available(stacks, pd, kind, c);
      }
    }
  }

  /**
   A selection is carried out exactly if no country is asked for more cubes than it has, and then the
   board depends on how many cubes of each country were named, not on their order.
   */
  lemma {:induction false} RemovalsExact(f: Flow, env: Envelope, i: Impact, selection: seq<CountryId>)
    requires UniqueStacks(f.game.board.stacks)
    ensures var stacks, kind := f.game.board.stacks, i.kind.Opposite();
            var r := RemoveCubes(f, env, i, selection);
            (r.Go? <==> Enough(stacks, i.target, kind, multiset(selection))) &&
            (r.Go? ==> r.flow.game.board.stacks == Taken(stacks, i.target, kind, multiset(selection)))
  {
    hide RemoveCube, Available, UniqueStacks;
    var stacks, kind := f.game.board.stacks, i.kind.Opposite();
    if selection == [] {
      assert Taken(stacks, i.target, kind, multiset{}) == stacks;
    } else {
      hide Taken, Enough;
      var init, last := selection[..|selection| - 1], selection[|selection| - 1];
      assert selection == init + [last];
      OneMore(stacks, i.target, kind, init, last);
      RemovalsExact(f, env, i, init);
      var r := RemoveCubes(f, env, i, init);
      if r.Go? {
        TakenKeepsUnique(stacks, i.target, kind, multiset(init));
        RemoveCubeExact(r.flow, env, i, last);
        TakenLeaves(stacks, i.target, kind, multiset(init), last);
        TakenTwice(stacks, i.target, kind, multiset(init), multiset{last});
      }
    }
  }

  /** The check made when an answer is submitted, one selection after the other, comes to the same. */
  lemma {:induction false} TakeableIsEnough(stacks: seq<Stack>, pd: PdId, kind: Alignment, selection: seq<CountryId>)
    ensures Takeable(stacks, pd, kind, selection) <==> Enough(stacks, pd, kind, multiset(selection))
  {
    if selection != [] {
      var init, last := selection[..|selection| - 1], selection[|selection| - 1];
      assert selection == init + [last];
      OneMore(stacks, pd, kind, init, last);
      TakeableIsEnough(stacks, pd, kind, init);
      hide Enough;
      assert forall n :: 0 <= n < |init| ==> init[..n] == selection[..n];
    }
  }

  // -------------------------------------------------- automatic selections

  /** Cubes of one country on the PD, over all stacks. */
  function TotalOf(stacks: seq<Stack>, pd: PdId, kind: Alignment, country: CountryId): nat {
    if stacks == [] then 0
    else (if Keyed(stacks[0], pd, kind, country) then stacks[0].count else 0) + TotalOf(stacks[1..], pd, kind, country)
  }

  function TotalOver(stacks: seq<Stack>, pd: PdId, kind: Alignment, countries: seq<CountryId>): nat {
    if countries == [] then 0
    else TotalOf(stacks, pd, kind, countries[0]) + TotalOver(stacks, pd, kind, countries[1..])
  }

  lemma {:induction false} TotalOfSnoc(stacks: seq<Stack>, s: Stack, pd: PdId, kind: Alignment, country: CountryId)
    ensures TotalOf(stacks + [s], pd, kind, country) ==
            TotalOf(stacks, pd, kind, country) + if Keyed(s, pd, kind, country) then s.count else 0
  {
    if stacks == [] {
      assert stacks + [s] == [s];
    } else {
      assert (stacks + [s])[1..] == stacks[1..] + [s];
      TotalOfSnoc(stacks[1..], s, pd, kind, country);
    }
  }

  lemma {:induction false} TotalOfIsAvailable(stacks: seq<Stack>, pd: PdId, kind: Alignment, country: CountryId)
    requires UniqueStacks(stacks)
    ensures TotalOf(stacks, pd, kind, country) == Available(stacks, pd, kind, country)
  {
    if stacks != [] {
      var init, s := stacks[..|stacks| - 1], stacks[|stacks| - 1];
      assert stacks == init + [s];
      TotalOfSnoc(init, s, pd, kind, country);
      TotalOfIsAvailable(init, pd, kind, country);
      if Keyed(s, pd, kind, country) && Available(init, pd, kind, country) > 0 {
        var n := AvailableMeansStack(init, pd, kind, country);
        assert SameKey(stacks[n], stacks[|stacks| - 1]);
      }
    }
  }

  /** Every cube belongs to one of the five countries. */
  lemma {:induction false} CountIsTotal(stacks: seq<Stack>, pd: PdId, kind: Alignment)
    ensures CountOn(stacks, pd, kind) == TotalOver(stacks, pd, kind, COUNTRIES)
  {
    TotalOverFive(stacks, pd, kind);
    if stacks != [] {
      var init, s := stacks[..|stacks| - 1], stacks[|stacks| - 1];
      assert stacks == init + [s];
      CountIsTotal(init, pd, kind);
      TotalOverFive(init, pd, kind);
      forall c
        ensures TotalOf(stacks, pd, kind, c) == TotalOf(init, pd, kind, c) + if Keyed(s, pd, kind, c) then s.count
                else 0
      {
        TotalOfSnoc(init, s, pd, kind, c);
      }
    }
  }

  lemma TotalOverFive(stacks: seq<Stack>, pd: PdId, kind: Alignment)
    ensures TotalOver(stacks, pd, kind, COUNTRIES) ==
            TotalOf(stacks, pd, kind, Arden) + TotalOf(stacks, pd, kind, Dinesia) + TotalOf(stacks, pd, kind, Fluma) +
            TotalOf(stacks, pd, kind, Presque) + TotalOf(stacks, pd, kind, Ursaria)
  {
    hide TotalOf;
    var four := COUNTRIES[1..];
    assert four[1..][1..] == [Presque, Ursaria];
    assert [Presque, Ursaria][1..] == [Ursaria];
    assert TotalOver(stacks, pd, kind, [Ursaria]) == TotalOf(stacks, pd, kind, Ursaria);
    assert TotalOver(stacks, pd, kind, four[1..]) == TotalOf(stacks, pd, kind, Fluma) +
           TotalOver(stacks, pd, kind, [Presque, Ursaria]);
    assert TotalOver(stacks, pd, kind, four) == TotalOf(stacks, pd, kind, Dinesia) +
           TotalOver(stacks, pd, kind, four[1..]);
  }

  lemma {:induction false} TakeFromExact(stacks: seq<Stack>, pd: PdId, kind: Alignment, country: CountryId,
                                         removals: nat)
    ensures |TakeFrom(stacks, pd, kind, country, removals)| == Min(removals, TotalOf(stacks, pd, kind, country))
  {
    if stacks != [] {
      var here := if Keyed(stacks[0], pd, kind, country) then Min(stacks[0].count, removals) else 0;
      TakeFromExact(stacks[1..], pd, kind, country, removals - here);
    }
  }

  /** As many as asked for or as there are. */
  lemma {:induction false} AutomaticLength(stacks: seq<Stack>, pd: PdId, kind: Alignment, countries: seq<CountryId>,
                                           removals: nat)
    ensures |AutomaticSelections(stacks, pd, kind, countries, removals)| ==
            Min(removals, TotalOver(stacks, pd, kind, countries))
  {
    if countries != [] {
      var first := TakeFrom(stacks, pd, kind, countries[0], removals);
      TakeFromExact(stacks, pd, kind, countries[0], removals);
      AutomaticLength(stacks, pd, kind, countries[1..], removals - |first|);
    }
  }

  /** Never more of a country than it has. */
  lemma {:induction false} AutomaticBounded(stacks: seq<Stack>, pd: PdId, kind: Alignment, countries: seq<CountryId>,
                                            removals: nat, c: CountryId)
    requires Distinct(countries)
    ensures multiset(AutomaticSelections(stacks, pd, kind, countries, removals))[c] <=
            if c in countries then TotalOf(stacks, pd, kind, c) else 0
  {
    if countries != [] {
      hide TakeFrom, TotalOf;
      var first := TakeFrom(stacks, pd, kind, countries[0], removals);
      TakeFromExact(stacks, pd, kind, countries[0], removals);
      OnlyOne(first, countries[0], c);
      AutomaticBounded(stacks, pd, kind, countries[1..], removals - |first|, c);
    }
  }

  lemma {:induction false} OnlyOne(s: seq<CountryId>, x: CountryId, c: CountryId)
    requires forall n :: 0 <= n < |s| ==> s[n] == x
    ensures multiset(s)[c] == if c == x then |s| else 0
  {
    if s != [] {
      assert s == s[..|s| - 1] + [x];
      OnlyOne(s[..|s| - 1], x, c);
    }
  }

  /** The cubes that cancellation removes can always be found without asking. */
  lemma AutomaticIsEnough(stacks: seq<Stack>, pd: PdId, kind: Alignment, removals: nat)
    requires UniqueStacks(stacks) && removals <= CountOn(stacks, pd, kind)
    ensures var sel := AutomaticSelections(stacks, pd, kind, COUNTRIES, removals);
            |sel| == removals && Enough(stacks, pd, kind, multiset(sel))
  {
    var sel := AutomaticSelections(stacks, pd, kind, COUNTRIES, removals);
    AutomaticLength(stacks, pd, kind, COUNTRIES, removals);
    CountIsTotal(stacks, pd, kind);
    forall c
      ensures multiset(sel)[c] <= Available(stacks, pd, kind, c)
    {
      AutomaticBounded(stacks, pd, kind, COUNTRIES, removals, c);
      TotalOfIsAvailable(stacks, pd, kind, c);
    }
  }

  // -------------------------------------------------------- conservation

  lemma {:induction false} CountAfterUpdate(stacks: seq<Stack>, n: nat, s: Stack, pd: PdId, kind: Alignment)
    requires n < |stacks|
    ensures CountOn(stacks[n := s], pd, kind) ==
            CountOn(stacks, pd, kind) - (if stacks[n].pd == pd && stacks[n].kind == kind then stacks[n].count else 0) +
            (if s.pd == pd && s.kind == kind then s.count else 0)
  {
    var last := |stacks| - 1;
    if n < last {
      assert stacks[n := s][..last] == stacks[..last][n := s];
      CountAfterUpdate(stacks[..last], n, s, pd, kind);
    } else {
      assert stacks[n := s][..last] == stacks[..last];
    }
  }

  lemma {:induction false} RemovalsCount(f: Flow, env: Envelope, i: Impact, selection: seq<CountryId>, pd: PdId,
                                         kind: Alignment)
    requires RemoveCubes(f, env, i, selection).Go?
    ensures CountOn(RemoveCubes(f, env, i, selection).flow.game.board.stacks, pd, kind) ==
            CountOn(f.game.board.stacks, pd, kind) - if pd == i.target && kind == i.kind.Opposite() then |selection|
              else 0
  {
    if selection != [] {
      var init, last := selection[..|selection| - 1], selection[|selection| - 1];
      RemovalsCount(f, env, i, init, pd, kind);
      var stacks := RemoveCubes(f, env, i, init).flow.game.board.stacks;
      var at := FindStack(stacks, i.target, i.kind.Opposite(), last, 1);
      CountAfterUpdate(stacks, at, stacks[at].(count := stacks[at].count - 1), pd, kind);
      hide CountOn;
    }
  }

  lemma PlacedCount(stacks: seq<Stack>, i: Impact, placed: nat, pd: PdId, kind: Alignment)
    ensures CountOn(AddCubes(stacks, i, placed), pd, kind) ==
            CountOn(stacks, pd, kind) + if pd == i.target && kind == i.kind then placed else 0
  {
    var at := FindStack(stacks, i.target, i.kind, i.attribution, 0);
    if placed > 0 && at < |stacks| {
      CountAfterUpdate(stacks, at, stacks[at].(count := stacks[at].count + placed), pd, kind);
    }
  }

  /** What a completed activation has done to the board. */
  lemma CompletionBoard(cfg: Config, f: Flow, env: Envelope, at: nat, i: Impact, selection: seq<CountryId>)
    requires HasSlot(f.game, i.participant, at) && i.campaign in f.game.board.campaigns
    requires UniqueStacks(f.game.board.stacks)
    requires CompleteActivation(cfg, f, env, at, i, selection).Commit?
    ensures var after := CompleteActivation(cfg, f, env, at, i, selection).game.board.stacks;
            var effect := Effect(f.game, i);
            |selection| == effect.removed &&
            after == AddCubes(Taken(f.game.board.stacks, i.target, i.kind.Opposite(), multiset(selection)), i,
                              effect.placed)
  {
    hide Award, Finish, Effect, Taken, AddCubes;
    RemovalsExact(f, env, i, selection);
    var removed := RemoveCubes(f, env, i, selection).flow;
    var placed := Effect(f.game, i).placed;
    FinishKeepsStacks(cfg, Award(PlaceCubes(removed, env, i, placed), env, i, placed), env, at, i,
      Resolution(|removed.game.audit.resolutions| + 1, i.target, i.kind, i.attribution, i.generated,
                 2 * Effect(f.game, i).removed, Tally(selection), placed));
  }

  lemma FinishKeepsStacks(cfg: Config, f: Flow, env: Envelope, at: nat, i: Impact, resolution: Resolution)
    requires HasSlot(f.game, i.participant, at) && i.campaign in f.game.board.campaigns
    requires Finish(cfg, f, env, at, i, resolution).Commit?
    ensures Finish(cfg, f, env, at, i, resolution).game.board.stacks == f.game.board.stacks
  {
  }

  /** Two generated cubes for each cube cancelled, the rest placed; no other cube on the board moves. */
  lemma CubesConserved(cfg: Config, f: Flow, env: Envelope, at: nat, i: Impact, selection: seq<CountryId>, pd: PdId,
                       kind: Alignment)
    requires HasSlot(f.game, i.participant, at) && i.campaign in f.game.board.campaigns
    requires UniqueStacks(f.game.board.stacks)
    requires CompleteActivation(cfg, f, env, at, i, selection).Commit?
    ensures var before := f.game.board.stacks;
            var after := CompleteActivation(cfg, f, env, at, i, selection).game.board.stacks;
            var removed := CountOn(before, i.target, i.kind.Opposite()) - CountOn(after, i.target, i.kind.Opposite());
            var placed := CountOn(after, i.target, i.kind) - CountOn(before, i.target, i.kind);
            i.generated == placed + 2 * removed && removed == |selection| &&
            (CountOn(after, i.target, i.kind.Opposite()) > 0 ==> placed <= 1) &&
            (pd != i.target ==> CountOn(after, pd, kind) == CountOn(before, pd, kind))
  {
    hide CompleteActivation, AddCubes, Taken;
    CompletionBoard(cfg, f, env, at, i, selection);
    RemovalsExact(f, env, i, selection);
    var effect := Effect(f.game, i);
    var taken := Taken(f.game.board.stacks, i.target, i.kind.Opposite(), multiset(selection));
    CompletionTakes(cfg, f, env, at, i, selection);
    forall p, k
      ensures CountOn(AddCubes(taken, i, effect.placed), p, k) ==
              CountOn(f.game.board.stacks, p, k) - (if p == i.target && k == i.kind.Opposite() then |selection|
                                                    else 0) +
              (if p == i.target && k == i.kind then effect.placed else 0)
    {
      RemovalsCount(f, env, i, selection, p, k);
      PlacedCount(taken, i, effect.placed, p, k);
    }
  }

  lemma CompletionTakes(cfg: Config, f: Flow, env: Envelope, at: nat, i: Impact, selection: seq<CountryId>)
    requires HasSlot(f.game, i.participant, at) && i.campaign in f.game.board.campaigns
    requires CompleteActivation(cfg, f, env, at, i, selection).Commit?
    ensures RemoveCubes(f, env, i, selection).Go?
  {
    hide Award, Finish, Effect, RemoveCubes, PlaceCubes;
  }

  // ------------------------------------------------------- never stuck

  /** An activation can be completed exactly with as many cubes as cancellation removes, each one there to take. */
  lemma CompletesIff(cfg: Config, f: Flow, env: Envelope, at: nat, i: Impact, selection: seq<CountryId>)
    requires HasSlot(f.game, i.participant, at) && i.campaign in f.game.board.campaigns
    requires UniqueStacks(f.game.board.stacks)
    ensures CompleteActivation(cfg, f, env, at, i, selection).Commit? <==>
            |selection| == Effect(f.game, i).removed && i.campaign in f.game.board.narratives &&
            Enough(f.game.board.stacks, i.target, i.kind.Opposite(), multiset(selection))
  {
    RemovalsExact(f, env, i, selection);
    hide Effect, RemoveCubes, PlaceCubes, Award, CloseSlot, Enough, Tally;
  }

  /** Once the die is known the activation always goes on: to its end, or to a question. */
  lemma ResolveNeverFails(cfg: Config, f: Flow, env: Envelope, at: nat, i: Impact)
    requires HasSlot(f.game, i.participant, at) && i.campaign in f.game.board.campaigns
    requires UniqueStacks(f.game.board.stacks)
    requires i.campaign in f.game.board.narratives
    ensures Resolve(cfg, f, env, at, i).Commit?
  {
    var stacks, removals := f.game.board.stacks, Effect(f.game, i).removed;
    AutomaticIsEnough(stacks, i.target, i.kind.Opposite(), removals);
    CompletesIff(cfg, f, env, at, i, AutomaticSelections(stacks, i.target, i.kind.Opposite(), COUNTRIES, removals));
    hide CompleteActivation, AutomaticSelections, Effect, Suspend, SourcesOf;
  }

  /** The answer to a choice is refused only by the checks made before anything changes. */
  lemma ValidChoiceCompletes(cfg: Config, g: Game, open: set<ActivationId>, actor: Actor, correlation: string,
                             choice: ActivationId, version: nat, selection: seq<nat>)
    requires Steady(cfg, g, open)
    ensures Choose(cfg, g, actor, correlation, choice, version, selection).Commit? <==>
            ChoiceError(cfg, g, actor, choice, version, selection).None?
  {
    if ChoiceError(cfg, g, actor, choice, version, selection).None? {
      var pending := g.turn.pending.value;
      var k := pending.choice;
      var told := Emit(g, By(actor, correlation), ChoiceResolved(choice, selection), Some(ByEvent(pending.base.cause)));
      var g1 := Resume(told.(turn := told.turn.(resolvedChoices := told.turn.resolvedChoices + [choice])));
      var f := Flow(g1, k.refs + [|g1.events|], k.ledgers);
      TakeableIsEnough(g.board.stacks, k.impact.target, k.impact.kind.Opposite(), Selected(k.options, selection));
      CompletesIff(cfg, f, System(pending.base.correlation, Some(ByEvent(|g1.events|))), PendingSlot(g, pending.base),
                   k.impact,
                   Selected(k.options, selection));
      hide CompleteActivation, Takeable, Enough, PendingSlot, PlanOk, UniqueStacks, SourcesOf;
    }
  }

  function IndexOf(options: seq<CountryId>, c: CountryId): (n: nat)
    requires c in options
    ensures 1 <= n <= |options| && options[n - 1] == c
  {
    if options[0] == c then 1 else 1 + IndexOf(options[1..], c)
  }

  /** The option numbers that name a list of countries. */
  function AnswerFor(options: seq<CountryId>, countries: seq<CountryId>): (answer: seq<nat>)
    requires forall c :: c in countries ==> c in options
    ensures |answer| == |countries|
    ensures forall n :: 0 <= n < |answer| ==> 1 <= answer[n] <= |options| && options[answer[n] - 1] == countries[n]
  {
    seq(|countries|, n requires 0 <= n < |countries| => IndexOf(options, countries[n]))
  }

  lemma {:induction false} AttributionsHoldSources(stacks: seq<Stack>, pd: PdId, kind: Alignment,
                                                   countries: seq<CountryId>, c: CountryId)
    requires c in countries && Attributed(stacks, pd, kind, c)
    ensures c in Attributions(stacks, pd, kind, countries)
  {
    if countries[0] != c {
      AttributionsHoldSources(stacks, pd, kind, countries[1..], c);
    }
  }

  /** Every country that can lose a cube is among the options. */
  lemma OptionsCoverTakeable(stacks: seq<Stack>, pd: PdId, kind: Alignment, taken: multiset<CountryId>, c: CountryId)
    requires Enough(stacks, pd, kind, taken) && c in taken
    ensures c in Attributions(stacks, pd, kind, COUNTRIES)
  {
    assert taken[c] <= Available(stacks, pd, kind, c);
    var n := AvailableMeansStack(stacks, pd, kind, c);
    assert stacks[n] in stacks;
    assert Attributed(stacks, pd, kind, c);
    assert c in COUNTRIES by {
      match c case Arden => case Dinesia => case Fluma => case Presque => case Ursaria =>
    }
    AttributionsHoldSources(stacks, pd, kind, COUNTRIES, c);
  }

  lemma AutomaticIsOffered(stacks: seq<Stack>, pd: PdId, kind: Alignment, removals: nat)
    requires UniqueStacks(stacks) && removals <= CountOn(stacks, pd, kind)
    ensures forall c :: c in AutomaticSelections(stacks, pd, kind, COUNTRIES, removals) ==>
                        c in Attributions(stacks, pd, kind, COUNTRIES)
  {
    var countries := AutomaticSelections(stacks, pd, kind, COUNTRIES, removals);
    AutomaticIsEnough(stacks, pd, kind, removals);
    hide AutomaticSelections, Attributions, UniqueStacks;
    forall c | c in countries
      ensures c in Attributions(stacks, pd, kind, COUNTRIES)
    {
      assert c in multiset(countries);
      OptionsCoverTakeable(stacks, pd, kind, multiset(countries), c);
    }
  }

  lemma AnswerSelects(options: seq<CountryId>, countries: seq<CountryId>)
    requires forall c :: c in countries ==> c in options
    ensures Selected(options, AnswerFor(options, countries)) == countries
  {
    hide Selected;
  }

  lemma ChoiceIsGrounded(cfg: Config, g: Game, open: set<ActivationId>)
    requires Steady(cfg, g, open) && g.turn.pending.Some? && g.turn.pending.value.ChoicePending?
    ensures var b, k := g.turn.pending.value.base, g.turn.pending.value.choice;
            UniqueStacks(g.board.stacks) &&
              k.removals <= CountOn(g.board.stacks, k.impact.target, k.impact.kind.Opposite()) &&
            k.options == Attributions(g.board.stacks, k.impact.target, k.impact.kind.Opposite(), COUNTRIES) &&
            HasSlot(g, b.participant, PendingSlot(g, b)) && k.impact.campaign in g.board.campaigns &&
            k.impact.participant == b.participant
  {
    PendingSlotIsCurrent(cfg, g, open);
    hide PlanOk, UniqueStacks, Attributions, CountOn, PendingSlot;
  }

  lemma ChoiceAccepted(cfg: Config, g: Game, actor: Actor, answer: seq<nat>)
    requires g.turn.pending.Some? && g.turn.pending.value.ChoicePending?
    requires SeatedPlayer(cfg, actor) && actor.participant == g.turn.pending.value.base.participant
    requires var b, k := g.turn.pending.value.base, g.turn.pending.value.choice;
             |answer| == k.removals && (forall n :: 0 <= n < |answer| ==> 1 <= answer[n] <= |k.options|) &&
             Takeable(g.board.stacks, k.impact.target, k.impact.kind.Opposite(), Selected(k.options, answer)) &&
             HasSlot(g, b.participant, PendingSlot(g, b)) && k.impact.campaign in g.board.campaigns &&
             k.impact.participant == b.participant
    ensures ChoiceError(cfg, g, actor, g.turn.pending.value.base.activation, 1, answer).None?
  {
    hide Takeable, SeatedPlayer, HasSlot, PendingSlot, Selected;
  }

  /** Whoever must choose has an acceptable answer: a suspended attribution choice cannot block the game. */
  lemma AnswerExists(cfg: Config, g: Game, open: set<ActivationId>, actor: Actor) returns (answer: seq<nat>)
    requires Steady(cfg, g, open) && g.turn.pending.Some? && g.turn.pending.value.ChoicePending?
    requires SeatedPlayer(cfg, actor) && actor.participant == g.turn.pending.value.base.participant
    ensures ChoiceError(cfg, g, actor, g.turn.pending.value.base.activation, 1, answer).None?
  {
    hide Steady, SeatedPlayer, HasSlot, PendingSlot, UniqueStacks, Attributions, CountOn, AutomaticSelections,
      Takeable, Enough,
      Selected, ChoiceError;
    ChoiceIsGrounded(cfg, g, open);
    var k := g.turn.pending.value.choice;
    var stacks, kind := g.board.stacks, k.impact.kind.Opposite();
    var countries := AutomaticSelections(stacks, k.impact.target, kind, COUNTRIES, k.removals);
    AutomaticIsEnough(stacks, k.impact.target, kind, k.removals);
    AutomaticIsOffered(stacks, k.impact.target, kind, k.removals);
    TakeableIsEnough(stacks, k.impact.target, kind, countries);
    answer := AnswerFor(k.options, countries);
    AnswerSelects(k.options, countries);
    ChoiceAccepted(cfg, g, actor, answer);
  }

  // ------------------------------------------------ never short of funds

  lemma PayableIsPaid(cfg: Config, f: Flow, env: Envelope, p: ParticipantId, c: CampaignId, k: NarrativeContinuation)
    requires Payable(cfg, f.game, p, c, k)
    ensures Pay(f, env, p, c, k).Go?
  {
    hide TotalCost, Booked, Receipt, ComponentCosts;
  }

  predicate BoostUsable(g: Game, p: ParticipantId, index: nat, c: CampaignId) {
    BoostApplies(g, p, index, c) ==>
      InZone(g, g.table.boosts[p].card, p, Hand) && g.table.cards[g.table.boosts[p].card].definition == BOOST_CARD &&
      p in g.table.holdings
  }

  /**
   Paying, rolling and resolving a started activation can only be stopped by a planned boost that is gone
   or by a die that is not a die; never by its cost, the core modifier or the board.
   */
  lemma RollAndResolveIff(cfg: Config, f: Flow, env: Envelope, p: ParticipantId, at: nat, c: CampaignId,
                          k: NarrativeContinuation, bonus: nat, die: Option<int>, manual: Option<ManualRoll>)
    requires c in f.game.board.campaigns && HasSlot(f.game, p, at) && UniqueStacks(f.game.board.stacks)
    requires c in f.game.board.narratives && Payable(cfg, f.game, p, c, k)
    ensures var v := RollAndResolve(cfg, f, env, p, at, c, k, bonus, die, manual);
            var usable := BoostUsable(f.game, p, f.game.turn.plan[p][at].index, c);
            (v.Commit? <==> usable && RollValue(die, manual).Some?) &&
            (v.Reject? ==> v.error == if usable then RandomProviderFailure else CardNotEligible)
  {
    PayableIsPaid(cfg, f, env, p, c, k);
    hide Payable, RollValue, SpendBoost;
    var index := f.game.turn.plan[p][at].index;
    var paid := Pay(f, env, p, c, k).flow;
    var boosted := ApplyBoost(paid, env, p, index, c);
    hide Pay;
    if boosted.Go? && RollValue(die, manual).Some? {
      hide ApplyBoost, BoostUsable;
      var boost := if BoostApplies(f.game, p, index, c) then 1 else 0;
      var raw := RollValue(die, manual).value;
      var rolled := Roll(cfg, boosted.flow, env, p, c, k, bonus, boost, raw, manual);
      hide Roll, ResolutionInput, BoostApplies;
      ResolveNeverFails(cfg, rolled, env, at,
                        ResolutionInput(cfg, boosted.flow.game, p, index, c, k, bonus, boost, raw));
    }
  }

  /** The only errors with which a resumed activation can be refused once its payment is secured. */
  predicate ResumeError(e: Error) {
    e == CardNotEligible || e == RandomProviderFailure
  }

  lemma ResumeNeverFailsForCost(cfg: Config, f: Flow, env: Envelope, p: ParticipantId, at: nat, c: CampaignId,
                                k: NarrativeContinuation, coalition: Coalition, die: Option<int>,
                                  manual: Option<ManualRoll>)
    requires HasSlot(f.game, p, at) && UniqueStacks(f.game.board.stacks)
    requires c in f.game.board.narratives && Payable(cfg, f.game, p, c, k)
    ensures var v := AfterNarrative(cfg, f, env, p, at, c, k, coalition, die, manual);
            v.Reject? ==> ResumeError(v.error)
  {
    hide RollAndResolve, PreRoll, AskCoalition, AskDie, BoostUsable, Allies, NeedsCoalition, Payable;
    var bonus := if coalition.Decided? then coalition.bonus else 0;
    var ready := if manual.None? then PreRoll(f, env) else f;
    PayableStays(cfg, f.game, ready.game, p, c, k);
    RollAndResolveIff(cfg, ready, env, p, at, c, k, bonus, die, manual);
  }

  lemma PayableStays(cfg: Config, g: Game, later: Game, p: ParticipantId, c: CampaignId, k: NarrativeContinuation)
    requires Payable(cfg, g, p, c, k) && later.board.campaigns == g.board.campaigns && later.purse == g.purse
    ensures Payable(cfg, later, p, c, k) && c in later.board.campaigns
  {
  }

  /** Telling the narrative or entering the die never fails for cost, whatever happened while waiting. */
  lemma NarrativeNeverFailsForCost(cfg: Config, g: Game, open: set<ActivationId>, actor: Actor, inputId: string,
                                   correlation: string, campaign: CampaignId, text: string, die: Option<int>)
    requires Steady(cfg, g, open) && Injective(cfg.seats)
    ensures var v := TellNarrative(cfg, g, actor, inputId, correlation, campaign, text, die);
            v.Reject? ==> v.error == NarrativeNotAuthorized || ResumeError(v.error)
  {
    if TellNarrative(cfg, g, actor, inputId, correlation, campaign, text, die) != Reject(NarrativeNotAuthorized) {
      PendingSlotIsCurrent(cfg, g, open);
      var pending := g.turn.pending.value;
      var base, cause := pending.base, ByEvent(pending.base.cause);
      var told := g.(board := g.board.(narratives := g.board.narratives[campaign :=
        Narrative(inputId, text, Player, actor.user, Some(base.participant), correlation, cause)]));
      var g1 := Resume(Emit(told, By(actor, correlation), NarrativeSubmitted(campaign, inputId, Player, text, None),
                            Some(cause)));
      PayableStays(cfg, g, g1, base.participant, campaign, pending.k);
      hide AfterNarrative, Payable, PendingSlot, PlanOk, UniqueStacks;
      ResumeNeverFailsForCost(cfg, Flow(g1, pending.k.refs + [|g1.events|], []),
                              System(base.correlation, Some(ByEvent(|g1.events|))),
                              base.participant, g.turn.cursor.slot, campaign, pending.k, Undecided, die, None);
    }
  }

  lemma DieNeverFailsForCost(cfg: Config, g: Game, open: set<ActivationId>, actor: Actor, request: ActivationId,
                             value: int)
    requires Steady(cfg, g, open) && Injective(cfg.seats)
    ensures var v := EnterDie(cfg, g, actor, request, value);
            v.Reject? ==> v.error in {InvalidDieValue, StaleContinuation, ChoiceNotAuthorized} || ResumeError(v.error)
  {
    var v := EnterDie(cfg, g, actor, request, value);
    if v.Reject? && v.error !in {InvalidDieValue, StaleContinuation, ChoiceNotAuthorized} {
      PendingSlotIsCurrent(cfg, g, open);
      var pending := g.turn.pending.value;
      var base := pending.base;
      PayableStays(cfg, g, Resume(g), base.participant, base.campaign, pending.k);
      hide AfterNarrative, Payable, PendingSlot, PlanOk, UniqueStacks, SeatedPlayer, Facilitates;
      ResumeNeverFailsForCost(cfg, Flow(Resume(g), pending.refs, pending.ledgers),
                              System(base.correlation, Some(ByEvent(base.cause))),
                              base.participant, g.turn.cursor.slot, base.campaign, pending.k, Decided(pending.bonus),
                                None,
                              Some(ManualRoll(value, actor.participant)));
    }
  }

  lemma CoalitionIsGrounded(cfg: Config, g: Game, open: set<ActivationId>)
    requires Steady(cfg, g, open) && g.turn.pending.Some? && g.turn.pending.value.CoalitionPending?
    ensures var b := g.turn.pending.value.base;
            UniqueStacks(g.board.stacks) && PendingSlot(g, b) == g.turn.cursor.slot &&
              HasSlot(g, b.participant, g.turn.cursor.slot) &&
            b.campaign in g.board.campaigns && b.campaign in g.board.narratives &&
            Funded(cfg, g, b.participant, b.campaign, g.turn.pending.value.k) &&
            b.participant !in g.turn.pending.value.eligible
  {
    PendingSlotIsCurrent(cfg, g, open);
    hide PlanOk, UniqueStacks, PendingSlot, Payable;
  }

  lemma LastAnswerNeverFailsForCost(cfg: Config, paid: Flow, env: Envelope, p: ParticipantId, contributes: bool,
                                    at: nat,
                                    base: PendingBase, k: NarrativeContinuation, bonus: nat, cause: Option<Cause>,
                                      die: Option<int>)
    requires HasSlot(paid.game, base.participant, at) && UniqueStacks(paid.game.board.stacks)
    requires base.campaign in paid.game.board.narratives && Payable(cfg, paid.game, base.participant, base.campaign, k)
    ensures var v := LastAnswer(cfg, paid, env, p, contributes, at, base, k, bonus, cause, die);
            v.Reject? ==> ResumeError(v.error)
  {
    var event := |paid.game.events| + 1;
    var answered := Emit(paid.game, env, CoalitionResponded(p, contributes, None), cause);
    var resolved := Emit(Resume(answered), env, CoalitionResolved(base.campaign, bonus), Some(ByEvent(event)));
    PayableStays(cfg, paid.game, resolved, base.participant, base.campaign, k);
    hide AfterNarrative, Payable, UniqueStacks;
    ResumeNeverFailsForCost(cfg, Flow(resolved, paid.refs + [event] + [event + 1], paid.ledgers),
                            System(base.correlation, Some(ByEvent(event + 1))), base.participant, at, base.campaign, k,
                            Decided(bonus), die, None);
  }

  /** Once an answer is allowed, which includes that the partner can pay for it, it cannot fail for cost. */
  lemma AnswerNeverFailsForCost(cfg: Config, g: Game, open: set<ActivationId>, actor: Actor, correlation: string,
                                request: ActivationId, contributes: bool, die: Option<int>)
    requires Steady(cfg, g, open) && Injective(cfg.seats)
    ensures var v := Respond(cfg, g, actor, correlation, request, contributes, die);
            v.Reject? ==> RespondError(cfg, g, actor, request, contributes) == Some(v.error) || ResumeError(v.error)
  {
    hide LastAnswer, Payable, PendingSlot, UniqueStacks, Paid, Contributors, Responded, SeatedPlayer;
    if RespondError(cfg, g, actor, request, contributes).None? {
      CoalitionIsGrounded(cfg, g, open);
      hide Steady;
      var pending := g.turn.pending.value;
      var base, p, env := pending.base, actor.participant, By(actor, correlation);
      var paid := Paid(cfg, g, env, p, contributes);
      PaymentKeepsFunds(cfg, g, env, p, contributes, base.participant, base.campaign, pending.k);
      var cause := if contributes then Some(ByEvent(|paid.game.events|)) else Some(ByEvent(base.cause));
      LastAnswerNeverFailsForCost(cfg, paid, env, p, contributes, g.turn.cursor.slot, base, pending.k,
                                  Contributors(pending.eligible, pending.decisions[p := contributes]), cause, die);
    }
  }
}
