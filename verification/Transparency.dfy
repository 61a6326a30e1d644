/**
 Suspension is transparent. An activation that stops for a narrative, a coalition, a die or a choice ends
 where one uninterrupted computation ends: a function of the position in which it was revealed, the set of
 partners who contributed, the value rolled and how many cubes of each country were cancelled.
 */
module Transparency {
  import opened Prelude
  import opened CampaignTypes
  import opened Adjudication
  import opened ReplaySegments
  import opened ReplayRuns
  import opened RollRecords
  import opened Choices

  // -------------------------------------------- the position on the board

  const BLANK := Audit([], [], [], [], [], [])

  function Awake(c: Cursor): Cursor {
    if c.status == Suspended then c.(status := Ready) else c
  }

  /** The gameplay position: everything but records, the stored narratives and the suspension itself. */
  function Bare(g: Game): Game {
    g.(version := 0, events := [], audit := BLANK, board := g.board.(narratives := map[]),
       turn := g.turn.(pending := None, resolvedChoices := [], cursor := Awake(g.turn.cursor)))
  }

  // ------------------------------------- an activation in one computation

  function Givers(seats: map<ParticipantId, CountryId>, who: set<ParticipantId>, c: CountryId): set<ParticipantId> {
    set q | q in who && q in seats && seats[q] == c
  }

  /** Every contributor's country has given one resource. */
  function Charge(cfg: Config, g: Game, who: set<ParticipantId>): Game {
    g.(purse := g.purse.(resources :=
                         map c | c in g.purse.resources :: g.purse.resources[c] - |Givers(cfg.seats, who, c)|))
  }

  /** The activation's cost has been paid. */
  function Deduct(g: Game, p: ParticipantId, c: CampaignId, k: NarrativeContinuation): (r: Game)
    requires c in g.board.campaigns
    ensures r == g.(purse := r.purse)
  {
    var left := Balance(g, k.country) - TotalCost(g.board.campaigns[c], k.cost, k.core);
    g.(purse := g.purse.(resources := g.purse.resources[k.country := left],
                         coreUsed := if k.core then g.purse.coreUsed + {p} else g.purse.coreUsed))
  }

  /** The activation's cost has been paid and a boost planned for it discarded. */
  function Spend(g: Game, p: ParticipantId, index: nat, c: CampaignId, k: NarrativeContinuation): (r: Game)
    requires c in g.board.campaigns
    ensures r == g.(purse := r.purse, table := r.table)
  {
    var paid := Deduct(g, p, c, k);
    if BoostApplies(g, p, index, c) then SpendBoost(paid, p, g.table.boosts[p].card) else paid
  }

  /** Victory points for the cubes placed: one each, one more for a change of legitimacy; backlash takes them. */
  function Reward(vp: int, i: Impact, placed: nat): int {
    if i.ertResult > 0 && placed > 0 then placed + if i.legitimacyBefore != Some(i.participant) then 1 else 0
    else if i.ertResult < 0 then -Max(0, Min(vp, placed))
    else 0
  }

  function Rewarded(vp: map<ParticipantId, int>, i: Impact, placed: nat): map<ParticipantId, int> {
    var reward := Reward(Get(vp, i.participant, 0), i, placed);
    if reward == 0 then vp else vp[i.participant := Get(vp, i.participant, 0) + reward]
  }

  /** Legitimacy is established where nobody holds it and subverted where another player does. */
  function Holder(g: Game, i: Impact, placed: nat): map<PdId, Option<ParticipantId>> {
    if i.ertResult > 0 && placed > 0 && i.legitimacyBefore != Some(i.participant)
    then g.board.legitimacy[i.target := if i.legitimacyBefore.None? then Some(i.participant) else None]
    else g.board.legitimacy
  }

  /** What an impact does to the position when `taken` opposing cubes are cancelled. */
  function Conclude(cfg: Config, g: Game, at: nat, i: Impact, taken: multiset<CountryId>): Game
    requires HasSlot(g, i.participant, at) && i.campaign in g.board.campaigns
  {
    var placed := Effect(g, i).placed;
    var campaign := g.board.campaigns[i.campaign];
    var stacks := AddCubes(Taken(g.board.stacks, i.target, i.kind.Opposite(), taken), i, placed);
    g.(turn := ClosedTurn(cfg, g.turn, i.participant, at, Resolved),
       board := g.board.(stacks := stacks, legitimacy := Holder(g, i, placed),
                         campaigns := g.board.campaigns[i.campaign :=
                                                        campaign.(activations := campaign.activations + 1)]),
       purse := g.purse.(vp := Rewarded(g.purse.vp, i, placed)))
  }

  // ---------------------------------------------- one stage after another

  lemma AwardEffect(f: Flow, env: Envelope, i: Impact, placed: nat)
    ensures Award(f, env, i, placed).game.purse.vp == Rewarded(f.game.purse.vp, i, placed)
    ensures Award(f, env, i, placed).game.board.legitimacy == Holder(f.game, i, placed)
  {
    var vp := VpOf(f.game, i.participant);
    if i.ertResult > 0 && placed > 0 && i.legitimacyBefore != Some(i.participant) {
      var once := f.game.purse.vp[i.participant := vp + placed];
      assert once[i.participant := vp + placed + 1] == f.game.purse.vp[i.participant := vp + placed + 1];
    }
  }

  lemma FinishCloses(cfg: Config, f: Flow, env: Envelope, at: nat, i: Impact, resolution: Resolution)
    requires HasSlot(f.game, i.participant, at) && i.campaign in f.game.board.campaigns && f.game.turn.pending.None?
    requires Finish(cfg, f, env, at, i, resolution).Commit?
    ensures var g, campaign := Bare(f.game), f.game.board.campaigns[i.campaign];
            Bare(Finish(cfg, f, env, at, i, resolution).game) ==
            g.(turn := ClosedTurn(cfg, g.turn, i.participant, at, Resolved), board := g.board.(campaigns :=
                g.board.campaigns[i.campaign := campaign.(activations := campaign.activations + 1)]))
  {
    hide LastRef;
  }

  /** Cubes, points and legitimacy, before the slot is closed. */
  function Moved(f: Flow, env: Envelope, i: Impact, selection: seq<CountryId>): Flow
    requires RemoveCubes(f, env, i, selection).Go?
  {
    var placed := Effect(f.game, i).placed;
    Award(PlaceCubes(RemoveCubes(f, env, i, selection).flow, env, i, placed), env, i, placed)
  }

  lemma MovedBare(f: Flow, env: Envelope, i: Impact, selection: seq<CountryId>)
    requires UniqueStacks(f.game.board.stacks) && RemoveCubes(f, env, i, selection).Go?
    ensures var g, placed := Bare(f.game), Effect(f.game, i).placed;
            var stacks := AddCubes(Taken(g.board.stacks, i.target, i.kind.Opposite(), multiset(selection)), i, placed);
            Bare(Moved(f, env, i, selection).game) ==
            g.(board := g.board.(stacks := stacks, legitimacy := Holder(f.game, i, placed)),
               purse := g.purse.(vp := Rewarded(g.purse.vp, i, placed)))
    ensures Moved(f, env, i, selection).game.turn == f.game.turn
    ensures Moved(f, env, i, selection).game.board.campaigns == f.game.board.campaigns
  {
    RemovalsExact(f, env, i, selection);
    hide Award, RemoveCubes, PlaceCubes, Effect, Taken, AddCubes, Reward, Holder;
    var placed := Effect(f.game, i).placed;
    var moved := PlaceCubes(RemoveCubes(f, env, i, selection).flow, env, i, placed);
    AwardEffect(moved, env, i, placed);
    HolderIsLocal(moved.game, f.game, i, placed);
  }

  lemma CompletionConcludes(cfg: Config, f: Flow, env: Envelope, at: nat, i: Impact, selection: seq<CountryId>)
    requires HasSlot(f.game, i.participant, at) && i.campaign in f.game.board.campaigns
    requires UniqueStacks(f.game.board.stacks)
    requires f.game.turn.pending.None? && CompleteActivation(cfg, f, env, at, i, selection).Commit?
    ensures Bare(CompleteActivation(cfg, f, env, at, i, selection).game) ==
            Conclude(cfg, Bare(f.game), at, i, multiset(selection))
  {
    hide Moved, CompleteActivation, Effect, Taken, AddCubes, Reward, Holder, ClosedTurn, RemoveCubes;
    CompletionTakes(cfg, f, env, at, i, selection);
    MovedBare(f, env, i, selection);
    EffectIsLocal(f.game, Bare(f.game), i);
    HolderIsLocal(f.game, Bare(f.game), i, Effect(f.game, i).placed);
    CompletionFinishes(cfg, f, env, at, i, selection);
  }

  lemma CompletionFinishes(cfg: Config, f: Flow, env: Envelope, at: nat, i: Impact, selection: seq<CountryId>)
    requires HasSlot(f.game, i.participant, at) && i.campaign in f.game.board.campaigns
    requires f.game.turn.pending.None? && CompleteActivation(cfg, f, env, at, i, selection).Commit?
    requires RemoveCubes(f, env, i, selection).Go? && Moved(f, env, i, selection).game.turn == f.game.turn
    requires Moved(f, env, i, selection).game.board.campaigns == f.game.board.campaigns
    ensures var g, campaign := Bare(Moved(f, env, i, selection).game), f.game.board.campaigns[i.campaign];
            Bare(CompleteActivation(cfg, f, env, at, i, selection).game) ==
            g.(turn := ClosedTurn(cfg, g.turn, i.participant, at, Resolved), board := g.board.(campaigns :=
                g.board.campaigns[i.campaign := campaign.(activations := campaign.activations + 1)]))
  {
    hide Award, RemoveCubes, PlaceCubes, Effect, Tally, Finish, ClosedTurn, Bare;
    var effect := Effect(f.game, i);
    var moved := PlaceCubes(RemoveCubes(f, env, i, selection).flow, env, i, effect.placed);
    var resolution := Resolution(|moved.game.audit.resolutions| + 1, i.target, i.kind, i.attribution, i.generated,
                                 2 * effect.removed, Tally(selection), effect.placed);
    FinishCloses(cfg, Moved(f, env, i, selection), env, at, i, resolution);
  }

  lemma HolderIsLocal(a: Game, b: Game, i: Impact, placed: nat)
    requires a.board.legitimacy == b.board.legitimacy
    ensures Holder(a, i, placed) == Holder(b, i, placed)
  {
  }

  lemma EffectIsLocal(a: Game, b: Game, i: Impact)
    requires a.board.stacks == b.board.stacks
    ensures Effect(a, i) == Effect(b, i)
  {
  }

  lemma BookedSpends(g: Game, p: ParticipantId, country: CountryId, cost: nat, costs: seq<nat>, core: bool)
    ensures var r := Booked(g, p, country, cost, costs, core);
            r.purse.resources == g.purse.resources[country :=
                                                   Balance(g, country) - cost - Sum(costs) - CoreCost(core)] &&
            r.purse.coreUsed == if core then g.purse.coreUsed + {p} else g.purse.coreUsed
  {
    hide PushComponents, Sum;
  }

  lemma DeductionIs(f: Flow, env: Envelope, p: ParticipantId, c: CampaignId, k: NarrativeContinuation)
    requires c in f.game.board.campaigns && Pay(f, env, p, c, k).Go?
    ensures Bare(Pay(f, env, p, c, k).flow.game) == Deduct(Bare(f.game), p, c, k)
  {
    var costs := ComponentCosts(f.game.board.campaigns[c].assignments);
    BookedSpends(f.game, p, k.country, k.cost, costs, k.core);
    hide Booked, Receipt, ComponentCosts, Sum;
  }

  lemma BoostIsLocal(f: Flow, env: Envelope, p: ParticipantId, index: nat, c: CampaignId)
    requires ApplyBoost(f, env, p, index, c).Go?
    ensures Bare(ApplyBoost(f, env, p, index, c).flow.game) ==
            if BoostApplies(f.game, p, index, c) then SpendBoost(Bare(f.game), p, f.game.table.boosts[p].card)
              else Bare(f.game)
  {
    hide DiscardFromHand;
    if BoostApplies(f.game, p, index, c) {
      DiscardIsLocal(f.game, Bare(f.game), p, f.game.table.boosts[p].card);
    }
  }

  lemma SpendingIs(f: Flow, env: Envelope, p: ParticipantId, index: nat, c: CampaignId, k: NarrativeContinuation)
    requires c in f.game.board.campaigns && Pay(f, env, p, c, k).Go?
    requires ApplyBoost(Pay(f, env, p, c, k).flow, env, p, index, c).Go?
    ensures Bare(ApplyBoost(Pay(f, env, p, c, k).flow, env, p, index, c).flow.game) ==
            Spend(Bare(f.game), p, index, c, k)
  {
    DeductionIs(f, env, p, c, k);
    BoostIsLocal(Pay(f, env, p, c, k).flow, env, p, index, c);
    assert Bare(f.game).table == f.game.table;
    hide Pay, ApplyBoost, Deduct, SpendBoost, Bare;
  }

  lemma DiscardIsLocal(a: Game, b: Game, p: ParticipantId, card: CardId)
    requires a.table == b.table
    ensures DiscardFromHand(a, p, card).table == DiscardFromHand(b, p, card).table
    ensures DiscardFromHand(b, p, card) == b.(table := DiscardFromHand(b, p, card).table)
    ensures DiscardFromHand(a, p, card) == a.(table := DiscardFromHand(a, p, card).table)
  {
  }

  // ----------------------------------------------------- recorded inputs

  /** The last value rolled. */
  function LastRaw(g: Game): int {
    if g.audit.dice == [] then 0 else g.audit.dice[|g.audit.dice| - 1].raw
  }

  function Cubes(tally: map<CountryId, nat>): multiset<CountryId> {
    multiset{}[Arden := Get(tally, Arden, 0)][Dinesia := Get(tally, Dinesia, 0)][Fluma := Get(tally, Fluma, 0)]
      [Presque := Get(tally, Presque, 0)][Ursaria := Get(tally, Ursaria, 0)]
  }

  /** The cubes cancelled by the last activation, by country. */
  function LastTaken(g: Game): multiset<CountryId> {
    if g.audit.resolutions == [] then multiset{} else Cubes(g.audit.resolutions[|g.audit.resolutions| - 1].removedBy)
  }

  /** Who contributed to a coalition after the first `from` lines of the ledger. */
  function Partners(entries: seq<ResourceEntry>, from: nat): set<ParticipantId> {
    if |entries| <= from then {}
    else
      var last := entries[|entries| - 1];
      Partners(entries[..|entries| - 1], from) + if last.reason == CoalitionContribution then {last.participant} else {}
  }

  lemma PartnersAfter(entries: seq<ResourceEntry>, e: ResourceEntry, from: nat)
    requires from <= |entries|
    ensures Partners(entries + [e], from) ==
            Partners(entries, from) + if e.reason == CoalitionContribution then {e.participant} else {}
  {
    assert (entries + [e])[..|entries|] == entries;
  }

  lemma CubesAt(tally: map<CountryId, nat>, c: CountryId)
    ensures Cubes(tally)[c] == Get(tally, c, 0)
  {
    match c case Arden => case Dinesia => case Fluma => case Presque => case Ursaria =>
  }

  lemma {:induction false} TallyCounts(selection: seq<CountryId>, c: CountryId)
    ensures Get(Tally(selection), c, 0) == multiset(selection)[c]
  {
    if selection != [] {
      var init, last := selection[..|selection| - 1], selection[|selection| - 1];
      assert selection == init + [last];
      TallyCounts(init, c);
      TallyCounts(init, last);
    }
  }

  lemma TallyIsMultiset(selection: seq<CountryId>)
    ensures Cubes(Tally(selection)) == multiset(selection)
  {
    forall c
      ensures Cubes(Tally(selection))[c] == multiset(selection)[c]
    {
      CubesAt(Tally(selection), c);
      TallyCounts(selection, c);
    }
  }

  lemma {:induction false} ComponentsAddNoPartner(g: Game, p: ParticipantId, country: CountryId, costs: seq<nat>,
                                                  balance: int, from: nat)
    requires from <= |g.audit.resourceLedger|
    ensures Partners(PushComponents(g, p, country, costs, balance).audit.resourceLedger, from) ==
            Partners(g.audit.resourceLedger, from)
  {
    if costs != [] {
      ComponentsAddNoPartner(g, p, country, costs[..|costs| - 1], balance, from);
      var g1 := PushComponents(g, p, country, costs[..|costs| - 1], balance);
      PartnersAfter(g1.audit.resourceLedger,
                    PushComponents(g, p, country, costs, balance).audit.resourceLedger[|g1.audit.resourceLedger|],
                      from);
    }
  }

  lemma PushAddsNoPartner(g: Game, p: ParticipantId, country: CountryId, reason: ResourceReason, delta: int,
                          balance: int, from: nat)
    requires from <= |g.audit.resourceLedger| && reason != CoalitionContribution
    ensures Partners(PushResource(g, p, country, reason, delta, balance).audit.resourceLedger, from) ==
            Partners(g.audit.resourceLedger, from)
  {
    PartnersAfter(g.audit.resourceLedger,
                  PushResource(g, p, country, reason, delta, balance).audit.resourceLedger[|g.audit.resourceLedger|],
                    from);
  }

  lemma PaymentAddsNoPartner(f: Flow, env: Envelope, p: ParticipantId, c: CampaignId, k: NarrativeContinuation,
                             from: nat)
    requires c in f.game.board.campaigns && Pay(f, env, p, c, k).Go? && from <= |f.game.audit.resourceLedger|
    ensures Partners(Pay(f, env, p, c, k).flow.game.audit.resourceLedger, from) ==
            Partners(f.game.audit.resourceLedger, from)
  {
    hide PushComponents, ComponentCosts, Receipt, Sum, Partners;
    var costs, g := ComponentCosts(f.game.board.campaigns[c].assignments), f.game;
    var before := Balance(g, k.country);
    var after := before - k.cost - Sum(costs) - CoreCost(k.core);
    var g0 := SetBalance(g, k.country, after);
    PushAddsNoPartner(g0, p, k.country, ActivationCost, -(k.cost as int), before - k.cost, from);
    var g1 := PushResource(g0, p, k.country, ActivationCost, -(k.cost as int), before - k.cost);
    ComponentsAddNoPartner(g1, p, k.country, costs, before - k.cost, from);
    PushAddsNoPartner(PushComponents(g1, p, k.country, costs, before - k.cost), p, k.country, CoreModifier, -2, after,
                      from);
  }

  lemma ContributionAddsPartner(f: Flow, env: Envelope, p: ParticipantId, country: CountryId, cause: EventId, from: nat)
    requires from <= |f.game.audit.resourceLedger|
    ensures Partners(Contribute(f, env, p, country, cause).game.audit.resourceLedger, from) ==
            Partners(f.game.audit.resourceLedger, from) + {p}
  {
    hide Partners;
    var after := Contribute(f, env, p, country, cause).game.audit.resourceLedger;
    PartnersAfter(f.game.audit.resourceLedger, after[|f.game.audit.resourceLedger|], from);
  }

  /** One contribution more. */
  lemma ChargeOneMore(cfg: Config, g: Game, who: set<ParticipantId>, p: ParticipantId)
    requires p in cfg.seats && p !in who && cfg.seats[p] in g.purse.resources
    ensures var charged := Charge(cfg, g, who);
            SetBalance(charged, cfg.seats[p], Balance(charged, cfg.seats[p]) - 1) == Charge(cfg, g, who + {p})
  {
    forall c
      ensures |Givers(cfg.seats, who + {p}, c)| == |Givers(cfg.seats, who, c)| + if c == cfg.seats[p] then 1 else 0
    {
      if c == cfg.seats[p] {
        assert Givers(cfg.seats, who + {p}, c) == Givers(cfg.seats, who, c) + {p};
      } else {
        assert Givers(cfg.seats, who + {p}, c) == Givers(cfg.seats, who, c);
      }
    }
  }

  lemma ChargeNobody(cfg: Config, g: Game)
    ensures Charge(cfg, g, {}) == g
  {
    forall c
      ensures Givers(cfg.seats, {}, c) == {}
    {
    }
    assert Charge(cfg, g, {}).purse.resources == g.purse.resources;
  }

  // -------------------------------------------------- the reference result

  /** An activation as revealed: the position, whose slot it is, and what was worked out at its start. */
  datatype Course = Course(shown: Game, p: ParticipantId, at: nat, c: CampaignId, k: NarrativeContinuation, from: nat)

  ghost predicate Proper(cfg: Config, a: Course) {
    CursorAt(cfg, a.shown.turn, a.p, a.at) && a.c in a.shown.board.campaigns && Bare(a.shown) == a.shown
  }

  function Index(a: Course): nat
    requires HasSlot(a.shown, a.p, a.at)
  {
    a.shown.turn.plan[a.p][a.at].index
  }

  function Spent(cfg: Config, a: Course, who: set<ParticipantId>): (r: Game)
    requires HasSlot(a.shown, a.p, a.at) && a.c in a.shown.board.campaigns
    ensures r == a.shown.(purse := r.purse, table := r.table)
  {
    Spend(Charge(cfg, a.shown, who), a.p, Index(a), a.c, a.k)
  }

  /** The impact that follows from the contributors and the roll. */
  function Stake(cfg: Config, a: Course, who: set<ParticipantId>, raw: int): (i: Impact)
    requires HasSlot(a.shown, a.p, a.at) && a.c in a.shown.board.campaigns
    ensures i.participant == a.p && i.campaign == a.c
  {
    var boost := if BoostApplies(a.shown, a.p, Index(a), a.c) then 1 else 0;
    ResolutionInput(cfg, Spent(cfg, a, who), a.p, Index(a), a.c, a.k, |who|, boost, raw)
  }

  /** Where the activation ends: nothing but these inputs matters. */
  function Ending(cfg: Config, a: Course, who: set<ParticipantId>, raw: int, taken: multiset<CountryId>): Game
    requires HasSlot(a.shown, a.p, a.at) && a.c in a.shown.board.campaigns
  {
    Conclude(cfg, Spent(cfg, a, who), a.at, Stake(cfg, a, who, raw), taken)
  }

  /** As many cubes as cancellation removes, each one there to take when the activation was revealed. */
  ghost predicate Cancels(a: Course, i: Impact, taken: multiset<CountryId>) {
    |taken| == Effect(a.shown, i).removed && Enough(a.shown.board.stacks, i.target, i.kind.Opposite(), taken)
  }

  function Plain(k: NarrativeContinuation): NarrativeContinuation {
    k.(refs := [], preStateHash := 0)
  }

  ghost predicate Answers(eligible: seq<ParticipantId>, decisions: map<ParticipantId, bool>, who: set<ParticipantId>) {
    Distinct(eligible) && (forall q :: q in decisions ==> q in eligible) &&
      (forall q :: q in who <==> q in decisions && decisions[q])
  }

  /** Wherever the activation stands, it stands on the way to that ending. */
  ghost predicate OnCourse(cfg: Config, a: Course, g: Game)
    requires HasSlot(a.shown, a.p, a.at) && a.c in a.shown.board.campaigns
  {
    var who := Partners(g.audit.resourceLedger, a.from);
    a.from <= |g.audit.resourceLedger| &&
    if g.turn.pending.None? then
      Bare(g) == Ending(cfg, a, who, LastRaw(g), LastTaken(g)) &&
      LastResult(g.events) == Stake(cfg, a, who, LastRaw(g)).ertResult &&
      Cancels(a, Stake(cfg, a, who, LastRaw(g)), LastTaken(g))
    else
      var b := g.turn.pending.value.base;
      b.participant == a.p && b.campaign == a.c && b.index == Index(a) &&
      match g.turn.pending.value
      case NarrativePending(_, k) => who == {} && Bare(g) == a.shown && Plain(k) == a.k
      case CoalitionPending(_, k, eligible, _, decisions, _, _) =>
        Bare(g) == Charge(cfg, a.shown, who) && Plain(k) == a.k && Answers(eligible, decisions, who)
      case DiePending(_, k, bonus, _, _) => Bare(g) == Charge(cfg, a.shown, who) && Plain(k) == a.k && bonus == |who|
      case ChoicePending(_, choice) =>
        Bare(g) == Spent(cfg, a, who) && choice.impact == Stake(cfg, a, who, LastRaw(g)) &&
        LastResult(g.events) == choice.impact.ertResult
  }

  // -------------------------------------------------------- staying on it

  lemma FinishRecords(cfg: Config, f: Flow, env: Envelope, at: nat, i: Impact, resolution: Resolution)
    requires HasSlot(f.game, i.participant, at) && i.campaign in f.game.board.campaigns
    requires Finish(cfg, f, env, at, i, resolution).Commit?
    ensures var audit := Finish(cfg, f, env, at, i, resolution).game.audit;
            audit == f.game.audit.(resolutions := f.game.audit.resolutions + [resolution])
  {
    hide LastRef, ClosedTurn;
  }

  lemma CompletionRecords(cfg: Config, f: Flow, env: Envelope, at: nat, i: Impact, selection: seq<CountryId>)
    requires HasSlot(f.game, i.participant, at) && i.campaign in f.game.board.campaigns
    requires CompleteActivation(cfg, f, env, at, i, selection).Commit?
    ensures var after := CompleteActivation(cfg, f, env, at, i, selection).game;
            LastTaken(after) == multiset(selection) && after.audit.dice == f.game.audit.dice &&
            after.audit.resourceLedger == f.game.audit.resourceLedger
  {
    hide Award, RemoveCubes, PlaceCubes, Effect, Tally, Finish, Cubes;
    var effect := Effect(f.game, i);
    var moved := PlaceCubes(RemoveCubes(f, env, i, selection).flow, env, i, effect.placed);
    var resolution := Resolution(|moved.game.audit.resolutions| + 1, i.target, i.kind, i.attribution, i.generated,
                                 2 * effect.removed, Tally(selection), effect.placed);
    FinishRecords(cfg, Award(moved, env, i, effect.placed), env, at, i, resolution);
    TallyIsMultiset(selection);
  }

  lemma SpentKeepsBoard(cfg: Config, a: Course, g: Game)
    requires Proper(cfg, a) && Bare(g) == Spent(cfg, a, Partners(g.audit.resourceLedger, a.from))
    ensures g.board.stacks == a.shown.board.stacks
  {
    hide Partners, Spent;
  }

  lemma CompletionOnCourse(cfg: Config, a: Course, f: Flow, env: Envelope, i: Impact, selection: seq<CountryId>)
    requires Proper(cfg, a) && a.from <= |f.game.audit.resourceLedger| && f.game.turn.pending.None?
    requires UniqueStacks(f.game.board.stacks)
    requires Bare(f.game) == Spent(cfg, a, Partners(f.game.audit.resourceLedger, a.from))
    requires i == Stake(cfg, a, Partners(f.game.audit.resourceLedger, a.from), LastRaw(f.game))
    requires LastResult(f.game.events) == i.ertResult
    requires HasSlot(f.game, i.participant, a.at) && i.campaign in f.game.board.campaigns
    requires CompleteActivation(cfg, f, env, a.at, i, selection).Commit?
    ensures OnCourse(cfg, a, CompleteActivation(cfg, f, env, a.at, i, selection).game)
  {
    hide CompleteActivation, Conclude, Spent, Stake, Partners, LastTaken, Bare, Locate;
    CompletionConcludes(cfg, f, env, a.at, i, selection);
    CompletionRecords(cfg, f, env, a.at, i, selection);
    CompletionKeepsResult(cfg, f, env, a.at, i, selection);
    SpentKeepsBoard(cfg, a, f.game);
    CompletionCancels(cfg, a, f, env, i, selection);
    hide LastResult, Cancels;
  }

  lemma CompletionCancels(cfg: Config, a: Course, f: Flow, env: Envelope, i: Impact, selection: seq<CountryId>)
    requires f.game.board.stacks == a.shown.board.stacks && UniqueStacks(f.game.board.stacks)
    requires HasSlot(f.game, i.participant, a.at) && i.campaign in f.game.board.campaigns
    requires CompleteActivation(cfg, f, env, a.at, i, selection).Commit?
    ensures Cancels(a, i, multiset(selection))
  {
    CompletesIff(cfg, f, env, a.at, i, selection);
    EffectIsLocal(f.game, a.shown, i);
    hide CompleteActivation, Effect, Enough, UniqueStacks;
  }

  lemma ResolutionOnCourse(cfg: Config, a: Course, f: Flow, env: Envelope, i: Impact)
    requires Proper(cfg, a) && a.from <= |f.game.audit.resourceLedger| && f.game.turn.pending.None?
    requires f.game.turn.cursor.status == Ready && UniqueStacks(f.game.board.stacks)
    requires Bare(f.game) == Spent(cfg, a, Partners(f.game.audit.resourceLedger, a.from))
    requires i == Stake(cfg, a, Partners(f.game.audit.resourceLedger, a.from), LastRaw(f.game))
    requires LastResult(f.game.events) == i.ertResult
    requires HasSlot(f.game, i.participant, a.at) && i.campaign in f.game.board.campaigns
    requires Resolve(cfg, f, env, a.at, i).Commit?
    ensures OnCourse(cfg, a, Resolve(cfg, f, env, a.at, i).game)
  {
    hide CompleteActivation, AutomaticSelections, Effect, SourcesOf, Spent, Stake, Partners, LastRef;
    var removals := Effect(f.game, i).removed;
    if removals > 0 && |SourcesOf(f.game, i)| > 1 {
      assert f.game.turn.plan == a.shown.turn.plan;
    } else {
      CompletionOnCourse(cfg, a, f, env, i,
                         AutomaticSelections(f.game.board.stacks, i.target, i.kind.Opposite(), COUNTRIES, removals));
    }
  }

  lemma SpendIgnoresRecords(g: Game, p: ParticipantId, index: nat, c: CampaignId, k: NarrativeContinuation)
    requires c in g.board.campaigns
    ensures Spend(g, p, index, c, k) == Spend(g, p, index, c, Plain(k))
  {
    hide SpendBoost, TotalCost;
  }

  lemma ImpactIsLocal(cfg: Config, g: Game, other: Game, p: ParticipantId, index: nat, c: CampaignId,
                      k: NarrativeContinuation, bonus: nat, boost: int, raw: int)
    requires c in g.board.campaigns && other.board.campaigns == g.board.campaigns
    requires other.board.legitimacy == g.board.legitimacy && other.purse.vp == g.purse.vp
    ensures ResolutionInput(cfg, g, p, index, c, k, bonus, boost, raw) ==
            ResolutionInput(cfg, other, p, index, c, Plain(k), bonus, boost, raw)
  {
  }

  /** The position once the activation is paid, as the reference has it. */
  lemma BoostedIsSpent(cfg: Config, a: Course, f: Flow, env: Envelope, k: NarrativeContinuation)
    requires Proper(cfg, a) && Plain(k) == a.k && a.from <= |f.game.audit.resourceLedger|
    requires Bare(f.game) == Charge(cfg, a.shown, Partners(f.game.audit.resourceLedger, a.from))
    requires a.c in f.game.board.campaigns && Pay(f, env, a.p, a.c, k).Go?
    requires ApplyBoost(Pay(f, env, a.p, a.c, k).flow, env, a.p, Index(a), a.c).Go?
    ensures var boosted := ApplyBoost(Pay(f, env, a.p, a.c, k).flow, env, a.p, Index(a), a.c).flow.game;
            Bare(boosted) == Spent(cfg, a, Partners(f.game.audit.resourceLedger, a.from)) &&
            Partners(boosted.audit.resourceLedger, a.from) == Partners(f.game.audit.resourceLedger, a.from) &&
            a.from <= |boosted.audit.resourceLedger|
  {
    hide Spend, Charge, Partners, Booked, Receipt, ComponentCosts, SpendBoost;
    SpendingIs(f, env, a.p, Index(a), a.c, k);
    SpendIgnoresRecords(Bare(f.game), a.p, Index(a), a.c, k);
    PaymentAddsNoPartner(f, env, a.p, a.c, k, a.from);
    LedgerGrows(f, env, a.p, a.c, k);
  }

  lemma LedgerGrows(f: Flow, env: Envelope, p: ParticipantId, c: CampaignId, k: NarrativeContinuation)
    requires c in f.game.board.campaigns && Pay(f, env, p, c, k).Go?
    ensures |Pay(f, env, p, c, k).flow.game.audit.resourceLedger| >= |f.game.audit.resourceLedger|
  {
    hide Receipt, ComponentCosts;
  }

  lemma RollOnCourse(cfg: Config, a: Course, f: Flow, env: Envelope, k: NarrativeContinuation, bonus: nat,
                     die: Option<int>, manual: Option<ManualRoll>)
    requires Proper(cfg, a) && Plain(k) == a.k && a.from <= |f.game.audit.resourceLedger|
    requires f.game.turn.pending.None? && f.game.turn.cursor.status == Ready && UniqueStacks(f.game.board.stacks)
    requires Bare(f.game) == Charge(cfg, a.shown, Partners(f.game.audit.resourceLedger, a.from))
    requires bonus == |Partners(f.game.audit.resourceLedger, a.from)|
    requires a.c in f.game.board.campaigns && HasSlot(f.game, a.p, a.at)
    requires RollAndResolve(cfg, f, env, a.p, a.at, a.c, k, bonus, die, manual).Commit?
    ensures OnCourse(cfg, a, RollAndResolve(cfg, f, env, a.p, a.at, a.c, k, bonus, die, manual).game)
  {
    hide Pay, ApplyBoost, Resolve, ResolutionInput, RollValue, Spent, Partners, Charge, BoostApplies, UniqueStacks,
      OnCourse;
    ChargeIsLocal(cfg, a.shown, Partners(f.game.audit.resourceLedger, a.from));
    var paid := Pay(f, env, a.p, a.c, k).flow;
    var boosted := ApplyBoost(paid, env, a.p, Index(a), a.c).flow;
    BoostedIsSpent(cfg, a, f, env, k);
    var boost := if BoostApplies(f.game, a.p, Index(a), a.c) then 1 else 0;
    var raw := RollValue(die, manual).value;
    var rolled := Roll(cfg, boosted, env, a.p, a.c, k, bonus, boost, raw, manual);
    RolledIsLocal(cfg, boosted, env, a.p, a.c, k, bonus, boost, raw, manual);
    RollRecordsResult(cfg, boosted, env, a.p, a.c, k, bonus, boost, raw, manual);
    ImpactShowsResult(cfg, boosted.game, a.p, Index(a), a.c, k, bonus, boost, raw);
    hide LastResult, ErtResult;
    StakeIs(cfg, a, boosted.game, f.game, k, raw);
    hide Roll;
    ResolutionOnCourse(cfg, a, rolled, env,
                       ResolutionInput(cfg, boosted.game, a.p, Index(a), a.c, k, bonus, boost, raw));
  }

  lemma ImpactShowsResult(cfg: Config, g: Game, p: ParticipantId, index: nat, c: CampaignId,
                          k: NarrativeContinuation, bonus: nat, boost: int, raw: int)
    requires c in g.board.campaigns
    ensures ResolutionInput(cfg, g, p, index, c, k, bonus, boost, raw).ertResult ==
            ErtResult(cfg, g, p, c, k, bonus, boost, raw)
  {
  }

  lemma ChargeIsLocal(cfg: Config, g: Game, who: set<ParticipantId>)
    ensures Charge(cfg, g, who) == g.(purse := Charge(cfg, g, who).purse)
  {
  }

  lemma RolledIsLocal(cfg: Config, f: Flow, env: Envelope, p: ParticipantId, c: CampaignId, k: NarrativeContinuation,
                      bonus: nat, boost: int, raw: int, manual: Option<ManualRoll>)
    requires c in f.game.board.campaigns
    ensures var r := Roll(cfg, f, env, p, c, k, bonus, boost, raw, manual).game;
            LastRaw(r) == raw && Bare(r) == Bare(f.game) && r.audit.resourceLedger == f.game.audit.resourceLedger
  {
    hide ErtResult, ErtRoll, LegitimacyModifier, LastRef, TierFor;
  }

  lemma StakeIs(cfg: Config, a: Course, boosted: Game, before: Game, k: NarrativeContinuation, raw: int)
    requires Proper(cfg, a) && Plain(k) == a.k && a.c in boosted.board.campaigns
    requires before.table.boosts == a.shown.table.boosts
    requires Bare(boosted) == Spent(cfg, a, Partners(before.audit.resourceLedger, a.from))
    ensures var boost := if BoostApplies(before, a.p, Index(a), a.c) then 1 else 0;
            var who := Partners(before.audit.resourceLedger, a.from);
            ResolutionInput(cfg, boosted, a.p, Index(a), a.c, k, |who|, boost, raw) == Stake(cfg, a, who, raw)
  {
    hide Partners, Spent, ResolutionInput;
    var who := Partners(before.audit.resourceLedger, a.from);
    var boost := if BoostApplies(before, a.p, Index(a), a.c) then 1 else 0;
    ImpactIsLocal(cfg, boosted, Spent(cfg, a, who), a.p, Index(a), a.c, k, |who|, boost, raw);
  }

  /** The position of an activation that has not been paid yet. */
  ghost predicate Unpaid(cfg: Config, a: Course, g: Game, k: NarrativeContinuation) {
    Proper(cfg, a) && Plain(k) == a.k && a.from <= |g.audit.resourceLedger| && UniqueStacks(g.board.stacks) &&
    Bare(g) == Charge(cfg, a.shown, Partners(g.audit.resourceLedger, a.from))
  }

  ghost predicate Agreed(coalition: Coalition, who: set<ParticipantId>) {
    if coalition.Undecided? then who == {} else coalition.bonus == |who|
  }

  lemma UnpaidIsShown(cfg: Config, a: Course, g: Game, k: NarrativeContinuation)
    requires Unpaid(cfg, a, g, k)
    ensures g.turn.plan == a.shown.turn.plan && HasSlot(g, a.p, a.at) && a.c in g.board.campaigns
    ensures g.turn.cursor.participant == a.shown.turn.cursor.participant && g.turn.cursor.slot == a.at
  {
    hide Partners, Charge;
    ChargeIsLocal(cfg, a.shown, Partners(g.audit.resourceLedger, a.from));
  }

  lemma {:induction false} AlliesDistinct(cfg: Config, order: seq<ParticipantId>, p: ParticipantId)
    requires Distinct(order)
    ensures Distinct(Allies(cfg, order, p))
  {
    if order != [] {
      AlliesDistinct(cfg, order[1..], p);
      assert forall n :: 0 <= n < |order[1..]| ==> order[1..][n] != order[0];
    }
  }

  lemma AskingStaysOnCourse(cfg: Config, a: Course, f: Flow, env: Envelope, k: NarrativeContinuation,
                            coalition: Coalition)
    requires Unpaid(cfg, a, f.game, k) && Distinct(cfg.order)
    requires f.game.turn.pending.None? && f.game.turn.cursor.status == Ready
    requires Agreed(coalition, Partners(f.game.audit.resourceLedger, a.from))
    requires a.c in f.game.board.campaigns && HasSlot(f.game, a.p, a.at)
    ensures coalition.Undecided? ==> OnCourse(cfg, a, AskCoalition(cfg, f, env, a.p, a.at, a.c, k))
    ensures var bonus := if coalition.Decided? then coalition.bonus
            else 0; OnCourse(cfg, a, AskDie(f, env, a.p, a.at, a.c, k, bonus))
  {
    UnpaidIsShown(cfg, a, f.game, k);
    AlliesDistinct(cfg, cfg.order, a.p);
    hide Partners, Charge, Allies, LastRef, UniqueStacks;
  }

  lemma PreRollKeepsBare(f: Flow, env: Envelope)
    ensures Bare(PreRoll(f, env).game) == Bare(f.game)
  {
    hide PreRoll;
  }

  lemma NarrativeOnCourse(cfg: Config, a: Course, f: Flow, env: Envelope, k: NarrativeContinuation,
                          coalition: Coalition,
                          die: Option<int>, manual: Option<ManualRoll>)
    requires Unpaid(cfg, a, f.game, k) && Distinct(cfg.order)
    requires f.game.turn.pending.None? && f.game.turn.cursor.status == Ready
    requires Agreed(coalition, Partners(f.game.audit.resourceLedger, a.from))
    requires AfterNarrative(cfg, f, env, a.p, a.at, a.c, k, coalition, die, manual).Commit?
    ensures OnCourse(cfg, a, AfterNarrative(cfg, f, env, a.p, a.at, a.c, k, coalition, die, manual).game)
  {
    hide RollAndResolve, PreRoll, NeedsCoalition, Allies, AskCoalition, AskDie, OnCourse, Bare, Charge, Partners,
      UniqueStacks;
    UnpaidIsShown(cfg, a, f.game, k);
    var bonus := if coalition.Decided? then coalition.bonus else 0;
    var ready := if manual.None? then PreRoll(f, env) else f;
    PreRollKeepsBare(f, env);
    AskingStaysOnCourse(cfg, a, f, env, k, coalition);
    AskingStaysOnCourse(cfg, a, ready, env, k, coalition);
    if !(NeedsCoalition(f.game.board.campaigns[a.c]) && coalition.Undecided? && Allies(cfg, cfg.order, a.p) != []) &&
       !(cfg.manualDice && manual.None?) {
      RollOnCourse(cfg, a, ready, env, k, bonus, die, manual);
    }
  }

  // ------------------------------------------------------------- commands

  function CourseOf(cfg: Config, g: Game, p: ParticipantId, at: nat, action: Action, from: nat): Course
    requires action.Activate? && ActivationError(cfg, g, p, action).None?
  {
    Course(Bare(g), p, at, action.campaign, Plain(ContinuationOf(cfg, g, p, action, 0, [])), from)
  }

  /** Enough resources for the activation when its slot is revealed. */
  predicate Affordable(cfg: Config, g: Game, p: ParticipantId, action: Action)
    requires action.Activate? && ActivationError(cfg, g, p, action).None?
  {
    var campaign := g.board.campaigns[action.campaign];
    Balance(g, cfg.seats[p]) >= TotalCost(campaign, cfg.valueOf(campaign.assignments).cost, action.useCore)
  }

  lemma StartIsUnpaid(cfg: Config, g: Game, told: Game, p: ParticipantId, at: nat, action: Action, hash: int,
                      refs: seq<EventId>)
    requires action.Activate? && ActivationError(cfg, g, p, action).None? && Working(cfg, g, p, at)
    requires Bare(told) == Bare(g) && told.audit == g.audit && told.board.stacks == g.board.stacks
    ensures Unpaid(cfg, CourseOf(cfg, g, p, at, action, |g.audit.resourceLedger|), told,
                   ContinuationOf(cfg, g, p, action, hash, refs))
    ensures Partners(told.audit.resourceLedger, |g.audit.resourceLedger|) == {}
  {
    ChargeNobody(cfg, Bare(g));
    hide Charge, UniqueStacks;
  }

  lemma StartOnCourse(cfg: Config, g: Game, env: Envelope, p: ParticipantId, at: nat, action: Action, hash: int,
                      refs: seq<EventId>, die: Option<int>)
    requires action.Activate? && HasSlot(g, p, at) && Working(cfg, g, p, at) && Distinct(cfg.order)
    requires g.turn.pending.None? && g.turn.cursor.status == Ready
    requires StartActivation(cfg, g, env, p, at, action, hash, refs, die).Commit? && Affordable(cfg, g, p, action)
    ensures OnCourse(cfg, CourseOf(cfg, g, p, at, action, |g.audit.resourceLedger|),
                     StartActivation(cfg, g, env, p, at, action, hash, refs, die).game)
  {
    hide AfterNarrative, CloseSlot, ContinuationOf, TotalCost, LastRef, UniqueStacks, Partners, Charge;
    var started := Continue(Flow(g, refs, []), env,
      ActivationStarted(ActivationOf(g, action.campaign), action.campaign, p, action.target.value, hash));
    var k := ContinuationOf(cfg, g, p, action, hash, started.refs);
    PlainForgets(cfg, g, p, action, hash, started.refs);
    if action.campaign in g.board.narratives {
      var n := g.board.narratives[action.campaign];
      var told := Continue(started, Envelope(n.actor, None, n.correlation, Some(n.cause)),
                           NarrativeSubmitted(action.campaign, n.inputId, n.source, n.text, Some(n.cause)));
      StartIsUnpaid(cfg, g, told.game, p, at, action, hash, started.refs);
      hide OnCourse, Unpaid, Bare;
      NarrativeOnCourse(cfg, CourseOf(cfg, g, p, at, action, |g.audit.resourceLedger|), told, env, k, Undecided, die,
                        None);
    } else {
      StartIsUnpaid(cfg, g, started.game, p, at, action, hash, started.refs);
      assert Bare(StartActivation(cfg, g, env, p, at, action, hash, refs, die).game) == Bare(g);
    }
  }

  lemma PlainForgets(cfg: Config, g: Game, p: ParticipantId, action: Action, hash: int, refs: seq<EventId>)
    requires action.Activate? && ActivationError(cfg, g, p, action).None?
    ensures Plain(ContinuationOf(cfg, g, p, action, hash, refs)) == Plain(ContinuationOf(cfg, g, p, action, 0, []))
  {
  }

  lemma TellNarrativeOnCourse(cfg: Config, a: Course, g: Game, open: set<ActivationId>, actor: Actor, inputId: string,
                              correlation: string, campaign: CampaignId, text: string, die: Option<int>)
    requires Steady(cfg, g, open) && Proper(cfg, a) && OnCourse(cfg, a, g) && Distinct(cfg.order)
    requires TellNarrative(cfg, g, actor, inputId, correlation, campaign, text, die).Commit?
    ensures OnCourse(cfg, a, TellNarrative(cfg, g, actor, inputId, correlation, campaign, text, die).game)
  {
    PendingSlotIsCurrent(cfg, g, open);
    ChargeNobody(cfg, a.shown);
    hide AfterNarrative, UniqueStacks, PlanOk, PendingSlot, Partners, Charge, SeatedPlayer, Secured;
    var pending := g.turn.pending.value;
    var base, cause := pending.base, ByEvent(pending.base.cause);
    var told := g.(board := g.board.(narratives := g.board.narratives[campaign :=
      Narrative(inputId, text, Player, actor.user, Some(base.participant), correlation, cause)]));
    var g1 := Resume(Emit(told, By(actor, correlation), NarrativeSubmitted(campaign, inputId, Player, text, None),
                          Some(cause)));
    assert Bare(g1) == Bare(g);
    UnpaidIsShown(cfg, a, g1, pending.k);
    hide OnCourse, Bare;
    NarrativeOnCourse(cfg, a, Flow(g1, pending.k.refs + [|g1.events|], []),
                      System(base.correlation, Some(ByEvent(|g1.events|))),
                      pending.k, Undecided, die, None);
  }

  lemma EnterDieOnCourse(cfg: Config, a: Course, g: Game, open: set<ActivationId>, actor: Actor, request: ActivationId,
                         value: int)
    requires Steady(cfg, g, open) && Proper(cfg, a) && OnCourse(cfg, a, g) && Distinct(cfg.order)
    requires EnterDie(cfg, g, actor, request, value).Commit?
    ensures OnCourse(cfg, a, EnterDie(cfg, g, actor, request, value).game)
  {
    PendingSlotIsCurrent(cfg, g, open);
    hide AfterNarrative, UniqueStacks, PlanOk, PendingSlot, Partners, Charge, SeatedPlayer, Facilitates, Secured;
    var pending := g.turn.pending.value;
    var base := pending.base;
    assert Bare(Resume(g)) == Bare(g);
    UnpaidIsShown(cfg, a, Resume(g), pending.k);
    hide OnCourse, Bare;
    NarrativeOnCourse(cfg, a, Flow(Resume(g), pending.refs, pending.ledgers),
                      System(base.correlation, Some(ByEvent(base.cause))),
                      pending.k, Decided(pending.bonus), None, Some(ManualRoll(value, actor.participant)));
  }

  /** What is known of an activation that waits for an attribution. */
  lemma ChoiceCourse(cfg: Config, a: Course, g: Game, open: set<ActivationId>)
    requires Steady(cfg, g, open) && Proper(cfg, a) && OnCourse(cfg, a, g)
    requires g.turn.pending.Some? && g.turn.pending.value.ChoicePending?
    ensures var pending, who := g.turn.pending.value, Partners(g.audit.resourceLedger, a.from);
            a.from <= |g.audit.resourceLedger| && UniqueStacks(g.board.stacks) &&
            PendingSlot(g, pending.base) == a.at && g.turn.cursor.status == Suspended &&
            Bare(g) == Spent(cfg, a, who) &&
            pending.choice.impact == Stake(cfg, a, who, LastRaw(g)) &&
            LastResult(g.events) == pending.choice.impact.ertResult
  {
    PendingSlotIsCurrent(cfg, g, open);
    hide UniqueStacks, PlanOk, PendingSlot, Partners, Spent, Stake, Secured, LastResult;
    assert g.turn.cursor.slot == a.at;
  }

  lemma ChooseOnCourse(cfg: Config, a: Course, g: Game, open: set<ActivationId>, actor: Actor, correlation: string,
                       choice: ActivationId, version: nat, selection: seq<nat>)
    requires Steady(cfg, g, open) && Proper(cfg, a) && OnCourse(cfg, a, g)
    requires Choose(cfg, g, actor, correlation, choice, version, selection).Commit?
    ensures OnCourse(cfg, a, Choose(cfg, g, actor, correlation, choice, version, selection).game)
  {
    hide CompleteActivation, UniqueStacks, PendingSlot, Partners, Spent, Stake, SeatedPlayer, Takeable, Secured, Steady,
      OnCourse, Proper;
    ChoiceCourse(cfg, a, g, open);
    var pending := g.turn.pending.value;
    var k := pending.choice;
    var told := Emit(g, By(actor, correlation), ChoiceResolved(choice, selection), Some(ByEvent(pending.base.cause)));
    var g1 := Resume(told.(turn := told.turn.(resolvedChoices := told.turn.resolvedChoices + [choice])));
    assert Bare(g1) == Bare(g);
    QuietKeepsResult(g, g1);
    hide Bare, LastResult;
    CompletionOnCourse(cfg, a, Flow(g1, k.refs + [|g1.events|], k.ledgers),
                       System(pending.base.correlation, Some(ByEvent(|g1.events|))), k.impact,
                         Selected(k.options, selection));
  }

  /** The bonus counts the contributors; it does not matter in which order they answered. */
  lemma {:induction false} BonusIsHeadcount(eligible: seq<ParticipantId>, decisions: map<ParticipantId, bool>,
                                            who: set<ParticipantId>)
    requires Distinct(eligible) && forall q :: q in who <==> q in eligible && q in decisions && decisions[q]
    ensures Contributors(eligible, decisions) == |who|
  {
    if eligible == [] {
      assert who == {};
    } else {
      var first := eligible[0];
      assert first !in eligible[1..];
      BonusIsHeadcount(eligible[1..], decisions, who - {first});
      if first in who {
        assert who == (who - {first}) + {first};
      } else {
        assert who == who - {first};
      }
    }
  }

  lemma BonusOfAnswers(eligible: seq<ParticipantId>, decisions: map<ParticipantId, bool>, who: set<ParticipantId>)
    requires Answers(eligible, decisions, who)
    ensures Contributors(eligible, decisions) == |who|
  {
    BonusIsHeadcount(eligible, decisions, who);
  }

  lemma PaymentOnCourse(cfg: Config, a: Course, g: Game, env: Envelope, p: ParticipantId, contributes: bool)
    requires g.turn.pending.Some? && g.turn.pending.value.CoalitionPending? && p in cfg.seats && Proper(cfg, a)
    requires OnCourse(cfg, a, g) && p !in g.turn.pending.value.decisions && UniqueStacks(g.board.stacks)
    requires contributes ==> Balance(g, cfg.seats[p]) >= 1
    ensures var paid := Paid(cfg, g, env, p, contributes).game;
            Unpaid(cfg, a, paid, g.turn.pending.value.k) &&
            Partners(paid.audit.resourceLedger, a.from) ==
              Partners(g.audit.resourceLedger, a.from) + if contributes then {p} else {}
  {
    var pending, who := g.turn.pending.value, Partners(g.audit.resourceLedger, a.from);
    var f := Flow(g, pending.refs, pending.ledgers);
    if contributes {
      ContributionAddsPartner(f, env, p, cfg.seats[p], pending.base.cause, a.from);
      assert cfg.seats[p] in Bare(g).purse.resources;
      ChargeOneMore(cfg, a.shown, who, p);
      hide Partners, Charge, UniqueStacks;
      ContributionIsCharge(f, env, p, cfg.seats[p], pending.base.cause);
    } else {
      hide Partners, Charge, UniqueStacks;
      assert who + {} == who;
    }
  }

  lemma ContributionIsCharge(f: Flow, env: Envelope, p: ParticipantId, country: CountryId, cause: EventId)
    ensures var r, g := Contribute(f, env, p, country, cause).game, Bare(f.game);
            Bare(r) == SetBalance(g, country, Balance(g, country) - 1) &&
              |r.audit.resourceLedger| > |f.game.audit.resourceLedger|
  {
  }

  lemma WaitingOnCourse(cfg: Config, a: Course, paid: Game, env: Envelope, p: ParticipantId, contributes: bool,
                        updated: Pending, cause: Option<Cause>)
    requires updated.CoalitionPending? && Unpaid(cfg, a, paid, updated.k) && paid.turn.cursor.status == Suspended
    requires Answers(updated.eligible, updated.decisions, Partners(paid.audit.resourceLedger, a.from))
    requires updated.base.participant == a.p && updated.base.campaign == a.c && updated.base.index == Index(a)
    ensures OnCourse(cfg, a, KeepWaiting(Emit(paid, env, CoalitionResponded(p, contributes, Some(updated)), cause),
                                         updated))
  {
    hide Partners, Charge, UniqueStacks, Answers;
  }

  lemma LastAnswerOnCourse(cfg: Config, a: Course, paid: Flow, env: Envelope, p: ParticipantId, contributes: bool,
                           base: PendingBase, k: NarrativeContinuation, bonus: nat, cause: Option<Cause>,
                             die: Option<int>)
    requires Unpaid(cfg, a, paid.game, k) && Distinct(cfg.order) && paid.game.turn.cursor.status == Suspended
    requires base.participant == a.p && base.campaign == a.c
    requires bonus == |Partners(paid.game.audit.resourceLedger, a.from)|
    requires LastAnswer(cfg, paid, env, p, contributes, a.at, base, k, bonus, cause, die).Commit?
    ensures OnCourse(cfg, a, LastAnswer(cfg, paid, env, p, contributes, a.at, base, k, bonus, cause, die).game)
  {
    hide Partners, Charge, UniqueStacks, OnCourse, AfterNarrative;
    var event := |paid.game.events| + 1;
    var answered := Emit(paid.game, env, CoalitionResponded(p, contributes, None), cause);
    var resolved := Emit(Resume(answered), env, CoalitionResolved(base.campaign, bonus), Some(ByEvent(event)));
    assert Bare(resolved) == Bare(paid.game);
    NarrativeOnCourse(cfg, a, Flow(resolved, paid.refs + [event] + [event + 1], paid.ledgers),
                      System(base.correlation, Some(ByEvent(event + 1))), k, Decided(bonus), die, None);
  }

  lemma CoalitionCourse(cfg: Config, a: Course, g: Game, open: set<ActivationId>)
    requires Steady(cfg, g, open) && Proper(cfg, a) && OnCourse(cfg, a, g)
    requires g.turn.pending.Some? && g.turn.pending.value.CoalitionPending?
    ensures var pending := g.turn.pending.value;
            UniqueStacks(g.board.stacks) && g.turn.cursor.status == Suspended && PendingSlot(g, pending.base) == a.at &&
            pending.base.participant == a.p && pending.base.campaign == a.c && pending.base.index == Index(a) &&
            Answers(pending.eligible, pending.decisions, Partners(g.audit.resourceLedger, a.from))
  {
    PendingSlotIsCurrent(cfg, g, open);
    hide UniqueStacks, PlanOk, PendingSlot, Partners, Secured, Answers;
    ChargeIsLocal(cfg, a.shown, Partners(g.audit.resourceLedger, a.from));
    hide Charge;
  }

  lemma AnswersGrow(eligible: seq<ParticipantId>, decisions: map<ParticipantId, bool>, who: set<ParticipantId>,
                    p: ParticipantId, contributes: bool)
    requires Answers(eligible, decisions, who) && p in eligible && p !in decisions
    ensures Answers(eligible, decisions[p := contributes], who + if contributes then {p} else {})
  {
  }

  lemma AllowedAnswer(cfg: Config, g: Game, actor: Actor, request: ActivationId, contributes: bool)
    requires RespondError(cfg, g, actor, request, contributes).None?
    ensures g.turn.pending.Some? && g.turn.pending.value.CoalitionPending? && actor.participant in cfg.seats &&
            actor.participant in g.turn.pending.value.eligible &&
              actor.participant !in g.turn.pending.value.decisions &&
            (contributes ==> Balance(g, cfg.seats[actor.participant]) >= 1)
  {
  }

  lemma RespondOnCourse(cfg: Config, a: Course, g: Game, open: set<ActivationId>, actor: Actor, correlation: string,
                        request: ActivationId, contributes: bool, die: Option<int>)
    requires Steady(cfg, g, open) && Proper(cfg, a) && OnCourse(cfg, a, g) && Distinct(cfg.order)
    requires Respond(cfg, g, actor, correlation, request, contributes, die).Commit?
    ensures OnCourse(cfg, a, Respond(cfg, g, actor, correlation, request, contributes, die).game)
  {
    hide LastAnswer, Responded, Contributors, Paid, UniqueStacks, PendingSlot, Partners, OnCourse, Unpaid, Steady,
      RespondError, Answers, Proper, KeepWaiting;
    AllowedAnswer(cfg, g, actor, request, contributes);
    CoalitionCourse(cfg, a, g, open);
    var pending := g.turn.pending.value;
    var base, p, env := pending.base, actor.participant, By(actor, correlation);
    var paid := Paid(cfg, g, env, p, contributes);
    PaymentOnCourse(cfg, a, g, env, p, contributes);
    var decisions := pending.decisions[p := contributes];
    var who := Partners(paid.game.audit.resourceLedger, a.from);
    AnswersGrow(pending.eligible, pending.decisions, Partners(g.audit.resourceLedger, a.from), p, contributes);
    var responded := Responded(pending.eligible, decisions);
    var event := |paid.game.events| + 1;
    var cause := if contributes then Some(ByEvent(|paid.game.events|)) else Some(ByEvent(base.cause));
    if |responded| != |pending.eligible| {
      var updated := CoalitionPending(base.(cause := event), pending.k, pending.eligible, responded, decisions,
                                      paid.refs + [event], paid.ledgers);
      WaitingOnCourse(cfg, a, paid.game, env, p, contributes, updated, cause);
    } else {
      BonusOfAnswers(pending.eligible, decisions, who);
      LastAnswerOnCourse(cfg, a, paid, env, p, contributes, base, pending.k, Contributors(pending.eligible, decisions),
                         cause, die);
    }
  }

  // ----------------------------------------------------------------- paths

  lemma InputOnCourse(cfg: Config, a: Course, g: Game, open: set<ActivationId>, command: Command)
    requires Steady(cfg, g, open) && Proper(cfg, a) && OnCourse(cfg, a, g) && Distinct(cfg.order)
    requires g.turn.pending.Some? && Prepare(cfg, g, command).Commit?
    ensures OnCourse(cfg, a, Prepare(cfg, g, command).game)
  {
    hide Steady, OnCourse, Proper, TellNarrative, Respond, EnterDie, Choose, RunSlot;
    match command
    case RunScheduler(_, _) =>
    case SubmitNarrative(actor, inputId, correlation, campaign, text, die) =>
      TellNarrativeOnCourse(cfg, a, g, open, actor, inputId, correlation, campaign, text, die);
    case SubmitContribution(actor, correlation, request, contributes, die) =>
      RespondOnCourse(cfg, a, g, open, actor, correlation, request, contributes, die);
    case SubmitDie(actor, correlation, request, value) => EnterDieOnCourse(cfg, a, g, open, actor, request, value);
    case SubmitChoice(actor, correlation, choice, version, selection) =>
      ChooseOnCourse(cfg, a, g, open, actor, correlation, choice, version, selection);
  }

  /** Inputs given while the activation waits keep it on course, to its end. */
  lemma {:induction false} PathOnCourse(cfg: Config, a: Course, g: Game, open: set<ActivationId>, orders: seq<Order>)
    returns (later: set<ActivationId>)
    requires Steady(cfg, g, open) && Proper(cfg, a) && OnCourse(cfg, a, g) && Distinct(cfg.order)
    requires forall n :: 0 <= n < |orders| ==> Run(cfg, g, orders[..n]).turn.pending.Some?
    ensures OnCourse(cfg, a, Run(cfg, g, orders)) && Steady(cfg, Run(cfg, g, orders), later)
  {
    hide Steady, OnCourse, Proper, Prepare;
    later := open;
    if orders != [] {
      var init, o := orders[..|orders| - 1], orders[|orders| - 1];
      assert forall n :: 0 <= n < |init| ==> init[..n] == orders[..n];
      later := PathOnCourse(cfg, a, g, open, init);
      var before := Run(cfg, g, init);
      if Execute(cfg, before, o.expected, o.command).Commit? {
        InputOnCourse(cfg, a, before, later, o.command);
        VersionOffCourse(cfg, a, Prepare(cfg, before, o.command).game, before.version + 1);
      }
      later := StepStaysSteady(cfg, before, later, o);
    }
  }

  lemma VersionOffCourse(cfg: Config, a: Course, g: Game, version: nat)
    requires Proper(cfg, a) && OnCourse(cfg, a, g)
    ensures OnCourse(cfg, a, g.(version := version))
  {
    hide Partners, Charge, Spent, Ending, Cubes, Stake, Answers, LastResult, Cancels;
    assert Bare(g.(version := version)) == Bare(g);
  }

  const NOONE := Envelope("", None, "", None)

  /** The slot under the cursor starts the course `a`: it activates a campaign that can be activated and paid. */
  ghost predicate Begins(cfg: Config, g: Game, a: Course) {
    AtSlot(cfg, g.turn) &&
    var p, at := cfg.order[g.turn.cursor.participant], g.turn.cursor.slot;
    var action, shown := g.turn.plan[p][at].action, Bare(Reveal(g, NOONE, p, at));
    action.Activate? && ActivationError(cfg, shown, p, action).None? && Affordable(cfg, shown, p, action) &&
    a == CourseOf(cfg, shown, p, at, action, |g.audit.resourceLedger|)
  }

  /** The start of an activation is worked out from the position alone. */
  lemma PlainIsBare(cfg: Config, g: Game, p: ParticipantId, action: Action)
    requires action.Activate?
    ensures ActivationError(cfg, g, p, action) == ActivationError(cfg, Bare(g), p, action)
    ensures ActivationError(cfg, g, p, action).None? ==>
              Plain(ContinuationOf(cfg, g, p, action, 0, [])) ==
                Plain(ContinuationOf(cfg, Bare(g), p, action, 0, [])) &&
              Affordable(cfg, g, p, action) == Affordable(cfg, Bare(g), p, action)
  {
    hide TotalCost;
  }

  lemma FirstStepOnCourse(cfg: Config, g: Game, open: set<ActivationId>, a: Course, correlation: string,
                          die: Option<int>)
    requires Steady(cfg, g, open) && g.turn.pending.None? && Distinct(cfg.order) && Begins(cfg, g, a)
    requires RunNext(cfg, g, correlation, die).Commit?
    ensures Proper(cfg, a) && OnCourse(cfg, a, RunNext(cfg, g, correlation, die).game)
  {
    var p, at := cfg.order[g.turn.cursor.participant], g.turn.cursor.slot;
    var env := System(correlation, None);
    var g1 := Reveal(g, env, p, at);
    var action := g.turn.plan[p][at].action;
    assert Bare(g1) == Bare(Reveal(g, NOONE, p, at));
    PlainIsBare(cfg, g1, p, action);
    assert Working(cfg, g1, p, at);
    hide StartActivation, OnCourse, Reveal, Gameplay, ContinuationOf, UniqueStacks, PlanOk;
    StartOnCourse(cfg, g1, env, p, at, action, cfg.hash(Gameplay(g, g.version)), [|g1.events|], die);
  }

  lemma StartedOnCourse(cfg: Config, g: Game, open: set<ActivationId>, a: Course, first: Order)
    requires Steady(cfg, g, open) && g.turn.pending.None? && Distinct(cfg.order) && Begins(cfg, g, a)
    requires first.command.RunScheduler? && Execute(cfg, g, first.expected, first.command).Commit?
    ensures Proper(cfg, a) && OnCourse(cfg, a, Step(cfg, g, first))
  {
    hide RunNext, Steady, Begins, OnCourse, Proper;
    FirstStepOnCourse(cfg, g, open, a, first.command.correlation, first.command.die);
    VersionOffCourse(cfg, a, RunNext(cfg, g, first.command.correlation, first.command.die).game, g.version + 1);
  }

  /**
   Suspension is transparent. Start an affordable activation from any steady state and feed it inputs for
   as long as it waits. If it ends, the position is the one computed in one go from the revealed position,
   who contributed, the value rolled and the cubes cancelled; which suspensions there were, how a die or an
   attribution was obtained, and in which order partners answered leave no trace in it.
   */
  lemma SuspensionIsTransparent(cfg: Config, g: Game, open: set<ActivationId>, a: Course, first: Order,
                                orders: seq<Order>)
    requires Steady(cfg, g, open) && g.turn.pending.None? && Distinct(cfg.order) && Begins(cfg, g, a)
    requires first.command.RunScheduler? && Execute(cfg, g, first.expected, first.command).Commit?
    requires forall n :: 0 <= n < |orders| ==> Run(cfg, Step(cfg, g, first), orders[..n]).turn.pending.Some?
    ensures Proper(cfg, a)
    ensures var after := Run(cfg, Step(cfg, g, first), orders);
            after.turn.pending.None? ==>
              var who := Partners(after.audit.resourceLedger, |g.audit.resourceLedger|);
              Bare(after) == Ending(cfg, a, who, LastRaw(after), LastTaken(after)) &&
              LastResult(after.events) == Stake(cfg, a, who, LastRaw(after)).ertResult &&
              Cancels(a, Stake(cfg, a, who, LastRaw(after)), LastTaken(after))
  {
    hide Execute, Step, Steady, Bare, Ending, Partners, LastTaken, LastRaw, Proper, Run, Plain, Affordable,
      ContinuationOf, LastResult, Stake, Cancels;
    StartedOnCourse(cfg, g, open, a, first);
    var second := StepStaysSteady(cfg, g, open, first);
    var later := PathOnCourse(cfg, a, Step(cfg, g, first), second, orders);
  }

  // -------------------------------------------------- two ways to one end

  /** Two configurations that differ in who may be asked and how dice are obtained, not in the rules. */
  ghost predicate SameRules(cfg: Config, other: Config) {
    other == cfg.(manualDice := other.manualDice, players := other.players, users := other.users,
                  facilitator := other.facilitator, hash := other.hash)
  }

  lemma SameRevealed(g: Game, other: Game, p: ParticipantId, at: nat)
    requires Bare(g) == Bare(other) && HasSlot(g, p, at) && HasSlot(other, p, at)
    ensures Bare(Reveal(g, NOONE, p, at)) == Bare(Reveal(other, NOONE, p, at))
  {
  }

  /** The course does not depend on the records, the stored narratives or the way inputs are obtained. */
  lemma SameCourse(cfg: Config, cfg': Config, g: Game, g': Game, a: Course, a': Course)
    requires SameRules(cfg, cfg') && Bare(g) == Bare(g') && Begins(cfg, g, a) && Begins(cfg', g', a')
    ensures a' == a.(from := a'.from) && a.from == |g.audit.resourceLedger| && a'.from == |g'.audit.resourceLedger|
  {
    var p, at := cfg.order[g.turn.cursor.participant], g.turn.cursor.slot;
    assert Bare(g).turn.cursor == Awake(g.turn.cursor) && Bare(g').turn.cursor == Awake(g'.turn.cursor);
    assert Bare(g).turn.plan == g.turn.plan && Bare(g').turn.plan == g'.turn.plan;
    SameRevealed(g, g', p, at);
    hide Bare, Reveal, ActivationError, TotalCost, Affordable;
  }

  lemma SameEnding(cfg: Config, cfg': Config, a: Course, n: nat, who: set<ParticipantId>, raw: int,
                   taken: multiset<CountryId>)
    requires SameRules(cfg, cfg') && HasSlot(a.shown, a.p, a.at) && a.c in a.shown.board.campaigns
    ensures Ending(cfg', a.(from := n), who, raw, taken) == Ending(cfg, a, who, raw, taken)
  {
    hide Taken, AddCubes, Effect, Spend, BoostApplies, Rewarded, Holder;
  }

  function Final(cfg: Config, g: Game, first: Order, orders: seq<Order>): Game {
    Run(cfg, Step(cfg, g, first), orders)
  }

  /** The activation `a` is started and gets the inputs it waits for, until it has ended. */
  ghost predicate Way(cfg: Config, g: Game, a: Course, first: Order, orders: seq<Order>) {
    g.turn.pending.None? && Begins(cfg, g, a) && first.command.RunScheduler? &&
    Execute(cfg, g, first.expected, first.command).Commit? && Final(cfg, g, first, orders).turn.pending.None? &&
    forall n :: 0 <= n < |orders| ==> Run(cfg, Step(cfg, g, first), orders[..n]).turn.pending.Some?
  }

  /** Who contributed, what was rolled, what was cancelled. */
  ghost function Inputs(g: Game, after: Game): (set<ParticipantId>, int, multiset<CountryId>) {
    (Partners(after.audit.resourceLedger, |g.audit.resourceLedger|), LastRaw(after), LastTaken(after))
  }

  lemma WayEnds(cfg: Config, g: Game, open: set<ActivationId>, a: Course, first: Order, orders: seq<Order>)
    requires Steady(cfg, g, open) && Distinct(cfg.order) && Way(cfg, g, a, first, orders)
    ensures Proper(cfg, a)
    ensures var (who, raw, taken) := Inputs(g, Final(cfg, g, first, orders));
            Bare(Final(cfg, g, first, orders)) == Ending(cfg, a, who, raw, taken) &&
            LastResult(Final(cfg, g, first, orders).events) == Stake(cfg, a, who, raw).ertResult &&
            Cancels(a, Stake(cfg, a, who, raw), taken)
  {
    hide Cancels, LastResult, Stake, Execute, Step, Steady, Bare, Ending, Partners, LastTaken, LastRaw, Proper, Run,
      Begins;
    SuspensionIsTransparent(cfg, g, open, a, first, orders);
  }

  /**
   Two ways through an activation end in the same position when the same partners contributed, the same value
   was rolled and the same cubes were cancelled. The two may start from different records, one with the
   narrative stored and one that has to ask for it, with automatic and with manual dice, and with other
   partners to ask: which suspensions there are is free in both.
   */
  lemma SameInputsSameEnding(cfg: Config, cfg': Config, g: Game, g': Game, open: set<ActivationId>,
                             open': set<ActivationId>, a: Course, a': Course, first: Order, first': Order,
                             orders: seq<Order>, orders': seq<Order>)
    requires SameRules(cfg, cfg') && Bare(g) == Bare(g')
    requires Steady(cfg, g, open) && Distinct(cfg.order) && Way(cfg, g, a, first, orders)
    requires Steady(cfg', g', open') && Way(cfg', g', a', first', orders')
    requires Inputs(g, Final(cfg, g, first, orders)) == Inputs(g', Final(cfg', g', first', orders'))
    ensures Bare(Final(cfg, g, first, orders)) == Bare(Final(cfg', g', first', orders'))
  {
    SameOrder(cfg, cfg');
    hide Steady, Bare, Ending, Proper, Begins, Final, Execute, SameRules, Inputs, Run;
    SameCourse(cfg, cfg', g, g', a, a');
    WayEnds(cfg, g, open, a, first, orders);
    WayEnds(cfg', g', open', a', first', orders');
    var (who, raw, taken) := Inputs(g, Final(cfg, g, first, orders));
    ProperFacts(cfg, a);
    SameEnding(cfg, cfg', a, a'.from, who, raw, taken);
  }

  lemma SameOrder(cfg: Config, cfg': Config)
    requires SameRules(cfg, cfg')
    ensures cfg'.order == cfg.order
  {
  }

  lemma ProperFacts(cfg: Config, a: Course)
    requires Proper(cfg, a)
    ensures HasSlot(a.shown, a.p, a.at) && a.c in a.shown.board.campaigns
  {
  }
}
