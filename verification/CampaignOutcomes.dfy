/**
 What an activation comes to, told from the position in which its slot comes up and the one in which it has
 ended, with the result, the roll and the cancelled cubes on record. However often it waited in between, a
 result of zero or more brings cubes of the campaign's own alignment to the target and a result below zero
 cubes of the opposite one.
 */
module CampaignOutcomes {
  import opened Prelude
  import opened CampaignTypes
  import opened Adjudication
  import opened ReplaySegments
  import opened ReplayRuns
  import opened RollRecords
  import opened Choices
  import opened Transparency
  import Conservation

  // ------------------------------------------------------ cubes on a board

  lemma {:induction false} ElsewhereNothingTaken(stacks: seq<Stack>, target: PdId, kind: Alignment,
                                                 taken: multiset<CountryId>, pd: PdId, other: Alignment)
    requires pd != target || other != kind
    ensures CountOn(Taken(stacks, target, kind, taken), pd, other) == CountOn(stacks, pd, other)
  {
    if stacks != [] {
      var init := stacks[..|stacks| - 1];
      assert Taken(stacks, target, kind, taken)[..|stacks| - 1] == Taken(init, target, kind, taken);
      ElsewhereNothingTaken(init, target, kind, taken, pd, other);
    }
  }

  lemma FiveCountries(taken: multiset<CountryId>)
    ensures |taken| == taken[Arden] + taken[Dinesia] + taken[Fluma] + taken[Presque] + taken[Ursaria]
  {
    var none: multiset<CountryId> := multiset{};
    var rebuilt := none[Arden := taken[Arden]][Dinesia := taken[Dinesia]][Fluma := taken[Fluma]]
      [Presque := taken[Presque]][Ursaria := taken[Ursaria]];
    forall c
      ensures rebuilt[c] == taken[c]
    {
      match c case Arden => case Dinesia => case Fluma => case Presque => case Ursaria =>
    }
    assert rebuilt == taken;
  }

  /** Cancelled cubes are missing from the count, one for one. */
  lemma TakenCount(stacks: seq<Stack>, target: PdId, kind: Alignment, taken: multiset<CountryId>)
    requires UniqueStacks(stacks) && Enough(stacks, target, kind, taken)
    ensures CountOn(Taken(stacks, target, kind, taken), target, kind) == CountOn(stacks, target, kind) - |taken|
  {
    var left := Taken(stacks, target, kind, taken);
    TakenKeepsUnique(stacks, target, kind, taken);
    FiveCountries(taken);
    CountIsTotal(stacks, target, kind);
    CountIsTotal(left, target, kind);
    TotalOverFive(stacks, target, kind);
    TotalOverFive(left, target, kind);
    hide Taken, CountOn, UniqueStacks, TotalOf, TotalOver, Available;
    forall c
      ensures TotalOf(left, target, kind, c) == TotalOf(stacks, target, kind, c) - taken[c]
    {
      TotalOfIsAvailable(stacks, target, kind, c);
      TotalOfIsAvailable(left, target, kind, c);
      TakenLeaves(stacks, target, kind, taken, c);
    }
  }

  lemma {:induction false} AvailableElsewhere(stacks: seq<Stack>, target: PdId, kind: Alignment,
                                              taken: multiset<CountryId>, pd: PdId, other: Alignment, c: CountryId)
    requires pd != target || other != kind
    ensures Available(Taken(stacks, target, kind, taken), pd, other, c) == Available(stacks, pd, other, c)
  {
    if stacks != [] {
      var init := stacks[..|stacks| - 1];
      assert Taken(stacks, target, kind, taken)[..|stacks| - 1] == Taken(init, target, kind, taken);
      AvailableElsewhere(init, target, kind, taken, pd, other, c);
    }
  }

  /** Cubes that are added belong to one country and change no other stack. */
  lemma AddedAvailable(stacks: seq<Stack>, i: Impact, placed: nat, pd: PdId, kind: Alignment, c: CountryId)
    requires UniqueStacks(stacks)
    ensures Available(AddCubes(stacks, i, placed), pd, kind, c) ==
            Available(stacks, pd, kind, c) +
            if pd == i.target && kind == i.kind && c == i.attribution then placed else 0
  {
    var at := FindStack(stacks, i.target, i.kind, i.attribution, 0);
    if placed > 0 && at < |stacks| {
      Conservation.AvailableAfterUpdate(stacks, at, stacks[at].count + placed, Conservation.StackKey(pd, kind, c));
      AvailableIsCount(stacks, at);
    } else if placed > 0 {
      assert AddCubes(stacks, i, placed)[..|stacks|] == stacks;
      Conservation.UnavailableIfAbsent(stacks, Conservation.StackKey(i.target, i.kind, i.attribution));
    }
  }

  // ------------------------------------------------------ what a result does

  /** Whether a result brings cubes of this kind for a campaign of the alignment `own`. */
  predicate Brings(own: Alignment, result: int, kind: Alignment) {
    if result >= 0 then kind == own else kind != own
  }

  function Size(result: int): nat {
    if result < 0 then -result else result
  }

  /**
   Of the cubes a result brings, two cancel one opposing cube for as many as there are, and the rest is placed.
   No other population is touched.
   */
  ghost predicate CountsFollow(before: seq<Stack>, after: seq<Stack>, target: PdId, own: Alignment, result: int,
                               removed: nat) {
    (forall kind :: !Brings(own, result, kind) ==>
      removed == Min(Size(result) / 2, CountOn(before, target, kind)) &&
      CountOn(after, target, kind) == CountOn(before, target, kind) - removed) &&
    (forall kind :: Brings(own, result, kind) ==>
      CountOn(after, target, kind) == CountOn(before, target, kind) + Size(result) - 2 * removed) &&
    forall pd, kind :: pd != target ==> CountOn(after, pd, kind) == CountOn(before, pd, kind)
  }

  /** What a result adds to the stack of country `c` when `taken` opposing cubes are cancelled. */
  function Change(own: Alignment, result: int, country: CountryId, taken: multiset<CountryId>, kind: Alignment,
                  c: CountryId): int {
    if !Brings(own, result, kind) then -(taken[c] as int)
    else if c == country then Size(result) - 2 * |taken| else 0
  }

  /** The cubes placed are the player's country's, those cancelled the ones in `taken`; no other stack changes. */
  ghost predicate StacksFollow(before: seq<Stack>, after: seq<Stack>, target: PdId, own: Alignment, result: int,
                               country: CountryId, taken: multiset<CountryId>) {
    forall pd, kind, c :: Available(after, pd, kind, c) == Available(before, pd, kind, c) +
      if pd == target then Change(own, result, country, taken, kind, c) else 0
  }

  lemma OneCount(stacks: seq<Stack>, i: Impact, placed: nat, taken: multiset<CountryId>, pd: PdId, kind: Alignment)
    requires UniqueStacks(stacks) && Enough(stacks, i.target, i.kind.Opposite(), taken)
    ensures CountOn(AddCubes(Taken(stacks, i.target, i.kind.Opposite(), taken), i, placed), pd, kind) ==
            CountOn(stacks, pd, kind) +
            if pd != i.target then 0 else if kind == i.kind then placed else -|taken|
  {
    var opposing := i.kind.Opposite();
    var left := Taken(stacks, i.target, opposing, taken);
    hide CountOn, AddCubes, UniqueStacks, Taken, Enough;
    PlacedCount(left, i, placed, pd, kind);
    if pd != i.target || kind == i.kind {
      ElsewhereNothingTaken(stacks, i.target, opposing, taken, pd, kind);
    } else {
      assert kind == opposing;
      TakenCount(stacks, i.target, opposing, taken);
    }
  }

  lemma CountsMove(stacks: seq<Stack>, i: Impact, placed: nat, own: Alignment, result: int, taken: multiset<CountryId>)
    requires UniqueStacks(stacks) && Enough(stacks, i.target, i.kind.Opposite(), taken)
    requires i.generated == Size(result) && Brings(own, result, i.kind)
    requires |taken| == Min(i.generated / 2, CountOn(stacks, i.target, i.kind.Opposite()))
    requires placed == i.generated - 2 * |taken|
    ensures CountsFollow(stacks, AddCubes(Taken(stacks, i.target, i.kind.Opposite(), taken), i, placed), i.target, own,
                         result, |taken|)
  {
    hide CountOn, AddCubes, UniqueStacks, Taken, Enough;
    var after := AddCubes(Taken(stacks, i.target, i.kind.Opposite(), taken), i, placed);
    forall pd, kind
      ensures CountOn(after, pd, kind) == CountOn(stacks, pd, kind) +
              if pd != i.target then 0 else if kind == i.kind then placed else -|taken|
    {
      OneCount(stacks, i, placed, taken, pd, kind);
    }
  }

  lemma OneStack(stacks: seq<Stack>, i: Impact, placed: nat, taken: multiset<CountryId>, pd: PdId, kind: Alignment,
                 c: CountryId)
    requires UniqueStacks(stacks) && Enough(stacks, i.target, i.kind.Opposite(), taken)
    ensures Available(AddCubes(Taken(stacks, i.target, i.kind.Opposite(), taken), i, placed), pd, kind, c) ==
            Available(stacks, pd, kind, c) +
            if pd != i.target then 0 else if kind != i.kind then -(taken[c] as int)
            else if c == i.attribution then placed else 0
  {
    var opposing := i.kind.Opposite();
    var left := Taken(stacks, i.target, opposing, taken);
    TakenKeepsUnique(stacks, i.target, opposing, taken);
    assert taken[c] <= Available(stacks, i.target, opposing, c);
    hide Available, AddCubes, UniqueStacks, Taken, Enough;
    AddedAvailable(left, i, placed, pd, kind, c);
    if pd != i.target || kind == i.kind {
      AvailableElsewhere(stacks, i.target, opposing, taken, pd, kind, c);
    } else {
      assert kind == opposing;
      TakenLeaves(stacks, i.target, opposing, taken, c);
    }
  }

  lemma StacksMove(stacks: seq<Stack>, i: Impact, placed: nat, own: Alignment, result: int, taken: multiset<CountryId>)
    requires UniqueStacks(stacks) && Enough(stacks, i.target, i.kind.Opposite(), taken)
    requires i.generated == Size(result) && Brings(own, result, i.kind) && placed == i.generated - 2 * |taken|
    ensures StacksFollow(stacks, AddCubes(Taken(stacks, i.target, i.kind.Opposite(), taken), i, placed), i.target, own,
                         result, i.attribution, taken)
  {
    hide Available, AddCubes, UniqueStacks, Taken, Enough;
    forall pd, kind, c
      ensures Available(AddCubes(Taken(stacks, i.target, i.kind.Opposite(), taken), i, placed), pd, kind, c) ==
              Available(stacks, pd, kind, c) +
              if pd == i.target then Change(own, result, i.attribution, taken, kind, c) else 0
    {
      OneStack(stacks, i, placed, taken, pd, kind, c);
    }
  }

  // --------------------------------------------------- the slot and its end

  /** The player whose slot is under the cursor. */
  function Acting(cfg: Config, g: Game): ParticipantId
    requires AtSlot(cfg, g.turn)
  {
    cfg.order[g.turn.cursor.participant]
  }

  function Planned(cfg: Config, g: Game): Slot
    requires AtSlot(cfg, g.turn)
  {
    g.turn.plan[Acting(cfg, g)][g.turn.cursor.slot]
  }

  /** A boost is planned for the slot under the cursor and the campaign it activates. */
  predicate Boosted(cfg: Config, g: Game)
    requires AtSlot(cfg, g.turn) && Planned(cfg, g).action.Activate?
  {
    Acting(cfg, g) in g.table.boosts &&
    var plan := g.table.boosts[Acting(cfg, g)];
    plan.campaign == Planned(cfg, g).action.campaign && plan.activationIndex == Planned(cfg, g).index
  }

  /** The course `a` is that of the slot under the cursor. */
  ghost predicate Starts(cfg: Config, g: Game, a: Course) {
    AtSlot(cfg, g.turn) && Planned(cfg, g).action.Activate? &&
    var p, action := Acting(cfg, g), Planned(cfg, g).action;
    p in cfg.seats && action.campaign in g.board.campaigns && action.target.Some? &&
    a.p == p && a.at == g.turn.cursor.slot && a.c == action.campaign && a.k.target == action.target.value &&
    a.k.country == cfg.seats[p] && a.k.core == action.useCore && HasSlot(a.shown, a.p, a.at) &&
    a.k.effectiveCv == cfg.valueOf(g.board.campaigns[a.c].assignments).effectiveCv &&
    a.k.cost == cfg.valueOf(g.board.campaigns[a.c].assignments).cost &&
    a.shown.board.campaigns == g.board.campaigns && a.shown.board.stacks == g.board.stacks &&
    a.shown.board.legitimacy == g.board.legitimacy && a.shown.purse == g.purse && a.shown.table == g.table &&
    a.shown.turn.plan == g.turn.plan[p := g.turn.plan[p][a.at := Planned(cfg, g).(revealed := true)]] &&
    Index(a) == Planned(cfg, g).index && a.from == |g.audit.resourceLedger| && UniqueStacks(g.board.stacks)
  }

  lemma BeginsFacts(cfg: Config, g: Game, a: Course)
    requires Begins(cfg, g, a) && UniqueStacks(g.board.stacks)
    ensures Starts(cfg, g, a)
  {
    hide TotalCost, Affordable, UniqueStacks;
  }

  /** Its end has been reached with the inputs that are on record. */
  ghost predicate Reaches(cfg: Config, a: Course, after: Game) {
    HasSlot(a.shown, a.p, a.at) && a.c in a.shown.board.campaigns &&
    var who, raw, taken := Partners(after.audit.resourceLedger, a.from), LastRaw(after), LastTaken(after);
    var ending := Ending(cfg, a, who, raw, taken);
    LastResult(after.events) == Stake(cfg, a, who, raw).ertResult && Cancels(a, Stake(cfg, a, who, raw), taken) &&
    after.board.(narratives := map[]) == ending.board && after.purse == ending.purse && after.table == ending.table &&
    after.turn.plan == ending.turn.plan
  }

  /** What a run through an activation is known to end with. */
  lemma WayOutcome(cfg: Config, g: Game, open: set<ActivationId>, a: Course, first: Order, orders: seq<Order>)
    requires Steady(cfg, g, open) && Distinct(cfg.order) && Way(cfg, g, a, first, orders)
    ensures Starts(cfg, g, a) && Reaches(cfg, a, Final(cfg, g, first, orders))
  {
    hide Begins, Starts, UniqueStacks;
    BeginsFacts(cfg, g, a);
    hide Execute, Step, Ending, Partners, LastTaken, LastRaw, Run, LastResult, Stake, Cancels;
    WayEnds(cfg, g, open, a, first, orders);
    StartsFrom(cfg, g, a);
  }

  lemma StartsFrom(cfg: Config, g: Game, a: Course)
    requires Starts(cfg, g, a)
    ensures a.from == |g.audit.resourceLedger|
  {
  }

  lemma StakeFacts(cfg: Config, a: Course, who: set<ParticipantId>, raw: int)
    requires HasSlot(a.shown, a.p, a.at) && a.c in a.shown.board.campaigns
    ensures var i, own := Stake(cfg, a, who, raw), a.shown.board.campaigns[a.c].alignment;
            i.target == a.k.target && i.attribution == a.k.country && i.generated == Size(i.ertResult) &&
            Brings(own, i.ertResult, i.kind) && i.legitimacyBefore == HolderOf(a.shown, a.k.target)
  {
    hide ErtResult, Spend, BoostApplies, Charge;
  }

  /** The board an activation leaves, apart from the stored narratives. */
  lemma EndingBoard(cfg: Config, a: Course, who: set<ParticipantId>, raw: int, taken: multiset<CountryId>)
    requires HasSlot(a.shown, a.p, a.at) && a.c in a.shown.board.campaigns
    ensures var i, board := Stake(cfg, a, who, raw), Ending(cfg, a, who, raw, taken).board;
            var placed, campaign := Effect(a.shown, i).placed, a.shown.board.campaigns[a.c];
            board.stacks == AddCubes(Taken(a.shown.board.stacks, i.target, i.kind.Opposite(), taken), i, placed) &&
            board.legitimacy == Holder(a.shown, i, placed) &&
            board.campaigns == a.shown.board.campaigns[a.c := campaign.(activations := campaign.activations + 1)]
  {
    var i := Stake(cfg, a, who, raw);
    EffectIsLocal(a.shown, Spent(cfg, a, who), i);
    HolderIsLocal(a.shown, Spent(cfg, a, who), i, Effect(a.shown, i).placed);
    hide Stake, Spent, Effect, Taken, AddCubes, Holder, Rewarded, ClosedTurn;
  }

  lemma EndingCubes(cfg: Config, a: Course, who: set<ParticipantId>, raw: int, taken: multiset<CountryId>)
    requires HasSlot(a.shown, a.p, a.at) && a.c in a.shown.board.campaigns && Cancels(a, Stake(cfg, a, who, raw), taken)
    requires UniqueStacks(a.shown.board.stacks)
    ensures var before, after := a.shown.board.stacks, Ending(cfg, a, who, raw, taken).board.stacks;
            var own, r := a.shown.board.campaigns[a.c].alignment, Stake(cfg, a, who, raw).ertResult;
            CountsFollow(before, after, a.k.target, own, r, |taken|) &&
            StacksFollow(before, after, a.k.target, own, r, a.k.country, taken)
  {
    hide CountsFollow, StacksFollow, Stake, Ending, UniqueStacks, Taken, AddCubes, CountOn, Enough;
    var i, own := Stake(cfg, a, who, raw), a.shown.board.campaigns[a.c].alignment;
    StakeFacts(cfg, a, who, raw);
    EndingBoard(cfg, a, who, raw, taken);
    CountsMove(a.shown.board.stacks, i, Effect(a.shown, i).placed, own, i.ertResult, taken);
    StacksMove(a.shown.board.stacks, i, Effect(a.shown, i).placed, own, i.ertResult, taken);
  }

  /**
   A result of r >= 0 has brought r cubes of the campaign's own alignment to the target, a result below zero -r
   cubes of the opposite one: two of them have cancelled an opposing cube, as long as there were any, and the rest
   is placed for the player's country.
   */
  ghost predicate CubesMoved(cfg: Config, g: Game, after: Game) {
    AtSlot(cfg, g.turn) && Planned(cfg, g).action.Activate? && Acting(cfg, g) in cfg.seats &&
    var p, action := Acting(cfg, g), Planned(cfg, g).action;
    action.target.Some? && action.campaign in g.board.campaigns &&
    var own, r, taken := g.board.campaigns[action.campaign].alignment, LastResult(after.events), LastTaken(after);
    CountsFollow(g.board.stacks, after.board.stacks, action.target.value, own, r, |taken|) &&
    StacksFollow(g.board.stacks, after.board.stacks, action.target.value, own, r, cfg.seats[p], taken)
  }

  lemma EndMovesCubes(cfg: Config, g: Game, a: Course, after: Game)
    requires Starts(cfg, g, a) && Reaches(cfg, a, after)
    ensures CubesMoved(cfg, g, after)
  {
    hide CountsFollow, StacksFollow, Stake, Ending, Cancels, Partners, LastTaken, LastRaw, LastResult, UniqueStacks;
    EndingCubes(cfg, a, Partners(after.audit.resourceLedger, a.from), LastRaw(after), LastTaken(after));
  }

  /** Of every activation that ends, straight through or after any of the four suspensions. */
  lemma ResultMovesCubes(cfg: Config, g: Game, open: set<ActivationId>, a: Course, first: Order, orders: seq<Order>)
    requires Steady(cfg, g, open) && Distinct(cfg.order) && Way(cfg, g, a, first, orders)
    ensures CubesMoved(cfg, g, Final(cfg, g, first, orders))
  {
    hide *;
    WayOutcome(cfg, g, open, a, first, orders);
    EndMovesCubes(cfg, g, a, Final(cfg, g, first, orders));
  }

  function Bonus(granted: bool): int {
    if granted then 1 else 0
  }

  /**
   The result on record is the table's for the campaign's alignment, the tier of its value with one point for
   every contributor, and the value rolled with one point each for holding legitimacy, for a boost planned for
   this slot and for the core modifier, kept between 1 and 10.
   */
  ghost predicate RollDecided(cfg: Config, g: Game, after: Game) {
    AtSlot(cfg, g.turn) && Planned(cfg, g).action.Activate? &&
    var p, action := Acting(cfg, g), Planned(cfg, g).action;
    action.target.Some? && action.campaign in g.board.campaigns &&
    var campaign := g.board.campaigns[action.campaign];
    var contributors := |Partners(after.audit.resourceLedger, |g.audit.resourceLedger|)|;
    var value := cfg.valueOf(campaign.assignments).effectiveCv + contributors;
    var tier := if value <= 6 then Low else if value <= 11 then Medium else High;
    var roll := LastRaw(after) + Bonus(HolderOf(g, action.target.value) == Some(p)) + Bonus(Boosted(cfg, g)) +
                Bonus(action.useCore);
    LastResult(after.events) ==
      cfg.ert(tier, campaign.alignment, if roll < 1 then 1 else if roll > 10 then 10 else roll)
  }

  lemma EndFollowsRoll(cfg: Config, g: Game, a: Course, after: Game)
    requires Starts(cfg, g, a) && Reaches(cfg, a, after)
    ensures RollDecided(cfg, g, after)
  {
    hide Stake, Ending, Cancels, Partners, LastTaken, LastRaw, LastResult, UniqueStacks, Boosted, Index;
    StakeResult(cfg, a, Partners(after.audit.resourceLedger, a.from), LastRaw(after));
    BoostIsPlanned(cfg, g, a);
    HeldAlike(a.shown, g, a.k.target);
  }

  lemma ResultFollowsRoll(cfg: Config, g: Game, open: set<ActivationId>, a: Course, first: Order, orders: seq<Order>)
    requires Steady(cfg, g, open) && Distinct(cfg.order) && Way(cfg, g, a, first, orders)
    ensures RollDecided(cfg, g, Final(cfg, g, first, orders))
  {
    hide *;
    WayOutcome(cfg, g, open, a, first, orders);
    EndFollowsRoll(cfg, g, a, Final(cfg, g, first, orders));
  }

  lemma HeldAlike(a: Game, b: Game, pd: PdId)
    requires a.board.legitimacy == b.board.legitimacy
    ensures HolderOf(a, pd) == HolderOf(b, pd)
  {
  }

  lemma BoostIsPlanned(cfg: Config, g: Game, a: Course)
    requires AtSlot(cfg, g.turn) && Planned(cfg, g).action.Activate? && HasSlot(a.shown, a.p, a.at)
    requires a.p == Acting(cfg, g) && a.c == Planned(cfg, g).action.campaign && Index(a) == Planned(cfg, g).index
    requires a.shown.table == g.table
    ensures BoostApplies(a.shown, a.p, Index(a), a.c) <==> Boosted(cfg, g)
  {
  }

  lemma StakeResult(cfg: Config, a: Course, who: set<ParticipantId>, raw: int)
    requires HasSlot(a.shown, a.p, a.at) && a.c in a.shown.board.campaigns
    ensures var campaign, value := a.shown.board.campaigns[a.c], a.k.effectiveCv + |who|;
            var tier := if value <= 6 then Low else if value <= 11 then Medium else High;
            var roll := raw + Bonus(HolderOf(a.shown, a.k.target) == Some(a.p)) +
                        Bonus(BoostApplies(a.shown, a.p, Index(a), a.c)) + Bonus(a.k.core);
            Stake(cfg, a, who, raw).ertResult ==
              cfg.ert(tier, campaign.alignment, if roll < 1 then 1 else if roll > 10 then 10 else roll)
  {
    hide Spend, BoostApplies, Charge;
  }

  /**
   Cubes placed by a positive result earn a point each and one more for a change of legitimacy, which is
   established where nobody holds it and lost by another player who does; those placed by a negative result cost
   a point each, down to none. Nobody else's points and no other population's legitimacy change.
   */
  ghost predicate RewardsFollow(before: Game, after: Game, p: ParticipantId, target: PdId, result: int, placed: int) {
    var holder, vp := HolderOf(before, target), VpOf(before, p);
    (if result > 0 && placed > 0 then
      VpOf(after, p) == vp + placed + Bonus(holder != Some(p)) &&
      HolderOf(after, target) == (if holder.None? || holder == Some(p) then Some(p) else None)
    else
      VpOf(after, p) == (if result >= 0 then vp else vp - Max(0, Min(vp, placed))) &&
      HolderOf(after, target) == holder) &&
    (forall q :: q != p ==> VpOf(after, q) == VpOf(before, q)) &&
    forall pd :: pd != target ==> HolderOf(after, pd) == HolderOf(before, pd)
  }

  ghost predicate Rewarding(cfg: Config, g: Game, after: Game) {
    AtSlot(cfg, g.turn) && Planned(cfg, g).action.Activate? && Planned(cfg, g).action.target.Some? &&
    var r := LastResult(after.events);
    RewardsFollow(g, after, Acting(cfg, g), Planned(cfg, g).action.target.value, r, Size(r) - 2 * |LastTaken(after)|)
  }

  lemma EndRewards(cfg: Config, g: Game, a: Course, after: Game)
    requires Starts(cfg, g, a) && Reaches(cfg, a, after)
    ensures Rewarding(cfg, g, after)
  {
    hide RewardsFollow, Stake, Ending, Cancels, Partners, LastTaken, LastRaw, LastResult, UniqueStacks;
    EndingRewards(cfg, a, Partners(after.audit.resourceLedger, a.from), LastRaw(after), LastTaken(after), g, after);
  }

  lemma ResultRewards(cfg: Config, g: Game, open: set<ActivationId>, a: Course, first: Order, orders: seq<Order>)
    requires Steady(cfg, g, open) && Distinct(cfg.order) && Way(cfg, g, a, first, orders)
    ensures Rewarding(cfg, g, Final(cfg, g, first, orders))
  {
    hide *;
    WayOutcome(cfg, g, open, a, first, orders);
    EndRewards(cfg, g, a, Final(cfg, g, first, orders));
  }

  lemma EndingRewards(cfg: Config, a: Course, who: set<ParticipantId>, raw: int, taken: multiset<CountryId>, g: Game,
                      after: Game)
    requires HasSlot(a.shown, a.p, a.at) && a.c in a.shown.board.campaigns && Cancels(a, Stake(cfg, a, who, raw), taken)
    requires a.shown.purse == g.purse && a.shown.board.legitimacy == g.board.legitimacy
    requires after.purse.vp == Ending(cfg, a, who, raw, taken).purse.vp
    requires after.board.legitimacy == Ending(cfg, a, who, raw, taken).board.legitimacy
    ensures var r := Stake(cfg, a, who, raw).ertResult;
            RewardsFollow(g, after, a.p, a.k.target, r, Size(r) - 2 * |taken|)
  {
    hide Stake, Ending, Cancels, Rewarded, Holder, Effect, RewardsFollow;
    var i := Stake(cfg, a, who, raw);
    StakeFacts(cfg, a, who, raw);
    EndingBoard(cfg, a, who, raw, taken);
    EndingPurse(cfg, a, who, raw, taken);
    PlacedIs(a, i, taken);
    HolderIsLocal(a.shown, g, i, Effect(a.shown, i).placed);
    RewardsAre(g, after, i, Effect(a.shown, i).placed);
  }

  lemma PlacedIs(a: Course, i: Impact, taken: multiset<CountryId>)
    requires Cancels(a, i, taken)
    ensures Effect(a.shown, i).placed == i.generated - 2 * |taken|
  {
    hide CountOn, Enough;
  }

  lemma RewardsAre(g: Game, after: Game, i: Impact, placed: nat)
    requires i.legitimacyBefore == HolderOf(g, i.target)
    requires after.purse.vp == Rewarded(g.purse.vp, i, placed) && after.board.legitimacy == Holder(g, i, placed)
    ensures RewardsFollow(g, after, i.participant, i.target, i.ertResult, placed)
  {
  }

  lemma EndingPurse(cfg: Config, a: Course, who: set<ParticipantId>, raw: int, taken: multiset<CountryId>)
    requires HasSlot(a.shown, a.p, a.at) && a.c in a.shown.board.campaigns
    ensures var i, purse := Stake(cfg, a, who, raw), Ending(cfg, a, who, raw, taken).purse;
            purse == Spent(cfg, a, who).purse.(vp := Rewarded(a.shown.purse.vp, i, Effect(a.shown, i).placed))
  {
    EffectIsLocal(a.shown, Spent(cfg, a, who), Stake(cfg, a, who, raw));
    hide Stake, Effect, Taken, AddCubes, Holder, Rewarded, ClosedTurn, BoostApplies, SpendBoost;
  }

  // ------------------------------------------------------------ what it costs

  /** Points the country pays: the tier, the components with a price of their own and the core modifier. */
  function Price(cfg: Config, g: Game): nat
    requires AtSlot(cfg, g.turn) && Planned(cfg, g).action.Activate?
    requires Planned(cfg, g).action.campaign in g.board.campaigns
  {
    var assignments := g.board.campaigns[Planned(cfg, g).action.campaign].assignments;
    cfg.valueOf(assignments).cost + Sum(ComponentCosts(assignments)) + 2 * Bonus(Planned(cfg, g).action.useCore)
  }

  /** The price is paid once by the player's country and one resource for every contributor by the contributor's. */
  ghost predicate CostsFollow(before: Game, after: Game, seats: map<ParticipantId, CountryId>, country: CountryId,
                              price: nat, who: set<ParticipantId>) {
    forall c :: c in before.purse.resources && country in before.purse.resources ==>
      Balance(after, c) == Balance(before, c) - |set q | q in who && q in seats && seats[q] == c :: q| -
                           if c == country then price else 0
  }

  lemma SpentCosts(cfg: Config, g: Game, who: set<ParticipantId>, p: ParticipantId, index: nat, c: CampaignId,
                   k: NarrativeContinuation, after: Game)
    requires c in g.board.campaigns
    requires after.purse.resources == Spend(Charge(cfg, g, who), p, index, c, k).purse.resources
    ensures CostsFollow(g, after, cfg.seats, k.country, TotalCost(g.board.campaigns[c], k.cost, k.core), who)
  {
    hide TotalCost, BoostApplies, DiscardFromHand;
    forall country
      ensures (set q | q in who && q in cfg.seats && cfg.seats[q] == country :: q) == Givers(cfg.seats, who, country)
    {
    }
  }

  lemma EndingTable(cfg: Config, a: Course, who: set<ParticipantId>, raw: int, taken: multiset<CountryId>)
    requires HasSlot(a.shown, a.p, a.at) && a.c in a.shown.board.campaigns
    ensures var table := Ending(cfg, a, who, raw, taken).table;
            if !BoostApplies(a.shown, a.p, Index(a), a.c) then table == a.shown.table
            else
              var discarded := DiscardFromHand(a.shown, a.p, a.shown.table.boosts[a.p].card).table;
              table == discarded.(boosts := a.shown.table.boosts - {a.p})
  {
    hide Stake, Effect, Taken, AddCubes, Holder, Rewarded, ClosedTurn, TotalCost;
  }

  /** The card of a boost planned for this slot is discarded; otherwise no card moves. */
  ghost predicate BoostFollows(cfg: Config, g: Game, after: Game)
    requires AtSlot(cfg, g.turn) && Planned(cfg, g).action.Activate?
  {
    if !Boosted(cfg, g) then after.table == g.table
    else
      var p, card := Acting(cfg, g), g.table.boosts[Acting(cfg, g)].card;
      after.table.boosts == g.table.boosts - {p} &&
      after.table.cards == (if card in g.table.cards
                            then g.table.cards[card := g.table.cards[card].(zone := Discard)] else g.table.cards) &&
      after.table.holdings.Keys == g.table.holdings.Keys &&
      (forall q :: q in g.table.holdings && q != p ==> after.table.holdings[q] == g.table.holdings[q]) &&
      (p in g.table.holdings ==>
        card in after.table.holdings[p].discard && card !in after.table.holdings[p].hand &&
        forall c :: c != card ==>
          (c in after.table.holdings[p].hand <==> c in g.table.holdings[p].hand) &&
          (c in after.table.holdings[p].discard <==> c in g.table.holdings[p].discard))
  }

  /**
   The price has been paid once by the player's country and a resource for every contributor by the contributor's;
   the core modifier is used up if asked for and a boost planned for the slot is spent. The campaign counts one
   activation more and the slot is settled as resolved.
   */
  ghost predicate Settled(cfg: Config, g: Game, after: Game) {
    AtSlot(cfg, g.turn) && Planned(cfg, g).action.Activate? && Acting(cfg, g) in cfg.seats &&
    Planned(cfg, g).action.campaign in g.board.campaigns &&
    var p, at, c := Acting(cfg, g), g.turn.cursor.slot, Planned(cfg, g).action.campaign;
    CostsFollow(g, after, cfg.seats, cfg.seats[p], Price(cfg, g),
                Partners(after.audit.resourceLedger, |g.audit.resourceLedger|)) &&
    after.purse.coreUsed == g.purse.coreUsed + (if Planned(cfg, g).action.useCore then {p} else {}) &&
    BoostFollows(cfg, g, after) &&
    after.board.campaigns == g.board.campaigns[c := g.board.campaigns[c].(activations :=
                                                 g.board.campaigns[c].activations + 1)] &&
    after.turn.plan == g.turn.plan[p := g.turn.plan[p][at := Planned(cfg, g).(revealed := true,
                                                                              outcome := Some(Resolved))]]
  }

  lemma BoostIsSpent(cfg: Config, g: Game, a: Course, after: Game)
    requires Starts(cfg, g, a) && Reaches(cfg, a, after)
    ensures BoostFollows(cfg, g, after)
  {
    hide Stake, Ending, Cancels, Partners, LastTaken, LastRaw, LastResult, UniqueStacks, Boosted, Index;
    var who, raw, taken := Partners(after.audit.resourceLedger, a.from), LastRaw(after), LastTaken(after);
    EndingTable(cfg, a, who, raw, taken);
    BoostIsPlanned(cfg, g, a);
    BoostNeedsPlan(cfg, g);
    hide BoostApplies;
  }

  lemma BoostNeedsPlan(cfg: Config, g: Game)
    requires AtSlot(cfg, g.turn) && Planned(cfg, g).action.Activate?
    ensures Boosted(cfg, g) ==> Acting(cfg, g) in g.table.boosts
  {
  }

  lemma EndingPlan(cfg: Config, a: Course, who: set<ParticipantId>, raw: int, taken: multiset<CountryId>)
    requires HasSlot(a.shown, a.p, a.at) && a.c in a.shown.board.campaigns
    ensures Ending(cfg, a, who, raw, taken).turn.plan == a.shown.turn.plan[a.p :=
              a.shown.turn.plan[a.p][a.at := a.shown.turn.plan[a.p][a.at].(outcome := Some(Resolved))]]
  {
    hide Stake, Effect, Taken, AddCubes, Holder, Rewarded, Spend, Charge, Locate;
  }

  lemma SpentCore(cfg: Config, a: Course, who: set<ParticipantId>)
    requires HasSlot(a.shown, a.p, a.at) && a.c in a.shown.board.campaigns
    ensures Spent(cfg, a, who).purse.coreUsed ==
            a.shown.purse.coreUsed + if a.k.core then {a.p} else {}
  {
    hide TotalCost, BoostApplies, DiscardFromHand, Givers;
  }

  lemma PriceIs(cfg: Config, g: Game, a: Course)
    requires Starts(cfg, g, a)
    ensures Price(cfg, g) == TotalCost(a.shown.board.campaigns[a.c], a.k.cost, a.k.core)
  {
    hide Sum, ComponentCosts, UniqueStacks;
  }

  lemma CostsAre(cfg: Config, g: Game, a: Course, after: Game)
    requires Starts(cfg, g, a) && Reaches(cfg, a, after)
    ensures CostsFollow(g, after, cfg.seats, a.k.country, TotalCost(a.shown.board.campaigns[a.c], a.k.cost, a.k.core),
                        Partners(after.audit.resourceLedger, a.from))
    ensures after.purse.coreUsed == g.purse.coreUsed + if a.k.core then {a.p} else {}
  {
    hide CostsFollow, Stake, Ending, Cancels, Partners, LastTaken, LastRaw, LastResult, UniqueStacks, Index, Spend,
      Charge, TotalCost, Rewarded, Effect;
    var who, raw, taken := Partners(after.audit.resourceLedger, a.from), LastRaw(after), LastTaken(after);
    EndingPurse(cfg, a, who, raw, taken);
    SpentCore(cfg, a, who);
    SpentCosts(cfg, a.shown, who, a.p, Index(a), a.c, a.k, after);
    SameCosts(a.shown, g, after, cfg.seats, a.k.country, TotalCost(a.shown.board.campaigns[a.c], a.k.cost, a.k.core),
              who);
  }

  lemma SlotIsResolved(cfg: Config, g: Game, a: Course, after: Game)
    requires Starts(cfg, g, a) && Reaches(cfg, a, after)
    ensures var campaign := g.board.campaigns[a.c];
            after.board.campaigns == g.board.campaigns[a.c := campaign.(activations := campaign.activations + 1)]
    ensures after.turn.plan == g.turn.plan[a.p := g.turn.plan[a.p][a.at :=
              Planned(cfg, g).(revealed := true, outcome := Some(Resolved))]]
  {
    hide Stake, Ending, Cancels, Partners, LastTaken, LastRaw, LastResult, UniqueStacks, Index, Effect, AddCubes, Taken,
      Holder;
    var who, raw, taken := Partners(after.audit.resourceLedger, a.from), LastRaw(after), LastTaken(after);
    EndingBoard(cfg, a, who, raw, taken);
    EndingPlan(cfg, a, who, raw, taken);
    var shown := Planned(cfg, g).(revealed := true);
    var slots, final := g.turn.plan[a.p], shown.(outcome := Some(Resolved));
    assert slots[a.at := shown][a.at := final] == slots[a.at := final];
    assert g.turn.plan[a.p := slots[a.at := shown]][a.p := slots[a.at := final]] ==
           g.turn.plan[a.p := slots[a.at := final]];
  }

  lemma EndSettles(cfg: Config, g: Game, a: Course, after: Game)
    requires Starts(cfg, g, a) && Reaches(cfg, a, after)
    ensures Settled(cfg, g, after)
  {
    BoostIsSpent(cfg, g, a, after);
    PriceIs(cfg, g, a);
    CostsAre(cfg, g, a, after);
    SlotIsResolved(cfg, g, a, after);
    hide Reaches, CostsFollow, BoostFollows, Partners, UniqueStacks, Index, TotalCost, Price;
  }

  lemma SameCosts(a: Game, b: Game, after: Game, seats: map<ParticipantId, CountryId>, country: CountryId, price: nat,
                  who: set<ParticipantId>)
    requires a.purse == b.purse && CostsFollow(a, after, seats, country, price, who)
    ensures CostsFollow(b, after, seats, country, price, who)
  {
    assert forall c :: Balance(a, c) == Balance(b, c);
  }

  lemma ActivationSettles(cfg: Config, g: Game, open: set<ActivationId>, a: Course, first: Order, orders: seq<Order>)
    requires Steady(cfg, g, open) && Distinct(cfg.order) && Way(cfg, g, a, first, orders)
    ensures Settled(cfg, g, Final(cfg, g, first, orders))
  {
    hide *;
    WayOutcome(cfg, g, open, a, first, orders);
    EndSettles(cfg, g, a, Final(cfg, g, first, orders));
  }
}
