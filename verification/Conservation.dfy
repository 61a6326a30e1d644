/** What the bookings of `Accounts.dfy` conserve: balances against ledgers, and cards against their zones. */
module Conservation {
  import opened Prelude
  import opened CampaignTypes
  import opened Adjudication
  import opened ReplaySegments
  import opened ReplayRuns
  import opened Ledgers
  import opened Accounts
  import opened Choices

  // -------------------------------------------------------------- resources

  function ResourceLines(entries: seq<ResourceEntry>): (lines: seq<Line<CountryId>>)
    ensures |lines| == |entries|
  {
    seq(|entries|, n requires 0 <= n < |entries| => Line(entries[n].country, entries[n].delta, entries[n].balanceAfter))
  }

  function ResourcesAt(start: Game): CountryId -> int {
    c => Balance(start, c)
  }

  /** The lines booked since the start. */
  function NewResources(start: Game, g: Game): seq<Line<CountryId>>
    requires start.audit.resourceLedger <= g.audit.resourceLedger
  {
    ResourceLines(g.audit.resourceLedger[|start.audit.resourceLedger|..])
  }

  ghost predicate ResourceBook(start: Game, g: Game) {
    start.audit.resourceLedger <= g.audit.resourceLedger && Running(ResourcesAt(start), NewResources(start, g))
  }

  function ResourceTotal(start: Game, g: Game, c: CountryId): int
    requires start.audit.resourceLedger <= g.audit.resourceLedger
  {
    Total(ResourcesAt(start), NewResources(start, g), c)
  }

  /** Each country has its opening resources plus what the ledger booked since, and is never overdrawn. */
  ghost predicate ResourcesReconcile(start: Game, g: Game) {
    ResourceBook(start, g) && forall c :: Balance(g, c) == ResourceTotal(start, g, c) && Balance(g, c) >= 0
  }

  lemma PushBooks(start: Game, g: Game, p: ParticipantId, country: CountryId, reason: ResourceReason, delta: int,
                  balance: int)
    requires ResourceBook(start, g) && balance == ResourceTotal(start, g, country) + delta && balance >= 0
    ensures var r := PushResource(g, p, country, reason, delta, balance);
            ResourceBook(start, r) &&
            forall c :: ResourceTotal(start, r, c) == ResourceTotal(start, g, c) + if c == country then delta else 0
  {
    var n, r := |start.audit.resourceLedger|, PushResource(g, p, country, reason, delta, balance);
    var entries := g.audit.resourceLedger;
    assert r.audit.resourceLedger[n..] == entries[n..] + [r.audit.resourceLedger[|entries|]];
    assert NewResources(start, r) == NewResources(start, g) + [Line(country, delta, balance)];
    Post(ResourcesAt(start), NewResources(start, g), Line(country, delta, balance));
  }

  lemma {:induction false} ComponentsBook(start: Game, g: Game, p: ParticipantId, country: CountryId, costs: seq<nat>,
                                          balance: int)
    requires ResourceBook(start, g) && balance == ResourceTotal(start, g, country) && balance >= Sum(costs)
    ensures var r := PushComponents(g, p, country, costs, balance);
            ResourceBook(start, r) &&
            forall c :: ResourceTotal(start, r, c) == ResourceTotal(start, g, c) - if c == country then Sum(costs)
              else 0
  {
    if costs != [] {
      var init, last := costs[..|costs| - 1], costs[|costs| - 1];
      ComponentsBook(start, g, p, country, init, balance);
      PushBooks(start, PushComponents(g, p, country, init, balance), p, country, ComponentCost, -(last as int),
                balance - Sum(costs));
      hide ResourceTotal, ResourceBook;
    }
  }

  lemma CostReconciles(start: Game, g: Game, p: ParticipantId, country: CountryId, cost: nat, costs: seq<nat>,
                       core: bool)
    requires ResourcesReconcile(start, g) && Balance(g, country) >= cost + Sum(costs) + CoreCost(core)
    ensures ResourcesReconcile(start, Booked(g, p, country, cost, costs, core))
  {
    hide ResourceTotal, ResourceBook, PushComponents;
    var before := Balance(g, country);
    var after := before - cost - Sum(costs) - CoreCost(core);
    var g0 := SetBalance(g, country, after);
    SameLedger(start, g, g0);
    PushBooks(start, g0, p, country, ActivationCost, -(cost as int), before - cost);
    var g1 := PushResource(g0, p, country, ActivationCost, -(cost as int), before - cost);
    ComponentsBook(start, g1, p, country, costs, before - cost);
    var g2 := PushComponents(g1, p, country, costs, before - cost);
    if core {
      PushBooks(start, g2, p, country, CoreModifier, -2, after);
      SameLedger(start, PushResource(g2, p, country, CoreModifier, -2, after),
                 Booked(g, p, country, cost, costs, core));
    }
  }

  lemma SameLedger(start: Game, g: Game, other: Game)
    requires other.audit.resourceLedger == g.audit.resourceLedger
    ensures ResourceBook(start, g) == ResourceBook(start, other)
    ensures ResourceBook(start, g) ==> forall c :: ResourceTotal(start, other, c) == ResourceTotal(start, g, c)
  {
  }

  lemma ContributionReconciles(start: Game, g: Game, p: ParticipantId, country: CountryId)
    requires ResourcesReconcile(start, g) && Balance(g, country) >= 1
    ensures ResourcesReconcile(start, Contribute(Flow(g, [], []), NOBODY, p, country, 0).game)
  {
    hide ResourceTotal, ResourceBook;
    var g0 := SetBalance(g, country, Balance(g, country) - 1);
    SameLedger(start, g, g0);
    PushBooks(start, g0, p, country, CoalitionContribution, -1, Balance(g, country) - 1);
    SameLedger(start, PushResource(g0, p, country, CoalitionContribution, -1, Balance(g, country) - 1),
               Contribute(Flow(g, [], []), NOBODY, p, country, 0).game);
  }

  lemma BookingsReconcile(start: Game, g: Game, booking: Booking)
    requires ResourcesReconcile(start, g) && Allowed(g, booking)
    ensures ResourcesReconcile(start, Book(g, booking))
  {
    match booking
    case Cost(p, country, cost, costs, core) => CostReconciles(start, g, p, country, cost, costs, core);
    case Contribution(p, country) => ContributionReconciles(start, g, p, country);
    case _ =>
      hide ResourceTotal, ResourceBook, DiscardFromHand, TakeIntoCampaign, RemoveCube, PlaceCubes, AddVp;
      SameLedger(start, g, Book(g, booking));
  }

  // ------------------------------------------------------- victory points

  function PointLines(entries: seq<VpEntry>): (lines: seq<Line<ParticipantId>>)
    ensures |lines| == |entries|
  {
    seq(|entries|, n requires 0 <= n < |entries| => Line(entries[n].participant, entries[n].delta,
                                                         entries[n].balanceAfter))
  }

  function PointsAt(start: Game): ParticipantId -> int {
    (p: ParticipantId) => VpOf(start, p)
  }

  function NewPoints(start: Game, g: Game): seq<Line<ParticipantId>>
    requires start.audit.vpLedger <= g.audit.vpLedger
  {
    PointLines(g.audit.vpLedger[|start.audit.vpLedger|..])
  }

  /** Each player has the opening points plus what the ledger booked since, and never less than none. */
  ghost predicate PointsReconcile(start: Game, g: Game) {
    start.audit.vpLedger <= g.audit.vpLedger && Running(PointsAt(start), NewPoints(start, g)) &&
    forall p :: VpOf(g, p) == Total(PointsAt(start), NewPoints(start, g), p) && VpOf(g, p) >= 0
  }

  lemma PointsBookingReconciles(start: Game, g: Game, booking: Booking)
    requires PointsReconcile(start, g) && Allowed(g, booking)
    ensures PointsReconcile(start, Book(g, booking))
  {
    if booking.Points? {
      var r, n := Book(g, booking), |start.audit.vpLedger|;
      var line := Line(booking.p, booking.delta, VpOf(g, booking.p) + booking.delta);
      assert r.audit.vpLedger[n..] == g.audit.vpLedger[n..] + [r.audit.vpLedger[|g.audit.vpLedger|]];
      assert NewPoints(start, r) == NewPoints(start, g) + [line];
      Post(PointsAt(start), NewPoints(start, g), line);
      hide Total, Running;
    } else {
      hide Total, Running, DiscardFromHand, TakeIntoCampaign, RemoveCube, PlaceCubes, Booked, Contribute;
      SamePoints(start, g, Book(g, booking));
    }
  }

  lemma SamePoints(start: Game, g: Game, other: Game)
    requires PointsReconcile(start, g) && other.audit.vpLedger == g.audit.vpLedger && other.purse.vp == g.purse.vp
    ensures PointsReconcile(start, other)
  {
    assert NewPoints(start, other) == NewPoints(start, g);
    assert forall p :: VpOf(other, p) == VpOf(g, p);
    hide Total, Running, VpOf, NewPoints;
  }

  // ------------------------------------------------------ influence stacks

  datatype StackKey = StackKey(pd: PdId, kind: Alignment, country: CountryId)

  function InfluenceLines(entries: seq<InfluenceEntry>): (lines: seq<Line<StackKey>>)
    ensures |lines| == |entries|
  {
    seq(|entries|, n requires 0 <= n < |entries| =>
      Line(StackKey(entries[n].pd, entries[n].kind, entries[n].attribution), entries[n].delta, entries[n].balanceAfter))
  }

  function CubesOf(g: Game, key: StackKey): nat {
    Available(g.board.stacks, key.pd, key.kind, key.country)
  }

  function CubesAt(start: Game): StackKey -> int {
    key => CubesOf(start, key)
  }

  function NewInfluence(start: Game, g: Game): seq<Line<StackKey>>
    requires start.audit.influenceLedger <= g.audit.influenceLedger
  {
    InfluenceLines(g.audit.influenceLedger[|start.audit.influenceLedger|..])
  }

  /** Each stack has its opening cubes plus what the ledger booked since. */
  ghost predicate StacksReconcile(start: Game, g: Game) {
    UniqueStacks(g.board.stacks) && start.audit.influenceLedger <= g.audit.influenceLedger &&
    Running(CubesAt(start), NewInfluence(start, g)) &&
    forall key :: CubesOf(g, key) == Total(CubesAt(start), NewInfluence(start, g), key)
  }

  lemma {:induction false} AvailableAfterUpdate(stacks: seq<Stack>, n: nat, count: nat, key: StackKey)
    requires UniqueStacks(stacks) && n < |stacks|
    ensures Available(stacks[n := stacks[n].(count := count)], key.pd, key.kind, key.country) ==
            if Keyed(stacks[n], key.pd, key.kind, key.country) then count
              else Available(stacks, key.pd, key.kind, key.country)
  {
    var last := |stacks| - 1;
    var moved := stacks[n := stacks[n].(count := count)];
    if n < last {
      assert moved[..last] == stacks[..last][n := stacks[n].(count := count)];
      assert !SameKey(stacks[n], stacks[last]);
      AvailableAfterUpdate(stacks[..last], n, count, key);
    } else {
      assert moved[..last] == stacks[..last];
    }
  }

  lemma {:induction false} UnavailableIfAbsent(stacks: seq<Stack>, key: StackKey)
    requires forall n :: 0 <= n < |stacks| ==> !Keyed(stacks[n], key.pd, key.kind, key.country)
    ensures Available(stacks, key.pd, key.kind, key.country) == 0
  {
    if stacks != [] {
      UnavailableIfAbsent(stacks[..|stacks| - 1], key);
    }
  }

  /** One ledger line for the key whose stack changed. */
  lemma InfluenceBooks(start: Game, g: Game, r: Game, key: StackKey, delta: int, reason: InfluenceReason, version: nat)
    requires StacksReconcile(start, g) && UniqueStacks(r.board.stacks) && CubesOf(g, key) + delta >= 0
    requires forall k :: CubesOf(r, k) == CubesOf(g, k) + if k == key then delta else 0
    requires r.audit.influenceLedger == g.audit.influenceLedger +
      [InfluenceEntry(InfluenceLedger(|g.audit.influenceLedger| + 1), key.pd, key.kind, key.country, reason, delta,
                      CubesOf(g, key) + delta, version)]
    ensures StacksReconcile(start, r)
  {
    var n := |start.audit.influenceLedger|;
    var line := Line(key, delta, CubesOf(g, key) + delta);
    assert r.audit.influenceLedger[n..] == g.audit.influenceLedger[n..] +
           [r.audit.influenceLedger[|g.audit.influenceLedger|]];
    assert NewInfluence(start, r) == NewInfluence(start, g) + [line];
    hide CubesOf, UniqueStacks;
    Post(CubesAt(start), NewInfluence(start, g), line);
    hide Total, Running;
  }

  lemma CubeTakenReconciles(start: Game, g: Game, i: Impact, country: CountryId)
    requires StacksReconcile(start, g) && RemoveCube(Flow(g, [], []), NOBODY, i, country).Go?
    ensures StacksReconcile(start, RemoveCube(Flow(g, [], []), NOBODY, i, country).flow.game)
  {
    var stacks, kind := g.board.stacks, i.kind.Opposite();
    var at, key := FindStack(stacks, i.target, kind, country, 1), StackKey(i.target, kind, country);
    var r := RemoveCube(Flow(g, [], []), NOBODY, i, country).flow.game;
    AvailableIsCount(stacks, at);
    hide StacksReconcile, Available;
    assert StacksReconcile(start, g);
    forall k
      ensures CubesOf(r, k) == CubesOf(g, k) + if k == key then -1 else 0
    {
      AvailableAfterUpdate(stacks, at, stacks[at].count - 1, k);
    }
    InfluenceBooks(start, g, r, key, -1, Cancelled, g.version + 1);
  }

  lemma CubesAddedReconciles(start: Game, g: Game, i: Impact, placed: nat)
    requires StacksReconcile(start, g) && placed > 0
    ensures StacksReconcile(start, PlaceCubes(Flow(g, [], []), NOBODY, i, placed).game)
  {
    var stacks := g.board.stacks;
    var at, key := FindStack(stacks, i.target, i.kind, i.attribution, 0), StackKey(i.target, i.kind, i.attribution);
    var r := PlaceCubes(Flow(g, [], []), NOBODY, i, placed).game;
    PlaceCubesKeepsUnique(Flow(g, [], []), NOBODY, i, placed);
    hide StacksReconcile;
    assert StacksReconcile(start, g);
    if at < |stacks| {
      AvailableIsCount(stacks, at);
      hide Available;
      forall k
        ensures CubesOf(r, k) == CubesOf(g, k) + if k == key then placed else 0
      {
        AvailableAfterUpdate(stacks, at, stacks[at].count + placed, k);
      }
      InfluenceBooks(start, g, r, key, placed, Placed, g.version + 1);
    } else {
      UnavailableIfAbsent(stacks, key);
      assert r.board.stacks[..|stacks|] == stacks;
      InfluenceBooks(start, g, r, key, placed, Placed, g.version + 1);
    }
  }

  lemma StackBookingReconciles(start: Game, g: Game, booking: Booking)
    requires StacksReconcile(start, g) && Allowed(g, booking)
    ensures StacksReconcile(start, Book(g, booking))
  {
    match booking
    case CubeTaken(i, country) => CubeTakenReconciles(start, g, i, country);
    case CubesAdded(i, placed) => CubesAddedReconciles(start, g, i, placed);
    case _ =>
      hide Total, Running, UniqueStacks, Available, DiscardFromHand, TakeIntoCampaign, RemoveCube, PlaceCubes, AddVp,
        Booked, Contribute;
      SameStacks(start, g, Book(g, booking));
  }

  lemma SameStacks(start: Game, g: Game, other: Game)
    requires StacksReconcile(start, g) && other.audit.influenceLedger == g.audit.influenceLedger
    requires other.board.stacks == g.board.stacks
    ensures StacksReconcile(start, other)
  {
  }

  // -------------------------------------------------------- card zones

  /** A card lies in a player's hand list exactly if its own record says so; likewise the discard list. */
  ghost predicate ZonesAgree(g: Game) {
    forall p :: p in g.table.holdings ==>
      var h := g.table.holdings[p];
      Distinct(h.hand) && Distinct(h.discard) &&
      (forall c :: c in h.hand <==> InZone(g, c, p, Hand)) &&
      (forall c :: c in h.discard <==> InZone(g, c, p, Discard))
  }

  lemma {:induction false} WithoutStaysDistinct<T(!new)>(s: seq<T>, x: T)
    requires Distinct(s)
    ensures Distinct(Without(s, x))
  {
    if s != [] {
      WithoutStaysDistinct(s[1..], x);
      assert forall n :: 0 <= n < |s[1..]| ==> s[n + 1] == s[1..][n];
      assert s[0] !in s[1..];
      assert s[0] !in Without(s[1..], x);
    }
  }

  lemma BuildingKeepsZones(g: Game, p: ParticipantId, card: CardId)
    requires ZonesAgree(g) && InZone(g, card, p, Hand)
    ensures ZonesAgree(TakeIntoCampaign(g, p, card))
  {
    if p in g.table.holdings {
      WithoutStaysDistinct(g.table.holdings[p].hand, card);
    }
  }

  lemma SpendingKeepsZones(g: Game, p: ParticipantId, card: CardId)
    requires ZonesAgree(g) && InZone(g, card, p, Hand) && p in g.table.holdings
    ensures ZonesAgree(DiscardFromHand(g, p, card))
  {
    var h := g.table.holdings[p];
    WithoutStaysDistinct(h.hand, card);
    assert !InZone(g, card, p, Discard);
  }

  lemma SameZones(g: Game, other: Game)
    requires ZonesAgree(g) && other.table.cards == g.table.cards && other.table.holdings == g.table.holdings
    ensures ZonesAgree(other)
  {
    forall p | p in g.table.holdings
      ensures forall c, zone :: InZone(other, c, p, zone) == InZone(g, c, p, zone)
    {
    }
  }

  lemma BookingKeepsZones(g: Game, booking: Booking)
    requires ZonesAgree(g) && Allowed(g, booking)
    ensures ZonesAgree(Book(g, booking))
  {
    match booking
    case CardBuilt(p, card) => BuildingKeepsZones(g, p, card);
    case CardSpent(p, card) => SpendingKeepsZones(g, p, card);
    case _ =>
      hide InZone, RemoveCube, PlaceCubes, AddVp, Booked, Contribute;
      SameZones(g, Book(g, booking));
  }

  // ----------------------------------------------------------------- runs

  /** Everything conserved between a starting state and a later one. */
  ghost predicate Conserved(start: Game, g: Game) {
    ResourcesReconcile(start, g) && PointsReconcile(start, g) && StacksReconcile(start, g) && ZonesAgree(g)
  }

  lemma ConservedAfter(start: Game, a: Game, booking: Booking, b: Game)
    requires Conserved(start, a) && Allowed(a, booking) && SameBooks(Book(a, booking), b)
    ensures Conserved(start, b)
  {
    BookingsReconcile(start, a, booking);
    PointsBookingReconciles(start, a, booking);
    StackBookingReconciles(start, a, booking);
    BookingKeepsZones(a, booking);
    hide Book, Allowed, Total, Running, UniqueStacks, Available, InZone;
    var g := Book(a, booking);
    SamePoints(start, g, b);
    SameStacks(start, g, b);
    SameZones(g, b);
    SameResources(start, g, b);
  }

  lemma SameResources(start: Game, g: Game, other: Game)
    requires ResourcesReconcile(start, g) && other.audit.resourceLedger == g.audit.resourceLedger
    requires other.purse.resources == g.purse.resources
    ensures ResourcesReconcile(start, other)
  {
    SameLedger(start, g, other);
  }

  lemma BookingsConserve(start: Game)
    ensures Keeps(g => Conserved(start, g))
  {
    var inv := g => Conserved(start, g);
    forall a, b, booking | inv(a) && Allowed(a, booking) && SameBooks(Book(a, booking), b)
      ensures inv(b)
    {
      ConservedAfter(start, a, booking, b);
    }
  }

  /**
   Ledger conservation and zone agreement over whole runs: whatever commands are given, every balance
   equals its opening value plus its ledger lines, each line shows the balance it left, no balance is
   negative, and every hand and discard list agrees with the zones of the cards.
   */
  lemma RunConserves(cfg: Config, start: Game, orders: seq<Order>)
    requires ZonesAgree(start) && UniqueStacks(start.board.stacks)
    requires (forall c :: Balance(start, c) >= 0) && (forall p :: VpOf(start, p) >= 0)
    ensures Conserved(start, Run(cfg, start, orders))
  {
    BookingsConserve(start);
    assert start.audit.resourceLedger[|start.audit.resourceLedger|..] == [];
    assert start.audit.vpLedger[|start.audit.vpLedger|..] == [];
    assert start.audit.influenceLedger[|start.audit.influenceLedger|..] == [];
    RunKeeps(g => Conserved(start, g), cfg, start, orders);
  }

  /** No line after the n-th is booked under its key. */
  ghost predicate LastOf<K(!new)>(keys: seq<K>, n: nat) {
    n < |keys| && forall m :: n < m < |keys| ==> keys[m] != keys[n]
  }

  function ResourceKeys(g: Game): seq<CountryId> {
    seq(|g.audit.resourceLedger|, n requires 0 <= n < |g.audit.resourceLedger| => g.audit.resourceLedger[n].country)
  }

  function PointKeys(g: Game): seq<ParticipantId> {
    seq(|g.audit.vpLedger|, n requires 0 <= n < |g.audit.vpLedger| => g.audit.vpLedger[n].participant)
  }

  function KeyOf(e: InfluenceEntry): StackKey {
    StackKey(e.pd, e.kind, e.attribution)
  }

  function InfluenceKeys(g: Game): seq<StackKey> {
    seq(|g.audit.influenceLedger|, n requires 0 <= n < |g.audit.influenceLedger| => KeyOf(g.audit.influenceLedger[n]))
  }

  /** The balance in the last ledger line of a country, a player or a stack is its current one, after every run. */
  lemma LastBalanceIsCurrent(cfg: Config, start: Game, orders: seq<Order>, n: nat)
    requires ZonesAgree(start) && UniqueStacks(start.board.stacks)
    requires (forall c :: Balance(start, c) >= 0) && (forall p :: VpOf(start, p) >= 0)
    ensures
      var g := Run(cfg, start, orders);
      (|start.audit.resourceLedger| <= n && LastOf(ResourceKeys(g), n) ==>
        g.audit.resourceLedger[n].balanceAfter == Balance(g, g.audit.resourceLedger[n].country)) &&
      (|start.audit.vpLedger| <= n && LastOf(PointKeys(g), n) ==>
        g.audit.vpLedger[n].balanceAfter == VpOf(g, g.audit.vpLedger[n].participant)) &&
      (|start.audit.influenceLedger| <= n && LastOf(InfluenceKeys(g), n) ==>
        g.audit.influenceLedger[n].balanceAfter == CubesOf(g, KeyOf(g.audit.influenceLedger[n])))
  {
    var g := Run(cfg, start, orders);
    RunConserves(cfg, start, orders);
    hide Run, ZonesAgree, UniqueStacks;
    if |start.audit.resourceLedger| <= n && LastOf(ResourceKeys(g), n) {
      LastResourceLine(start, g, n);
    }
    if |start.audit.vpLedger| <= n && LastOf(PointKeys(g), n) {
      LastPointLine(start, g, n);
    }
    if |start.audit.influenceLedger| <= n && LastOf(InfluenceKeys(g), n) {
      LastInfluenceLine(start, g, n);
    }
  }

  lemma LastResourceLine(start: Game, g: Game, n: nat)
    requires ResourcesReconcile(start, g) && |start.audit.resourceLedger| <= n && LastOf(ResourceKeys(g), n)
    ensures g.audit.resourceLedger[n].balanceAfter == Balance(g, g.audit.resourceLedger[n].country)
  {
    var lines, at := NewResources(start, g), n - |start.audit.resourceLedger|;
    forall m | at < m < |lines|
      ensures lines[m].key != lines[at].key
    {
      assert ResourceKeys(g)[m + |start.audit.resourceLedger|] != ResourceKeys(g)[n];
    }
    LastLineIsTotal(ResourcesAt(start), lines, at);
  }

  lemma LastPointLine(start: Game, g: Game, n: nat)
    requires PointsReconcile(start, g) && |start.audit.vpLedger| <= n && LastOf(PointKeys(g), n)
    ensures g.audit.vpLedger[n].balanceAfter == VpOf(g, g.audit.vpLedger[n].participant)
  {
    var lines, at := NewPoints(start, g), n - |start.audit.vpLedger|;
    forall m | at < m < |lines|
      ensures lines[m].key != lines[at].key
    {
      assert PointKeys(g)[m + |start.audit.vpLedger|] != PointKeys(g)[n];
    }
    LastLineIsTotal(PointsAt(start), lines, at);
  }

  lemma LastInfluenceLine(start: Game, g: Game, n: nat)
    requires StacksReconcile(start, g) && |start.audit.influenceLedger| <= n && LastOf(InfluenceKeys(g), n)
    ensures g.audit.influenceLedger[n].balanceAfter == CubesOf(g, KeyOf(g.audit.influenceLedger[n]))
  {
    hide CubesOf, UniqueStacks;
    var lines, at := NewInfluence(start, g), n - |start.audit.influenceLedger|;
    forall m | at < m < |lines|
      ensures lines[m].key != lines[at].key
    {
      assert InfluenceKeys(g)[m + |start.audit.influenceLedger|] != InfluenceKeys(g)[n];
    }
    LastLineIsTotal(CubesAt(start), lines, at);
  }
}
