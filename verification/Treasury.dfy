/** Country resources before adjudication: the scenario's opening entries, deals between players and turn income. */
module Treasury {
  import opened Prelude
  import opened CampaignTypes
  import opened Ledgers

  datatype Reason = ScenarioSetup | DealTransfer | TurnIncome
  datatype Entry = Entry(country: CountryId, reason: Reason, delta: int, balanceAfter: int)

  function Lines(entries: seq<Entry>): (lines: seq<Line<CountryId>>)
    ensures |lines| == |entries|
  {
    seq(|entries|, n requires 0 <= n < |entries| => Line(entries[n].country, entries[n].delta, entries[n].balanceAfter))
  }

  function Nothing(): CountryId -> int {
    _ => 0
  }

  /** What a country has according to the ledger alone. */
  function Booked(entries: seq<Entry>, c: CountryId): int {
    Total(Nothing(), Lines(entries), c)
  }

  function SumOver(resources: map<CountryId, int>, countries: seq<CountryId>): int {
    if countries == [] then 0 else Get(resources, countries[0], 0) + SumOver(resources, countries[1..])
  }

  class Treasury {
    var resources: map<CountryId, int>
    var ledger: seq<Entry>

    /** Balances are the sums of their ledger lines, each line shows the balance it left, nothing is overdrawn. */
    ghost predicate Valid()
      reads this
    {
      Running(Nothing(), Lines(ledger)) && (forall c :: c in COUNTRIES ==> c in resources) &&
      forall c :: c in resources ==> resources[c] == Booked(ledger, c) && resources[c] >= 0
    }

    /** One opening entry for each country of the scenario. */
    constructor (opening: map<CountryId, nat>)
      requires forall c :: c in COUNTRIES ==> c in opening
      ensures Valid() && (forall c :: c in COUNTRIES ==> resources[c] == opening[c])
      ensures resources.Keys == SetOfCountries()
    {
      resources, ledger := map[], [];
      new;
      for n := 0 to |COUNTRIES|
        invariant Running(Nothing(), Lines(ledger))
        invariant resources.Keys == set c | c in COUNTRIES[..n]
        invariant forall c :: c in resources ==>
                  resources[c] == Booked(ledger, c) && c in opening && resources[c] == opening[c]
        invariant forall c :: c !in resources ==> Booked(ledger, c) == 0
      {
        var c := COUNTRIES[n];
        assert c !in COUNTRIES[..n];
        assert COUNTRIES[..n + 1] == COUNTRIES[..n] + [c];
        BookOne(ledger, Entry(c, ScenarioSetup, opening[c], opening[c]));
        ledger := ledger + [Entry(c, ScenarioSetup, opening[c], opening[c])];
        resources := resources[c := opening[c]];
      }
      assert COUNTRIES[..|COUNTRIES|] == COUNTRIES;
    }

    /** Moves resources from one country to another; refused if there are not enough. */
    method Transfer(source: CountryId, target: CountryId, amount: nat) returns (ok: bool)
      requires Valid() && source in resources && target in resources && source != target
      modifies this
      ensures Valid() && (ok <==> old(resources)[source] >= amount)
      ensures resources == if ok then old(resources)[source := old(resources)[source] - amount][target :=
          old(resources)[target] + amount]
                           else old(resources)
      ensures SumOver(resources, COUNTRIES) == SumOver(old(resources), COUNTRIES) && (!ok ==> ledger == old(ledger))
    {
      hide Running, Booked, Lines, SumOver;
      if resources[source] < amount {
        return false;
      }
      ghost var before := resources;
      resources := resources[source := resources[source] - amount][target := resources[target] + amount];
      BookOne(ledger, Entry(source, DealTransfer, -(amount as int), resources[source]));
      ledger := ledger + [Entry(source, DealTransfer, -(amount as int), resources[source])];
      BookOne(ledger, Entry(target, DealTransfer, amount, resources[target]));
      ledger := ledger + [Entry(target, DealTransfer, amount, resources[target])];
      SumMoves(before, source, target, amount);
      ok := true;
    }

    method ApplyIncome(c: CountryId, income: nat)
      requires Valid() && c in resources
      modifies this
      ensures Valid() && resources == old(resources)[c := old(resources)[c] + income]
    {
      resources := resources[c := resources[c] + income];
      BookOne(ledger, Entry(c, TurnIncome, income, resources[c]));
      ledger := ledger + [Entry(c, TurnIncome, income, resources[c])];
    }
  }

  function SetOfCountries(): set<CountryId> {
    set c | c in COUNTRIES
  }

  lemma BookOne(ledger: seq<Entry>, e: Entry)
    requires Running(Nothing(), Lines(ledger)) && e.balanceAfter == Booked(ledger, e.country) + e.delta
    requires e.balanceAfter >= 0
    ensures Running(Nothing(), Lines(ledger + [e]))
    ensures forall c :: Booked(ledger + [e], c) == Booked(ledger, c) + if c == e.country then e.delta else 0
  {
    var line := Line(e.country, e.delta, e.balanceAfter);
    assert Lines(ledger + [e]) == Lines(ledger) + [line];
    Post(Nothing(), Lines(ledger), line);
  }

  lemma SumOverFive(resources: map<CountryId, int>)
    ensures SumOver(resources, COUNTRIES) ==
            Get(resources, Arden, 0) + Get(resources, Dinesia, 0) + Get(resources, Fluma, 0) +
              Get(resources, Presque, 0) +
            Get(resources, Ursaria, 0)
  {
    var four := COUNTRIES[1..];
    assert four[1..][1..] == [Presque, Ursaria] && [Presque, Ursaria][1..] == [Ursaria];
    assert SumOver(resources, [Ursaria]) == Get(resources, Ursaria, 0);
    assert SumOver(resources, four[1..]) == Get(resources, Fluma, 0) + SumOver(resources, [Presque, Ursaria]);
    assert SumOver(resources, four) == Get(resources, Dinesia, 0) + SumOver(resources, four[1..]);
  }

  lemma SumMoves(resources: map<CountryId, int>, source: CountryId, target: CountryId, amount: int)
    requires source in resources && target in resources && source != target
    ensures SumOver(resources[source := resources[source] - amount][target := resources[target] + amount], COUNTRIES) ==
            SumOver(resources, COUNTRIES)
  {
    SumOverFive(resources);
    SumOverFive(resources[source := resources[source] - amount][target := resources[target] + amount]);
    hide SumOver;
    match source case Arden => case Dinesia => case Fluma => case Presque => case Ursaria =>
  }
}
