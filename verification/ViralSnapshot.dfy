/**
 Which populations start a viral spread in a cleanup: the snapshot of origins, the ties their owners have to
 decide, and the ones decided by themselves.
 */
module ViralSnapshot {
  import opened Prelude
  import opened CampaignTypes
  import opened Adjudication

  datatype Ownership = Ownership(pd: PdId, owner: Option<ParticipantId>)
  datatype Traits = Traits(pd: PdId, traits: set<nat>)

  /** The part of the game the snapshot looks at. */
  datatype Field = Field(influence: seq<Stack>, owners: seq<Ownership>, countries: map<ParticipantId, CountryId>,
                         traits: seq<Traits>, initiative: seq<ParticipantId>)

  datatype Origin = Origin(pd: PdId, owner: ParticipantId, kind: Alignment, destinations: seq<PdId>)
  datatype Tie = Tie(pd: PdId, owner: ParticipantId)

  /** Populations are listed once, among the owners and among the traits. */
  ghost predicate Listed(f: Field) {
    (forall i, j :: 0 <= i < j < |f.owners| ==> f.owners[i].pd != f.owners[j].pd) &&
    forall i, j :: 0 <= i < j < |f.traits| ==> f.traits[i].pd != f.traits[j].pd
  }

  function Threshold(short: bool): nat {
    if short then 6 else 8
  }

  function Cubes(f: Field, pd: PdId, kind: Alignment): nat {
    CountOn(f.influence, pd, kind)
  }

  function TraitsOf(traits: seq<Traits>, pd: PdId): set<nat> {
    if traits == [] then {}
    else if traits[|traits| - 1].pd == pd then traits[|traits| - 1].traits
    else TraitsOf(traits[..|traits| - 1], pd)
  }

  /** The owner's own country has a cube of this kind there. */
  predicate Owns(f: Field, pd: PdId, owner: ParticipantId, kind: Alignment) {
    owner in f.countries && Attributed(f.influence, pd, kind, f.countries[owner])
  }

  function InsertPd(pd: PdId, sorted: seq<PdId>): seq<PdId> {
    if sorted == [] || pd < sorted[0] then [pd] + sorted else [sorted[0]] + InsertPd(pd, sorted[1..])
  }

  /** The other populations that share a trait, in order. */
  function Sharing(traits: seq<Traits>, pd: PdId, source: set<nat>): seq<PdId> {
    if traits == [] then []
    else
      var last, rest := traits[|traits| - 1], Sharing(traits[..|traits| - 1], pd, source);
      if last.pd != pd && source * last.traits != {} then InsertPd(last.pd, rest) else rest
  }

  function Destinations(f: Field, pd: PdId): seq<PdId> {
    Sharing(f.traits, pd, TraitsOf(f.traits, pd))
  }

  predicate HasDestination(f: Field, pd: PdId) {
    exists i :: 0 <= i < |f.traits| && f.traits[i].pd != pd && TraitsOf(f.traits, pd) * f.traits[i].traits != {}
  }

  /** The kind that spreads: the larger one above the threshold, or what was chosen for a tie. */
  function ViralKind(f: Field, short: bool, ties: map<PdId, Alignment>, pd: PdId): Option<Alignment> {
    var m, r := Cubes(f, pd, Malign), Cubes(f, pd, Resiliency);
    if m > Threshold(short) || r > Threshold(short) then
      if m == r then if pd in ties then Some(ties[pd]) else None
      else Some(if m > r then Malign else Resiliency)
    else None
  }

  function Position(initiative: seq<ParticipantId>, p: ParticipantId): int {
    if initiative == [] then -1
    else
      var k := Position(initiative[..|initiative| - 1], p);
      if k >= 0 then k else if initiative[|initiative| - 1] == p then |initiative| - 1 else -1
  }

  /** Owners in initiative order, then populations in theirs. */
  predicate Sooner(f: Field, p: ParticipantId, a: PdId, q: ParticipantId, b: PdId) {
    var i, j := Position(f.initiative, p), Position(f.initiative, q);
    i < j || (i == j && a < b)
  }

  function InsertOrigin(f: Field, o: Origin, sorted: seq<Origin>): seq<Origin> {
    if sorted == [] || Sooner(f, o.owner, o.pd, sorted[0].owner, sorted[0].pd) then [o] + sorted
    else [sorted[0]] + InsertOrigin(f, o, sorted[1..])
  }

  function OriginAt(f: Field, short: bool, ties: map<PdId, Alignment>, own: Ownership): Option<Origin> {
    if own.owner.None? then None
    else
      var kind := ViralKind(f, short, ties, own.pd);
      if kind.None? || !Owns(f, own.pd, own.owner.value, kind.value) then None
      else
        var destinations := Destinations(f, own.pd);
        if destinations == [] then None else Some(Origin(own.pd, own.owner.value, kind.value, destinations))
  }

  function OriginsOf(f: Field, short: bool, ties: map<PdId, Alignment>, owners: seq<Ownership>): seq<Origin> {
    if owners == [] then []
    else
      var rest, o := OriginsOf(f, short, ties, owners[..|owners| - 1]), OriginAt(f, short, ties, owners[|owners| - 1]);
      if o.Some? then InsertOrigin(f, o.value, rest) else rest
  }

  /** The snapshot: at most one origin a population, in the order in which they will be resolved. */
  function Origins(f: Field, short: bool, ties: map<PdId, Alignment>): seq<Origin> {
    OriginsOf(f, short, ties, f.owners)
  }

  // -------------------------------------------------------------------- ties

  predicate Level(f: Field, short: bool, pd: PdId) {
    Cubes(f, pd, Malign) == Cubes(f, pd, Resiliency) > Threshold(short)
  }

  /** The owner has to decide: the cubes are level, both kinds could spread, and somewhere to. */
  predicate Undecided(f: Field, short: bool, ties: map<PdId, Alignment>, own: Ownership) {
    own.owner.Some? && own.pd !in ties && Level(f, short, own.pd) &&
    Owns(f, own.pd, own.owner.value, Malign) && Owns(f, own.pd, own.owner.value, Resiliency) &&
      HasDestination(f, own.pd)
  }

  function InsertTie(f: Field, t: Tie, sorted: seq<Tie>): seq<Tie> {
    if sorted == [] || Sooner(f, t.owner, t.pd, sorted[0].owner, sorted[0].pd) then [t] + sorted
    else [sorted[0]] + InsertTie(f, t, sorted[1..])
  }

  function TiesOf(f: Field, short: bool, ties: map<PdId, Alignment>, owners: seq<Ownership>): seq<Tie> {
    if owners == [] then []
    else
      var rest, own := TiesOf(f, short, ties, owners[..|owners| - 1]), owners[|owners| - 1];
      if Undecided(f, short, ties, own) then InsertTie(f, Tie(own.pd, own.owner.value), rest) else rest
  }

  function Ties(f: Field, short: bool, ties: map<PdId, Alignment>): seq<Tie> {
    TiesOf(f, short, ties, f.owners)
  }

  /** A level population whose owner has cubes of one kind only. */
  predicate SelfDecided(f: Field, short: bool, ties: map<PdId, Alignment>, own: Ownership) {
    own.owner.Some? && own.pd !in ties && Level(f, short, own.pd) &&
    (Owns(f, own.pd, own.owner.value, Malign) <==> !Owns(f, own.pd, own.owner.value, Resiliency))
  }

  function Automatic(f: Field, short: bool, ties: map<PdId, Alignment>, owners: seq<Ownership>): map<PdId, Alignment> {
    if owners == [] then map[]
    else
      var rest, own := Automatic(f, short, ties, owners[..|owners| - 1]), owners[|owners| - 1];
      if SelfDecided(f, short, ties, own)
      then rest[own.pd := if Owns(f, own.pd, own.owner.value, Malign) then Malign else Resiliency]
      else rest
  }

  // ------------------------------------------------------ the snapshot is exact

  ghost predicate Ascending(pds: seq<PdId>) {
    forall i, j :: 0 <= i < j < |pds| ==> pds[i] < pds[j]
  }

  lemma {:induction false} InsertPdKeeps(pd: PdId, sorted: seq<PdId>)
    requires Ascending(sorted) && pd !in sorted
    ensures Ascending(InsertPd(pd, sorted)) && forall x :: x in InsertPd(pd, sorted) <==> x == pd || x in sorted
  {
    if sorted == [] || pd < sorted[0] {
    } else {
      assert sorted == [sorted[0]] + sorted[1..];
      InsertPdKeeps(pd, sorted[1..]);
      var rest := InsertPd(pd, sorted[1..]);
      forall j | 0 <= j < |rest|
        ensures sorted[0] < rest[j]
      {
        assert rest[j] in rest;
      }
    }
  }

  lemma {:induction false} SharingIsExact(traits: seq<Traits>, pd: PdId, source: set<nat>)
    requires forall i, j :: 0 <= i < j < |traits| ==> traits[i].pd != traits[j].pd
    ensures Ascending(Sharing(traits, pd, source))
    ensures forall d :: d in Sharing(traits, pd, source) <==>
              exists i :: 0 <= i < |traits| && traits[i].pd == d && d != pd && source * traits[i].traits != {}
  {
    if traits != [] {
      var init, last := traits[..|traits| - 1], traits[|traits| - 1];
      SharingIsExact(init, pd, source);
      var rest := Sharing(init, pd, source);
      if last.pd != pd && source * last.traits != {} {
        InsertPdKeeps(last.pd, rest);
      }
      forall d
        ensures d in Sharing(traits, pd, source) <==>
                exists i :: 0 <= i < |traits| && traits[i].pd == d && d != pd && source * traits[i].traits != {}
      {
        if d in Sharing(traits, pd, source) && !(d == last.pd && d != pd && source * last.traits != {}) {
          var i :| 0 <= i < |init| && init[i].pd == d && d != pd && source * init[i].traits != {};
          assert traits[i] == init[i];
        }
        if i :| 0 <= i < |traits| && traits[i].pd == d && d != pd && source * traits[i].traits != {} {
          if i < |init| {
            assert init[i] == traits[i];
            assert d in rest;
          }
        }
      }
    }
  }

  lemma DestinationsExist(f: Field, pd: PdId)
    requires Listed(f)
    ensures Destinations(f, pd) != [] <==> HasDestination(f, pd)
    ensures Ascending(Destinations(f, pd)) && pd !in Destinations(f, pd)
  {
    SharingIsExact(f.traits, pd, TraitsOf(f.traits, pd));
    var d := Destinations(f, pd);
    if d != [] {
      assert d[0] in d;
    }
    if HasDestination(f, pd) {
      var i :| 0 <= i < |f.traits| && f.traits[i].pd != pd && TraitsOf(f.traits, pd) * f.traits[i].traits != {};
      assert f.traits[i].pd in d;
    }
  }

  ghost predicate InOrder(f: Field, origins: seq<Origin>) {
    forall i, j :: 0 <= i < j < |origins| ==>
      Sooner(f, origins[i].owner, origins[i].pd, origins[j].owner, origins[j].pd)
  }

  lemma {:induction false} InsertOriginKeeps(f: Field, o: Origin, sorted: seq<Origin>)
    requires InOrder(f, sorted) && forall x :: x in sorted ==> x.pd != o.pd
    ensures InOrder(f, InsertOrigin(f, o, sorted)) && |InsertOrigin(f, o, sorted)| == |sorted| + 1
    ensures forall x :: x in InsertOrigin(f, o, sorted) <==> x == o || x in sorted
  {
    hide Position;
    if sorted == [] {
    } else if Sooner(f, o.owner, o.pd, sorted[0].owner, sorted[0].pd) {
      forall j | 0 < j < |sorted|
        ensures Sooner(f, o.owner, o.pd, sorted[j].owner, sorted[j].pd)
      {
        assert Sooner(f, sorted[0].owner, sorted[0].pd, sorted[j].owner, sorted[j].pd);
      }
    } else {
      assert sorted[0] in sorted;
      assert sorted == [sorted[0]] + sorted[1..];
      InsertOriginKeeps(f, o, sorted[1..]);
      var rest := InsertOrigin(f, o, sorted[1..]);
      forall j | 0 <= j < |rest|
        ensures Sooner(f, sorted[0].owner, sorted[0].pd, rest[j].owner, rest[j].pd)
      {
        assert rest[j] in rest;
        if rest[j] != o {
          var k :| 0 <= k < |sorted[1..]| && sorted[1..][k] == rest[j];
          assert sorted[k + 1] == rest[j];
        }
      }
    }
  }

  lemma {:induction false} OriginsOfAreExact(f: Field, short: bool, ties: map<PdId, Alignment>, owners: seq<Ownership>)
    requires forall i, j :: 0 <= i < j < |owners| ==> owners[i].pd != owners[j].pd
    ensures InOrder(f, OriginsOf(f, short, ties, owners))
    ensures forall o :: o in OriginsOf(f, short, ties, owners) <==>
              exists i :: 0 <= i < |owners| && owners[i].pd == o.pd && OriginAt(f, short, ties, owners[i]) == Some(o)
  {
    if owners != [] {
      var init, last := owners[..|owners| - 1], owners[|owners| - 1];
      OriginsOfAreExact(f, short, ties, init);
      var rest, o := OriginsOf(f, short, ties, init), OriginAt(f, short, ties, last);
      assert o.Some? ==> o.value.pd == last.pd;
      hide OriginAt, InOrder;
      if o.Some? {
        InsertOriginKeeps(f, o.value, rest);
      }
      forall x
        ensures x in OriginsOf(f, short, ties, owners) <==>
                exists i :: 0 <= i < |owners| && owners[i].pd == x.pd && OriginAt(f, short, ties, owners[i]) == Some(x)
      {
        if x in rest {
          var i :| 0 <= i < |init| && init[i].pd == x.pd && OriginAt(f, short, ties, init[i]) == Some(x);
          assert owners[i] == init[i];
        }
        if i :| 0 <= i < |owners| && owners[i].pd == x.pd && OriginAt(f, short, ties, owners[i]) == Some(x) {
          assert i < |init| ==> init[i] == owners[i];
        }
      }
    }
  }

  /**
   The population is an origin of this kind: owned, above the threshold, the owner's cubes there, and
   somewhere to go.
   */
  predicate Eligible(f: Field, short: bool, ties: map<PdId, Alignment>, o: Origin) {
    Ownership(o.pd, Some(o.owner)) in f.owners && ViralKind(f, short, ties, o.pd) == Some(o.kind) &&
    Owns(f, o.pd, o.owner, o.kind) && HasDestination(f, o.pd)
  }

  /**
   The snapshot holds exactly the eligible populations, each with all the other populations that share one of
   its traits, in the initiative order of their owners.
   */
  lemma SnapshotIsExact(f: Field, short: bool, ties: map<PdId, Alignment>)
    requires Listed(f)
    ensures
      var origins := Origins(f, short, ties);
      (forall o :: o in origins <==> Eligible(f, short, ties, o) && o.destinations == Destinations(f, o.pd)) &&
      InOrder(f, origins) && forall i, j :: 0 <= i < j < |origins| ==> origins[i].pd != origins[j].pd
  {
    hide OriginAt, Position, Sooner, Destinations, HasDestination;
    OriginsOfAreExact(f, short, ties, f.owners);
    var origins := Origins(f, short, ties);
    forall o
      ensures o in origins <==> Eligible(f, short, ties, o) && o.destinations == Destinations(f, o.pd)
    {
      if o in origins {
        var i :| 0 <= i < |f.owners| && f.owners[i].pd == o.pd && OriginAt(f, short, ties, f.owners[i]) == Some(o);
        OriginIffEligible(f, short, ties, f.owners[i], o);
      }
      if Eligible(f, short, ties, o) && o.destinations == Destinations(f, o.pd) {
        var i :| 0 <= i < |f.owners| && f.owners[i] == Ownership(o.pd, Some(o.owner));
        OriginIffEligible(f, short, ties, f.owners[i], o);
      }
    }
    forall i, j | 0 <= i < j < |origins|
      ensures origins[i].pd != origins[j].pd
    {
      assert origins[i] in origins && origins[j] in origins;
      DifferentPds(f, origins[i], origins[j]);
    }
  }

  lemma OriginIffEligible(f: Field, short: bool, ties: map<PdId, Alignment>, own: Ownership, o: Origin)
    requires Listed(f) && own in f.owners && own.pd == o.pd
    ensures OriginAt(f, short, ties, own) == Some(o) <==>
            own == Ownership(o.pd, Some(o.owner)) && Eligible(f, short, ties, o) &&
              o.destinations == Destinations(f, o.pd)
  {
    DestinationsExist(f, o.pd);
    hide Destinations, HasDestination, ViralKind, Owns;
  }

  lemma DifferentPds(f: Field, a: Origin, b: Origin)
    requires Listed(f) && Sooner(f, a.owner, a.pd, b.owner, b.pd)
    requires Ownership(a.pd, Some(a.owner)) in f.owners && Ownership(b.pd, Some(b.owner)) in f.owners
    ensures a.pd != b.pd
  {
    hide Position;
  }
}
