/**
 The ties of a viral snapshot: they are listed exactly and in order, each answer takes its own away, and however
 they are decided the number of origins is the same.
 */
module ViralTies {
  import opened Prelude
  import opened CampaignTypes
  import opened ViralSnapshot

  ghost predicate TiesInOrder(f: Field, ties: seq<Tie>) {
    forall i, j :: 0 <= i < j < |ties| ==> Sooner(f, ties[i].owner, ties[i].pd, ties[j].owner, ties[j].pd)
  }

  lemma {:induction false} InsertTieKeeps(f: Field, t: Tie, sorted: seq<Tie>)
    requires TiesInOrder(f, sorted) && forall x :: x in sorted ==> x.pd != t.pd
    ensures TiesInOrder(f, InsertTie(f, t, sorted))
    ensures forall x :: x in InsertTie(f, t, sorted) <==> x == t || x in sorted
  {
    hide Position;
    if sorted == [] {
    } else if Sooner(f, t.owner, t.pd, sorted[0].owner, sorted[0].pd) {
      forall j | 0 < j < |sorted|
        ensures Sooner(f, t.owner, t.pd, sorted[j].owner, sorted[j].pd)
      {
        assert Sooner(f, sorted[0].owner, sorted[0].pd, sorted[j].owner, sorted[j].pd);
      }
    } else {
      assert sorted[0] in sorted;
      assert sorted == [sorted[0]] + sorted[1..];
      InsertTieKeeps(f, t, sorted[1..]);
      var rest := InsertTie(f, t, sorted[1..]);
      forall j | 0 <= j < |rest|
        ensures Sooner(f, sorted[0].owner, sorted[0].pd, rest[j].owner, rest[j].pd)
      {
        assert rest[j] in rest;
        if rest[j] != t {
          var k :| 0 <= k < |sorted[1..]| && sorted[1..][k] == rest[j];
          assert sorted[k + 1] == rest[j];
        }
      }
    }
  }

  lemma {:induction false} TiesOfAreExact(f: Field, short: bool, ties: map<PdId, Alignment>, owners: seq<Ownership>)
    requires forall i, j :: 0 <= i < j < |owners| ==> owners[i].pd != owners[j].pd
    ensures TiesInOrder(f, TiesOf(f, short, ties, owners))
    ensures forall t :: t in TiesOf(f, short, ties, owners) <==>
              exists i :: 0 <= i < |owners| && owners[i] == Ownership(t.pd, Some(t.owner)) &&
                Undecided(f, short, ties, owners[i])
  {
    if owners != [] {
      var init, last := owners[..|owners| - 1], owners[|owners| - 1];
      TiesOfAreExact(f, short, ties, init);
      var rest := TiesOf(f, short, ties, init);
      assert Undecided(f, short, ties, last) ==> last.owner.Some?;
      hide Undecided, TiesInOrder;
      if Undecided(f, short, ties, last) {
        InsertTieKeeps(f, Tie(last.pd, last.owner.value), rest);
      }
      forall t
        ensures t in TiesOf(f, short, ties, owners) <==>
                exists i :: 0 <= i < |owners| && owners[i] == Ownership(t.pd, Some(t.owner)) &&
                  Undecided(f, short, ties, owners[i])
      {
        if t in rest {
          var i :| 0 <= i < |init| && init[i] == Ownership(t.pd, Some(t.owner)) && Undecided(f, short, ties, init[i]);
          assert owners[i] == init[i];
        }
        if i :|
          0 <= i < |owners| && owners[i] == Ownership(t.pd, Some(t.owner)) && Undecided(f, short, ties, owners[i])
        {
          assert i < |init| ==> init[i] == owners[i];
        }
      }
    }
  }

  lemma {:induction false} TieOrderIsUnique(f: Field, a: seq<Tie>, b: seq<Tie>)
    requires TiesInOrder(f, a) && TiesInOrder(f, b) && forall t :: t in a <==> t in b
    ensures a == b
  {
    hide Position;
    assert a != [] ==> a[0] in b;
    assert b != [] ==> b[0] in a;
    if a != [] && b != [] {
      assert a[0] == b[0];
      var a', b' := a[1..], b[1..];
      assert a == [a[0]] + a' && b == [b[0]] + b';
      forall t | t in a'
        ensures t in b'
      {
        var k :| 0 <= k < |a'| && a'[k] == t;
        assert Sooner(f, a[0].owner, a[0].pd, a[k + 1].owner, a[k + 1].pd);
        assert t in a && t != a[0];
      }
      forall t | t in b'
        ensures t in a'
      {
        var k :| 0 <= k < |b'| && b'[k] == t;
        assert Sooner(f, b[0].owner, b[0].pd, b[k + 1].owner, b[k + 1].pd);
        assert t in b && t != b[0];
      }
      TieOrderIsUnique(f, a', b');
    }
  }

  /** The ties asked are exactly the undecided populations, in the initiative order of their owners. */
  lemma TiesAreExact(f: Field, short: bool, ties: map<PdId, Alignment>)
    requires Listed(f)
    ensures TiesInOrder(f, Ties(f, short, ties))
    ensures forall t :: t in Ties(f, short, ties) <==>
              Ownership(t.pd, Some(t.owner)) in f.owners && Undecided(f, short, ties, Ownership(t.pd, Some(t.owner)))
  {
    TiesOfAreExact(f, short, ties, f.owners);
  }

  // --------------------------------------------------------------- answering

  /** An answer takes its own tie away and no other. */
  lemma AnswerTakesItsTie(f: Field, short: bool, ties: map<PdId, Alignment>, kind: Alignment)
    requires Listed(f) && Ties(f, short, ties) != []
    ensures
      var t := Ties(f, short, ties)[0];
      Ties(f, short, ties[t.pd := kind]) == Ties(f, short, ties)[1..]
  {
    var all := Ties(f, short, ties);
    var t := all[0];
    var answered := ties[t.pd := kind];
    TiesAreExact(f, short, ties);
    TiesAreExact(f, short, answered);
    AskedOncePerPd(f, short, ties);
    hide Ties, Sooner, Listed;
    assert forall x :: x in all ==> x == t || x in all[1..];
    forall x
      ensures x in Ties(f, short, answered) <==> x in all[1..]
    {
      assert Undecided(f, short, answered, Ownership(x.pd, Some(x.owner))) <==>
        x.pd != t.pd && Undecided(f, short, ties, Ownership(x.pd, Some(x.owner)));
      if x in all[1..] {
        assert x in all;
      }
    }
    TieOrderIsUnique(f, Ties(f, short, answered), all[1..]);
  }

  lemma AskedOncePerPd(f: Field, short: bool, ties: map<PdId, Alignment>)
    requires Listed(f) && Ties(f, short, ties) != []
    ensures forall x :: x in Ties(f, short, ties)[1..] ==> x.pd != Ties(f, short, ties)[0].pd
  {
    var all := Ties(f, short, ties);
    TiesAreExact(f, short, ties);
    forall x | x in all[1..]
      ensures x.pd != all[0].pd
    {
      var k :| 0 <= k < |all[1..]| && all[1..][k] == x;
      assert Sooner(f, all[0].owner, all[0].pd, all[k + 1].owner, all[k + 1].pd);
      assert x in all && all[0] in all;
      assert Ownership(x.pd, Some(x.owner)) in f.owners && Ownership(all[0].pd, Some(all[0].owner)) in f.owners;
    }
  }

  ghost predicate DecidesItself(f: Field, short: bool, ties: map<PdId, Alignment>, owners: seq<Ownership>, pd: PdId) {
    exists own :: own in owners && own.pd == pd && SelfDecided(f, short, ties, own)
  }

  lemma {:induction false} AutomaticIsExact(f: Field, short: bool, ties: map<PdId, Alignment>, owners: seq<Ownership>)
    requires forall i, j :: 0 <= i < j < |owners| ==> owners[i].pd != owners[j].pd
    ensures
      var auto := Automatic(f, short, ties, owners);
      (forall pd :: pd in auto ==> DecidesItself(f, short, ties, owners, pd)) &&
      forall own :: own in owners && SelfDecided(f, short, ties, own) ==>
        own.pd in auto && Owns(f, own.pd, own.owner.value, auto[own.pd])
  {
    if owners != [] {
      var init, last := owners[..|owners| - 1], owners[|owners| - 1];
      AutomaticIsExact(f, short, ties, init);
      assert owners == init + [last];
      var rest, auto := Automatic(f, short, ties, init), Automatic(f, short, ties, owners);
      forall pd | pd in auto
        ensures DecidesItself(f, short, ties, owners, pd)
      {
        if pd in rest {
          assert DecidesItself(f, short, ties, init, pd);
          var own :| own in init && own.pd == pd && SelfDecided(f, short, ties, own);
          assert own in owners;
        } else {
          assert last.pd == pd && last in owners;
        }
      }
      forall own | own in owners && SelfDecided(f, short, ties, own)
        ensures own.pd in auto && Owns(f, own.pd, own.owner.value, auto[own.pd])
      {
        if own != last {
          assert own in init && own.pd != last.pd;
        }
      }
    }
  }

  /** What the choices made so far stand for: a kind the owner has there. */
  ghost predicate Sound(f: Field, ties: map<PdId, Alignment>) {
    forall own :: own in f.owners && own.owner.Some? && own.pd in ties ==>
      Owns(f, own.pd, own.owner.value, ties[own.pd])
  }

  /** No population decides itself any more. */
  ghost predicate Settled(f: Field, short: bool, ties: map<PdId, Alignment>) {
    forall own :: own in f.owners ==> !SelfDecided(f, short, ties, own)
  }

  /** Deciding the ties that decide themselves settles them, asks nobody less and nobody more. */
  lemma AutomaticSettles(f: Field, short: bool, ties: map<PdId, Alignment>)
    requires Listed(f) && Sound(f, ties)
    ensures
      var settled := ties + Automatic(f, short, ties, f.owners);
      Sound(f, settled) && Settled(f, short, settled) && Ties(f, short, settled) == Ties(f, short, ties)
  {
    var auto := Automatic(f, short, ties, f.owners);
    var settled := ties + auto;
    AutomaticIsExact(f, short, ties, f.owners);
    TiesAreExact(f, short, ties);
    TiesAreExact(f, short, settled);
    hide Ties, Automatic, Owns, Level, HasDestination;
    forall own | own in f.owners && own.pd in auto
      ensures SelfDecided(f, short, ties, own)
    {
      assert DecidesItself(f, short, ties, f.owners, own.pd);
    }
    forall own | own in f.owners
      ensures !SelfDecided(f, short, settled, own)
    {
      assert SelfDecided(f, short, ties, own) ==> own.pd in auto;
    }
    forall t
      ensures t in Ties(f, short, settled) <==> t in Ties(f, short, ties)
    {
      assert SelfDecided(f, short, ties, Ownership(t.pd, Some(t.owner))) ==>
             !Undecided(f, short, ties, Ownership(t.pd, Some(t.owner)));
    }
    TieOrderIsUnique(f, Ties(f, short, settled), Ties(f, short, ties));
  }

  /** Nothing is left to decide by itself after that, so deciding again adds nothing. */
  lemma {:induction false} SettledHasNoAutomatic(f: Field, short: bool, ties: map<PdId, Alignment>,
                                                 owners: seq<Ownership>)
    requires forall own :: own in owners ==> !SelfDecided(f, short, ties, own)
    ensures Automatic(f, short, ties, owners) == map[]
  {
    if owners != [] {
      SettledHasNoAutomatic(f, short, ties, owners[..|owners| - 1]);
    }
  }

  // ------------------------------------------------ how many origins there are

  /** The population will be an origin whichever way its tie is decided. */
  predicate Candidate(f: Field, short: bool, own: Ownership) {
    own.owner.Some? && HasDestination(f, own.pd) &&
    var m, r := Cubes(f, own.pd, Malign), Cubes(f, own.pd, Resiliency);
    (m > Threshold(short) || r > Threshold(short)) &&
    if m == r then Owns(f, own.pd, own.owner.value, Malign) || Owns(f, own.pd, own.owner.value, Resiliency)
    else Owns(f, own.pd, own.owner.value, if m > r then Malign else Resiliency)
  }

  function Candidates(f: Field, short: bool, owners: seq<Ownership>): nat {
    if owners == [] then 0
    else Candidates(f, short, owners[..|owners| - 1]) + if Candidate(f, short, owners[|owners| - 1]) then 1 else 0
  }

  lemma OriginIffCandidate(f: Field, short: bool, ties: map<PdId, Alignment>, own: Ownership)
    requires Listed(f) && Sound(f, ties) && Settled(f, short, ties) && own in f.owners
    requires !Undecided(f, short, ties, own)
    ensures OriginAt(f, short, ties, own).Some? <==> Candidate(f, short, own)
  {
    DestinationsExist(f, own.pd);
    assert !SelfDecided(f, short, ties, own);
    assert own.owner.Some? && own.pd in ties ==> Owns(f, own.pd, own.owner.value, ties[own.pd]);
    hide Owns, HasDestination, Destinations, Cubes;
    if own.owner.Some? && Level(f, short, own.pd) && own.pd in ties {
      assert ties[own.pd] == Malign || ties[own.pd] == Resiliency;
    }
  }

  lemma {:induction false} OriginsCount(f: Field, short: bool, ties: map<PdId, Alignment>, owners: seq<Ownership>)
    requires Listed(f) && Sound(f, ties) && Settled(f, short, ties) && forall own :: own in owners ==> own in f.owners
    requires forall own :: own in owners ==> !Undecided(f, short, ties, own)
    requires forall i, j :: 0 <= i < j < |owners| ==> owners[i].pd != owners[j].pd
    ensures |OriginsOf(f, short, ties, owners)| == Candidates(f, short, owners)
  {
    if owners != [] {
      var init, last := owners[..|owners| - 1], owners[|owners| - 1];
      assert forall own :: own in init ==> own in owners;
      OriginsCount(f, short, ties, init);
      OriginIffCandidate(f, short, ties, last);
      OriginsOfAreExact(f, short, ties, init);
      var o := OriginAt(f, short, ties, last);
      assert o.Some? ==> o.value.pd == last.pd;
      hide OriginAt, Candidate;
      if o.Some? {
        InsertOriginKeeps(f, o.value, OriginsOf(f, short, ties, init));
      }
    }
  }

  /** With all ties decided, by themselves or by their owners, the snapshot has one origin for each candidate. */
  lemma OriginsAreTheCandidates(f: Field, short: bool, ties: map<PdId, Alignment>)
    requires Listed(f) && Sound(f, ties) && Settled(f, short, ties) && Ties(f, short, ties) == []
    ensures |Origins(f, short, ties)| == Candidates(f, short, f.owners)
  {
    TiesAreExact(f, short, ties);
    forall own | own in f.owners
      ensures !Undecided(f, short, ties, own)
    {
      if own.owner.Some? {
        assert Tie(own.pd, own.owner.value) !in Ties(f, short, ties);
        assert own == Ownership(own.pd, Some(own.owner.value));
      }
    }
    OriginsCount(f, short, ties, f.owners);
  }
}
