/**
 The viral part of a turn's cleanup as a resumable state machine: ties are asked one by one, then the snapshot
 is taken once, then each origin is resolved with a destination and one or two dice.
 */
module ViralCleanup {
  import opened Prelude
  import opened CampaignTypes
  import opened Adjudication
  import opened ViralSnapshot
  import opened ViralTies
  import DirectInfluence

  datatype Continuation = Continuation(id: nat, expectedVersion: nat, resolving: bool, short: bool,
                                       ties: map<PdId, Alignment>, origins: seq<Origin>, next: nat)

  datatype ChoiceId = TypeChoice(continuation: nat, pd: PdId) | DestinationChoice(continuation: nat, index: nat,
      pd: PdId)
  datatype Selection = OfKind(kind: Alignment) | OfPd(pd: PdId)
  datatype Choice = Choice(id: ChoiceId, version: nat, chooser: ParticipantId, options: seq<Selection>)

  /** What resolving one origin did. */
  datatype Attempt = Attempt(origin: PdId, destination: PdId, kind: Alignment, success: bool, generated: nat,
                             placed: nat, removed: nat, rolls: nat)

  /** `asked` and `attempts` list the choices requested and the origins resolved, as the events record them. */
  datatype State = State(version: nat, resolution: bool, field: Field, continuation: Option<Continuation>,
                         choice: Option<Choice>, asked: seq<ChoiceId>, attempts: seq<Attempt>)

  datatype Refusal = WrongPhase | Stale | NotAuthorized | InvalidOption | InvalidTarget | InvalidRoll
  datatype Verdict = Refused(reason: Refusal) | Accepted(state: State)

  function Ask(s: State, c: Continuation, id: ChoiceId, chooser: ParticipantId, options: seq<Selection>): State {
    s.(continuation := Some(c), choice := Some(Choice(id, s.version + 1, chooser, options)), asked := s.asked + [id])
  }

  function PdOptions(pds: seq<PdId>): seq<Selection> {
    seq(|pds|, i requires 0 <= i < |pds| => OfPd(pds[i]))
  }

  /** Ask about the next origin, or end the cleanup. */
  function AskDestination(s: State, c: Continuation): State {
    if c.next < |c.origins| then
      var o := c.origins[c.next];
      Ask(s, c, DestinationChoice(c.id, c.next, o.pd), o.owner, PdOptions(o.destinations))
    else s.(continuation := None, choice := None, resolution := false)
  }

  function Advance(s: State, c: Continuation): State {
    if c.resolving then AskDestination(s, c)
    else
      var decided := c.(ties := c.ties + Automatic(s.field, c.short, c.ties, s.field.owners));
      var ties := Ties(s.field, c.short, decided.ties);
      if ties != [] then Ask(s, decided, TypeChoice(c.id, ties[0].pd), ties[0].owner,
                             [OfKind(Malign), OfKind(Resiliency)])
      else
        AskDestination(s, decided.(expectedVersion := s.version + 1, resolving := true,
                                   origins := Origins(s.field, c.short, decided.ties), next := 0))
  }

  function Commit(s: State): State {
    s.(version := s.version + 1)
  }

  /** Opens the cleanup of the turn. */
  function Start(s: State, short: bool): State {
    Commit(Advance(s, Continuation(s.version + 1, s.version + 1, false, short, map[], [], 0)))
  }

  predicate Die(roll: int) {
    1 <= roll <= 10
  }

  datatype Resolved = Failed(reason: Refusal) | Attempted(influence: seq<Stack>, attempt: Attempt)

  /** One die decides success, from six on; in the longer variant an even second die generates two cubes. */
  function ResolveOrigin(f: Field, o: Origin, destination: PdId, first: int, second: int, short: bool): Resolved {
    if destination !in o.destinations then Failed(InvalidTarget)
    else if !Die(first) then Failed(InvalidRoll)
    else if first < 6 then Attempted(f.influence, Attempt(o.pd, destination, o.kind, false, 0, 0, 0, 1))
    else if !short && !Die(second) then Failed(InvalidRoll)
    else if o.owner !in f.countries then Failed(InvalidTarget)
    else
      var generated := if !short && second % 2 == 0 then 2 else 1;
      var r := DirectInfluence.Influence(f.influence, destination, o.kind, f.countries[o.owner], generated);
      Attempted(r.stacks, Attempt(o.pd, destination, o.kind, true, generated, r.placed, r.removed,
                                  if short then 1 else 2))
  }

  /** The dice are what the random provider answers; the second is asked for only when it counts. */
  datatype Submission = Submission(participant: ParticipantId, id: ChoiceId, selection: Selection, first: int,
                                   second: int)

  function Submit(s: State, m: Submission): Verdict {
    if !s.resolution then Refused(WrongPhase)
    else if s.choice.None? || s.continuation.None? || s.choice.value.id != m.id then Refused(Stale)
    else if s.choice.value.version != s.version || s.continuation.value.expectedVersion != s.version then Refused(Stale)
    else if m.participant != s.choice.value.chooser then Refused(NotAuthorized)
    else if m.selection !in s.choice.value.options then Refused(InvalidOption)
    else
      var c := s.continuation.value;
      match m.selection
      case OfKind(kind) =>
        Accepted(Commit(Advance(s, c.(expectedVersion := s.version + 1, ties := c.ties[m.id.pd := kind]))))
      case OfPd(destination) =>
        if !c.resolving || c.next >= |c.origins| || c.origins[c.next].pd != m.id.pd then Refused(Stale)
        else
          match ResolveOrigin(s.field, c.origins[c.next], destination, m.first, m.second, c.short)
          case Failed(reason) => Refused(reason)
          case Attempted(influence, attempt) =>
            var resolved := s.(field := s.field.(influence := influence), attempts := s.attempts + [attempt]);
            Accepted(Commit(Advance(resolved, c.(expectedVersion := s.version + 1, next := c.next + 1))))
  }

  // -------------------------------------------------------------- invariant

  /** What is waited for: the first undecided tie, or a destination for the next origin. */
  ghost predicate Waiting(s: State) {
    s.resolution && s.continuation.Some? && s.choice.Some? && Listed(s.field) &&
    s.continuation.value.expectedVersion == s.version && s.choice.value.version == s.version &&
    (if s.continuation.value.resolving then AtOrigin(s) else AtTie(s))
  }

  ghost predicate AtTie(s: State)
    requires s.continuation.Some? && s.choice.Some?
  {
    var c, ch := s.continuation.value, s.choice.value;
    var ties := Ties(s.field, c.short, c.ties);
    Sound(s.field, c.ties) && Settled(s.field, c.short, c.ties) && ties != [] &&
    ch == Choice(TypeChoice(c.id, ties[0].pd), s.version, ties[0].owner, [OfKind(Malign), OfKind(Resiliency)])
  }

  ghost predicate AtOrigin(s: State)
    requires s.continuation.Some? && s.choice.Some?
  {
    var c, ch := s.continuation.value, s.choice.value;
    c.next < |c.origins| && (forall o :: o in c.origins ==> o.owner in s.field.countries && o.destinations != []) &&
    ch == Choice(DestinationChoice(c.id, c.next, c.origins[c.next].pd), s.version, c.origins[c.next].owner,
                 PdOptions(c.origins[c.next].destinations))
  }

  ghost predicate Over(s: State) {
    !s.resolution && s.continuation.None? && s.choice.None?
  }

  /** How many submissions are still to come. */
  ghost function Remaining(s: State): nat {
    if s.continuation.None? then 0
    else
      var c := s.continuation.value;
      if c.resolving then if c.next <= |c.origins| then |c.origins| - c.next else 0
      else |Ties(s.field, c.short, c.ties)| + Candidates(s.field, c.short, s.field.owners)
  }

  // ------------------------------------------------------------ each advance

  /** Having moved on, the cleanup waits for one thing more or is over, as the count says. */
  ghost predicate MovedOn(s: State, remaining: nat) {
    if remaining == 0 then Over(s) else Waiting(s) && Remaining(s) == remaining
  }

  lemma AskDestinationMoves(s: State, c: Continuation)
    requires s.resolution && Listed(s.field) && c.resolving && c.expectedVersion == s.version + 1
    requires c.next <= |c.origins|
    requires forall o :: o in c.origins ==> o.owner in s.field.countries && o.destinations != []
    ensures MovedOn(Commit(AskDestination(s, c)), |c.origins| - c.next)
    ensures c.next < |c.origins| ==> Commit(AskDestination(s, c)).continuation == Some(c)
  {
  }

  lemma OriginsHaveCountries(f: Field, short: bool, ties: map<PdId, Alignment>)
    requires Listed(f)
    ensures forall o :: o in Origins(f, short, ties) ==> o.owner in f.countries && o.destinations != []
  {
    SnapshotIsExact(f, short, ties);
    hide Origins;
    forall o | o in Origins(f, short, ties)
      ensures o.owner in f.countries && o.destinations != []
    {
      DestinationsExist(f, o.pd);
    }
  }

  /** Before the snapshot: as many submissions remain as there are undecided ties and candidates. */
  lemma AdvanceMoves(s: State, c: Continuation)
    requires s.resolution && Listed(s.field) && !c.resolving && c.expectedVersion == s.version + 1
    requires Sound(s.field, c.ties)
    ensures
      var after := Commit(Advance(s, c));
      var ties := Ties(s.field, c.short, c.ties);
      MovedOn(after, |ties| + Candidates(s.field, c.short, s.field.owners))
  {
    var settled := c.ties + Automatic(s.field, c.short, c.ties, s.field.owners);
    AutomaticSettles(s.field, c.short, c.ties);
    if Ties(s.field, c.short, settled) == [] {
      OriginsAreTheCandidates(s.field, c.short, settled);
      OriginsHaveCountries(s.field, c.short, settled);
      var taken := c.(ties := settled, expectedVersion := s.version + 1, resolving := true,
                      origins := Origins(s.field, c.short, settled), next := 0);
      hide Ties, Origins, Automatic, Candidates, Listed;
      AskDestinationMoves(s, taken);
    } else {
      hide Origins, Automatic, Candidates, Sound, Settled, Ties;
    }
  }

  // ---------------------------------------------------------- submissions

  /** The expected participant answers the open choice with one of its options; dice are dice. */
  predicate Proper(s: State, m: Submission) {
    s.choice.Some? && m.id == s.choice.value.id && m.participant == s.choice.value.chooser &&
    m.selection in s.choice.value.options && Die(m.first) && Die(m.second)
  }

  lemma TieAnswerMoves(s: State, m: Submission)
    requires Waiting(s) && !s.continuation.value.resolving && Proper(s, m)
    ensures Submit(s, m).Accepted? && MovedOn(Submit(s, m).state, Remaining(s) - 1)
    ensures Submit(s, m).state.field == s.field && Submit(s, m).state.attempts == s.attempts
  {
    var c := s.continuation.value;
    var tie := Ties(s.field, c.short, c.ties)[0];
    var kind := m.selection.kind;
    assert m.id.pd == tie.pd;
    AnswerTakesItsTie(s.field, c.short, c.ties, kind);
    TiesAreExact(s.field, c.short, c.ties);
    var answered := c.(expectedVersion := s.version + 1, ties := c.ties[tie.pd := kind]);
    AnswerIsSound(s.field, c.short, c.ties, tie, kind);
    AdvanceMoves(s, answered);
    assert Submit(s, m) == Accepted(Commit(Advance(s, answered)));
    hide Ties, Origins, Automatic, Sound, Settled, Listed, Candidates;
  }

  lemma AnswerIsSound(f: Field, short: bool, ties: map<PdId, Alignment>, tie: Tie, kind: Alignment)
    requires Listed(f) && Sound(f, ties) && tie in Ties(f, short, ties)
    ensures Sound(f, ties[tie.pd := kind])
  {
    TiesAreExact(f, short, ties);
    forall own | own in f.owners && own.owner.Some? && own.pd in ties[tie.pd := kind]
      ensures Owns(f, own.pd, own.owner.value, ties[tie.pd := kind][own.pd])
    {
      if own.pd == tie.pd {
        assert own == Ownership(tie.pd, Some(tie.owner));
      }
    }
  }

  /** What one attempt did adds up. */
  predicate Balanced(a: Attempt) {
    a.generated == a.placed + 2 * a.removed && (a.success <==> a.generated > 0) && a.generated <= 2
  }

  /** Cubes generated by the dice: none below six, two for an even second die, which only the longer variant rolls. */
  function Yield(first: int, second: int, short: bool): nat {
    if first < 6 then 0 else if !short && second % 2 == 0 then 2 else 1
  }

  /** The attempt did what the dice say: a second die is used exactly for a success in the longer variant. */
  predicate Diced(a: Attempt, first: int, second: int, short: bool) {
    a.generated == Yield(first, second, short) && (a.success <==> first >= 6) &&
    a.rolls == if first >= 6 && !short then 2 else 1
  }

  /** The board after one attempt: its kind grew on its destination by what was placed, the other kind fell. */
  ghost predicate Spreads(before: seq<Stack>, after: seq<Stack>, a: Attempt) {
    forall pd, k :: CountOn(after, pd, k) ==
      CountOn(before, pd, k) + (if pd == a.destination && k == a.kind then a.placed else 0) -
      (if pd == a.destination && k == a.kind.Opposite() then a.removed else 0)
  }

  /** And the placed cubes are those of the origin's owner. */
  ghost predicate Credits(before: seq<Stack>, after: seq<Stack>, a: Attempt, country: CountryId) {
    forall c :: DirectInfluence.CountBy(after, a.destination, a.kind, c) ==
      DirectInfluence.CountBy(before, a.destination, a.kind, c) + if c == country then a.placed else 0
  }

  lemma InfluenceSpreads(stacks: seq<Stack>, a: Attempt, country: CountryId)
    requires
      var r := DirectInfluence.Influence(stacks, a.destination, a.kind, country, a.generated);
      a.placed == r.placed && a.removed == r.removed
    ensures
      var r := DirectInfluence.Influence(stacks, a.destination, a.kind, country, a.generated);
      a.generated == a.placed + 2 * a.removed && Spreads(stacks, r.stacks, a) && Credits(stacks, r.stacks, a, country)
  {
    var r := DirectInfluence.Influence(stacks, a.destination, a.kind, country, a.generated);
    DirectInfluence.InfluenceIsConserved(stacks, a.destination, a.kind, country, a.generated, 0, Malign);
    hide DirectInfluence.Influence, CountOn, DirectInfluence.CountBy;
    forall pd, k
      ensures CountOn(r.stacks, pd, k) ==
              CountOn(stacks, pd, k) + (if pd == a.destination && k == a.kind then a.placed else 0) -
              (if pd == a.destination && k == a.kind.Opposite() then a.removed else 0)
    {
      DirectInfluence.InfluenceIsConserved(stacks, a.destination, a.kind, country, a.generated, pd, k);
    }
    forall c
      ensures DirectInfluence.CountBy(r.stacks, a.destination, a.kind, c) ==
              DirectInfluence.CountBy(stacks, a.destination, a.kind, c) + if c == country then a.placed else 0
    {
      DirectInfluence.InfluenceBelongs(stacks, a.destination, a.kind, country, a.generated, a.destination, a.kind, c);
    }
  }

  /** Whatever the origin and the dice, an attempt that is made spreads what it reports. */
  lemma AttemptSpreads(f: Field, o: Origin, destination: PdId, first: int, second: int, short: bool)
    requires ResolveOrigin(f, o, destination, first, second, short).Attempted?
    ensures
      var r := ResolveOrigin(f, o, destination, first, second, short);
      Spreads(f.influence, r.influence, r.attempt) && Balanced(r.attempt) && Diced(r.attempt, first, second, short) &&
      r.attempt.origin == o.pd && r.attempt.destination == destination && r.attempt.kind == o.kind &&
      (o.owner in f.countries ==> Credits(f.influence, r.influence, r.attempt, f.countries[o.owner]))
  {
    var r := ResolveOrigin(f, o, destination, first, second, short);
    if first >= 6 {
      InfluenceSpreads(f.influence, r.attempt, f.countries[o.owner]);
      hide DirectInfluence.Influence, Spreads, Credits;
    }
  }

  /** An origin with a valid destination and dice is resolved, and spreads what the dice say. */
  lemma ResolveOriginSucceeds(f: Field, o: Origin, destination: PdId, first: int, second: int, short: bool)
    requires destination in o.destinations && Die(first) && Die(second) && o.owner in f.countries
    ensures
      var r := ResolveOrigin(f, o, destination, first, second, short);
      r.Attempted? && Balanced(r.attempt) && Diced(r.attempt, first, second, short) &&
      r.attempt.origin == o.pd && r.attempt.destination == destination && r.attempt.kind == o.kind &&
      (!r.attempt.success ==> r.influence == f.influence) && Spreads(f.influence, r.influence, r.attempt) &&
      Credits(f.influence, r.influence, r.attempt, f.countries[o.owner])
  {
    AttemptSpreads(f, o, destination, first, second, short);
    hide Spreads, Credits, Balanced, Diced;
  }

  lemma DestinationMoves(s: State, m: Submission)
    requires Waiting(s) && s.continuation.value.resolving && Proper(s, m)
    ensures
      Submit(s, m).Accepted? && MovedOn(Submit(s, m).state, Remaining(s) - 1)
    ensures
      var c, after := s.continuation.value, Submit(s, m).state;
      |after.attempts| == |s.attempts| + 1 && after.attempts[..|s.attempts|] == s.attempts &&
      after.attempts[|s.attempts|].origin == c.origins[c.next].pd && Balanced(after.attempts[|s.attempts|]) &&
      after.attempts[|s.attempts|].kind == c.origins[c.next].kind &&
      m.selection == OfPd(after.attempts[|s.attempts|].destination) &&
      Diced(after.attempts[|s.attempts|], m.first, m.second, c.short) &&
      (after.continuation.Some? ==>
       after.continuation.value == c.(expectedVersion := s.version + 1, next := c.next + 1))
  {
    var c := s.continuation.value;
    var o := c.origins[c.next];
    var i :| 0 <= i < |o.destinations| && m.selection == PdOptions(o.destinations)[i];
    assert m.selection == OfPd(o.destinations[i]);
    ResolveOriginSucceeds(s.field, o, m.selection.pd, m.first, m.second, c.short);
    hide ResolveOrigin, Balanced, Diced, Spreads, Credits;
    var r := ResolveOrigin(s.field, o, m.selection.pd, m.first, m.second, c.short);
    var resolved := s.(field := s.field.(influence := r.influence), attempts := s.attempts + [r.attempt]);
    AskDestinationMoves(resolved, c.(expectedVersion := s.version + 1, next := c.next + 1));
  }

  /**
   While the cleanup waits, a submission is accepted exactly when it answers the open choice, with dice that
   are dice.
   */
  lemma AcceptedIff(s: State, m: Submission)
    requires Waiting(s)
    ensures Submit(s, m).Accepted? <==>
            m.id == s.choice.value.id && m.participant == s.choice.value.chooser &&
              m.selection in s.choice.value.options &&
            (s.continuation.value.resolving ==>
             Die(m.first) && (m.first >= 6 && !s.continuation.value.short ==> Die(m.second)))
  {
    var c := s.continuation.value;
    if c.resolving && m.selection in s.choice.value.options {
      var o := c.origins[c.next];
      var i :| 0 <= i < |o.destinations| && m.selection == PdOptions(o.destinations)[i];
      assert m.selection == OfPd(o.destinations[i]);
    }
    hide Ties, Advance;
  }
}
