/** Whole cleanups: how many submissions they take, what is asked and what is resolved. */
module ViralRuns {
  import opened Prelude
  import opened CampaignTypes
  import Adjudication
  import opened ViralSnapshot
  import opened ViralTies
  import opened ViralCleanup

  /** Refused submissions change nothing. */
  function Play(s: State, ms: seq<Submission>): State {
    if ms == [] then s
    else
      var before := Play(s, ms[..|ms| - 1]);
      match Submit(before, ms[|ms| - 1])
      case Accepted(after) => after
      case Refused(_) => before
  }

  ghost predicate AllProper(s: State, ms: seq<Submission>) {
    ms != [] ==> AllProper(s, ms[..|ms| - 1]) && Proper(Play(s, ms[..|ms| - 1]), ms[|ms| - 1])
  }

  function TypeChoices(id: nat, ties: seq<Tie>): seq<ChoiceId> {
    seq(|ties|, i requires 0 <= i < |ties| => TypeChoice(id, ties[i].pd))
  }

  function DestinationChoices(id: nat, origins: seq<Origin>): seq<ChoiceId> {
    seq(|origins|, i requires 0 <= i < |origins| => DestinationChoice(id, i, origins[i].pd))
  }

  /** The attempt spreads this origin's kind to the chosen destination, generates what the dice say, and adds up. */
  predicate Fits(a: Attempt, o: Origin, m: Submission, short: bool) {
    a.origin == o.pd && a.kind == o.kind && m.selection == OfPd(a.destination) && Balanced(a) &&
    Diced(a, m.first, m.second, short)
  }

  /** The first n ties are decided as their owners answered. */
  ghost predicate Answered(ties: map<PdId, Alignment>, all: seq<Tie>, ms: seq<Submission>, n: nat) {
    n <= |all| && n <= |ms| &&
    forall i :: 0 <= i < n ==> all[i].pd in ties && ms[i].selection == OfKind(ties[all[i].pd])
  }

  /** The last n submissions have chosen where the first n origins spread, in order. */
  ghost predicate Tried(s: State, s0: State, origins: seq<Origin>, ms: seq<Submission>, n: nat, short: bool) {
    n <= |origins| && n <= |ms| && |s.attempts| == |s0.attempts| + n && s0.attempts <= s.attempts &&
    forall k :: 0 <= k < n ==> Fits(s.attempts[|s0.attempts| + k], origins[k], ms[|ms| - n + k], short)
  }

  /** The choices settle every tie: what the snapshot is taken with. */
  ghost predicate Decided(f: Field, short: bool, ties: map<PdId, Alignment>) {
    Sound(f, ties) && Settled(f, short, ties) && Ties(f, short, ties) == []
  }

  ghost predicate WhileAsking(s: State, s0: State, short: bool, all: seq<Tie>, ms: seq<Submission>)
    requires s.continuation.Some?
  {
    var c := s.continuation.value;
    var pending := Ties(s.field, c.short, c.ties);
    s.field == s0.field && c.short == short && c.id == s0.version + 1 && s.attempts == s0.attempts &&
    0 < |pending| <= |all| && pending == all[|all| - |pending|..] && |ms| == |all| - |pending| &&
    Answered(c.ties, all, ms, |ms|) &&
    s.asked == s0.asked + TypeChoices(c.id, all[..|all| - |pending| + 1])
  }

  /** The snapshot was taken of the field as it was at the start; the origins are resolved in its order. */
  ghost predicate WhileResolving(s: State, s0: State, short: bool, all: seq<Tie>, ties: map<PdId, Alignment>,
                                 ms: seq<Submission>) {
    var origins := Origins(s0.field, short, ties);
    var n := if s.continuation.Some? then s.continuation.value.next else |origins|;
    |ms| == |all| + n && Tried(s, s0, origins, ms, n, short) &&
    (s.continuation.Some? ==>
      var c := s.continuation.value;
      c.resolving && c.origins == origins && c.short == short && c.id == s0.version + 1 && n < |origins|) &&
    s.asked == s0.asked + TypeChoices(s0.version + 1, all) +
      DestinationChoices(s0.version + 1, if s.continuation.Some? then origins[..n + 1] else origins)
  }

  ghost predicate History(s: State, s0: State, short: bool, all: seq<Tie>, ms: seq<Submission>) {
    if s.continuation.Some? && !s.continuation.value.resolving then WhileAsking(s, s0, short, all, ms)
    else
      exists ties ::
        Decided(s0.field, short, ties) && Answered(ties, all, ms, |all|) && WhileResolving(s, s0, short, all, ties, ms)
  }

  lemma MoreDestinations(id: nat, origins: seq<Origin>, n: nat)
    requires n < |origins|
    ensures DestinationChoices(id, origins[..n + 1]) == DestinationChoices(id, origins[..n]) +
            [DestinationChoice(id, n, origins[n].pd)]
  {
  }

  lemma MoreTypes(id: nat, ties: seq<Tie>, n: nat)
    requires n < |ties|
    ensures TypeChoices(id, ties[..n + 1]) == TypeChoices(id, ties[..n]) + [TypeChoice(id, ties[n].pd)]
  {
  }

  /** Whether it asks or takes the snapshot, a cleanup that moves on before the snapshot keeps its history. */
  /** What decides itself was not asked. */
  lemma AnswersStay(f: Field, short: bool, ties: map<PdId, Alignment>, all: seq<Tie>, ms: seq<Submission>, n: nat)
    requires Listed(f) && Answered(ties, all, ms, n)
    ensures Answered(ties + Automatic(f, short, ties, f.owners), all, ms, n)
  {
    AutomaticIsExact(f, short, ties, f.owners);
    var auto := Automatic(f, short, ties, f.owners);
    hide Automatic, SelfDecided;
    forall i | 0 <= i < n
      ensures all[i].pd !in auto
    {
      if all[i].pd in auto {
        assert DecidesItself(f, short, ties, f.owners, all[i].pd);
        NotYetDecided(f, short, ties, all[i].pd);
      }
    }
  }

  lemma NotYetDecided(f: Field, short: bool, ties: map<PdId, Alignment>, pd: PdId)
    requires DecidesItself(f, short, ties, f.owners, pd)
    ensures pd !in ties
  {
  }

  /** The snapshot is taken, and the first destination asked if there is an origin. */
  lemma SnapshotKeepsHistory(s: State, c: Continuation, s0: State, short: bool, all: seq<Tie>, ms: seq<Submission>,
                             settled: map<PdId, Alignment>)
    requires s.resolution && !c.resolving && s.field == s0.field && c.short == short && c.id == s0.version + 1
    requires s.attempts == s0.attempts && |ms| == |all| && s.asked == s0.asked + TypeChoices(c.id, all)
    requires settled == c.ties + Automatic(s.field, short, c.ties, s.field.owners)
    requires Ties(s.field, short, settled) == []
    ensures WhileResolving(Commit(Advance(s, c)), s0, short, all, settled, ms)
    ensures var after := Commit(Advance(s, c)); after.continuation.Some? ==> after.continuation.value.resolving
  {
    hide Automatic, Origins, Ties, TypeChoices, DestinationChoices;
    var origins := Origins(s.field, short, settled);
    NoDestinations(c.id, origins);
    if origins != [] {
      MoreDestinations(c.id, origins, 0);
    }
  }

  lemma NoDestinations(id: nat, origins: seq<Origin>)
    ensures DestinationChoices(id, origins[..0]) == [] && DestinationChoices(id, []) == []
  {
  }

  lemma AdvanceKeepsHistory(s: State, c: Continuation, s0: State, short: bool, all: seq<Tie>, ms: seq<Submission>)
    requires s.resolution && Listed(s.field) && !c.resolving && Sound(s.field, c.ties)
    requires s.field == s0.field && c.short == short && c.id == s0.version + 1 && s.attempts == s0.attempts
    requires
      var pending := Ties(s.field, short, c.ties);
      |pending| <= |all| && pending == all[|all| - |pending|..] && |ms| == |all| - |pending| &&
        s.asked == s0.asked + TypeChoices(c.id, all[..|all| - |pending|])
    requires Answered(c.ties, all, ms, |ms|)
    ensures History(Commit(Advance(s, c)), s0, short, all, ms)
  {
    AnswersStay(s.field, short, c.ties, all, ms, |ms|);
    var settled := c.ties + Automatic(s.field, short, c.ties, s.field.owners);
    var pending := Ties(s.field, short, c.ties);
    AutomaticSettles(s.field, short, c.ties);
    hide Listed, Automatic, Origins, Sound, Settled, Answered, Ties, TypeChoices, DestinationChoices;
    if pending == [] {
      SettledIsDecided(s0.field, short, settled);
      assert all[..|all|] == all;
      SnapshotKeepsHistory(s, c, s0, short, all, ms, settled);
      hide WhileResolving, Decided;
    } else {
      MoreTypes(c.id, all, |all| - |pending|);
      assert all[|all| - |pending|] == pending[0];
      JoinAssociates(s0.asked, TypeChoices(c.id, all[..|all| - |pending|]), [TypeChoice(c.id, pending[0].pd)]);
    }
  }

  lemma SettledIsDecided(f: Field, short: bool, ties: map<PdId, Alignment>)
    requires Sound(f, ties) && Settled(f, short, ties) && Ties(f, short, ties) == []
    ensures Decided(f, short, ties)
  {
    hide Sound, Settled, Ties;
  }

  lemma NothingChosen(s: State, all: seq<Tie>)
    ensures Sound(s.field, map[]) && all == all[|all| - |all|..]
    ensures s.asked == s.asked + TypeChoices(s.version + 1, all[..|all| - |all|])
  {
    assert TypeChoices(s.version + 1, all[..0]) == [];
  }

  lemma StartKeepsHistory(s: State, short: bool)
    requires s.resolution && Listed(s.field)
    ensures
      var all := Ties(s.field, short, map[]);
      History(Start(s, short), s, short, all, []) &&
        MovedOn(Start(s, short), |all| + Candidates(s.field, short, s.field.owners))
  {
    hide Ties, Listed, Advance, History, MovedOn, Candidates;
    var all := Ties(s.field, short, map[]);
    var c := Continuation(s.version + 1, s.version + 1, false, short, map[], [], 0);
    NothingChosen(s, all);
    AdvanceMoves(s, c);
    AdvanceKeepsHistory(s, c, s, short, all, []);
  }

  /** An answer adds to the earlier ones. */
  lemma AnswerRecorded(ties: map<PdId, Alignment>, all: seq<Tie>, ms: seq<Submission>, m: Submission)
    requires |ms| < |all| && Answered(ties, all, ms, |ms|) && all[|ms|].pd !in ties && m.selection.OfKind?
    ensures Answered(ties[all[|ms|].pd := m.selection.kind], all, ms + [m], |ms| + 1)
  {
  }

  lemma TieIsOpen(f: Field, short: bool, ties: map<PdId, Alignment>, t: Tie)
    requires Listed(f) && t in Ties(f, short, ties)
    ensures t.pd !in ties
  {
    TiesAreExact(f, short, ties);
    hide Ties;
  }

  lemma TieKeepsHistory(s: State, m: Submission, s0: State, short: bool, all: seq<Tie>, ms: seq<Submission>)
    requires Waiting(s) && !s.continuation.value.resolving && Proper(s, m) && History(s, s0, short, all, ms)
    ensures Submit(s, m).Accepted? && History(Submit(s, m).state, s0, short, all, ms + [m])
  {
    var c := s.continuation.value;
    var pending := Ties(s.field, c.short, c.ties);
    var kind := m.selection.kind;
    AnswerTakesItsTie(s.field, c.short, c.ties, kind);
    AnswerIsSound(s.field, c.short, c.ties, pending[0], kind);
    assert m.id.pd == pending[0].pd && pending[0] == all[|ms|];
    TieIsOpen(s.field, c.short, c.ties, pending[0]);
    AnswerRecorded(c.ties, all, ms, m);
    var answered := c.(expectedVersion := s.version + 1, ties := c.ties[m.id.pd := kind]);
    assert Submit(s, m) == Accepted(Commit(Advance(s, answered)));
    hide Ties, Advance, Sound, Settled, Listed, Submit, Answered;
    var rest := Ties(s.field, c.short, answered.ties);
    assert rest == pending[1..] && |rest| == |pending| - 1 && rest == all[|all| - |rest|..];
    AdvanceKeepsHistory(s, answered, s0, short, all, ms + [m]);
  }

  /** One more attempt was made and the next destination asked, or nothing more. */
  ghost predicate Attempted(s: State, after: State, m: Submission) {
    s.continuation.Some? && s.continuation.value.next < |s.continuation.value.origins| &&
    var c := s.continuation.value;
    |after.attempts| == |s.attempts| + 1 && s.attempts <= after.attempts &&
    Fits(after.attempts[|s.attempts|], c.origins[c.next], m, c.short) &&
    if c.next + 1 < |c.origins|
    then after.continuation.Some? && after.continuation.value.origins == c.origins &&
      after.continuation.value.next == c.next + 1 &&
         after.continuation.value.resolving && after.continuation.value.short == c.short &&
           after.continuation.value.id == c.id &&
         after.asked == s.asked + [DestinationChoice(c.id, c.next + 1, c.origins[c.next + 1].pd)]
    else after.continuation == None && after.asked == s.asked
  }

  lemma TriedOneMore(s: State, after: State, s0: State, origins: seq<Origin>, ms: seq<Submission>, m: Submission,
                     n: nat, short: bool)
    requires Tried(s, s0, origins, ms, n, short) && n < |origins|
    requires |after.attempts| == |s.attempts| + 1 && s.attempts <= after.attempts
    requires Fits(after.attempts[|s.attempts|], origins[n], m, short)
    ensures Tried(after, s0, origins, ms + [m], n + 1, short)
  {
    hide Fits;
    var more := ms + [m];
    forall k | 0 <= k < n + 1
      ensures Fits(after.attempts[|s0.attempts| + k], origins[k], more[|more| - (n + 1) + k], short)
    {
      if k < n {
        assert after.attempts[|s0.attempts| + k] == s.attempts[|s0.attempts| + k];
        assert more[|more| - (n + 1) + k] == ms[|ms| - n + k];
      }
    }
  }

  lemma AskedNext(asked: seq<ChoiceId>, id: nat, origins: seq<Origin>, n: nat)
    requires n + 1 < |origins|
    ensures asked + DestinationChoices(id, origins[..n + 1]) + [DestinationChoice(id, n + 1, origins[n + 1].pd)] ==
            asked + DestinationChoices(id, origins[..n + 2])
  {
    MoreDestinations(id, origins, n + 1);
    hide DestinationChoices;
    JoinAssociates(asked, DestinationChoices(id, origins[..n + 1]), [DestinationChoice(id, n + 1, origins[n + 1].pd)]);
  }

  lemma AttemptedKeeps(s: State, after: State, m: Submission, s0: State, short: bool, all: seq<Tie>,
                       ties: map<PdId, Alignment>, ms: seq<Submission>)
    requires s.continuation.Some? && WhileResolving(s, s0, short, all, ties, ms) && Attempted(s, after, m)
    ensures WhileResolving(after, s0, short, all, ties, ms + [m])
  {
    hide Origins, Fits, TypeChoices, DestinationChoices, Tried;
    var c, origins := s.continuation.value, Origins(s0.field, short, ties);
    TriedOneMore(s, after, s0, origins, ms, m, c.next, short);
    if c.next + 1 < |origins| {
      AskedNext(s0.asked + TypeChoices(c.id, all), c.id, origins, c.next);
    } else {
      assert origins[..c.next + 1] == origins;
    }
  }

  lemma DestinationKeepsHistory(s: State, m: Submission, s0: State, short: bool, all: seq<Tie>, ms: seq<Submission>)
    requires Waiting(s) && s.continuation.value.resolving && Proper(s, m) && History(s, s0, short, all, ms)
    ensures Submit(s, m).Accepted? && History(Submit(s, m).state, s0, short, all, ms + [m])
  {
    OriginIsAttempted(s, m);
    hide Submit, Decided, WhileResolving, Attempted, Proper, Waiting, Answered;
    var after := Submit(s, m).state;
    var ties :|
      Decided(s0.field, short, ties) && Answered(ties, all, ms, |all|) && WhileResolving(s, s0, short, all, ties, ms);
    AttemptedKeeps(s, after, m, s0, short, all, ties, ms);
    AnsweredBefore(ties, all, ms, m);
  }

  lemma AnsweredBefore(ties: map<PdId, Alignment>, all: seq<Tie>, ms: seq<Submission>, m: Submission)
    requires Answered(ties, all, ms, |all|)
    ensures Answered(ties, all, ms + [m], |all|)
  {
  }

  lemma OriginIsAttempted(s: State, m: Submission)
    requires Waiting(s) && s.continuation.value.resolving && Proper(s, m)
    ensures Submit(s, m).Accepted? && Attempted(s, Submit(s, m).state, m)
    ensures var after := Submit(s, m).state; after.continuation.Some? ==> after.continuation.value.resolving
  {
    assert s.continuation.value.next < |s.continuation.value.origins|;
    hide Balanced, Diced, Submit, Proper, Waiting;
    DestinationMoves(s, m);
    DestinationAsks(s, m);
  }

  /** What a resolved origin asks next. */
  lemma DestinationAsks(s: State, m: Submission)
    requires Waiting(s) && s.continuation.value.resolving && Proper(s, m)
    requires Submit(s, m).Accepted?
    ensures
      var c, after := s.continuation.value, Submit(s, m).state;
      if c.next + 1 < |c.origins|
      then after.continuation == Some(c.(expectedVersion := s.version + 1, next := c.next + 1)) &&
           after.asked == s.asked + [DestinationChoice(c.id, c.next + 1, c.origins[c.next + 1].pd)]
      else after.continuation == None && after.asked == s.asked
  {
    hide Ties, Origins, ResolveOrigin;
  }

  lemma SubmitKeeps(s: State, m: Submission, s0: State, short: bool, all: seq<Tie>, ms: seq<Submission>)
    requires Waiting(s) && Proper(s, m) && History(s, s0, short, all, ms)
    ensures Submit(s, m).Accepted?
    ensures History(Submit(s, m).state, s0, short, all, ms + [m]) && MovedOn(Submit(s, m).state, Remaining(s) - 1)
  {
    var resolving := s.continuation.value.resolving;
    hide History, Proper, Submit, MovedOn, Remaining;
    if resolving {
      DestinationKeepsHistory(s, m, s0, short, all, ms);
      DestinationMoves(s, m);
    } else {
      TieKeepsHistory(s, m, s0, short, all, ms);
      TieAnswerMoves(s, m);
    }
  }

  /** The number of submissions a cleanup will take, known when it opens. */
  ghost function Expected(f: Field, short: bool): nat {
    |Ties(f, short, map[])| + Candidates(f, short, f.owners)
  }

  lemma {:induction false} PlayKeeps(s0: State, short: bool, ms: seq<Submission>)
    requires s0.resolution && Listed(s0.field) && AllProper(Start(s0, short), ms) && |ms| <= Expected(s0.field, short)
    ensures
      var after := Play(Start(s0, short), ms);
      MovedOn(after, Expected(s0.field, short) - |ms|) && History(after, s0, short, Ties(s0.field, short, map[]), ms)
  {
    hide History, Submit, Waiting, Over, Ties, Proper, Candidates, Start, Remaining, Listed, Expected;
    if ms == [] {
      StartKeepsHistory(s0, short);
      ExpectedIs(s0.field, short);
    } else {
      var all, init, last := Ties(s0.field, short, map[]), ms[..|ms| - 1], ms[|ms| - 1];
      PlayKeeps(s0, short, init);
      SubmitKeeps(Play(Start(s0, short), init), last, s0, short, all, init);
      assert init + [last] == ms;
    }
  }

  lemma ExpectedIs(f: Field, short: bool)
    ensures Expected(f, short) == |Ties(f, short, map[])| + Candidates(f, short, f.owners)
  {
    hide Ties, Candidates;
  }

  function Generated(attempts: seq<Attempt>): nat {
    if attempts == [] then 0 else Generated(attempts[..|attempts| - 1]) + attempts[|attempts| - 1].generated
  }

  function PlacedBy(attempts: seq<Attempt>): nat {
    if attempts == [] then 0 else PlacedBy(attempts[..|attempts| - 1]) + attempts[|attempts| - 1].placed
  }

  function RemovedBy(attempts: seq<Attempt>): nat {
    if attempts == [] then 0 else RemovedBy(attempts[..|attempts| - 1]) + attempts[|attempts| - 1].removed
  }

  lemma {:induction false} AttemptsAddUp(attempts: seq<Attempt>)
    requires forall k :: 0 <= k < |attempts| ==> Balanced(attempts[k])
    ensures Generated(attempts) == PlacedBy(attempts) + 2 * RemovedBy(attempts)
  {
    if attempts != [] {
      AttemptsAddUp(attempts[..|attempts| - 1]);
      assert Balanced(attempts[|attempts| - 1]);
    }
  }

  /** Submissions whose first die succeeds. */
  function Successes(ms: seq<Submission>): nat {
    if ms == [] then 0 else Successes(ms[..|ms| - 1]) + if ms[|ms| - 1].first >= 6 then 1 else 0
  }

  /** Those of them whose second die is even, in the longer variant. */
  function Doubles(ms: seq<Submission>, short: bool): nat {
    if ms == [] then 0
    else
      var m := ms[|ms| - 1];
      Doubles(ms[..|ms| - 1], short) + if m.first >= 6 && m.second % 2 == 0 && !short then 1 else 0
  }

  lemma {:induction false} DiceAddUp(attempts: seq<Attempt>, ms: seq<Submission>, short: bool)
    requires |attempts| == |ms|
    requires forall k :: 0 <= k < |attempts| ==> Diced(attempts[k], ms[k].first, ms[k].second, short)
    ensures Generated(attempts) == Successes(ms) + Doubles(ms, short)
  {
    if attempts != [] {
      var n := |attempts| - 1;
      DiceAddUp(attempts[..n], ms[..n], short);
      assert Diced(attempts[n], ms[n].first, ms[n].second, short);
    }
  }

  /**
   What a completed cleanup did since s0: each tie and each origin asked once and in order, and each origin
   attempted once, spreading its kind to the destination submitted for it.
   */
  ghost predicate Completed(after: State, s0: State, short: bool, origins: seq<Origin>, ms: seq<Submission>) {
    |s0.attempts| <= |after.attempts| && |ms| == |Ties(s0.field, short, map[])| + |origins| &&
    var attempts := after.attempts[|s0.attempts|..];
    Over(after) && |attempts| == |origins| &&
    (forall k :: 0 <= k < |origins| ==> Fits(attempts[k], origins[k], ms[|ms| - |origins| + k], short)) &&
    after.asked == s0.asked + TypeChoices(s0.version + 1, Ties(s0.field, short, map[])) +
      DestinationChoices(s0.version + 1, origins) &&
    Generated(attempts) == PlacedBy(attempts) + 2 * RemovedBy(attempts) &&
    Generated(attempts) == Successes(ms[|ms| - |origins|..]) + Doubles(ms[|ms| - |origins|..], short)
  }

  /**
   With no other command in between, a cleanup ends after exactly as many accepted submissions as there are
   undecided ties and candidate origins, however the ties are decided and wherever the origins spread: never
   sooner and never later. The origins resolved are those of a snapshot of the board as it stood at the start,
   and each tied population spreads the kind that its owner answered.
   */
  lemma CleanupEndsExactly(s0: State, short: bool, ms: seq<Submission>)
    requires s0.resolution && Listed(s0.field) && AllProper(Start(s0, short), ms) && |ms| <= Expected(s0.field, short)
    ensures Over(Play(Start(s0, short), ms)) <==> |ms| == Expected(s0.field, short)
    ensures |ms| == Expected(s0.field, short) ==>
              exists ties ::
                Decided(s0.field, short, ties) &&
                  Answered(ties, Ties(s0.field, short, map[]), ms, |Ties(s0.field, short, map[])|) &&
                Completed(Play(Start(s0, short), ms), s0, short, Origins(s0.field, short, ties), ms)
  {
    PlayKeeps(s0, short, ms);
    var after := Play(Start(s0, short), ms);
    if |ms| == Expected(s0.field, short) {
      EndsWith(after, s0, short, ms);
    }
  }

  lemma EndsWith(after: State, s0: State, short: bool, ms: seq<Submission>)
    requires Over(after) && History(after, s0, short, Ties(s0.field, short, map[]), ms)
    ensures exists ties ::
              Decided(s0.field, short, ties) &&
                Answered(ties, Ties(s0.field, short, map[]), ms, |Ties(s0.field, short, map[])|) &&
              Completed(after, s0, short, Origins(s0.field, short, ties), ms)
  {
    hide Decided, Ties, Origins, Answered, WhileResolving, Completed, Listed;
    var all := Ties(s0.field, short, map[]);
    var ties :|
      Decided(s0.field, short, ties) && Answered(ties, all, ms, |all|) &&
      WhileResolving(after, s0, short, all, ties, ms);
    CompletedFrom(after, s0, short, ties, ms);
  }

  lemma CompletedFrom(after: State, s0: State, short: bool, ties: map<PdId, Alignment>, ms: seq<Submission>)
    requires Over(after) && WhileResolving(after, s0, short, Ties(s0.field, short, map[]), ties, ms)
    ensures Completed(after, s0, short, Origins(s0.field, short, ties), ms)
  {
    hide Ties, Origins, TypeChoices, DestinationChoices;
    var origins := Origins(s0.field, short, ties);
    var attempts := after.attempts[|s0.attempts|..];
    AttemptsFit(after, s0, origins, ms, short);
    hide Tried, Fits, Generated, PlacedBy, RemovedBy;
  }

  lemma AttemptsFit(after: State, s0: State, origins: seq<Origin>, ms: seq<Submission>, short: bool)
    requires Tried(after, s0, origins, ms, |origins|, short)
    ensures
      var attempts := after.attempts[|s0.attempts|..];
      (forall k :: 0 <= k < |origins| ==> Fits(attempts[k], origins[k], ms[|ms| - |origins| + k], short)) &&
      Generated(attempts) == PlacedBy(attempts) + 2 * RemovedBy(attempts) &&
      Generated(attempts) == Successes(ms[|ms| - |origins|..]) + Doubles(ms[|ms| - |origins|..], short)
  {
    var attempts := after.attempts[|s0.attempts|..];
    forall k | 0 <= k < |origins|
      ensures Fits(attempts[k], origins[k], ms[|ms| - |origins| + k], short)
    {
      assert attempts[k] == after.attempts[|s0.attempts| + k];
    }
    AttemptsAddUp(attempts);
    var chosen := ms[|ms| - |origins|..];
    forall k | 0 <= k < |attempts|
      ensures Diced(attempts[k], chosen[k].first, chosen[k].second, short)
    {
      assert Fits(attempts[k], origins[k], ms[|ms| - |origins| + k], short);
    }
    DiceAddUp(attempts, chosen, short);
  }

  // ------------------------------------------------------------- the board

  /** Cubes of a kind that the attempts placed on, or took from, a population. */
  function PlacedOn(attempts: seq<Attempt>, pd: PdId, k: Alignment): nat {
    if attempts == [] then 0
    else
      var a := attempts[|attempts| - 1];
      PlacedOn(attempts[..|attempts| - 1], pd, k) + if a.destination == pd && a.kind == k then a.placed else 0
  }

  function TakenFrom(attempts: seq<Attempt>, pd: PdId, k: Alignment): nat {
    if attempts == [] then 0
    else
      var a := attempts[|attempts| - 1];
      TakenFrom(attempts[..|attempts| - 1], pd, k) +
      if a.destination == pd && a.kind.Opposite() == k then a.removed else 0
  }

  /** Only the cubes on the board have changed, by what the attempts since then say. */
  ghost predicate Spread(s0: State, s: State) {
    s0.attempts <= s.attempts && s.field == s0.field.(influence := s.field.influence) &&
    var attempts := s.attempts[|s0.attempts|..];
    forall pd, k :: Adjudication.CountOn(s.field.influence, pd, k) ==
      Adjudication.CountOn(s0.field.influence, pd, k) + PlacedOn(attempts, pd, k) - TakenFrom(attempts, pd, k)
  }

  lemma NoSpread(s0: State, s: State)
    requires s.attempts == s0.attempts && s.field == s0.field
    ensures Spread(s0, s)
  {
    assert s.attempts[|s0.attempts|..] == [];
  }

  lemma OneSpread(s0: State, s: State, after: State, a: Attempt)
    requires Spread(s0, s) && after.attempts == s.attempts + [a]
    requires after.field == s.field.(influence := after.field.influence)
    requires Spreads(s.field.influence, after.field.influence, a)
    ensures Spread(s0, after)
  {
    hide Adjudication.CountOn;
    var attempts, more := s.attempts[|s0.attempts|..], after.attempts[|s0.attempts|..];
    assert more == attempts + [a] && more[..|more| - 1] == attempts;
  }

  lemma SameSpread(s0: State, s: State, after: State)
    requires Spread(s0, s) && after.attempts == s.attempts && after.field == s.field
    ensures Spread(s0, after)
  {
  }

  lemma AdvanceMovesNoCube(s: State, c: Continuation)
    ensures Commit(Advance(s, c)).attempts == s.attempts && Commit(Advance(s, c)).field == s.field
  {
    hide Ties, Origins, Automatic;
  }

  lemma SubmitSpreads(s0: State, s: State, m: Submission)
    requires Spread(s0, s) && Submit(s, m).Accepted?
    ensures Spread(s0, Submit(s, m).state)
  {
    var c := s.continuation.value;
    match m.selection
    case OfKind(kind) =>
      var answered := c.(expectedVersion := s.version + 1, ties := c.ties[m.id.pd := kind]);
      AdvanceMovesNoCube(s, answered);
      hide Advance, Spread;
      SameSpread(s0, s, Submit(s, m).state);
    case OfPd(destination) =>
      var o := c.origins[c.next];
      AttemptSpreads(s.field, o, destination, m.first, m.second, c.short);
      var r := ResolveOrigin(s.field, o, destination, m.first, m.second, c.short);
      var resolved := s.(field := s.field.(influence := r.influence), attempts := s.attempts + [r.attempt]);
      var next := c.(expectedVersion := s.version + 1, next := c.next + 1);
      AdvanceMovesNoCube(resolved, next);
      hide Advance, Spread, Spreads, ResolveOrigin, Credits, Diced, Balanced;
      OneSpread(s0, s, Submit(s, m).state, r.attempt);
  }

  /** Whatever is submitted, the board is the one at the start and what the attempts report. */
  lemma {:induction false} BoardFollowsAttempts(s0: State, short: bool, ms: seq<Submission>)
    ensures Spread(s0, Play(Start(s0, short), ms))
  {
    hide Submit, Spread;
    if ms == [] {
      AdvanceMovesNoCube(s0, Continuation(s0.version + 1, s0.version + 1, false, short, map[], [], 0));
      hide Advance;
      NoSpread(s0, Start(s0, short));
    } else {
      BoardFollowsAttempts(s0, short, ms[..|ms| - 1]);
      var before := Play(Start(s0, short), ms[..|ms| - 1]);
      hide Start;
      if Submit(before, ms[|ms| - 1]).Accepted? {
        SubmitSpreads(s0, before, ms[|ms| - 1]);
      }
    }
  }
}
