/**
 Exactly-once dispatch: a command is answered from the stored result of its identity, or prepared against
 the game's state, committed under the version that was loaded, and stored.
 */
module Dispatch {
  import opened Prelude
  import opened JsonText
  import opened Json
  import opened Fingerprints

  type Time = int
  datatype Code = KeyReused | StaleVersion | GameNotFound | Refusal(code: Text)

  datatype Envelope = Envelope(commandId: Text, name: Name, expectedVersion: nat, command: Command)
  datatype Versioned<S> = Versioned(version: nat, body: S)
  datatype Outcome = Outcome(choice: bool, resultCode: Text, payload: Option<Value>, events: seq<Text>,
                             traces: seq<Text>)

  datatype Prepared<S> = Refused(code: Code, version: nat) | Ready(body: S, outcome: Outcome)

  datatype Result =
    | Rejected(commandId: Text, game: Text, version: int, code: Code, resolvedAt: Time)
    | Accepted(commandId: Text, game: Text, before: nat, after: nat, outcome: Outcome, resolvedAt: Time)

  /** The dispatcher throws when the payload cannot be fingerprinted. */
  datatype Reply = Threw | Replied(result: Result)

  datatype Stored = Stored(fingerprint: Text, result: Result)
  datatype Notice<S> = Notice(before: Option<Versioned<S>>, after: Versioned<S>)

  /** `notices` lists what the commit listeners have been told. */
  datatype Store<S> = Store(states: map<Text, Versioned<S>>, idempotency: map<Text, Stored>, notices: seq<Notice<S>>)

  /** The callbacks a dispatch is given; both are functions of what they are handed. */
  datatype Ports<!S> = Ports(validate: Envelope -> Option<Code>,
                             prepare: (Option<Versioned<S>>, Envelope) -> Prepared<S>)

  function Load<S>(store: Store<S>, game: Text): Option<Versioned<S>> {
    if game in store.states then Some(store.states[game]) else None
  }

  function VersionOf<S>(store: Store<S>, game: Text): nat {
    if game in store.states then store.states[game].version else 0
  }

  /** The compare-and-set of a commit. */
  predicate CanCommit<S>(store: Store<S>, game: Text, expected: nat) {
    if game in store.states then store.states[game].version == expected else expected == 0
  }

  function Reject(e: Envelope, version: int, code: Code, now: Time): Reply {
    Replied(Rejected(e.commandId, e.name.game, version, code, now))
  }

  function Accept(e: Envelope, before: nat, outcome: Outcome, now: Time): Result {
    Accepted(e.commandId, e.name.game, before, before + 1, outcome, now)
  }

  function Commit<S>(store: Store<S>, e: Envelope, fingerprint: Text, body: S, result: Result): Store<S> {
    var next := Versioned(VersionOf(store, e.name.game) + 1, body);
    Store(store.states[e.name.game := next], store.idempotency[Identity(e.name) := Stored(fingerprint, result)],
          store.notices + [Notice(Load(store, e.name.game), next)])
  }

  function Dispatched<S>(store: Store<S>, ports: Ports<S>, e: Envelope, now: Time): (Store<S>, Reply) {
    var before, version := Load(store, e.name.game), VersionOf(store, e.name.game);
    var refused := ports.validate(e);
    if refused.Some? then (store, Reject(e, version, refused.value, now))
    else
      var fingerprint := Fingerprint(e.command);
      if fingerprint.None? then (store, Threw)
      else
        var identity := Identity(e.name);
        if identity in store.idempotency then
          var previous := store.idempotency[identity];
          (store, if previous.fingerprint == fingerprint.value then Replied(previous.result)
           else Reject(e, version, KeyReused, now))
        else
          match ports.prepare(before, e)
          case Refused(code, at) => (store, Reject(e, at, code, now))
          case Ready(body, outcome) =>
            if !CanCommit(store, e.name.game, version) then (store, Reject(e, version, StaleVersion, now))
            else
              var result := Accept(e, version, outcome, now);
              (Commit(store, e, fingerprint.value, body, result), Replied(result))
  }

  datatype Submission = Submission(envelope: Envelope, now: Time)

  function Submit<S>(store: Store<S>, ports: Ports<S>, s: Submission): Store<S> {
    Dispatched(store, ports, s.envelope, s.now).0
  }

  function Run<S>(store: Store<S>, ports: Ports<S>, submissions: seq<Submission>): Store<S> {
    if submissions == [] then store
    else Submit(Run(store, ports, submissions[..|submissions| - 1]), ports, submissions[|submissions| - 1])
  }

  /** The command is carried out now: it passes validation, its identity is new and its preparation succeeds. */
  predicate CarriedOut<S>(store: Store<S>, ports: Ports<S>, e: Envelope) {
    ports.validate(e).None? && Fingerprint(e.command).Some? && Identity(e.name) !in store.idempotency &&
    ports.prepare(Load(store, e.name.game), e).Ready?
  }

  // ------------------------------------------------------------ one dispatch

  /** Loading and committing in one synchronous call never meets another version. */
  lemma NeverStale<S>(store: Store<S>, e: Envelope)
    ensures CanCommit(store, e.name.game, VersionOf(store, e.name.game))
  {
  }

  /**
   The store changes exactly when the command is carried out; then the version grows by one and one notice
   goes out.
   */
  lemma ChangesIffCarriedOut<S>(store: Store<S>, ports: Ports<S>, e: Envelope, now: Time)
    ensures
      var after := Dispatched(store, ports, e, now).0;
      (after != store <==> CarriedOut(store, ports, e)) &&
      (after != store ==>
        VersionOf(after, e.name.game) == VersionOf(store, e.name.game) + 1 &&
        (forall g :: g != e.name.game ==> Load(after, g) == Load(store, g)) &&
        (forall i :: i in store.idempotency ==>
         i in after.idempotency && after.idempotency[i] == store.idempotency[i]) &&
        Identity(e.name) in after.idempotency &&
        after.notices == store.notices + [Notice(Load(store, e.name.game), after.states[e.name.game])])
  {
    hide Fingerprint, Identity;
    NeverStale(store, e);
    if CarriedOut(store, ports, e) {
      var after := Dispatched(store, ports, e, now).0;
      assert Identity(e.name) in after.idempotency;
    }
  }

  /** The body and outcome that the preparation answered for the state loaded. */
  function PreparedFor<S>(store: Store<S>, ports: Ports<S>, e: Envelope): Prepared<S> {
    ports.prepare(Load(store, e.name.game), e)
  }

  /**
   What is stored is what was prepared: a command that is carried out leaves exactly the body the preparation
   answered for the state that was loaded, under the next version; the listeners are told of that state, and the
   result that is returned and kept for the identity carries the prepared outcome and both versions.
   */
  lemma StoresWhatWasPrepared<S>(store: Store<S>, ports: Ports<S>, e: Envelope, now: Time)
    requires CarriedOut(store, ports, e)
    ensures
      var game, before, prepared := e.name.game, VersionOf(store, e.name.game), PreparedFor(store, ports, e);
      var (after, reply) := Dispatched(store, ports, e, now);
      var stored := Versioned(before + 1, prepared.body);
      var result := Accepted(e.commandId, game, before, before + 1, prepared.outcome, now);
      after.states == store.states[game := stored] &&
      after.notices == store.notices + [Notice(Load(store, game), stored)] && reply == Replied(result) &&
      after.idempotency ==
      store.idempotency[Identity(e.name) := Stored(Fingerprint(e.command).value, result)]
  {
    hide Fingerprint, Identity;
    NeverStale(store, e);
  }

  /** What is not carried out is answered without a trace: with a code, an earlier result, or a throw. */
  lemma RefusalSaysWhy<S>(store: Store<S>, ports: Ports<S>, e: Envelope, now: Time)
    requires !CarriedOut(store, ports, e)
    ensures
      var (after, reply) := Dispatched(store, ports, e, now);
      var known := Identity(e.name) in store.idempotency;
      after == store &&
      (ports.validate(e).Some? ==> reply == Reject(e, VersionOf(store, e.name.game), ports.validate(e).value, now)) &&
      (ports.validate(e).None? ==> (reply.Threw? <==> Fingerprint(e.command).None?)) &&
      (ports.validate(e).None? && Fingerprint(e.command).Some? && !known ==>
        PreparedFor(store, ports, e).Refused? &&
        reply == Reject(e, PreparedFor(store, ports, e).version, PreparedFor(store, ports, e).code, now))
  {
    hide Fingerprint, Identity;
    NeverStale(store, e);
  }

  /**
   A stored identity answers: with the stored result when the fingerprint is the stored one, and with a
   rejection otherwise.
   */
  lemma KnownIdentityAnswers<S>(store: Store<S>, ports: Ports<S>, e: Envelope, now: Time)
    requires ports.validate(e).None? && Fingerprint(e.command).Some? && Identity(e.name) in store.idempotency
    ensures
      var stored := store.idempotency[Identity(e.name)];
      Dispatched(store, ports, e, now) ==
      (store, if stored.fingerprint == Fingerprint(e.command).value then Replied(stored.result)
              else Reject(e, VersionOf(store, e.name.game), KeyReused, now))
  {
    hide Fingerprint, Identity;
  }

  // ------------------------------------------------------------------- runs

  lemma RunAfter<S>(store: Store<S>, ports: Ports<S>, submissions: seq<Submission>, s: Submission)
    ensures Run(store, ports, submissions + [s]) == Submit(Run(store, ports, submissions), ports, s)
  {
    hide Submit;
    assert (submissions + [s])[..|submissions|] == submissions;
  }

  /** What is stored for an identity stays stored as it is. */
  lemma {:induction false} StoredForGood<S>(store: Store<S>, ports: Ports<S>, submissions: seq<Submission>,
                                            identity: Text)
    requires identity in store.idempotency
    ensures identity in Run(store, ports, submissions).idempotency
    ensures Run(store, ports, submissions).idempotency[identity] == store.idempotency[identity]
  {
    if submissions != [] {
      var init, last := submissions[..|submissions| - 1], submissions[|submissions| - 1];
      StoredForGood(store, ports, init, identity);
      ChangesIffCarriedOut(Run(store, ports, init), ports, last.envelope, last.now);
    }
  }

  /**
   Once a command has been carried out, its resubmission after any further submissions changes nothing: the
   original result comes back when the command is the same one, up to the order of the payload's keys, and
   the key is refused as reused exactly otherwise.
   */
  lemma ResubmissionReturnsTheOriginal<S>(store: Store<S>, ports: Ports<S>, first: Submission,
                                          between: seq<Submission>, again: Submission)
    requires CarriedOut(store, ports, first.envelope)
    requires again.envelope.name == first.envelope.name && ports.validate(again.envelope).None?
    requires Ordinary(first.envelope.command) && Ordinary(again.envelope.command)
    ensures
      var result := Dispatched(store, ports, first.envelope, first.now).1;
      var later := Run(Submit(store, ports, first), ports, between);
      Dispatched(later, ports, again.envelope, again.now) ==
      (later, if SameCommand(first.envelope.command, again.envelope.command) then result
              else Reject(again.envelope, VersionOf(later, again.envelope.name.game), KeyReused, again.now))
  {
    var identity := Identity(first.envelope.name);
    FingerprintsAgreeIff(first.envelope.command, again.envelope.command);
    hide Fingerprint, Identity, SameCommand, Ordinary;
    NeverStale(store, first.envelope);
    var stored := Submit(store, ports, first);
    assert identity in stored.idempotency;
    StoredForGood(stored, ports, between, identity);
    KnownIdentityAnswers(Run(stored, ports, between), ports, again.envelope, again.now);
  }

  /** The submissions of a run that are carried out. */
  function Effective<S>(store: Store<S>, ports: Ports<S>, submissions: seq<Submission>): seq<Submission> {
    if submissions == [] then []
    else
      var init, last := submissions[..|submissions| - 1], submissions[|submissions| - 1];
      Effective(store, ports, init) + if CarriedOut(Run(store, ports, init), ports, last.envelope) then [last] else []
  }

  function CountGame(submissions: seq<Submission>, game: Text): nat {
    if submissions == [] then 0
    else
      CountGame(submissions[..|submissions| - 1], game) +
      if submissions[|submissions| - 1].envelope.name.game == game then 1 else 0
  }

  lemma CountAfter(submissions: seq<Submission>, s: Submission, game: Text)
    ensures CountGame(submissions + [s], game) == CountGame(submissions, game) + if s.envelope.name.game == game then 1
            else 0
  {
    assert (submissions + [s])[..|submissions|] == submissions;
  }

  /**
   A run leaves the store that the carried-out submissions alone leave, in their order: repeats and rejections
   leave no trace. A game's version is the number of its commands carried out, and so is the number of notices.
   */
  lemma {:induction false} OnlyEffectiveSubmissionsCount<S>(store: Store<S>, ports: Ports<S>,
                                                            submissions: seq<Submission>, game: Text)
    ensures Run(store, ports, Effective(store, ports, submissions)) == Run(store, ports, submissions)
    ensures VersionOf(Run(store, ports, submissions), game) ==
            VersionOf(store, game) + CountGame(Effective(store, ports, submissions), game)
    ensures |Run(store, ports, submissions).notices| == |store.notices| + |Effective(store, ports, submissions)|
  {
    if submissions != [] {
      hide Dispatched, CarriedOut, VersionOf;
      var init, last := submissions[..|submissions| - 1], submissions[|submissions| - 1];
      OnlyEffectiveSubmissionsCount(store, ports, init, game);
      var before := Run(store, ports, init);
      ChangesIffCarriedOut(before, ports, last.envelope, last.now);
      SameVersionElsewhere(before, Submit(before, ports, last), game);
      if CarriedOut(before, ports, last.envelope) {
        RunAfter(store, ports, Effective(store, ports, init), last);
        CountAfter(Effective(store, ports, init), last, game);
      } else {
        assert Effective(store, ports, init) + [] == Effective(store, ports, init);
      }
    }
  }

  /** One game's state after submissions prepared one on the other. */
  function Folded<S>(start: Option<Versioned<S>>, ports: Ports<S>, submissions: seq<Submission>,
                        game: Text): Option<Versioned<S>> {
    if submissions == [] then start
    else
      var last := submissions[|submissions| - 1].envelope;
      var before := Folded(start, ports, submissions[..|submissions| - 1], game);
      if last.name.game == game && ports.prepare(before, last).Ready?
      then Some(Versioned(if before.Some? then before.value.version + 1 else 1, ports.prepare(before, last).body))
      else before
  }

  /**
   Over any run a game's state is the fold of the preparation over the submissions carried out, in their order:
   each is prepared on the body the one before it left, and its version is their number.
   */
  lemma {:induction false} StateIsTheFold<S>(store: Store<S>, ports: Ports<S>, submissions: seq<Submission>,
                                             game: Text)
    ensures Load(Run(store, ports, submissions), game) ==
            Folded(Load(store, game), ports, Effective(store, ports, submissions), game)
  {
    if submissions != [] {
      var init, last := submissions[..|submissions| - 1], submissions[|submissions| - 1];
      StateIsTheFold(store, ports, init, game);
      var before, done := Run(store, ports, init), Effective(store, ports, init);
      ChangesIffCarriedOut(before, ports, last.envelope, last.now);
      if CarriedOut(before, ports, last.envelope) {
        StoresWhatWasPrepared(before, ports, last.envelope, last.now);
        assert (done + [last])[..|done + [last]| - 1] == done;
      } else {
        assert done + [] == done;
      }
      hide Dispatched, Fingerprint, Identity;
    }
  }

  lemma SameVersionElsewhere<S>(store: Store<S>, after: Store<S>, game: Text)
    ensures Load(after, game) == Load(store, game) ==> VersionOf(after, game) == VersionOf(store, game)
  {
  }

  function Identities(submissions: seq<Submission>): seq<Text> {
    seq(|submissions|, i requires 0 <= i < |submissions| => Identity(submissions[i].envelope.name))
  }

  /** No identity is carried out twice, and the identities carried out are the ones newly stored. */
  lemma {:induction false} CarriedOutOnce<S>(store: Store<S>, ports: Ports<S>, submissions: seq<Submission>)
    ensures Distinct(Identities(Effective(store, ports, submissions)))
    ensures forall i :: i in Run(store, ports, submissions).idempotency <==>
              i in store.idempotency || i in Identities(Effective(store, ports, submissions))
    ensures forall i :: i in Identities(Effective(store, ports, submissions)) ==> i !in store.idempotency
  {
    if submissions != [] {
      var init, last := submissions[..|submissions| - 1], submissions[|submissions| - 1];
      CarriedOutOnce(store, ports, init);
      var before, done := Run(store, ports, init), Effective(store, ports, init);
      StepIdentities(before, ports, last);
      hide Dispatched, Submit, Identity, Fingerprint;
      if CarriedOut(before, ports, last.envelope) {
        assert Identities(done + [last]) == Identities(done) + [Identity(last.envelope.name)];
      } else {
        assert done + [] == done;
      }
    }
  }

  lemma StepIdentities<S>(store: Store<S>, ports: Ports<S>, s: Submission)
    ensures forall i :: i in Submit(store, ports, s).idempotency <==>
              i in store.idempotency || (CarriedOut(store, ports, s.envelope) && i == Identity(s.envelope.name))
  {
    hide Identity, Fingerprint;
    NeverStale(store, s.envelope);
  }

  /** Leaving out a submission that is not carried out, a repeat in particular, leaves the final store as it was. */
  lemma {:induction false} LeaveOut<S>(store: Store<S>, ports: Ports<S>, before: seq<Submission>, s: Submission,
                                       after: seq<Submission>)
    requires !CarriedOut(Run(store, ports, before), ports, s.envelope)
    ensures Run(store, ports, before + [s] + after) == Run(store, ports, before + after)
  {
    hide CarriedOut, Dispatched;
    if after == [] {
      assert before + [s] + after == before + [s] && before + after == before;
      RunAfter(store, ports, before, s);
      ChangesIffCarriedOut(Run(store, ports, before), ports, s.envelope, s.now);
    } else {
      var init, last := after[..|after| - 1], after[|after| - 1];
      LeaveOut(store, ports, before, s, init);
      RunAfter(store, ports, before + [s] + init, last);
      RunAfter(store, ports, before + init, last);
      assert before + [s] + after == before + [s] + init + [last] && before + after == before + init + [last];
    }
  }

  // ---------------------------------------------------------- leaving out repeats

  /** The submission repeats an identity submitted before. */
  predicate Repeats(before: seq<Submission>, s: Submission) {
    Identity(s.envelope.name) in Identities(before)
  }

  /** The submissions without the repeats. */
  function Firsts(submissions: seq<Submission>): seq<Submission> {
    if submissions == [] then []
    else
      var init, last := submissions[..|submissions| - 1], submissions[|submissions| - 1];
      if Repeats(init, last) then Firsts(init) else Firsts(init) + [last]
  }

  /** No repeat finds that its command has been refused so far and is acceptable now. */
  predicate NoRepeatCarriedOut<S>(store: Store<S>, ports: Ports<S>, submissions: seq<Submission>) {
    submissions == [] ||
    var init, last := submissions[..|submissions| - 1], submissions[|submissions| - 1];
    NoRepeatCarriedOut(store, ports, init) &&
    (Repeats(init, last) ==> !CarriedOut(Run(store, ports, init), ports, last.envelope))
  }

  lemma {:induction false} RepeatsLeaveNoTrace<S>(store: Store<S>, ports: Ports<S>, submissions: seq<Submission>)
    requires NoRepeatCarriedOut(store, ports, submissions)
    ensures Run(store, ports, Firsts(submissions)) == Run(store, ports, submissions)
  {
    if submissions != [] {
      hide CarriedOut, Dispatched, Repeats;
      var init, last := submissions[..|submissions| - 1], submissions[|submissions| - 1];
      RepeatsLeaveNoTrace(store, ports, init);
      if Repeats(init, last) {
        ChangesIffCarriedOut(Run(store, ports, init), ports, last.envelope, last.now);
      } else {
        RunAfter(store, ports, Firsts(init), last);
      }
    }
  }

  lemma IdentitiesGrow(init: seq<Submission>, last: Submission)
    ensures Identities(init + [last]) == Identities(init) + [Identity(last.envelope.name)]
  {
    hide Identity;
  }

  /** A repeat that is carried out leaves an identity in the store that the first occurrences do not. */
  lemma {:induction false} MissingIdentity<S>(store: Store<S>, ports: Ports<S>, submissions: seq<Submission>)
    returns (i: Text)
    requires !NoRepeatCarriedOut(store, ports, submissions)
    ensures i in Identities(submissions)
    ensures i in Run(store, ports, submissions).idempotency
    ensures i !in Run(store, ports, Firsts(submissions)).idempotency
  {
    var init, last := submissions[..|submissions| - 1], submissions[|submissions| - 1];
    assert submissions == init + [last];
    IdentitiesGrow(init, last);
    var before, firsts := Run(store, ports, init), Run(store, ports, Firsts(init));
    StepIdentities(before, ports, last);
    StepIdentities(firsts, ports, last);
    RunAfter(store, ports, Firsts(init), last);
    if NoRepeatCarriedOut(store, ports, init) {
      RepeatsLeaveNoTrace(store, ports, init);
      i := Identity(last.envelope.name);
      hide Dispatched, Submit, Identity, Fingerprint, Identities, NoRepeatCarriedOut;
    } else {
      hide Dispatched, Submit, Identity, Fingerprint, Identities, CarriedOut, NoRepeatCarriedOut;
      i := MissingIdentity(store, ports, init);
    }
  }

  /**
   The final store is that of the sequence with repeats removed exactly when no repeat is carried out: when
   every identity is carried out at its first submission or never. A rejection is not remembered, so a repeat
   may find that what its command was refused for has passed.
   */
  lemma RepeatsCanBeLeftOutIff<S>(store: Store<S>, ports: Ports<S>, submissions: seq<Submission>)
    ensures Run(store, ports, Firsts(submissions)) == Run(store, ports, submissions) <==>
            NoRepeatCarriedOut(store, ports, submissions)
  {
    if NoRepeatCarriedOut(store, ports, submissions) {
      RepeatsLeaveNoTrace(store, ports, submissions);
    } else {
      var i := MissingIdentity(store, ports, submissions);
      hide Run, Firsts, NoRepeatCarriedOut;
    }
  }

  /** The engine's preparation: the game has to exist and be at the version the command expects. */
  function Guarded<S>(reduce: (Versioned<S>, Envelope) -> Prepared<S>): Ports<S> {
    Ports((e: Envelope) => None,
          (state: Option<Versioned<S>>, e: Envelope) =>
            if state.None? then Refused(GameNotFound, 0)
              else if e.expectedVersion != state.value.version then Refused(StaleVersion, state.value.version)
                else reduce(state.value, e))
  }

  /** The reduction accepts everything and does not change the body. */
  function Unchanged<S>(): (Versioned<S>, Envelope) -> Prepared<S> {
    (state: Versioned<S>, e: Envelope) => Ready(state.body, Outcome(false, [], None, [], []))
  }

  /**
   The case where it fails: a command that is sent one version early, followed by another that brings the game
   to that version, is refused as stale; its repeat is carried out.
   */
  lemma EarlyThenCarriedOut<S>(store: Store<S>, a: Submission, b: Submission)
    requires
      var game := a.envelope.name.game;
      b.envelope.name.game == game && game in store.states &&
      b.envelope.expectedVersion == VersionOf(store, game) && a.envelope.expectedVersion == VersionOf(store, game) + 1
    requires Identity(a.envelope.name) != Identity(b.envelope.name)
    requires Identity(a.envelope.name) !in store.idempotency && Identity(b.envelope.name) !in store.idempotency
    requires Ordinary(a.envelope.command) && Ordinary(b.envelope.command)
    ensures Firsts([a, b, a]) == [a, b] && !NoRepeatCarriedOut(store, Guarded(Unchanged()), [a, b, a])
    ensures Run(store, Guarded(Unchanged()), [a, b, a]) != Run(store, Guarded(Unchanged()), [a, b])
  {
    var ports: Ports<S> := Guarded(Unchanged());
    FingerprintsAgreeIff(a.envelope.command, b.envelope.command);
    hide Fingerprint, Identity, Ordinary;
    var two := Submit(store, ports, b);
    assert CarriedOut(store, ports, b.envelope) && !CarriedOut(store, ports, a.envelope);
    assert CarriedOut(two, ports, a.envelope);
    assert Submit(store, ports, a) == store;
    hide Submit, CarriedOut, Dispatched, Guarded, Unchanged;
    RunTwo(store, ports, a, b);
    RepeatOfFirst(a, b);
    assert [a, b, a][..2] == [a, b];
    RepeatsCanBeLeftOutIff(store, ports, [a, b, a]);
  }

  lemma RunTwo<S>(store: Store<S>, ports: Ports<S>, a: Submission, b: Submission)
    ensures Run(store, ports, [a, b]) == Submit(Submit(store, ports, a), ports, b)
  {
    hide Submit;
    RunAfter(store, ports, [], a);
    RunAfter(store, ports, [a], b);
    assert [] + [a] == [a] && [a] + [b] == [a, b];
  }

  lemma RepeatOfFirst(a: Submission, b: Submission)
    requires Identity(a.envelope.name) != Identity(b.envelope.name)
    ensures Firsts([a, b, a]) == [a, b] && Repeats([a, b], a)
  {
    hide Identity;
    assert [a, b, a][..2] == [a, b] && [a, b][..1] == [a] && [a][..0] == [];
    assert Identities([a, b])[0] == Identity(a.envelope.name);
    assert Identities([a]) == [Identity(a.envelope.name)];
    assert Firsts([]) == [];
    assert Firsts([a]) == [a] && Firsts([a, b]) == [a, b];
  }
}
