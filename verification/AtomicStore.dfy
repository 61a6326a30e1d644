/** The in-memory store and the dispatch that works on it step by step. */
module AtomicStore {
  import opened Prelude
  import opened JsonText
  import opened Fingerprints
  import opened Dispatch

  class InMemoryAtomicStateStore<S> {
    var states: map<Text, Versioned<S>>
    var idempotency: map<Text, Stored>
    var notices: seq<Notice<S>>

    function Contents(): Store<S>
      reads this
    {
      Store(states, idempotency, notices)
    }

    constructor (initial: map<Text, Versioned<S>>)
      ensures Contents() == Store(initial, map[], [])
    {
      states, idempotency, notices := initial, map[], [];
    }

    method CommitState(game: Text, expected: nat, next: Versioned<S>) returns (ok: bool)
      modifies this`states
      ensures ok == CanCommit(old(Contents()), game, expected)
      ensures Contents() == if ok then old(Contents()).(states := old(states)[game := next]) else old(Contents())
    {
      ok := if game in states then states[game].version == expected else expected == 0;
      if ok {
        states := states[game := next];
      }
    }

    method IdempotencySet(identity: Text, stored: Stored)
      modifies this`idempotency
      ensures Contents() == old(Contents()).(idempotency := old(idempotency)[identity := stored])
    {
      idempotency := idempotency[identity := stored];
    }

    method NotifyCommitted(before: Option<Versioned<S>>, after: Versioned<S>)
      modifies this`notices
      ensures Contents() == old(Contents()).(notices := old(notices) + [Notice(before, after)])
    {
      notices := notices + [Notice(before, after)];
    }

    /** Validate, look the identity up, prepare, commit, store the result, notify. */
    method DispatchAtomicCommand(ports: Ports<S>, e: Envelope, now: Time) returns (reply: Reply)
      modifies this
      ensures (Contents(), reply) == Dispatched(old(Contents()), ports, e, now)
    {
      hide Fingerprint, Identity;
      var before := Load(Contents(), e.name.game);
      var version := if before.Some? then before.value.version else 0;
      var refused := ports.validate(e);
      if refused.Some? {
        return Reject(e, version, refused.value, now);
      }
      var fingerprint := Fingerprint(e.command);
      if fingerprint.None? {
        return Threw;
      }
      var identity := Identity(e.name);
      if identity in idempotency {
        var previous := idempotency[identity];
        if previous.fingerprint == fingerprint.value {
          return Replied(previous.result);
        }
        return Reject(e, version, KeyReused, now);
      }
      match ports.prepare(before, e)
      case Refused(code, at) =>
        return Reject(e, at, code, now);
      case Ready(body, outcome) =>
        var next := Versioned(version + 1, body);
        var ok := CommitState(e.name.game, version, next);
        if !ok {
          return Reject(e, version, StaleVersion, now);
        }
        var result := Accept(e, version, outcome, now);
        IdempotencySet(identity, Stored(fingerprint.value, result));
        NotifyCommitted(before, next);
        return Replied(result);
    }
  }
}
