/** The random provider, the per-game writer and the durable operation as the server runs them. */
module ServerObjects {
  import opened Prelude
  import opened RandomBuffer
  import D = DurableOperation
  import W = WriterQueue

  class BufferedTransactionalRandomProvider {
    var values: seq<int>
    var cursor: nat

    function Contents(): Buffer
      reads this
    {
      Buffer(values, cursor)
    }

    constructor ()
      ensures Contents() == Buffer([], 0)
    {
      values, cursor := [], 0;
    }

    method Checkpoint() returns (checkpoint: nat)
      ensures checkpoint == cursor
    {
      checkpoint := cursor;
    }

    method Restore(checkpoint: int) returns (ok: bool)
      modifies this`cursor
      ensures ok == RandomBuffer.Restore(old(Contents()), checkpoint).Some?
      ensures Contents() == if ok then RandomBuffer.Restore(old(Contents()), checkpoint).value else old(Contents())
    {
      ok := Safe(checkpoint) && 0 <= checkpoint <= |values|;
      if ok {
        cursor := checkpoint;
      }
    }

    /** Only checks the checkpoint. */
    method Commit(checkpoint: int) returns (ok: bool)
      ensures ok == CommitAllowed(Contents(), checkpoint)
    {
      ok := Safe(checkpoint) && 0 <= checkpoint <= cursor;
    }

    method Integer(r: Range, entropy: int) returns (drawn: Drawn)
      modifies this
      ensures drawn == Draw(old(Contents()), r, entropy)
      ensures Contents() == if drawn.Value? then drawn.buffer else old(Contents())
    {
      if !Proper(r) {
        return Failed(InvalidRange);
      }
      if cursor < |values| {
        var existing := values[cursor];
        if !Within(existing, r) {
          return Failed(Mismatch);
        }
        cursor := cursor + 1;
        return Value(Contents(), existing);
      }
      values := values + [entropy];
      cursor := cursor + 1;
      return Value(Contents(), entropy);
    }
  }

  /** The engine's draws, up to the first that throws. */
  method Execute(random: BufferedTransactionalRandomProvider, engine: Engine, entropy: Entropy, n: nat)
    returns (drawn: seq<int>, error: Option<RandomError>)
    modifies random
    ensures Attempt(random.Contents(), drawn, error) == Try(old(random.Contents()), engine, entropy, n)
  {
    drawn, error := [], None;
    ghost var before := random.Contents();
    var i := 0;
    while i < n
      invariant 0 <= i <= n
      invariant Attempt(random.Contents(), drawn, error) == Try(before, engine, entropy, i) && error.None?
    {
      var answer := random.Integer(engine(drawn), entropy(engine(drawn), i));
      if answer.Failed? {
        error := Some(answer.error);
        StopsThere(before, engine, entropy, i + 1, n);
        return;
      }
      drawn := drawn + [answer.value];
      i := i + 1;
    }
  }

  lemma {:induction false} StopsThere(b: Buffer, engine: Engine, entropy: Entropy, m: nat, n: nat)
    requires m <= n && Try(b, engine, entropy, m).error.Some?
    ensures Try(b, engine, entropy, n) == Try(b, engine, entropy, m)
    decreases n
  {
    if m < n {
      StopsThere(b, engine, entropy, m, n - 1);
    }
  }

  /** Looks up, prepares, executes, persists; restores the provider unless this attempt committed. */
  method CoordinateDurableOperation<R>(random: BufferedTransactionalRandomProvider, p: D.Ports<R>, engine: Engine,
                                       n: nat)
    returns (reply: D.Reply<R>)
    requires Sound(random.Contents()) && Safe(random.cursor)
    modifies random
    ensures (random.Contents(), reply) == D.Coordinate(old(random.Contents()), p, engine, n)
  {
    match p.lookup {
      case Found(result) => return D.Returned(result);
      case KeyConflict => return D.Rejected(D.KeyReused);
      case LookupFailed => return D.Threw;
      case Missing =>
    }
    if p.preparation.NotReady? {
      return D.Returned(p.preparation.answer);
    }
    ghost var before := random.Contents();
    var checkpoint := random.Checkpoint();
    var durableCommitted := false;
    TryGrows(before, engine, p.entropy, n);
    hide Try;
    var drawn, error := Execute(random, engine, p.entropy, n);
    ghost var executed := random.Contents();
    if error.Some? {
      var refusal := p.caught(drawn);
      reply := if refusal.Some? then D.Returned(refusal.value) else D.Threw;
    } else {
      match p.finish(drawn) {
        case Refused(result) => reply := D.Returned(result);
        case Done(outcome, hasState) =>
          if !hasState {
            reply := D.Rejected(D.GameNotFound);
          } else {
            match p.persisted {
              case Committed =>
                durableCommitted := true;
                var ok := random.Commit(checkpoint);
                assert ok;
                reply := if p.published then D.Returned(outcome) else D.Threw;
              case Replayed(original) => reply := D.Returned(original);
              case VersionConflict => reply := D.Rejected(D.StaleVersion);
              case CrossGame => reply := D.Rejected(D.NotAuthorized);
              case PersistFailed => reply := D.Threw;
            }
          }
      }
    }
    if !durableCommitted {
      var ok := random.Restore(checkpoint);
      assert ok;
    }
  }

  /** The writer's bookkeeping around one operation: entering, going on once the predecessor is released, leaving. */
  class GameWriter {
    var tails: map<W.GameId, W.Ticket>
    var operations: seq<W.Operation>
    var started: seq<W.Ticket>

    function Contents(): W.Queue
      reads this
    {
      W.Queue(tails, operations, started)
    }

    constructor ()
      ensures Contents() == W.Empty
    {
      tails, operations, started := map[], [], [];
    }

    method Enter(game: W.GameId) returns (current: W.Ticket, previous: Option<W.Ticket>)
      modifies this
      ensures Contents() == W.Apply(old(Contents()), W.Arrive(game))
      ensures current == |old(operations)| && previous == if game in old(tails) then Some(old(tails)[game]) else None
    {
      previous := if game in tails then Some(tails[game]) else None;
      current := |operations|;
      operations := operations + [W.Operation(game, previous, W.Waiting)];
      tails := tails[game := current];
    }

    method GoOn(current: W.Ticket)
      requires W.MayBegin(Contents(), current)
      modifies this
      ensures Contents() == W.Apply(old(Contents()), W.Begin(current))
    {
      operations := operations[current := operations[current].(phase := W.Running)];
      started := started + [current];
    }

    method Release(current: W.Ticket)
      requires current < |operations| && operations[current].phase == W.Running
      modifies this
      ensures Contents() == W.Apply(old(Contents()), W.Finish(current))
    {
      var game := operations[current].game;
      operations := operations[current := operations[current].(phase := W.Finished)];
      if game in tails && tails[game] == current {
        tails := tails - {game};
      }
    }
  }
}
