/**
 The per-game writer: each arriving operation waits for the one before it, whose promise it found as the game's
 tail, and leaves its own promise there; the entry is removed by whoever finishes and still finds its own.
 */
module WriterQueue {
  import opened Prelude

  type GameId = nat
  /** A promise, by the order in which promises are made. */
  type Ticket = nat

  datatype Phase = Waiting | Running | Finished
  datatype Operation = Operation(game: GameId, previous: Option<Ticket>, phase: Phase)

  /** `started` lists the operations in the order in which they began. */
  datatype Queue = Queue(tails: map<GameId, Ticket>, operations: seq<Operation>, started: seq<Ticket>)

  datatype Step = Arrive(game: GameId) | Begin(ticket: Ticket) | Finish(ticket: Ticket)

  /** Its predecessor, if it found one, has released it. */
  predicate MayBegin(q: Queue, t: Ticket) {
    t < |q.operations| && q.operations[t].phase == Waiting &&
    (q.operations[t].previous.Some? ==>
      q.operations[t].previous.value < |q.operations| && q.operations[q.operations[t].previous.value].phase == Finished)
  }

  function SetPhase(q: Queue, t: Ticket, phase: Phase): seq<Operation>
    requires t < |q.operations|
  {
    q.operations[t := q.operations[t].(phase := phase)]
  }

  /** A step that is not enabled changes nothing. An operation that throws finishes like any other. */
  function Apply(q: Queue, step: Step): Queue {
    match step
    case Arrive(game) =>
      var previous := if game in q.tails then Some(q.tails[game]) else None;
      q.(tails := q.tails[game := |q.operations|], operations := q.operations + [Operation(game, previous, Waiting)])
    case Begin(t) =>
      if MayBegin(q, t) then q.(operations := SetPhase(q, t, Running), started := q.started + [t]) else q
    case Finish(t) =>
      if t < |q.operations| && q.operations[t].phase == Running then
        var game := q.operations[t].game;
        q.(operations := SetPhase(q, t, Finished),
           tails := if game in q.tails && q.tails[game] == t then q.tails - {game} else q.tails)
      else q
  }

  function Run(q: Queue, steps: seq<Step>): Queue {
    if steps == [] then q else Apply(Run(q, steps[..|steps| - 1]), steps[|steps| - 1])
  }

  const Empty := Queue(map[], [], [])

  // -------------------------------------------------------------- invariant

  ghost predicate Of(q: Queue, t: Ticket, game: GameId) {
    t < |q.operations| && q.operations[t].game == game
  }

  /** What has begun, began when everything of its game before it had finished. */
  ghost predicate BegunInTurn(q: Queue) {
    forall t: Ticket :: t < |q.operations| && q.operations[t].phase != Waiting ==> EarlierFinished(q, t)
  }

  /** What has not finished is chained to the operation before it, and its game has an entry. */
  ghost predicate Chained(q: Queue) {
    forall t: Ticket :: t < |q.operations| && q.operations[t].phase != Finished ==>
      q.operations[t].game in q.tails && Linked(q, t)
  }

  ghost predicate TailsAreLast(q: Queue) {
    forall game :: game in q.tails ==> LastOf(q, game, q.tails[game]) && q.operations[q.tails[game]].phase != Finished
  }

  ghost predicate Inv(q: Queue) {
    BegunInTurn(q) && Chained(q) && TailsAreLast(q)
  }

  /** Every operation of the game that arrived before has finished. */
  ghost predicate EarlierFinished(q: Queue, t: Ticket)
    requires t < |q.operations|
  {
    forall u: Ticket :: u < t && q.operations[u].game == q.operations[t].game ==> q.operations[u].phase == Finished
  }

  /** It waits for the latest earlier operation of its game, or all earlier ones have finished. */
  ghost predicate Linked(q: Queue, t: Ticket)
    requires t < |q.operations|
  {
    match q.operations[t].previous
    case None => EarlierFinished(q, t)
    case Some(p) =>
      p < t && q.operations[p].game == q.operations[t].game &&
      forall u: Ticket :: p < u < t ==> q.operations[u].game != q.operations[t].game
  }

  ghost predicate LastOf(q: Queue, game: GameId, t: Ticket) {
    Of(q, t, game) && forall u: Ticket :: t < u < |q.operations| ==> q.operations[u].game != game
  }

  lemma ArriveKeeps(q: Queue, game: GameId)
    requires Inv(q)
    ensures Inv(Apply(q, Arrive(game)))
  {
    ArriveInTurn(q, game);
    ArriveChained(q, game);
    ArriveLast(q, game);
  }

  lemma ArriveInTurn(q: Queue, game: GameId)
    requires Inv(q)
    ensures BegunInTurn(Apply(q, Arrive(game)))
  {
    hide Chained, TailsAreLast;
    var after := Apply(q, Arrive(game));
    forall t: Ticket | t < |after.operations| && after.operations[t].phase != Waiting
      ensures EarlierFinished(after, t)
    {
      assert EarlierFinished(q, t);
    }
  }

  lemma ArriveChained(q: Queue, game: GameId)
    requires Inv(q)
    ensures Chained(Apply(q, Arrive(game)))
  {
    var after := Apply(q, Arrive(game));
    forall t: Ticket | t < |after.operations| && after.operations[t].phase != Finished
      ensures after.operations[t].game in after.tails && Linked(after, t)
    {
      if t < |q.operations| {
        assert Linked(q, t);
      } else if game in q.tails {
        assert LastOf(q, game, q.tails[game]);
      }
    }
  }

  lemma ArriveLast(q: Queue, game: GameId)
    requires Inv(q)
    ensures TailsAreLast(Apply(q, Arrive(game)))
  {
    hide Chained, BegunInTurn;
    var after := Apply(q, Arrive(game));
    forall g | g in after.tails
      ensures LastOf(after, g, after.tails[g]) && after.operations[after.tails[g]].phase != Finished
    {
      if g != game {
        assert LastOf(q, g, q.tails[g]);
      }
    }
  }

  lemma BeginKeeps(q: Queue, t: Ticket)
    requires Inv(q) && MayBegin(q, t)
    ensures Inv(Apply(q, Begin(t)))
  {
    AllEarlierFinished(q, t);
    BeginInTurn(q, t);
    BeginChained(q, t);
    BeginLast(q, t);
  }

  lemma BeginInTurn(q: Queue, t: Ticket)
    requires BegunInTurn(q) && MayBegin(q, t) && EarlierFinished(q, t)
    ensures BegunInTurn(Apply(q, Begin(t)))
  {
    var after := Apply(q, Begin(t));
    forall u: Ticket | u < |after.operations| && after.operations[u].phase != Waiting
      ensures EarlierFinished(after, u)
    {
      assert EarlierFinished(q, u);
    }
  }

  lemma BeginChained(q: Queue, t: Ticket)
    requires Chained(q) && MayBegin(q, t)
    ensures Chained(Apply(q, Begin(t)))
  {
    hide MayBegin;
    assert t < |q.operations| && q.operations[t].phase == Waiting by { MayBeginWaits(q, t); }
    var after := Apply(q, Begin(t));
    forall u: Ticket | u < |after.operations| && after.operations[u].phase != Finished
      ensures after.operations[u].game in after.tails && Linked(after, u)
    {
      assert Linked(q, u);
      assert after.operations[u].previous == q.operations[u].previous;
    }
  }

  lemma MayBeginWaits(q: Queue, t: Ticket)
    requires MayBegin(q, t)
    ensures t < |q.operations| && q.operations[t].phase == Waiting
  {
  }

  lemma BeginLast(q: Queue, t: Ticket)
    requires TailsAreLast(q) && MayBegin(q, t)
    ensures TailsAreLast(Apply(q, Begin(t)))
  {
    var after := Apply(q, Begin(t));
    forall g | g in after.tails
      ensures LastOf(after, g, after.tails[g]) && after.operations[after.tails[g]].phase != Finished
    {
      assert LastOf(q, g, q.tails[g]);
    }
  }

  /** An operation may begin exactly when everything of its game that arrived before has finished. */
  lemma AllEarlierFinished(q: Queue, t: Ticket)
    requires Inv(q) && t < |q.operations| && q.operations[t].phase == Waiting
    ensures MayBegin(q, t) <==> EarlierFinished(q, t)
  {
    assert Linked(q, t);
    match q.operations[t].previous
    case None =>
    case Some(p) =>
      if q.operations[p].phase == Finished {
        assert EarlierFinished(q, p);
      }
  }

  lemma FinishKeeps(q: Queue, t: Ticket)
    requires Inv(q) && t < |q.operations| && q.operations[t].phase == Running
    ensures Inv(Apply(q, Finish(t)))
  {
    FinishInTurn(q, t);
    FinishChained(q, t);
    FinishLast(q, t);
  }

  lemma FinishInTurn(q: Queue, t: Ticket)
    requires BegunInTurn(q) && t < |q.operations| && q.operations[t].phase == Running
    ensures BegunInTurn(Apply(q, Finish(t)))
  {
    var after := Apply(q, Finish(t));
    forall u: Ticket | u < |after.operations| && after.operations[u].phase != Waiting
      ensures EarlierFinished(after, u)
    {
      assert EarlierFinished(q, u);
    }
  }

  lemma FinishChained(q: Queue, t: Ticket)
    requires Inv(q) && t < |q.operations| && q.operations[t].phase == Running
    ensures Chained(Apply(q, Finish(t)))
  {
    var after := Apply(q, Finish(t));
    var game := q.operations[t].game;
    assert LastOf(q, game, q.tails[game]);
    assert EarlierFinished(q, t);
    forall u: Ticket | u < |after.operations| && after.operations[u].phase != Finished
      ensures after.operations[u].game in after.tails && Linked(after, u)
    {
      assert Linked(q, u);
      assert after.operations[u].previous == q.operations[u].previous;
    }
  }

  lemma FinishLast(q: Queue, t: Ticket)
    requires TailsAreLast(q) && t < |q.operations| && q.operations[t].phase == Running
    ensures TailsAreLast(Apply(q, Finish(t)))
  {
    var after := Apply(q, Finish(t));
    forall g | g in after.tails
      ensures LastOf(after, g, after.tails[g]) && after.operations[after.tails[g]].phase != Finished
    {
      assert LastOf(q, g, q.tails[g]);
    }
  }

  lemma {:induction false} RunKeeps(steps: seq<Step>)
    ensures Inv(Run(Empty, steps))
  {
    if steps != [] {
      RunKeeps(steps[..|steps| - 1]);
      var q := Run(Empty, steps[..|steps| - 1]);
      hide Inv, MayBegin;
      match steps[|steps| - 1]
      case Arrive(game) => ArriveKeeps(q, game);
      case Begin(t) => if MayBegin(q, t) { BeginKeeps(q, t); }
      case Finish(t) => if t < |q.operations| && q.operations[t].phase == Running { FinishKeeps(q, t); }
    }
  }

  // --------------------------------------------------------------- theorems

  /**
   Whatever arrives and however long operations take: at most one operation of a game runs, and only when all
   that arrived before it have finished; the game has a queue entry exactly while one of its operations has not
   finished, and the entry is the latest of them.
   */
  lemma OneWriterPerGame(steps: seq<Step>, game: GameId)
    ensures
      var q := Run(Empty, steps);
      (forall t: Ticket, u: Ticket :: Of(q, t, game) && Of(q, u, game) ==>
        (q.operations[t].phase == Running && q.operations[u].phase == Running ==> t == u)) &&
      (forall t: Ticket, u: Ticket :: Of(q, t, game) && Of(q, u, game) && u < t && q.operations[t].phase != Waiting ==>
       q.operations[u].phase == Finished) &&
      (game in q.tails <==> exists t: Ticket :: Of(q, t, game) && q.operations[t].phase != Finished) &&
      (game in q.tails ==> LastOf(q, game, q.tails[game]))
  {
    RunKeeps(steps);
    var q := Run(Empty, steps);
    forall t: Ticket, u: Ticket | Of(q, t, game) && Of(q, u, game) && u < t && q.operations[t].phase != Waiting
      ensures q.operations[u].phase == Finished
    {
      assert EarlierFinished(q, t);
    }
    if game in q.tails {
      assert LastOf(q, game, q.tails[game]);
      assert Of(q, q.tails[game], game);
    }
  }

  /** No game is stuck: while one of its operations has not finished, one runs or the earliest of them may begin. */
  lemma NeverStuck(steps: seq<Step>, game: GameId)
    requires game in Run(Empty, steps).tails
    ensures
      var q := Run(Empty, steps);
      exists t: Ticket :: Of(q, t, game) && (q.operations[t].phase == Running || MayBegin(q, t))
  {
    RunKeeps(steps);
    var q := Run(Empty, steps);
    assert LastOf(q, game, q.tails[game]);
    var t := FirstUnfinished(q, game, q.tails[game]);
    if q.operations[t].phase == Waiting {
      AllEarlierFinished(q, t);
    }
  }

  lemma {:induction false} FirstUnfinished(q: Queue, game: GameId, t: Ticket) returns (first: Ticket)
    requires Of(q, t, game) && q.operations[t].phase != Finished
    ensures Of(q, first, game) && q.operations[first].phase != Finished && EarlierFinished(q, first)
  {
    if EarlierFinished(q, t) {
      first := t;
    } else {
      var u: Ticket :| u < t && q.operations[u].game == game && q.operations[u].phase != Finished;
      first := FirstUnfinished(q, game, u);
    }
  }

  /** The operations of a game begin in the order in which they arrived, each once. */
  lemma {:induction false} BeginInArrivalOrder(steps: seq<Step>, i: nat, j: nat)
    requires
      var q := Run(Empty, steps);
      i < j < |q.started| && q.started[i] < |q.operations| && q.started[j] < |q.operations| &&
      q.operations[q.started[i]].game == q.operations[q.started[j]].game
    ensures Run(Empty, steps).started[i] < Run(Empty, steps).started[j]
  {
    StartedWereStarted(steps);
    var before, step := Run(Empty, steps[..|steps| - 1]), steps[|steps| - 1];
    StartedWereStarted(steps[..|steps| - 1]);
    RunKeeps(steps[..|steps| - 1]);
    if j < |before.started| {
      assert Begun(before, before.started[i]) && Begun(before, before.started[j]);
      GamesStay(before, step, before.started[i]);
      GamesStay(before, step, before.started[j]);
      BeginInArrivalOrder(steps[..|steps| - 1], i, j);
    } else {
      assert step.Begin? && MayBegin(before, step.ticket);
      AllEarlierFinished(before, step.ticket);
      var s := before.started[i];
      assert Begun(before, s);
      assert EarlierFinished(before, s);
    }
  }

  lemma GamesStay(q: Queue, step: Step, t: Ticket)
    requires t < |q.operations|
    ensures t < |Apply(q, step).operations| && Apply(q, step).operations[t].game == q.operations[t].game
  {
  }

  lemma {:induction false} StartedWereStarted(steps: seq<Step>)
    ensures AllBegun(Run(Empty, steps))
  {
    if steps != [] {
      var q := Run(Empty, steps[..|steps| - 1]);
      StartedWereStarted(steps[..|steps| - 1]);
      var after := Apply(q, steps[|steps| - 1]);
      forall i | 0 <= i < |after.started|
        ensures Begun(after, after.started[i])
      {
        assert i < |q.started| ==> Begun(q, q.started[i]);
      }
    }
  }

  predicate Begun(q: Queue, t: Ticket) {
    t < |q.operations| && q.operations[t].phase != Waiting
  }

  predicate AllBegun(q: Queue) {
    forall i :: 0 <= i < |q.started| ==> Begun(q, q.started[i])
  }
}
