/**
 A durable operation: look the key up, prepare, execute with random draws, persist, and only then keep what was
 drawn. The database, the engine and the publication are ports that answer in any way they like.
 */
module DurableOperation {
  import opened Prelude
  import opened RandomBuffer

  datatype Code = KeyReused | GameNotFound | StaleVersion | NotAuthorized

  datatype Lookup<R> = Found(result: R) | KeyConflict | Missing | LookupFailed
  datatype Preparation<R> = NotReady(answer: R) | Ready
  datatype Executed<R> = Refused(refusal: R) | Done(outcome: R, hasState: bool)
  datatype Persisted<R> = Committed | Replayed(original: R) | VersionConflict | CrossGame | PersistFailed

  /**
   How the ports answer during one attempt; `finish` is the engine's outcome for what it drew. When the provider
   throws, the engine has `caught` it, if it does, and refuses the command.
   */
  datatype Ports<!R> = Ports(lookup: Lookup<R>, preparation: Preparation<R>, entropy: Entropy,
                             finish: seq<int> -> Executed<R>, caught: seq<int> -> Option<R>,
                             persisted: Persisted<R>, published: bool)

  datatype Reply<R> = Returned(result: R) | Rejected(code: Code) | Threw

  /** The provider afterwards and the reply. The engine makes n draws unless the provider throws first. */
  function Coordinate<R>(b: Buffer, p: Ports<R>, engine: Engine, n: nat): (Buffer, Reply<R>)
    requires Sound(b) && Safe(b.cursor)
  {
    match p.lookup
    case Found(result) => (b, Returned(result))
    case KeyConflict => (b, Rejected(KeyReused))
    case LookupFailed => (b, Threw)
    case Missing =>
      if p.preparation.NotReady? then (b, Returned(p.preparation.answer))
      else
        var t := Try(b, engine, p.entropy, n);
        var rewound := Rewound(t.buffer, b.cursor);
        if t.error.Some? then (rewound, AfterError(p, t.drawn))
        else
          match p.finish(t.drawn)
          case Refused(result) => (rewound, Returned(result))
          case Done(outcome, hasState) =>
            if !hasState then (rewound, Rejected(GameNotFound))
            else
              match p.persisted
              case Committed => (t.buffer, if p.published then Returned(outcome) else Threw)
              case Replayed(original) => (rewound, Returned(original))
              case VersionConflict => (rewound, Rejected(StaleVersion))
              case CrossGame => (rewound, Rejected(NotAuthorized))
              case PersistFailed => (rewound, Threw)
  }

  function AfterError<R>(p: Ports<R>, drawn: seq<int>): Reply<R> {
    var refusal := p.caught(drawn);
    if refusal.Some? then Returned(refusal.value) else Threw
  }

  /** The checkpoint taken before drawing is always a valid one afterwards. */
  function Rewound(b: Buffer, checkpoint: nat): Buffer {
    var restored := Restore(b, checkpoint);
    if restored.Some? then restored.value else b
  }

  predicate Executes<R>(p: Ports<R>) {
    p.lookup.Missing? && p.preparation.Ready?
  }

  /** A new durable commit: the operation was executed, accepted with a state, and persisted for the first time. */
  predicate Fresh<R>(b: Buffer, p: Ports<R>, engine: Engine, n: nat) {
    var t := Try(b, engine, p.entropy, n);
    Executes(p) && t.error.None? && p.finish(t.drawn).Done? && p.finish(t.drawn).hasState && p.persisted.Committed?
  }

  /**
   The provider's cursor moves exactly when the attempt made a new durable commit, by the number of draws; in
   every other case, whatever failed and wherever, it is where it was. What has been drawn is kept in either case.
   */
  lemma CursorMovesIffCommitted<R>(b: Buffer, p: Ports<R>, engine: Engine, n: nat)
    requires Sound(b) && Safe(b.cursor)
    ensures
      var after := Coordinate(b, p, engine, n).0;
      Sound(after) && b.values <= after.values &&
      after.cursor == (if Fresh(b, p, engine, n) then b.cursor + n else b.cursor) &&
      (Executes(p) ==> after.values == Try(b, engine, p.entropy, n).buffer.values) && (!Executes(p) ==> after == b)
    ensures Fresh(b, p, engine, n) ==> CommitAllowed(Try(b, engine, p.entropy, n).buffer, b.cursor)
  {
    TryGrows(b, engine, p.entropy, n);
    RewindsTo(Try(b, engine, p.entropy, n).buffer, b.cursor);
    hide Try, Rewound;
  }

  lemma RewindsTo(b: Buffer, checkpoint: nat)
    requires Sound(b) && checkpoint <= b.cursor && Safe(checkpoint)
    ensures Rewound(b, checkpoint) == b.(cursor := checkpoint)
  {
  }

  /**
   What the caller is told, from the answers of the ports: a stored result again, a key in use as such, the
   engine's refusal as it is, a replay's original result, a version that moved on as stale, a reference to
   another game as not authorised, and the new outcome only once it is durable and published. Everything else
   is an error.
   */
  lemma RepliesFollowThePorts<R>(b: Buffer, p: Ports<R>, engine: Engine, n: nat)
    requires Sound(b) && Safe(b.cursor)
    ensures
      var reply, t := Coordinate(b, p, engine, n).1, Try(b, engine, p.entropy, n);
      var finished := p.finish(t.drawn);
      var persisting := Executes(p) && t.error.None? && finished.Done? && finished.hasState;
      (p.lookup.Found? ==> reply == Returned(p.lookup.result)) &&
      (reply == Rejected(KeyReused) <==> p.lookup.KeyConflict?) &&
      (p.lookup.Missing? && p.preparation.NotReady? ==> reply == Returned(p.preparation.answer)) &&
      (Executes(p) && t.error.Some? && p.caught(t.drawn).Some? ==> reply == Returned(p.caught(t.drawn).value)) &&
      (Executes(p) && t.error.None? && finished.Refused? ==> reply == Returned(finished.refusal)) &&
      (reply == Rejected(GameNotFound) <==> Executes(p) && t.error.None? && finished.Done? && !finished.hasState) &&
      (persisting && p.persisted.Replayed? ==> reply == Returned(p.persisted.original)) &&
      (reply == Rejected(StaleVersion) <==> persisting && p.persisted.VersionConflict?) &&
      (reply == Rejected(NotAuthorized) <==> persisting && p.persisted.CrossGame?) &&
      (Fresh(b, p, engine, n) ==> reply == if p.published then Returned(finished.outcome) else Threw) &&
      (reply.Threw? <==>
        p.lookup.LookupFailed? || (Executes(p) && t.error.Some? && p.caught(t.drawn).None?) ||
        (persisting && (p.persisted.PersistFailed? || (p.persisted.Committed? && !p.published))))
  {
    hide Try, Rewound;
  }

  /** Attempts one after the other, all of one engine. */
  function Attempts<R>(b: Buffer, ports: seq<Ports<R>>, engine: Engine, n: nat): (after: Buffer)
    requires Sound(b) && Safe(b.cursor)
    ensures Sound(after) && (Safe(after.cursor) || |ports| > 0)
  {
    if ports == [] then b
    else
      var before := Attempts(b, ports[..|ports| - 1], engine, n);
      if !Safe(before.cursor) then before
      else
        CursorMovesIffCommitted(before, ports[|ports| - 1], engine, n);
        Coordinate(before, ports[|ports| - 1], engine, n).0
  }

  /** None of the attempts made a new commit. */
  ghost predicate NoneFresh<R>(b: Buffer, ports: seq<Ports<R>>, engine: Engine, n: nat)
    requires Sound(b) && Safe(b.cursor)
  {
    ports != [] ==>
      NoneFresh(b, ports[..|ports| - 1], engine, n) &&
        !Fresh(Attempts(b, ports[..|ports| - 1], engine, n), ports[|ports| - 1], engine, n)
  }

  /** Attempts that do not commit leave the cursor alone and only add to what is buffered. */
  lemma {:induction false} FailuresRewind<R>(b: Buffer, ports: seq<Ports<R>>, engine: Engine, n: nat)
    requires Sound(b) && Safe(b.cursor) && NoneFresh(b, ports, engine, n)
    ensures
      var after := Attempts(b, ports, engine, n);
      after.cursor == b.cursor && b.values <= after.values
  {
    if ports != [] {
      var init, last := ports[..|ports| - 1], ports[|ports| - 1];
      FailuresRewind(b, init, engine, n);
      hide Coordinate, Fresh, NoneFresh;
      CursorMovesIffCommitted(Attempts(b, init, engine, n), last, engine, n);
      assert !Fresh(Attempts(b, init, engine, n), last, engine, n) by { LastIsNotFresh(b, ports, engine, n); }
    }
  }

  lemma LastIsNotFresh<R>(b: Buffer, ports: seq<Ports<R>>, engine: Engine, n: nat)
    requires Sound(b) && Safe(b.cursor) && NoneFresh(b, ports, engine, n) && ports != []
    ensures !Fresh(Attempts(b, ports[..|ports| - 1], engine, n), ports[|ports| - 1], engine, n)
  {
  }

  /**
   A retried operation draws identical values: once an attempt has executed to its end without committing, every
   later attempt of the same engine draws what it drew, through any number of further failures, whatever the
   operating system would answer.
   */
  lemma RetriesDrawTheSame<R>(b: Buffer, first: Ports<R>, between: seq<Ports<R>>, engine: Engine, later: Entropy,
                              n: nat)
    requires Sound(b) && Safe(b.cursor) && Executes(first) && Honest(first.entropy)
    requires Try(b, engine, first.entropy, n).error.None? && !Fresh(b, first, engine, n)
    requires
      Sound(Coordinate(b, first, engine, n).0) && Safe(Coordinate(b, first, engine, n).0.cursor) &&
      NoneFresh(Coordinate(b, first, engine, n).0, between, engine, n)
    ensures
      var after := Attempts(Coordinate(b, first, engine, n).0, between, engine, n);
      Try(after, engine, later, n).error.None? &&
      Try(after, engine, later, n).drawn == Try(b, engine, first.entropy, n).drawn
  {
    hide Coordinate, Fresh, NoneFresh, Attempts, Try;
    var start := Coordinate(b, first, engine, n).0;
    CursorMovesIffCommitted(b, first, engine, n);
    FailuresRewind(start, between, engine, n);
    var after := Attempts(start, between, engine, n);
    var t := Try(b, engine, first.entropy, n);
    TryGrows(b, engine, first.entropy, n);
    assert start.values == t.buffer.values && start.cursor == b.cursor;
    forall k: nat | k < n
      ensures AnswersAt(after, engine, k)
    {
      DrawnAnswers(b, engine, first.entropy, n, k);
      SamePlaces(t.buffer.values, after.values, b.cursor, b.cursor + k);
    }
    ReplaySucceedsIff(after, engine, later, n);
    SamePlaces(t.buffer.values, after.values, b.cursor, b.cursor + n);
  }
}
