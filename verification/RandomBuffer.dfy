/**
 The buffered random provider: what it has once drawn it draws again after its cursor has been put back. An
 attempt is a deterministic engine that asks for the next range from what it has drawn so far.
 */
module RandomBuffer {
  import opened Prelude

  const SAFE := 9007199254740991

  datatype Buffer = Buffer(values: seq<int>, cursor: nat)
  datatype Range = Range(min: int, max: int)
  datatype RandomError = InvalidRange | Mismatch | InvalidCheckpoint

  predicate Safe(n: int) {
    -SAFE <= n <= SAFE
  }

  predicate Proper(r: Range) {
    Safe(r.min) && Safe(r.max) && r.min <= r.max
  }

  predicate Within(v: int, r: Range) {
    r.min <= v <= r.max
  }

  datatype Drawn = Failed(error: RandomError) | Value(buffer: Buffer, value: int)

  /** `entropy` is what the operating system answers for this range. */
  function Draw(b: Buffer, r: Range, entropy: int): Drawn {
    if !Proper(r) then Failed(InvalidRange)
    else if b.cursor < |b.values| then
      if !Within(b.values[b.cursor], r) then Failed(Mismatch)
      else Value(b.(cursor := b.cursor + 1), b.values[b.cursor])
    else Value(Buffer(b.values + [entropy], b.cursor + 1), entropy)
  }

  function Restore(b: Buffer, checkpoint: int): Option<Buffer> {
    if 0 <= checkpoint <= |b.values| && Safe(checkpoint) then Some(b.(cursor := checkpoint)) else None
  }

  predicate CommitAllowed(b: Buffer, checkpoint: int) {
    0 <= checkpoint <= b.cursor && Safe(checkpoint)
  }

  // ---------------------------------------------------------------- attempts

  type Engine = seq<int> -> Range
  type Entropy = (Range, nat) -> int

  datatype Attempt = Attempt(buffer: Buffer, drawn: seq<int>, error: Option<RandomError>)

  /** The engine's first n draws, or fewer if one throws. */
  function Try(b: Buffer, engine: Engine, entropy: Entropy, n: nat): Attempt {
    if n == 0 then Attempt(b, [], None)
    else
      var before := Try(b, engine, entropy, n - 1);
      if before.error.Some? then before
      else
        match Draw(before.buffer, engine(before.drawn), entropy(engine(before.drawn), n - 1))
        case Failed(error) => before.(error := Some(error))
        case Value(buffer, value) => Attempt(buffer, before.drawn + [value], None)
  }

  ghost predicate Sound(b: Buffer) {
    b.cursor <= |b.values|
  }

  /** Drawing only ever adds to what is buffered, and moves the cursor by one for each value drawn. */
  lemma {:induction false} TryGrows(b: Buffer, engine: Engine, entropy: Entropy, n: nat)
    requires Sound(b)
    ensures
      var t := Try(b, engine, entropy, n);
      Sound(t.buffer) && b.values <= t.buffer.values && t.buffer.cursor == b.cursor + |t.drawn| &&
      t.drawn == t.buffer.values[b.cursor..t.buffer.cursor] && (t.error.None? ==> |t.drawn| == n) && |t.drawn| <= n &&
      (t.buffer.values == b.values || t.buffer.cursor == |t.buffer.values|)
  {
    if n > 0 {
      TryGrows(b, engine, entropy, n - 1);
      var before, after := Try(b, engine, entropy, n - 1), Try(b, engine, entropy, n);
      if before.error.None? && after.error.None? {
        assert after.buffer.values[b.cursor..after.buffer.cursor] == before.drawn + [after.drawn[n - 1]];
      }
    }
  }

  /** The range the engine asks for after k of the buffered values. */
  function Asked(b: Buffer, engine: Engine, k: nat): Range
    requires b.cursor + k <= |b.values|
  {
    engine(b.values[b.cursor..b.cursor + k])
  }

  /** The k-th buffered value from the cursor on lies in the range the engine asks for there. */
  predicate AnswersAt(b: Buffer, engine: Engine, k: nat) {
    b.cursor + k < |b.values| && Proper(Asked(b, engine, k)) && Within(b.values[b.cursor + k], Asked(b, engine, k))
  }

  ghost predicate Answers(b: Buffer, engine: Engine, n: nat) {
    forall k: nat :: k < n ==> AnswersAt(b, engine, k)
  }

  /** Entropy answers within the range asked for. */
  ghost predicate Honest(entropy: Entropy) {
    forall r, i :: Proper(r) ==> Within(entropy(r, i), r)
  }

  lemma OneMore(b: Buffer, k: nat)
    requires b.cursor + k < |b.values|
    ensures b.values[b.cursor..b.cursor + (k + 1)] == b.values[b.cursor..b.cursor + k] + [b.values[b.cursor + k]]
  {
  }

  /** A longer buffer holds the same values at the same places. */
  lemma SamePlaces(values: seq<int>, more: seq<int>, from: nat, to: nat)
    requires values <= more && from <= to <= |values|
    ensures more[from..to] == values[from..to]
  {
  }

  lemma AnswersOneMore(b: Buffer, engine: Engine, n: nat)
    requires n > 0
    ensures Answers(b, engine, n) <==> Answers(b, engine, n - 1) && AnswersAt(b, engine, n - 1)
  {
    hide AnswersAt;
  }

  lemma ReplayedDraw(b: Buffer, r: Range, entropy: int)
    requires b.cursor < |b.values|
    ensures Draw(b, r, entropy).Value? <==> Proper(r) && Within(b.values[b.cursor], r)
    ensures Draw(b, r, entropy).Value? ==>
              Draw(b, r, entropy) == Value(b.(cursor := b.cursor + 1), b.values[b.cursor])
  {
  }

  lemma ErrorStays(b: Buffer, engine: Engine, entropy: Entropy, n: nat)
    requires n > 0 && Try(b, engine, entropy, n - 1).error.Some?
    ensures Try(b, engine, entropy, n).error.Some?
  {
  }

  lemma ReplayStep(b: Buffer, engine: Engine, entropy: Entropy, n: nat)
    requires 0 < n <= |b.values| - b.cursor
    requires Try(b, engine, entropy, n - 1) ==
             Attempt(b.(cursor := b.cursor + (n - 1)), b.values[b.cursor..b.cursor + (n - 1)], None)
    ensures if AnswersAt(b, engine, n - 1)
            then Try(b, engine, entropy, n) == Attempt(b.(cursor := b.cursor + n), b.values[b.cursor..b.cursor + n],
                                                       None)
            else Try(b, engine, entropy, n).error.Some?
  {
    var asked := Asked(b, engine, n - 1);
    OneMore(b, n - 1);
    ReplayedDraw(b.(cursor := b.cursor + (n - 1)), asked, entropy(asked, n - 1));
    hide Draw, Proper, Within;
  }

  /**
   Replaying what is buffered succeeds exactly when each buffered value lies in the range asked for at its
   place, whatever the entropy; and then it draws exactly the buffered values.
   */
  lemma {:induction false} ReplaySucceedsIff(b: Buffer, engine: Engine, entropy: Entropy, n: nat)
    requires Sound(b) && n <= |b.values| - b.cursor
    ensures Try(b, engine, entropy, n).error.None? <==> Answers(b, engine, n)
    ensures Answers(b, engine, n) ==>
              Try(b, engine, entropy, n) == Attempt(b.(cursor := b.cursor + n), b.values[b.cursor..b.cursor + n], None)
  {
    if n > 0 {
      hide Answers, AnswersAt, Try;
      ReplaySucceedsIff(b, engine, entropy, n - 1);
      AnswersOneMore(b, engine, n);
      if Try(b, engine, entropy, n - 1).error.None? {
        ReplayStep(b, engine, entropy, n);
      } else {
        ErrorStays(b, engine, entropy, n);
      }
    } else {
      assert Answers(b, engine, 0);
    }
  }

  lemma AnswersAtGrows(b: Buffer, more: Buffer, engine: Engine, k: nat)
    requires AnswersAt(b, engine, k) && b.values <= more.values && more.cursor == b.cursor
    ensures AnswersAt(more, engine, k)
  {
    SamePlaces(b.values, more.values, b.cursor, b.cursor + k);
  }

  /** The last draw of an attempt that succeeds. */
  lemma LastDraw(b: Buffer, engine: Engine, entropy: Entropy, n: nat)
    requires n > 0 && Sound(b) && Honest(entropy) && Try(b, engine, entropy, n).error.None?
    ensures Try(b, engine, entropy, n - 1).error.None?
    ensures Try(b, engine, entropy, n - 1).buffer.values <= Try(b, engine, entropy, n).buffer.values
    ensures AnswersAt(Try(b, engine, entropy, n).buffer.(cursor := b.cursor), engine, n - 1)
  {
    TryGrows(b, engine, entropy, n - 1);
    var before, after := Try(b, engine, entropy, n - 1), Try(b, engine, entropy, n);
    var asked := engine(before.drawn);
    DrawKeeps(before.buffer, asked, entropy(asked, n - 1));
    DrawIsWithin(before.buffer, asked, entropy(asked, n - 1));
    SamePlaces(before.buffer.values, after.buffer.values, b.cursor, b.cursor + (n - 1));
    hide Draw, Proper, Within;
  }

  /** What an attempt drew lies in the ranges its engine asked for. */
  lemma {:induction false} DrawnAnswers(b: Buffer, engine: Engine, entropy: Entropy, n: nat, k: nat)
    requires Sound(b) && Honest(entropy) && Try(b, engine, entropy, n).error.None? && k < n
    ensures AnswersAt(Try(b, engine, entropy, n).buffer.(cursor := b.cursor), engine, k)
  {
    hide Try, AnswersAt;
    LastDraw(b, engine, entropy, n);
    if k < n - 1 {
      DrawnAnswers(b, engine, entropy, n - 1, k);
      AnswersAtGrows(Try(b, engine, entropy, n - 1).buffer.(cursor := b.cursor),
                     Try(b, engine, entropy, n).buffer.(cursor := b.cursor), engine, k);
    }
  }

  lemma DrawKeeps(b: Buffer, r: Range, entropy: int)
    requires Sound(b)
    ensures Draw(b, r, entropy).Value? ==>
              b.values <= Draw(b, r, entropy).buffer.values && b.cursor < |Draw(b, r, entropy).buffer.values|
  {
  }

  lemma DrawIsWithin(b: Buffer, r: Range, entropy: int)
    requires Sound(b) && Draw(b, r, entropy).Value? && (Proper(r) ==> Within(entropy, r))
    ensures Proper(r) && Within(Draw(b, r, entropy).value, r)
    ensures Draw(b, r, entropy).buffer.values[b.cursor] == Draw(b, r, entropy).value
  {
  }

  /**
   After a restore, the same engine draws the same values again, whatever the operating system would have
   answered the second time, and moves the same cursor over the same buffer.
   */
  lemma RetryDrawsTheSame(b: Buffer, engine: Engine, first: Entropy, second: Entropy, n: nat, m: nat)
    requires Sound(b) && Safe(b.cursor) && Honest(first) && Try(b, engine, first, n).error.None? && m <= n
    ensures Restore(Try(b, engine, first, n).buffer, b.cursor).Some?
    ensures
      var t := Try(b, engine, first, n);
      var again := Try(Restore(t.buffer, b.cursor).value, engine, second, m);
      again.error.None? && again.drawn <= t.drawn && |again.drawn| == m &&
        again.buffer == t.buffer.(cursor := b.cursor + m)
  {
    var t := Try(b, engine, first, n);
    TryGrows(b, engine, first, n);
    var rewound := t.buffer.(cursor := b.cursor);
    forall k: nat | k < m
      ensures AnswersAt(rewound, engine, k)
    {
      DrawnAnswers(b, engine, first, n, k);
    }
    ReplaySucceedsIff(rewound, engine, second, m);
  }

  /** An engine that asks differently after a restore throws at the first buffered value outside its range. */
  lemma ChangedEngineMismatches(b: Buffer, engine: Engine, entropy: Entropy, n: nat)
    requires Sound(b) && n < |b.values| - b.cursor && Answers(b, engine, n) && Proper(Asked(b, engine, n))
    ensures Try(b, engine, entropy, n + 1).error == Some(Mismatch) <==>
            !Within(b.values[b.cursor + n], Asked(b, engine, n))
  {
    ReplaySucceedsIff(b, engine, entropy, n);
  }
}
