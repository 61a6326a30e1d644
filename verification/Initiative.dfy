/** Rolling for initiative: everybody rolls, the tied leaders roll again, until one player leads alone. */
module Initiative {
  import opened Prelude
  import opened Shuffle

  type PlayerId = nat

  datatype Roll = Roll(attempt: nat, player: PlayerId, raw: int, order: nat)
  datatype Contest = Contest(rolls: seq<Roll>, winner: PlayerId)

  // ------------------------------------------------------------- one round

  /** The next answers, one for each contender; None if the provider fails or leaves the range of a die. */
  function Values(answers: seq<int>, n: nat): (v: Option<seq<int>>)
    ensures v.Some? ==> |v.value| == n <= |answers| && v.value == answers[..n]
  {
    if n <= |answers| && forall i :: 0 <= i < n ==> 1 <= answers[i] <= 10 then Some(answers[..n]) else None
  }

  function Highest(values: seq<int>): (h: int)
    requires values != []
    ensures h in values && forall v :: v in values ==> v <= h
  {
    assert values == [values[0]] + values[1..];
    if |values| == 1 then values[0] else Max(values[0], Highest(values[1..]))
  }

  /** The contenders who rolled the value, in the same order. */
  function Having(contenders: seq<PlayerId>, values: seq<int>, value: int): (r: seq<PlayerId>)
    requires |contenders| == |values|
    ensures forall q :: q in r ==> q in contenders
    ensures |r| <= |contenders|
  {
    if contenders == [] then []
    else (if values[0] == value then [contenders[0]] else []) + Having(contenders[1..], values[1..], value)
  }

  function Leaders(contenders: seq<PlayerId>, values: seq<int>): seq<PlayerId>
    requires |contenders| == |values| > 0
  {
    Having(contenders, values, Highest(values))
  }

  lemma LeadersContend(contenders: seq<PlayerId>, values: seq<int>)
    requires |contenders| == |values| > 0
    ensures forall q :: q in Leaders(contenders, values) ==> q in contenders
  {
  }

  function Rolls(contenders: seq<PlayerId>, values: seq<int>, attempt: nat, order: nat): (r: seq<Roll>)
    requires |contenders| == |values|
    ensures |r| == |contenders|
    ensures forall i :: 0 <= i < |r| ==> r[i] == Roll(attempt, contenders[i], values[i], order + 1 + i)
  {
    seq(|contenders|, i requires 0 <= i < |contenders| => Roll(attempt, contenders[i], values[i], order + 1 + i))
  }

  // --------------------------------------------------------- the whole contest

  lemma LeadersExist(contenders: seq<PlayerId>, values: seq<int>)
    requires |contenders| == |values| > 0
    ensures Leaders(contenders, values) != []
  {
    var h := Highest(values);
    var i :| 0 <= i < |values| && values[i] == h;
    HavingHas(contenders, values, h, i);
  }

  lemma {:induction false} HavingHas(contenders: seq<PlayerId>, values: seq<int>, value: int, i: nat)
    requires |contenders| == |values| && i < |values| && values[i] == value
    ensures contenders[i] in Having(contenders, values, value)
  {
    if i > 0 {
      HavingHas(contenders[1..], values[1..], value, i - 1);
    }
  }

  function Resolve(contenders: seq<PlayerId>, answers: seq<int>, attempt: nat, order: nat): Option<Contest>
    requires contenders != []
    decreases |answers|
  {
    var values := Values(answers, |contenders|);
    if values.None? then None
    else
      var round := Rolls(contenders, values.value, attempt, order);
      var leaders := Leaders(contenders, values.value);
      if |leaders| == 1 then Some(Contest(round, leaders[0]))
      else
        LeadersExist(contenders, values.value);
        var rest := Resolve(leaders, answers[|contenders|..], attempt + 1, order + |contenders|);
        if rest.None? then None else Some(Contest(round + rest.value.rolls, rest.value.winner))
  }

  /** Dice are consumed without gaps: the n-th roll is the n-th value asked for, and it is the value recorded. */
  lemma {:induction false} ConsumptionOrder(contenders: seq<PlayerId>, answers: seq<int>, attempt: nat, order: nat)
    requires contenders != [] && Resolve(contenders, answers, attempt, order).Some?
    ensures var rolls := Resolve(contenders, answers, attempt, order).value.rolls;
            |rolls| <= |answers| && forall i :: 0 <= i < |rolls| ==>
              rolls[i].order == order + 1 + i && rolls[i].raw == answers[i]
    decreases |answers|
  {
    var values := Values(answers, |contenders|).value;
    var leaders := Leaders(contenders, values);
    if |leaders| != 1 {
      LeadersExist(contenders, values);
      ConsumptionOrder(leaders, answers[|contenders|..], attempt + 1, order + |contenders|);
    }
  }

  /** The rolls of one attempt. */
  function RoundOf(rolls: seq<Roll>, attempt: nat): seq<Roll> {
    if rolls == [] then []
    else (if rolls[0].attempt == attempt then [rolls[0]] else []) + RoundOf(rolls[1..], attempt)
  }

  function Players(rolls: seq<Roll>): (r: seq<PlayerId>)
    ensures |r| == |rolls| && forall i :: 0 <= i < |r| ==> r[i] == rolls[i].player
  {
    seq(|rolls|, i requires 0 <= i < |rolls| => rolls[i].player)
  }

  function Raws(rolls: seq<Roll>): (r: seq<int>)
    ensures |r| == |rolls| && forall i :: 0 <= i < |r| ==> r[i] == rolls[i].raw
  {
    seq(|rolls|, i requires 0 <= i < |rolls| => rolls[i].raw)
  }

  lemma {:induction false} RoundOfJoins(a: seq<Roll>, b: seq<Roll>, attempt: nat)
    ensures RoundOf(a + b, attempt) == RoundOf(a, attempt) + RoundOf(b, attempt)
  {
    if a == [] {
      assert a + b == b;
    } else {
      assert (a + b)[1..] == a[1..] + b && (a + b)[0] == a[0];
      RoundOfJoins(a[1..], b, attempt);
      JoinAssociates(if a[0].attempt == attempt then [a[0]] else [], RoundOf(a[1..], attempt), RoundOf(b, attempt));
    }
  }

  lemma {:induction false} RoundOfSame(rolls: seq<Roll>, attempt: nat, other: nat)
    requires forall i :: 0 <= i < |rolls| ==> rolls[i].attempt == other
    ensures RoundOf(rolls, attempt) == if attempt == other then rolls else []
  {
    if rolls != [] {
      RoundOfSame(rolls[1..], attempt, other);
    }
  }

  lemma {:induction false} NoEarlierRound(contenders: seq<PlayerId>, answers: seq<int>, attempt: nat, order: nat,
                                          earlier: nat)
    requires contenders != [] && Resolve(contenders, answers, attempt, order).Some? && earlier < attempt
    ensures RoundOf(Resolve(contenders, answers, attempt, order).value.rolls, earlier) == []
    decreases |answers|
  {
    var values := Values(answers, |contenders|).value;
    var round, leaders := Rolls(contenders, values, attempt, order), Leaders(contenders, values);
    RoundOfSame(round, earlier, attempt);
    if |leaders| != 1 {
      LeadersExist(contenders, values);
      NoEarlierRound(leaders, answers[|contenders|..], attempt + 1, order + |contenders|, earlier);
      RoundOfJoins(round, Resolve(leaders, answers[|contenders|..], attempt + 1, order + |contenders|).value.rolls,
                   earlier);
    }
  }

  /** What follows the first round: nothing if it was decisive, otherwise the contest of its leaders. */
  function Rest(contenders: seq<PlayerId>, answers: seq<int>, attempt: nat, order: nat): seq<Roll>
    requires contenders != [] && Resolve(contenders, answers, attempt, order).Some?
  {
    var leaders := Leaders(contenders, Values(answers, |contenders|).value);
    LeadersExist(contenders, Values(answers, |contenders|).value);
    if |leaders| == 1 then []
      else Resolve(leaders, answers[|contenders|..], attempt + 1, order + |contenders|).value.rolls
  }

  lemma RoundsSplit(contenders: seq<PlayerId>, answers: seq<int>, attempt: nat, order: nat, k: nat)
    requires contenders != [] && Resolve(contenders, answers, attempt, order).Some? && k >= attempt
    ensures var rolls := Resolve(contenders, answers, attempt, order).value.rolls;
            var round := Rolls(contenders, Values(answers, |contenders|).value, attempt, order);
            RoundOf(rolls, k) == if k == attempt then round else RoundOf(Rest(contenders, answers, attempt, order), k)
  {
    var values := Values(answers, |contenders|).value;
    var round, leaders, rest := Rolls(contenders, values, attempt, order), Leaders(contenders, values),
      Rest(contenders, answers, attempt, order);
    hide Leaders, RoundOf;
    RoundOfSame(round, k, attempt);
    RoundOfJoins(round, rest, k);
    assert round + [] == round;
    if |leaders| != 1 && k == attempt {
      LeadersExist(contenders, values);
      NoEarlierRound(leaders, answers[|contenders|..], attempt + 1, order + |contenders|, attempt);
    }
    RoundOfNothing(k);
  }

  lemma RoundOfNothing(k: nat)
    ensures RoundOf([], k) == []
  {
  }

  lemma FirstRound(contenders: seq<PlayerId>, answers: seq<int>, attempt: nat, order: nat)
    requires contenders != [] && Resolve(contenders, answers, attempt, order).Some?
    ensures var round := RoundOf(Resolve(contenders, answers, attempt, order).value.rolls, attempt);
            round != [] && Players(round) == contenders && Raws(round) == Values(answers, |contenders|).value
  {
    RoundsSplit(contenders, answers, attempt, order, attempt);
    hide Resolve, RoundOf, Rest;
  }

  /** The contest one round at a time. */
  lemma ResolveStep(contenders: seq<PlayerId>, answers: seq<int>, attempt: nat, order: nat)
    requires contenders != [] && Resolve(contenders, answers, attempt, order).Some?
    ensures Values(answers, |contenders|).Some?
    ensures var contest, values := Resolve(contenders, answers, attempt, order).value,
            Values(answers, |contenders|).value;
            var leaders, rest := Leaders(contenders, values), Rest(contenders, answers, attempt, order);
            leaders != [] && contest.rolls == Rolls(contenders, values, attempt, order) + rest &&
            (|leaders| == 1 ==> contest.winner == leaders[0] && rest == []) &&
            (|leaders| != 1 ==>
              var later := Resolve(leaders, answers[|contenders|..], attempt + 1, order + |contenders|);
              later.Some? && later.value == Contest(rest, contest.winner))
  {
    LeadersExist(contenders, Values(answers, |contenders|).value);
  }

  /**
   In the first round everybody rolls; in each later one exactly the tied leaders of the round before; the
   last round has a single leader, who wins.
   */
  lemma {:induction false} RoundsFollowLeaders(contenders: seq<PlayerId>, answers: seq<int>, attempt: nat, order: nat,
                                               k: nat)
    requires contenders != [] && Resolve(contenders, answers, attempt, order).Some? && k >= attempt
    ensures var contest := Resolve(contenders, answers, attempt, order).value;
            var round, following := RoundOf(contest.rolls, k), RoundOf(contest.rolls, k + 1);
            (following != [] ==>
              round != [] && Players(following) == Leaders(Players(round), Raws(round)) && |following| > 1) &&
            (round != [] && following == [] ==> Leaders(Players(round), Raws(round)) == [contest.winner])
    decreases |answers|
  {
    hide Leaders, RoundOf, Resolve, Rest;
    var leaders := (ResolveStep(contenders, answers, attempt, order); Leaders(contenders,
        Values(answers, |contenders|).value));
    FirstRound(contenders, answers, attempt, order);
    RoundsSplit(contenders, answers, attempt, order, k);
    RoundsSplit(contenders, answers, attempt, order, k + 1);
    RoundOfNothing(k);
    RoundOfNothing(k + 1);
    if |leaders| != 1 {
      var answers', order' := answers[|contenders|..], order + |contenders|;
      FirstRound(leaders, answers', attempt + 1, order');
      if k > attempt {
        RoundsFollowLeaders(leaders, answers', attempt + 1, order', k);
      }
    } else {
      assert leaders == [leaders[0]];
    }
  }

  // ------------------------------------------------------- the winner's rolls

  /** What a player rolled, in order. */
  function Sequence(rolls: seq<Roll>, q: PlayerId): seq<int> {
    if rolls == [] then []
    else (if rolls[0].player == q then [rolls[0].raw] else []) + Sequence(rolls[1..], q)
  }

  /** Equal for a while, then smaller. */
  predicate Below(a: seq<int>, b: seq<int>) {
    a != [] && b != [] && (a[0] < b[0] || (a[0] == b[0] && Below(a[1..], b[1..])))
  }

  lemma {:induction false} SequenceJoins(a: seq<Roll>, b: seq<Roll>, q: PlayerId)
    ensures Sequence(a + b, q) == Sequence(a, q) + Sequence(b, q)
  {
    if a == [] {
      assert a + b == b;
    } else {
      assert (a + b)[1..] == a[1..] + b && (a + b)[0] == a[0];
      SequenceJoins(a[1..], b, q);
      JoinAssociates(if a[0].player == q then [a[0].raw] else [], Sequence(a[1..], q), Sequence(b, q));
    }
  }

  lemma {:induction false} AbsentRollsNothing(rolls: seq<Roll>, q: PlayerId)
    requires q !in Players(rolls)
    ensures Sequence(rolls, q) == []
  {
    if rolls != [] {
      assert Players(rolls)[0] == rolls[0].player;
      assert forall i :: 0 <= i < |rolls[1..]| ==> Players(rolls[1..])[i] == Players(rolls)[i + 1];
      AbsentRollsNothing(rolls[1..], q);
    }
  }

  lemma {:induction false} OneRollEach(rolls: seq<Roll>, i: nat)
    requires i < |rolls| && Distinct(Players(rolls))
    ensures Sequence(rolls, rolls[i].player) == [rolls[i].raw]
  {
    assert forall j :: 0 <= j < |rolls[1..]| ==> Players(rolls[1..])[j] == Players(rolls)[j + 1];
    assert Players(rolls)[0] == rolls[0].player && Players(rolls)[i] == rolls[i].player;
    if i == 0 {
      AbsentRollsNothing(rolls[1..], rolls[0].player);
    } else {
      OneRollEach(rolls[1..], i - 1);
    }
  }

  lemma {:induction false} HavingExact(contenders: seq<PlayerId>, values: seq<int>, value: int, i: nat)
    requires |contenders| == |values| && i < |values| && Distinct(contenders)
    ensures contenders[i] in Having(contenders, values, value) <==> values[i] == value
    ensures Distinct(Having(contenders, values, value))
  {
    assert forall j :: 0 <= j < |contenders[1..]| ==> contenders[1..][j] == contenders[j + 1];
    assert contenders[0] !in contenders[1..];
    if i > 0 {
      HavingExact(contenders[1..], values[1..], value, i - 1);
    } else if |contenders| > 1 {
      HavingExact(contenders[1..], values[1..], value, 0);
    }
  }

  lemma {:induction false} OnlyContendersRoll(contenders: seq<PlayerId>, answers: seq<int>, attempt: nat, order: nat,
                                              q: PlayerId)
    requires contenders != [] && Resolve(contenders, answers, attempt, order).Some? && q !in contenders
    ensures Sequence(Resolve(contenders, answers, attempt, order).value.rolls, q) == []
    decreases |answers|
  {
    hide Sequence, Leaders;
    var values := Values(answers, |contenders|).value;
    var round, leaders := Rolls(contenders, values, attempt, order), Leaders(contenders, values);
    AbsentRollsNothing(round, q);
    if |leaders| != 1 {
      LeadersExist(contenders, values);
      LeadersContend(contenders, values);
      OnlyContendersRoll(leaders, answers[|contenders|..], attempt + 1, order + |contenders|, q);
      SequenceJoins(round, Resolve(leaders, answers[|contenders|..], attempt + 1, order + |contenders|).value.rolls, q);
    }
  }

  /** One round decides between two contenders, or leaves both in the next. */
  lemma RoundDecides(contenders: seq<PlayerId>, values: seq<int>, attempt: nat, order: nat, w: nat, q: nat)
    requires |contenders| == |values| && w < |contenders| && q < |contenders| && w != q && Distinct(contenders)
    requires contenders[w] in Leaders(contenders, values)
    ensures var round := Rolls(contenders, values, attempt, order);
            Sequence(round, contenders[w]) == [values[w]] && Sequence(round, contenders[q]) == [values[q]] &&
            ((values[q] < values[w] && contenders[q] !in Leaders(contenders, values)) ||
             (values[q] == values[w] && contenders[q] in Leaders(contenders, values)))
  {
    var round := Rolls(contenders, values, attempt, order);
    assert Players(round) == contenders;
    OneRollEach(round, w);
    OneRollEach(round, q);
    HavingExact(contenders, values, Highest(values), w);
    HavingExact(contenders, values, Highest(values), q);
    assert values[q] in values;
  }

  /** The winner's rolls exceed everyone else's, compared one after the other. */
  lemma {:induction false} WinnerIsHighest(contenders: seq<PlayerId>, answers: seq<int>, attempt: nat, order: nat,
                                           q: PlayerId)
    requires contenders != [] && Distinct(contenders) && Resolve(contenders, answers, attempt, order).Some?
    requires q in contenders
    ensures var contest := Resolve(contenders, answers, attempt, order).value;
            contest.winner in contenders &&
            (q != contest.winner ==> Below(Sequence(contest.rolls, q), Sequence(contest.rolls, contest.winner)))
    decreases |answers|
  {
    hide Resolve, Rest, Having, Highest, Below, Leaders;
    ResolveStep(contenders, answers, attempt, order);
    var values := Values(answers, |contenders|).value;
    var round, leaders, contest := Rolls(contenders, values, attempt, order), Leaders(contenders, values),
        Resolve(contenders, answers, attempt, order).value;
    var rest, answers', order' := Rest(contenders, answers, attempt, order), answers[|contenders|..],
      order + |contenders|;
    LeadersAmong(contenders, values);
    if |leaders| != 1 {
      WinnerIsHighest(leaders, answers', attempt + 1, order', leaders[0]);
    }
    if q != contest.winner {
      assert contest.winner in leaders && contest.winner in contenders;
      var n :| 0 <= n < |contenders| && contenders[n] == q;
      var w :| 0 <= w < |contenders| && contenders[w] == contest.winner;
      RoundDecides(contenders, values, attempt, order, w, n);
      SequenceJoins(round, rest, q);
      SequenceJoins(round, rest, contest.winner);
      if q in leaders {
        if |leaders| != 1 {
          WinnerIsHighest(leaders, answers', attempt + 1, order', q);
        }
        BelowAfterTie(values[n], Sequence(rest, q), Sequence(rest, contest.winner));
      } else {
        BelowAtOnce(values[n], values[w], Sequence(rest, q), Sequence(rest, contest.winner));
      }
    }
  }

  lemma LeadersAmong(contenders: seq<PlayerId>, values: seq<int>)
    requires |contenders| == |values| > 0 && Distinct(contenders)
    ensures Distinct(Leaders(contenders, values)) && forall q :: q in Leaders(contenders, values) ==> q in contenders
  {
    HavingExact(contenders, values, Highest(values), 0);
  }

  lemma BelowAfterTie(x: int, a: seq<int>, b: seq<int>)
    ensures Below([x] + a, [x] + b) <==> Below(a, b)
  {
    assert ([x] + a)[1..] == a && ([x] + b)[1..] == b;
  }

  lemma BelowAtOnce(x: int, y: int, a: seq<int>, b: seq<int>)
    requires x < y
    ensures Below([x] + a, [y] + b)
  {
  }

  // ----------------------------------------------------------------- the order

  function IndexOf(seats: seq<PlayerId>, q: PlayerId): (i: nat)
    requires q in seats
    ensures i < |seats| && seats[i] == q
  {
    if seats[0] == q then 0 else 1 + IndexOf(seats[1..], q)
  }

  /** Around the table from the winner. */
  function OrderFrom(seats: seq<PlayerId>, winner: PlayerId): seq<PlayerId>
    requires winner in seats
  {
    seats[IndexOf(seats, winner)..] + seats[..IndexOf(seats, winner)]
  }

  lemma RotationPermutes(seats: seq<PlayerId>, i: nat)
    requires i < |seats|
    ensures multiset(seats[i..] + seats[..i]) == multiset(seats)
  {
    assert seats == seats[..i] + seats[i..];
  }

  /** The order starts with the winner, keeps everybody once and continues around the table. */
  lemma OrderIsRotation(seats: seq<PlayerId>, winner: PlayerId, k: nat)
    requires winner in seats && k < |seats|
    ensures var order := OrderFrom(seats, winner);
            order[0] == winner && multiset(order) == multiset(seats) && |order| == |seats| &&
            order[k] == seats[(IndexOf(seats, winner) + k) % |seats|]
  {
    hide IndexOf;
    var i := IndexOf(seats, winner);
    RotationPermutes(seats, i);
    Wraps(i + k, |seats|);
  }

  lemma Wraps(m: nat, n: nat)
    requires m < 2 * n
    ensures m % n == if m < n then m else m - n
  {
  }

  // ------------------------------------------------------------------ the loop

  method RollRound(contenders: seq<PlayerId>, attempt: nat, order: nat, random: RandomProvider)
    returns (values: Option<seq<int>>)
    modifies random
    ensures values == Values(old(random.answers), |contenders|)
    ensures values.Some? ==> random.answers == old(random.answers)[|contenders|..]
  {
    var drawn: seq<int> := [];
    for i := 0 to |contenders|
      invariant |drawn| == i <= |old(random.answers)| && drawn == old(random.answers)[..i]
      invariant forall j :: 0 <= j < i ==> 1 <= old(random.answers)[j] <= 10
      invariant random.answers == old(random.answers)[i..]
    {
      var raw := random.Integer(1, 10);
      if raw.None? {
        return None;
      }
      drawn := drawn + [raw.value];
    }
    values := Some(drawn);
  }

  /** A contest with the rolls before it. */
  function Onto(rolls: seq<Roll>, rest: Option<Contest>): Option<Contest> {
    if rest.None? then None else Some(Contest(rolls + rest.value.rolls, rest.value.winner))
  }

  lemma OntoNothing(rest: Option<Contest>)
    ensures Onto([], rest) == rest
  {
    if rest.Some? {
      assert [] + rest.value.rolls == rest.value.rolls;
    }
  }

  lemma OntoMore(rolls: seq<Roll>, contenders: seq<PlayerId>, answers: seq<int>, attempt: nat, order: nat)
    requires contenders != [] && Values(answers, |contenders|).Some?
    ensures var values := Values(answers, |contenders|).value;
            var round, leaders := Rolls(contenders, values, attempt, order), Leaders(contenders, values);
            leaders != [] && Onto(rolls, Resolve(contenders, answers, attempt, order)) ==
            if |leaders| == 1 then Some(Contest(rolls + round, leaders[0]))
            else Onto(rolls + round, Resolve(leaders, answers[|contenders|..], attempt + 1, order + |contenders|))
  {
    var values := Values(answers, |contenders|).value;
    var round, leaders := Rolls(contenders, values, attempt, order), Leaders(contenders, values);
    LeadersExist(contenders, values);
    if |leaders| != 1 {
      var rest := Resolve(leaders, answers[|contenders|..], attempt + 1, order + |contenders|);
      if rest.Some? {
        assert rolls + (round + rest.value.rolls) == (rolls + round) + rest.value.rolls;
      }
    }
  }

  /** Rolls until one contender leads alone; the winner, the order from there and every roll. */
  method ResolveInitiative(seats: seq<PlayerId>, random: RandomProvider)
    returns (contest: Option<Contest>, order: seq<PlayerId>)
    requires seats != []
    modifies random
    ensures contest == Resolve(seats, old(random.answers), 1, 0)
    ensures contest.Some? ==> contest.value.winner in seats && order == OrderFrom(seats, contest.value.winner)
  {
    hide Resolve, Leaders, Values;
    order := [];
    var rolls: seq<Roll>, contenders := [], seats;
    var attempt: nat, consumed: nat := 1, 0;
    ghost var given := random.answers;
    OntoNothing(Resolve(seats, given, 1, 0));
    while true
      invariant contenders != [] && forall q :: q in contenders ==> q in seats
      invariant Resolve(seats, given, 1, 0) == Onto(rolls, Resolve(contenders, random.answers, attempt, consumed))
      decreases |random.answers|
    {
      ghost var answers := random.answers;
      var values := RollRound(contenders, attempt, consumed, random);
      if values.None? {
        NoValues(contenders, answers, attempt, consumed);
        return None, [];
      }
      OntoMore(rolls, contenders, answers, attempt, consumed);
      var leaders := Leaders(contenders, values.value);
      LeadersContend(contenders, values.value);
      rolls := rolls + Rolls(contenders, values.value, attempt, consumed);
      if |leaders| == 1 {
        contest := Some(Contest(rolls, leaders[0]));
        order := OrderFrom(seats, leaders[0]);
        return;
      }
      consumed := consumed + |contenders|;
      contenders, attempt := leaders, attempt + 1;
    }
  }

  lemma NoValues(contenders: seq<PlayerId>, answers: seq<int>, attempt: nat, order: nat)
    requires contenders != [] && Values(answers, |contenders|).None?
    ensures Resolve(contenders, answers, attempt, order).None?
  {
  }
}
