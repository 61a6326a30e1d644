/**
 What every interleaving of the outbox steps guarantees, by any number of workers, from an empty outbox on.
 */
module OutboxRuns {
  import opened Prelude
  import opened Outbox

  ghost function Run(world: World, steps: seq<Step>): World {
    if steps == [] then world else Apply(Run(world, steps[..|steps| - 1]), steps[|steps| - 1])
  }

  const Start := World(Database(map[], map[]), map[], [], 0)

  lemma StopKeeps(world: World, w: WorkerId)
    requires Inv(world)
    ensures Inv(Put(world, world.db, w, Idle))
  {
    hide Inv;
    WorkerKeeps(world, w, Idle, world.sent);
    assert Put(world, world.db, w, Idle).(sent := world.sent) == Put(world, world.db, w, Idle);
  }

  lemma LogStepKeeps(world: World, w: WorkerId, stage: nat, event: AttemptEvent, pc: Worker, refused: Worker)
    requires Inv(world) && Leased(world, w) && (world.workers[w].Holding? || world.workers[w].Sent?)
    requires pc.Idle? || (pc.lease == LeaseOf(world, w) && stage <= Reached(pc) &&
                          Reached(world.workers[w]) <= Reached(pc))
    requires pc.Returned? ==> world.workers[w].Sent?
    requires refused.Idle? || refused == Failing(LeaseOf(world, w))
    requires !pc.Sent?
    ensures
      var logged := Log(world.db, LeaseOf(world, w).message, LeaseOf(world, w).attempt, stage, event);
      Inv(if logged.None? then Put(world, world.db, w, refused) else Put(world, logged.value, w, pc))
  {
    var l := LeaseOf(world, w);
    var logged := Log(world.db, l.message, l.attempt, stage, event);
    if world.workers[w].Sent? {
      assert LeaseOk(world.db, world.sent, world.nextToken, world.workers[w]);
    }
    hide Inv, Log;
    if logged.None? {
      WorkerKeeps(world, w, refused, world.sent);
      assert Put(world, world.db, w, refused).(sent := world.sent) == Put(world, world.db, w, refused);
    } else {
      LogKeeps(world, w, stage, event, pc);
    }
  }

  lemma SendKeeps(world: World, w: WorkerId, delivered: bool, lost: bool)
    requires Inv(world)
    ensures Inv(Apply(world, Send(w, delivered, lost)))
  {
    hide Inv;
    if WorkerOf(world, w).Sending? {
      var l := WorkerOf(world, w).lease;
      WorkerKeeps(world, w, if delivered && !lost then Sent(l) else Failing(l),
                  if delivered then world.sent + [l.message] else world.sent);
    }
  }

  /** A failed or acknowledged claim; both leave the worker idle whatever the database answers. */
  lemma CloseKeeps(world: World, w: WorkerId, step: Step)
    requires Inv(world) && (step == ReportFailure(w) || step == TakeAck(w))
    ensures Inv(Apply(world, step))
  {
    hide Inv, FailSend, Acknowledge;
    var pc := WorkerOf(world, w);
    if step.ReportFailure? && pc.Failing? {
      if FailSend(world.db, pc.lease).Some? {
        FailKeeps(world, w, FailSend(world.db, pc.lease).value);
      } else {
        StopKeeps(world, w);
      }
    } else if step.TakeAck? && pc.Returned? {
      if Acknowledge(world.db, pc.lease).Some? {
        AckKeeps(world, w, Acknowledge(world.db, pc.lease).value);
      } else {
        StopKeeps(world, w);
      }
    }
  }

  lemma StepKeepsInv(world: World, step: Step)
    requires Inv(world)
    ensures Inv(Apply(world, step))
  {
    hide Inv, Log, ClaimRow, FailSend, Acknowledge, RecoverAll, Claimable;
    match step
    case Insert(m) =>
      if m !in world.db.rows && !exists e :: e in world.db.rows && e.game == m.game && e.sequence >= m.sequence {
        InsertKeeps(world, m);
      }
    case TakeClaim(w, m) =>
      if WorkerOf(world, w).Idle? && Claimable(world.db, m) {
        ClaimKeeps(world, w, m);
      }
    case StartSend(w, lost) =>
      if WorkerOf(world, w).Holding? {
        LogStepKeeps(world, w, 2, SendStarted, if lost then Idle else Sending(LeaseOf(world, w)), Idle);
      }
    case Send(w, delivered, lost) => SendKeeps(world, w, delivered, lost);
    case ReturnSend(w, lost) =>
      if WorkerOf(world, w).Sent? {
        var l := LeaseOf(world, w);
        LogStepKeeps(world, w, 3, SendReturned, if lost then Failing(l) else Returned(l), Failing(l));
      }
    case ReportFailure(w) => CloseKeeps(world, w, step);
    case TakeAck(w) => CloseKeeps(world, w, step);
    case Stop(w) => StopKeeps(world, w);
    case Expire(m) =>
      if m in world.db.rows && world.db.rows[m].status == Claimed {
        ExpireKeeps(world, m);
      }
    case Recover(messages) => RecoverKeeps(world, messages);
  }

  lemma {:induction false} RunKeepsInv(steps: seq<Step>)
    ensures Inv(Run(Start, steps))
  {
    if steps != [] {
      RunKeepsInv(steps[..|steps| - 1]);
      StepKeepsInv(Run(Start, steps[..|steps| - 1]), steps[|steps| - 1]);
    }
  }

  // ---------------------------------------------------------------- safety

  ghost predicate AckedPrefix(db: Database) {
    forall m, e :: m in db.rows && e in db.rows && e.game == m.game && e.sequence < m.sequence ==>
      (db.rows[m].status == Acknowledged ==> db.rows[e].status == Acknowledged)
  }

  ghost predicate OneClaimedPerGame(db: Database) {
    forall a, b :: a in db.rows && b in db.rows && a.game == b.game ==>
      (db.rows[a].status == Claimed && db.rows[b].status == Claimed ==> a == b)
  }

  /** Worker w holds the current token of a claimed message of the game. */
  ghost predicate Current(world: World, w: WorkerId, game: GameId) {
    Leased(world, w) && Authoritative(world.db, LeaseOf(world, w)) && LeaseOf(world, w).message.game == game
  }

  ghost predicate OneAuthority(world: World) {
    forall v, w, game :: Current(world, v, game) && Current(world, w, game) ==> v == w
  }

  /**
   In every reachable state the acknowledged messages of a game are a prefix of its messages, at most one
   message of a game is claimed and at most one worker holds its current token, everything acknowledged
   was sent, and every message was sent only after all earlier ones of its game.
   */
  lemma OutboxIsSafe(steps: seq<Step>)
    ensures
      var world := Run(Start, steps);
      AckedPrefix(world.db) && OneClaimedPerGame(world.db) && OneAuthority(world) &&
        SentInOrder(world.db, world.sent) &&
      forall m :: m in world.db.rows && world.db.rows[m].status == Acknowledged ==> m in world.sent
  {
    RunKeepsInv(steps);
    var world := Run(Start, steps);
    assert RowsOk(world.db, world.sent, world.nextToken);
    assert OneClaimedPerGame(world.db);
    forall v, w, game | Current(world, v, game) && Current(world, w, game)
      ensures v == w
    {
      OneHolder(world, v, w, game);
    }
  }

  lemma OneHolder(world: World, v: WorkerId, w: WorkerId, game: GameId)
    requires Inv(world) && OneClaimedPerGame(world.db) && Current(world, v, game) && Current(world, w, game)
    ensures v == w
  {
    hide LeaseOk, SentInOrder, RowsOk;
    var a, b := world.workers[v].lease, world.workers[w].lease;
    assert a.message == b.message && a.token == b.token;
  }

  lemma {:induction false} RecoverLeavesAcked(db: Database, messages: seq<Message>, m: Message)
    requires m in db.rows
    ensures m in RecoverAll(db, messages).rows
    ensures RecoverAll(db, messages).rows[m].status == Acknowledged <==> db.rows[m].status == Acknowledged
  {
    if messages != [] {
      RecoverLeavesAcked(db, messages[..|messages| - 1], m);
    }
  }

  /** A stale failure report never meets an acknowledged row that still carries its token. */
  lemma FailureIsStale(world: World, w: WorkerId, m: Message)
    requires Inv(world) && WorkerOf(world, w).Failing? && m in world.db.rows && world.db.rows[m].status == Acknowledged
    ensures world.db.rows[m].token != Some(WorkerOf(world, w).lease.token)
  {
    assert LeaseOk(world.db, world.sent, world.nextToken, world.workers[w]);
  }

  /** The step acknowledges m: its worker has sent m and still holds the token under which m is claimed. */
  ghost predicate Confirms(world: World, step: Step, m: Message) {
    step.TakeAck? && WorkerOf(world, step.w).Returned? && WorkerOf(world, step.w).lease.message == m &&
      m in world.sent &&
    m in world.db.rows && world.db.rows[m].status == Claimed &&
      world.db.rows[m].token == Some(WorkerOf(world, step.w).lease.token)
  }

  /**
   A row becomes acknowledged exactly when the worker that holds its current token confirms it, after that
   worker sent it and while the row is claimed; once acknowledged it stays so.
   */
  lemma OnlyTheCurrentTokenAcknowledges(steps: seq<Step>, step: Step, m: Message)
    requires m in Run(Start, steps).db.rows
    ensures m in Run(Start, steps + [step]).db.rows
    ensures Run(Start, steps + [step]).db.rows[m].status == Acknowledged <==>
            (Run(Start, steps).db.rows[m].status == Acknowledged || Confirms(Run(Start, steps), step, m))
  {
    RunOn(steps, step);
    RunKeepsInv(steps);
    hide Run;
    StepAcknowledges(Run(Start, steps), step, m);
  }

  lemma RunOn(steps: seq<Step>, step: Step)
    ensures Run(Start, steps + [step]) == Apply(Run(Start, steps), step)
  {
    hide Apply;
    assert (steps + [step])[..|steps + [step]| - 1] == steps;
  }

  lemma AckAcknowledges(before: World, w: WorkerId, m: Message)
    requires Inv(before) && m in before.db.rows
    ensures m in Apply(before, TakeAck(w)).db.rows
    ensures Apply(before, TakeAck(w)).db.rows[m].status == Acknowledged <==>
            (before.db.rows[m].status == Acknowledged || Confirms(before, TakeAck(w), m))
  {
    if WorkerOf(before, w).Returned? {
      assert LeaseOk(before.db, before.sent, before.nextToken, before.workers[w]);
      AckedRows(before, before.workers[w]);
    }
  }

  lemma FailureAcknowledgesNothing(before: World, w: WorkerId, m: Message)
    requires Inv(before) && m in before.db.rows
    ensures m in Apply(before, ReportFailure(w)).db.rows
    ensures Apply(before, ReportFailure(w)).db.rows[m].status == Acknowledged <==>
            before.db.rows[m].status == Acknowledged
  {
    if WorkerOf(before, w).Failing? && before.db.rows[m].status == Acknowledged {
      FailureIsStale(before, w, m);
    }
    hide Inv;
  }

  lemma StepAcknowledges(before: World, step: Step, m: Message)
    requires Inv(before) && m in before.db.rows
    ensures m in Apply(before, step).db.rows
    ensures Apply(before, step).db.rows[m].status == Acknowledged <==>
            (before.db.rows[m].status == Acknowledged || Confirms(before, step, m))
  {
    match step
    case Recover(messages) =>
      hide Inv;
      RecoverLeavesAcked(before.db, messages, m);
    case ReportFailure(w) => FailureAcknowledgesNothing(before, w, m);
    case TakeAck(w) => AckAcknowledges(before, w, m);
    case _ =>
      hide Inv;
  }

  lemma {:induction false} AcknowledgedIsTerminal(steps: seq<Step>, more: seq<Step>, m: Message)
    requires m in Run(Start, steps).db.rows && Run(Start, steps).db.rows[m].status == Acknowledged
    ensures m in Run(Start, steps + more).db.rows && Run(Start, steps + more).db.rows[m].status == Acknowledged
  {
    hide Run, Apply;
    if more == [] {
      assert steps + more == steps;
    } else {
      var init := more[..|more| - 1];
      AcknowledgedIsTerminal(steps, init, m);
      assert (steps + init) + [more[|more| - 1]] == steps + more;
      OnlyTheCurrentTokenAcknowledges(steps + init, more[|more| - 1], m);
    }
  }

  // -------------------------------------------------------------- progress

  ghost predicate FirstUnacked(db: Database, m: Message) {
    m in db.rows && EarlierDone(db, m) && db.rows[m].status != Acknowledged
  }

  /** The steps of one undisturbed delivery of m by worker w; an abandoned lease has to run out first. */
  function Delivery(w: WorkerId, m: Message): seq<Step> {
    [Expire(m), TakeClaim(w, m), StartSend(w, false), Send(w, true, false), ReturnSend(w, false), TakeAck(w)]
  }

  lemma ExpireThenClaim(world: World, w: WorkerId, m: Message)
    requires Inv(world) && FirstUnacked(world.db, m) && WorkerOf(world, w).Idle?
    ensures
      var claimed := Apply(Apply(world, Expire(m)), TakeClaim(w, m));
      Inv(claimed) && claimed.sent == world.sent && m in claimed.db.rows && claimed.db.rows[m].status == Claimed &&
      WorkerOf(claimed, w).Holding? && WorkerOf(claimed, w).lease.message == m &&
        Authoritative(claimed.db, WorkerOf(claimed, w).lease)
  {
    var ready := Apply(world, Expire(m));
    assert Claimable(ready.db, m);
    assert Inv(ready) by { StepKeepsInv(world, Expire(m)); }
    hide Inv;
    ClaimKeeps(ready, w, m);
  }

  lemma LogIsFree(world: World, w: WorkerId, stage: nat)
    requires Inv(world) && Leased(world, w) && Authoritative(world.db, LeaseOf(world, w))
    requires stage > Reached(world.workers[w])
    ensures Log(world.db, LeaseOf(world, w).message, LeaseOf(world, w).attempt, stage, Claim).Some?
  {
    assert LeaseOk(world.db, world.sent, world.nextToken, world.workers[w]);
  }

  /** A claimed message whose worker is left alone is sent, logged and acknowledged. */
  lemma HolderFinishes(claimed: World, w: WorkerId)
    requires Inv(claimed) && WorkerOf(claimed, w).Holding? && Authoritative(claimed.db, WorkerOf(claimed, w).lease)
    ensures
      var m := WorkerOf(claimed, w).lease.message;
      var world := Apply(Apply(Apply(Apply(claimed, StartSend(w, false)), Send(w, true, false)), ReturnSend(w, false)),
                         TakeAck(w));
      m in world.db.rows && world.db.rows[m].status == Acknowledged && world.sent == claimed.sent + [m]
  {
    hide Inv;
    LogIsFree(claimed, w, 2);
    var started := Apply(claimed, StartSend(w, false));
    StepKeepsInv(claimed, StartSend(w, false));
    var sent := Apply(started, Send(w, true, false));
    StepKeepsInv(started, Send(w, true, false));
    LogIsFree(sent, w, 3);
    var returned := Apply(sent, ReturnSend(w, false));
    StepKeepsInv(sent, ReturnSend(w, false));
    LogIsFree(returned, w, 4);
  }

  /**
   The protocol is never stuck: in every reachable state the first unacknowledged message of a game, however
   its last attempts ended, can be delivered and acknowledged by any idle worker that is left alone.
   */
  lemma FirstMessageCanAlwaysBeDelivered(steps: seq<Step>, w: WorkerId, m: Message)
    requires FirstUnacked(Run(Start, steps).db, m) && WorkerOf(Run(Start, steps), w).Idle?
    ensures
      var world := Run(Run(Start, steps), Delivery(w, m));
      m in world.db.rows && world.db.rows[m].status == Acknowledged && world.sent == Run(Start, steps).sent + [m]
  {
    hide *;
    var d := Delivery(w, m);
    DeliverySteps(w, m);
    var world := Run(Start, steps);
    RunKeepsInv(steps);
    ExpireThenClaim(world, w, m);
    HolderFinishes(Apply(Apply(world, d[0]), d[1]), w);
    SixSteps(world, d);
  }

  lemma DeliverySteps(w: WorkerId, m: Message)
    ensures
      var d := Delivery(w, m);
      |d| == 6 && d[0] == Expire(m) && d[1] == TakeClaim(w, m) && d[2] == StartSend(w, false) &&
      d[3] == Send(w, true, false) && d[4] == ReturnSend(w, false) && d[5] == TakeAck(w)
  {
  }

  lemma SixSteps(world: World, d: seq<Step>)
    requires |d| == 6
    ensures Run(world, d) == Apply(Apply(Apply(Apply(Apply(Apply(world, d[0]), d[1]), d[2]), d[3]), d[4]), d[5])
  {
    hide Apply;
    Upto(world, d, 0);
    Upto(world, d, 1);
    Upto(world, d, 2);
    Upto(world, d, 3);
    Upto(world, d, 4);
    Upto(world, d, 5);
    hide Run;
    assert d[..6] == d;
    assert d[..0] == [];
  }

  lemma Upto(world: World, steps: seq<Step>, k: nat)
    requires k < |steps|
    ensures Run(world, steps[..k + 1]) == Apply(Run(world, steps[..k]), steps[k])
    ensures Run(world, []) == world
  {
    hide Apply;
    assert steps[..k + 1][..k] == steps[..k];
  }

  // --------------------------------------------------------- failed sends

  /** A worker whose send failed holds the current token of its message. */
  ghost predicate FailsUnderCurrentToken(world: World, w: WorkerId) {
    WorkerOf(world, w).Failing? &&
    var l := WorkerOf(world, w).lease;
    l.message in world.db.rows && world.db.rows[l.message].token == Some(l.token)
  }

  /**
   The failure of a claimed message is recorded unless the attempt's third stage is logged already, by a return
   that was committed and reported as an error. Then nothing changes and the lease has to run out.
   */
  lemma FailureRecordedIff(steps: seq<Step>, w: WorkerId)
    requires FailsUnderCurrentToken(Run(Start, steps), w)
    requires Authoritative(Run(Start, steps).db, WorkerOf(Run(Start, steps), w).lease)
    ensures
      var world := Run(Start, steps);
      var l := WorkerOf(world, w).lease;
      var failed := Apply(world, ReportFailure(w));
      (FailSend(world.db, l).Some? <==> AttemptKey(l.message, l.attempt, 3) !in world.db.attempts) &&
      (failed.db.rows[l.message].status == RetryScheduled <==> FailSend(world.db, l).Some?) &&
      (FailSend(world.db, l).None? ==> failed.db == world.db)
  {
    RunKeepsInv(steps);
    var world := Run(Start, steps);
    hide Run;
    assert LeaseOk(world.db, world.sent, world.nextToken, world.workers[w]);
  }

  /** What the record of a failure under the current token leaves. */
  ghost predicate Rescheduled(world: World, failed: World, l: Lease) {
    l.message in world.db.rows &&
    failed.db.rows == world.db.rows[l.message := world.db.rows[l.message].(status := RetryScheduled)] &&
    failed.db.attempts == world.db.attempts[AttemptKey(l.message, l.attempt, 3) := Fail][
      AttemptKey(l.message, l.attempt, 4) := Retry] &&
    Claimable(failed.db, l.message) && failed.sent == world.sent && failed.nextToken == world.nextToken
  }

  lemma FailureReschedules(world: World, w: WorkerId)
    requires Inv(world) && FailsUnderCurrentToken(world, w) && FailSend(world.db, WorkerOf(world, w).lease).Some?
    ensures Rescheduled(world, Apply(world, ReportFailure(w)), WorkerOf(world, w).lease)
  {
    assert LeaseOk(world.db, world.sent, world.nextToken, world.workers[w]);
  }

  lemma RescheduledIsTaken(world: World, failed: World, l: Lease, v: WorkerId)
    requires Inv(failed) && Rescheduled(world, failed, l) && WorkerOf(failed, v).Idle?
    ensures
      var m, taken := l.message, Apply(failed, TakeClaim(v, l.message));
      WorkerOf(taken, v) == Holding(Lease(m, world.db.rows[m].attempt + 1, world.nextToken)) &&
      taken.db.rows == world.db.rows[m := Row(Claimed, world.db.rows[m].attempt + 1, Some(world.nextToken), false)]
  {
    hide Inv;
    ClaimKeeps(failed, v, l.message);
  }

  /**
   A failed send makes its message retryable. When a worker that holds the current token records a failure, no
   earlier message of the game is open and the message can be claimed at once, without any lease having to run
   out; the next claim of any idle worker, that one included, takes it under the next attempt number.
   */
  lemma FailureMakesRetryable(steps: seq<Step>, w: WorkerId, v: WorkerId)
    requires FailsUnderCurrentToken(Run(Start, steps), w)
    requires FailSend(Run(Start, steps).db, WorkerOf(Run(Start, steps), w).lease).Some?
    requires v == w || WorkerOf(Run(Start, steps), v).Idle?
    ensures
      var world, failed := Run(Start, steps), Run(Start, steps + [ReportFailure(w)]);
      var m := WorkerOf(world, w).lease.message;
      m in failed.db.rows && failed.db.rows[m].status == RetryScheduled && EarlierDone(failed.db, m) &&
      Claimable(failed.db, m) && (forall e :: e in world.db.rows && e != m ==> failed.db.rows[e] == world.db.rows[e]) &&
      var taken := Run(Start, steps + [ReportFailure(w)] + [TakeClaim(v, m)]);
      WorkerOf(taken, v) == Holding(Lease(m, world.db.rows[m].attempt + 1, world.nextToken)) &&
      taken.db.rows[m] == Row(Claimed, world.db.rows[m].attempt + 1, Some(world.nextToken), false)
  {
    RunKeepsInv(steps);
    RunOn(steps, ReportFailure(w));
    RunOn(steps + [ReportFailure(w)], TakeClaim(v, WorkerOf(Run(Start, steps), w).lease.message));
    hide Run, Apply, Inv, FailSend;
    FailedThenTaken(Run(Start, steps), w, v);
  }

  lemma IdleAfterFailure(world: World, w: WorkerId, v: WorkerId)
    requires WorkerOf(world, w).Failing? && (v == w || WorkerOf(world, v).Idle?)
    ensures WorkerOf(Apply(world, ReportFailure(w)), v).Idle?
  {
    hide FailSend;
  }

  lemma FailedThenTaken(world: World, w: WorkerId, v: WorkerId)
    requires Inv(world) && FailsUnderCurrentToken(world, w) && FailSend(world.db, WorkerOf(world, w).lease).Some?
    requires v == w || WorkerOf(world, v).Idle?
    ensures
      var m, failed := WorkerOf(world, w).lease.message, Apply(world, ReportFailure(w));
      m in failed.db.rows && failed.db.rows[m].status == RetryScheduled && EarlierDone(failed.db, m) &&
      Claimable(failed.db, m) && (forall e :: e in world.db.rows && e != m ==> failed.db.rows[e] == world.db.rows[e]) &&
      var taken := Apply(failed, TakeClaim(v, m));
      WorkerOf(taken, v) == Holding(Lease(m, world.db.rows[m].attempt + 1, world.nextToken)) &&
      taken.db.rows[m] == Row(Claimed, world.db.rows[m].attempt + 1, Some(world.nextToken), false)
  {
    hide Inv, Apply, FailSend;
    FailureReschedules(world, w);
    StepKeepsInv(world, ReportFailure(w));
    IdleAfterFailure(world, w, v);
    RescheduledIsTaken(world, Apply(world, ReportFailure(w)), WorkerOf(world, w).lease, v);
  }

  /** A failure under an outdated token leaves every row as it was. */
  lemma OutdatedFailureChangesNoRow(world: World, w: WorkerId)
    requires WorkerOf(world, w).Failing? && !FailsUnderCurrentToken(world, w)
    ensures Apply(world, ReportFailure(w)).db.rows == world.db.rows
  {
  }

  // ------------------------------------------------------- the attempt log

  /** Entries are added and never changed. */
  ghost predicate LogGrows(db: Database, later: Database) {
    forall k :: k in db.attempts ==> k in later.attempts && later.attempts[k] == db.attempts[k]
  }

  ghost predicate Entered(db: Database, m: Message, stage: nat, event: AttemptEvent)
    requires m in db.rows
  {
    var key := AttemptKey(m, db.rows[m].attempt, stage);
    key in db.attempts && db.attempts[key] == event
  }

  /** The log of a row's attempt tells how it came to its status. */
  ghost predicate Explained(db: Database, m: Message)
    requires m in db.rows
  {
    (db.rows[m].status != Pending ==> db.rows[m].attempt > 0) &&
    (db.rows[m].attempt > 0 ==> Entered(db, m, 1, Claim)) &&
    (db.rows[m].status == Acknowledged ==> Entered(db, m, 4, Ack)) &&
    (db.rows[m].status == RetryScheduled ==> exists s: nat :: Entered(db, m, s, Retry))
  }

  ghost predicate LogTells(db: Database) {
    forall m :: m in db.rows ==> Explained(db, m)
  }

  lemma SameRowExplained(db: Database, later: Database, m: Message)
    requires m in db.rows && m in later.rows && LogGrows(db, later) && Explained(db, m)
    requires later.rows[m].attempt == db.rows[m].attempt && later.rows[m].status == db.rows[m].status
    ensures Explained(later, m)
  {
    if db.rows[m].status == RetryScheduled {
      var s: nat :| Entered(db, m, s, Retry);
      assert Entered(later, m, s, Retry);
    }
  }

  /** All rows but m are as they were, and the log has only grown. */
  lemma OneRowExplained(db: Database, later: Database, m: Message)
    requires LogTells(db) && LogGrows(db, later) && m in later.rows && Explained(later, m)
    requires later.rows.Keys == db.rows.Keys + {m} && forall e :: e in db.rows && e != m ==> later.rows[e] == db.rows[e]
    ensures LogTells(later)
  {
    hide LogGrows, Explained;
    forall e | e in later.rows
      ensures Explained(later, e)
    {
      if e != m {
        SameRowExplained(db, later, e);
      }
    }
  }

  lemma RecoveredTells(db: Database, m: Message)
    requires LogTells(db) && m in db.rows && db.rows[m].status == Claimed
    ensures LogGrows(db, RecoverRow(db, m)) && LogTells(RecoverRow(db, m))
    ensures RecoverRow(db, m).rows[m].status == RetryScheduled
  {
    var r, row := RecoverRow(db, m), db.rows[m];
    var stage := NextStage(StagesOf(db, m, row.attempt));
    FreshStages(db, m, stage);
    hide NextStage, StagesOf;
    assert Entered(r, m, stage + 1, Retry);
    assert Explained(db, m);
    OneRowExplained(db, r, m);
  }

  lemma FreshStages(db: Database, m: Message, stage: nat)
    requires m in db.rows && stage == NextStage(StagesOf(db, m, db.rows[m].attempt))
    ensures forall s: nat :: s >= stage ==> AttemptKey(m, db.rows[m].attempt, s) !in db.attempts
  {
    forall s: nat | s >= stage
      ensures AttemptKey(m, db.rows[m].attempt, s) !in db.attempts
    {
      StageIsListed(db, m, db.rows[m].attempt, s);
    }
  }

  lemma StageIsListed(db: Database, m: Message, attempt: nat, s: nat)
    ensures AttemptKey(m, attempt, s) in db.attempts ==> s in StagesOf(db, m, attempt)
  {
    var k := AttemptKey(m, attempt, s);
    if k in db.attempts {
      assert k.message == m && k.attempt == attempt && k.stage == s;
    }
  }

  lemma {:induction false} RecoveryTells(db: Database, messages: seq<Message>)
    requires LogTells(db)
    ensures LogGrows(db, RecoverAll(db, messages)) && LogTells(RecoverAll(db, messages))
  {
    if messages != [] {
      var before, m := RecoverAll(db, messages[..|messages| - 1]), messages[|messages| - 1];
      RecoveryTells(db, messages[..|messages| - 1]);
      hide RecoverRow, LogTells;
      if m in before.rows && before.rows[m].status == Claimed && before.rows[m].expired {
        RecoveredTells(before, m);
      }
    }
  }

  lemma ClaimTells(world: World, w: WorkerId, m: Message)
    requires Inv(world) && LogTells(world.db)
    ensures LogTells(Apply(world, TakeClaim(w, m)).db) && LogGrows(world.db, Apply(world, TakeClaim(w, m)).db)
  {
    hide Inv;
    var later := Apply(world, TakeClaim(w, m)).db;
    if later != world.db {
      assert Explained(later, m);
      OneRowExplained(world.db, later, m);
    }
  }

  lemma FailureTells(world: World, w: WorkerId)
    requires Inv(world) && LogTells(world.db)
    ensures LogTells(Apply(world, ReportFailure(w)).db) && LogGrows(world.db, Apply(world, ReportFailure(w)).db)
  {
    if FailsUnderCurrentToken(world, w) && FailSend(world.db, WorkerOf(world, w).lease).Some? {
      assert LeaseOk(world.db, world.sent, world.nextToken, world.workers[w]);
      FailureReschedules(world, w);
      hide Inv, Apply, FailSend, Claimable;
      RescheduledTells(world, Apply(world, ReportFailure(w)), WorkerOf(world, w).lease);
    } else {
      OutdatedFailureTells(world, w);
    }
  }

  lemma RescheduledTells(world: World, failed: World, l: Lease)
    requires LogTells(world.db) && Rescheduled(world, failed, l) && l.attempt == world.db.rows[l.message].attempt > 0
    requires AttemptKey(l.message, l.attempt, 3) !in world.db.attempts
    requires AttemptKey(l.message, l.attempt, 4) !in world.db.attempts
    ensures LogTells(failed.db) && LogGrows(world.db, failed.db)
  {
    hide Claimable;
    assert Explained(world.db, l.message);
    assert Entered(failed.db, l.message, 4, Retry);
    OneRowExplained(world.db, failed.db, l.message);
  }

  lemma OutdatedFailureTells(world: World, w: WorkerId)
    requires LogTells(world.db)
    requires !FailsUnderCurrentToken(world, w) || FailSend(world.db, WorkerOf(world, w).lease).None?
    ensures LogTells(Apply(world, ReportFailure(w)).db) && LogGrows(world.db, Apply(world, ReportFailure(w)).db)
  {
    hide LogTells;
    SameRowsTell(world.db, Apply(world, ReportFailure(w)).db);
  }

  /** What an acknowledgement leaves. */
  ghost predicate Settled(db: Database, later: Database, l: Lease) {
    l.message in db.rows && l.attempt == db.rows[l.message].attempt > 0 &&
    AttemptKey(l.message, l.attempt, 4) !in db.attempts &&
    later.attempts == db.attempts[AttemptKey(l.message, l.attempt, 4) := Ack] &&
    later.rows == db.rows[l.message := db.rows[l.message].(status := Acknowledged, expired := false)]
  }

  lemma SettledTells(db: Database, later: Database, l: Lease)
    requires LogTells(db) && Settled(db, later, l)
    ensures LogTells(later) && LogGrows(db, later)
  {
    assert Explained(db, l.message);
    OneRowExplained(db, later, l.message);
  }

  lemma AckTells(world: World, w: WorkerId)
    requires Inv(world) && LogTells(world.db)
    ensures LogTells(Apply(world, TakeAck(w)).db) && LogGrows(world.db, Apply(world, TakeAck(w)).db)
  {
    if WorkerOf(world, w).Returned? && Acknowledge(world.db, WorkerOf(world, w).lease).Some? {
      assert LeaseOk(world.db, world.sent, world.nextToken, world.workers[w]);
      hide Inv, LogTells;
      SettledTells(world.db, Apply(world, TakeAck(w)).db, WorkerOf(world, w).lease);
    }
  }

  lemma SameRowsTell(db: Database, later: Database)
    requires LogTells(db) && LogGrows(db, later) && later.rows == db.rows
    ensures LogTells(later)
  {
    hide LogGrows, Explained;
    forall m | m in later.rows
      ensures Explained(later, m)
    {
      SameRowExplained(db, later, m);
    }
  }

  lemma StepTells(world: World, step: Step)
    requires Inv(world) && LogTells(world.db)
    ensures LogTells(Apply(world, step).db) && LogGrows(world.db, Apply(world, step).db)
  {
    hide Inv, LogTells, LogGrows;
    match step
    case TakeClaim(w, m) => ClaimTells(world, w, m);
    case ReportFailure(w) => FailureTells(world, w);
    case TakeAck(w) => AckTells(world, w);
    case Recover(messages) => RecoveryTells(world.db, messages);
    case Insert(m) => InsertTells(world, m);
    case Expire(m) => ExpireTells(world, m);
    case StartSend(w, lost) => SendingTells(world, w, lost);
    case Send(_, _, _) => NothingTold(world.db);
    case ReturnSend(w, lost) => ReturningTells(world, w, lost);
    case Stop(_) => NothingTold(world.db);
  }

  lemma NothingTold(db: Database)
    ensures LogGrows(db, db)
  {
  }

  lemma SendingTells(world: World, w: WorkerId, lost: bool)
    requires LogTells(world.db)
    ensures LogTells(Apply(world, StartSend(w, lost)).db) && LogGrows(world.db, Apply(world, StartSend(w, lost)).db)
  {
    hide LogTells;
    SameRowsTell(world.db, Apply(world, StartSend(w, lost)).db);
  }

  lemma ReturningTells(world: World, w: WorkerId, lost: bool)
    requires LogTells(world.db)
    ensures LogTells(Apply(world, ReturnSend(w, lost)).db) && LogGrows(world.db, Apply(world, ReturnSend(w, lost)).db)
  {
    hide LogTells;
    SameRowsTell(world.db, Apply(world, ReturnSend(w, lost)).db);
  }

  lemma InsertTells(world: World, m: Message)
    requires LogTells(world.db)
    ensures LogTells(Apply(world, Insert(m)).db) && LogGrows(world.db, Apply(world, Insert(m)).db)
  {
    var later := Apply(world, Insert(m)).db;
    if later != world.db {
      OneRowExplained(world.db, later, m);
    }
  }

  lemma ExpireTells(world: World, m: Message)
    requires LogTells(world.db)
    ensures LogTells(Apply(world, Expire(m)).db) && LogGrows(world.db, Apply(world, Expire(m)).db)
  {
    var later := Apply(world, Expire(m)).db;
    if m in world.db.rows && world.db.rows[m].status == Claimed {
      SameRowExplained(world.db, later, m);
      OneRowExplained(world.db, later, m);
    }
  }

  /**
   In every reachable state the log explains every row: what has left PENDING was claimed under its present
   attempt, what is acknowledged has that attempt's acknowledgement, what waits for a retry has one scheduled.
   */
  lemma {:induction false} LogExplainsRows(steps: seq<Step>)
    ensures LogTells(Run(Start, steps).db)
  {
    if steps != [] {
      hide Inv, Apply, LogTells;
      var init, last := steps[..|steps| - 1], steps[|steps| - 1];
      LogExplainsRows(init);
      RunKeepsInv(init);
      StepTells(Run(Start, init), last);
    } else {
      assert Run(Start, steps) == Start;
    }
  }
}
