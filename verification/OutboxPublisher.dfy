/** The publisher's transactions as they update the delivery rows and the attempt log, and the pump that calls them. */
module OutboxPublisher {
  import opened Prelude
  import opened Outbox
  import OutboxRuns

  /** An answer the claim query may give: locked rows are skipped, and the lowest claimable message wins. */
  ghost predicate Selected(db: Database, game: Option<GameId>, locked: set<Message>, candidate: Option<Message>) {
    match candidate
    case None => forall m :: Claimable(db, m) && (game.None? || m.game == game.value) ==> m in locked
    case Some(c) =>
      Claimable(db, c) && c !in locked && (game.None? || c.game == game.value) &&
      forall m :: Claimable(db, m) && m !in locked && (game.None? || m.game == game.value) ==>
        c.game < m.game || (c.game == m.game && c.sequence <= m.sequence)
  }

  lemma SelectedIsClaimable(db: Database, game: Option<GameId>, locked: set<Message>, candidate: Option<Message>)
    requires Selected(db, game, locked, candidate) && candidate.Some?
    ensures Claimable(db, candidate.value)
    ensures candidate.value in db.rows
  {
  }

  function Retried(row: Row): Row {
    row.(status := RetryScheduled)
  }

  ghost predicate RunOut(db: Database, m: Message) {
    m in db.rows && db.rows[m].status == Claimed && db.rows[m].expired
  }

  /** Recovering distinct expired leases one by one reschedules exactly their rows. */
  lemma {:induction false} RecoverAllRows(db: Database, messages: seq<Message>, m: Message)
    requires Distinct(messages) && (forall x :: x in messages ==> RunOut(db, x)) && m in db.rows
    ensures m in RecoverAll(db, messages).rows
    ensures RecoverAll(db, messages).rows[m] == if m in messages then Retried(db.rows[m]) else db.rows[m]
  {
    if messages != [] {
      var init, last := messages[..|messages| - 1], messages[|messages| - 1];
      assert messages == init + [last];
      assert last !in init;
      assert RunOut(db, last);
      RecoverAllRows(db, init, m);
      RecoverAllRows(db, init, last);
    }
  }

  lemma NothingToRecover(db: Database)
    ensures RecoverAll(db, []) == db
  {
  }

  lemma RecoverOneMore(db: Database, expired: seq<Message>, i: nat)
    requires i < |expired| && Distinct(expired) && forall x :: x in expired ==> RunOut(db, x)
    ensures
      var before, m := RecoverAll(db, expired[..i]), expired[i];
      m in before.rows && before.rows[m] == db.rows[m] && RecoverAll(db, expired[..i + 1]) == RecoverRow(before, m)
  {
    hide RecoverRow;
    assert RunOut(db, expired[i]);
    assert expired[..i + 1][..i] == expired[..i];
    assert expired[i] !in expired[..i];
    RecoverAllRows(db, expired[..i], expired[i]);
  }

  lemma RecoveredAll(db: Database, expired: seq<Message>)
    requires Distinct(expired) && forall x :: x in expired ==> RunOut(db, x)
    ensures RecoverAll(db, expired).rows == map m | m in db.rows :: if m in expired then Retried(db.rows[m])
            else db.rows[m]
  {
    forall m | m in db.rows
      ensures m in RecoverAll(db, expired).rows
      ensures RecoverAll(db, expired).rows[m] == if m in expired then Retried(db.rows[m]) else db.rows[m]
    {
      RecoverAllRows(db, expired, m);
    }
  }

  /**
   A worker's steps for a message it holds, up to the acknowledgement; steps its outcomes do not enable have
   no effect.
   */
  ghost function Delivered(world: World, w: WorkerId, delivered: bool, lost: bool): World {
    Apply(Apply(Apply(Apply(world, StartSend(w, false)), Send(w, delivered, lost)), ReturnSend(w, false)),
          ReportFailure(w))
  }

  class PostgresOutboxPublisher {
    var rows: map<Message, Row>
    var attempts: map<AttemptKey, AttemptEvent>
    var claimedMessages: nat
    var deliveryAttempts: nat
    var recoveredLeases: nat

    function Db(): Database
      reads this
    {
      Database(rows, attempts)
    }

    method AppendAttempt(m: Message, attempt: nat, stage: nat, event: AttemptEvent) returns (ok: bool)
      modifies this`attempts
      ensures ok == Log(old(Db()), m, attempt, stage, event).Some?
      ensures Db() == if ok then Log(old(Db()), m, attempt, stage, event).value else old(Db())
    {
      var key := AttemptKey(m, attempt, stage);
      ok := key !in attempts;
      if ok {
        attempts := attempts[key := event];
      }
    }

    /** Without a candidate nothing changes; a refused log entry rolls the claim back. */
    method ClaimOne(token: Token, game: Option<GameId>, ghost locked: set<Message>, candidate: Option<Message>)
      returns (lease: Option<Lease>)
      requires Selected(Db(), game, locked, candidate)
      modifies this`rows, this`attempts, this`claimedMessages
      ensures candidate.None? ==> lease.None?
      ensures candidate.Some? ==>
                lease.Some? == ClaimRow(old(Db()), candidate.value, token).Some? &&
                (lease.Some? ==>
                  lease.value == Lease(candidate.value, old(Db()).rows[candidate.value].attempt + 1, token))
      ensures Db() == if lease.Some? then ClaimRow(old(Db()), candidate.value, token).value else old(Db())
      ensures claimedMessages == old(claimedMessages) + if lease.Some? then 1 else 0
    {
      if candidate.None? {
        return None;
      }
      var m := candidate.value;
      var attempt := rows[m].attempt + 1;
      var before := rows;
      rows := rows[m := Row(Claimed, attempt, Some(token), false)];
      var ok := AppendAttempt(m, attempt, 1, Claim);
      if !ok {
        rows := before;
        return None;
      }
      claimedMessages := claimedMessages + 1;
      lease := Some(Lease(m, attempt, token));
    }

    /** The transaction that follows a failed send; any refused entry rolls all of it back. */
    method RecordFailure(l: Lease) returns (ok: bool)
      modifies this`rows, this`attempts
      ensures ok == FailSend(old(Db()), l).Some?
      ensures Db() == if ok then FailSend(old(Db()), l).value else old(Db())
    {
      var oldRows, oldAttempts := rows, attempts;
      ok := AppendAttempt(l.message, l.attempt, 3, Fail);
      if ok {
        if l.message in rows && rows[l.message].token == Some(l.token) {
          rows := rows[l.message := rows[l.message].(status := RetryScheduled)];
        }
        ok := AppendAttempt(l.message, l.attempt, 4, Retry);
      }
      if !ok {
        rows, attempts := oldRows, oldAttempts;
      }
    }

    /** The sender either returns or throws; a thrown send may still have been delivered. */
    method Deliver(l: Lease, delivered: bool, lost: bool, ghost before: World, ghost w: WorkerId) returns (ok: bool)
      requires before.db == Db() && before.workers == map[w := Holding(l)]
      modifies this`rows, this`attempts, this`deliveryAttempts
      ensures ok ==> delivered && !lost
      ensures deliveryAttempts == old(deliveryAttempts) + 1
      ensures
        var after := Delivered(before, w, delivered, lost);
        Db() == after.db && w in after.workers && after.workers[w] == if ok then Returned(l) else Idle
    {
      deliveryAttempts := deliveryAttempts + 1;
      ok := AppendAttempt(l.message, l.attempt, 2, SendStarted);
      if !ok {
        return;
      }
      ok := delivered && !lost;
      if ok {
        ok := AppendAttempt(l.message, l.attempt, 3, SendReturned);
      }
      if !ok {
        var _ := RecordFailure(l);
      }
    }

    method Acknowledge(l: Lease) returns (ok: bool)
      modifies this`rows, this`attempts
      ensures ok == Outbox.Acknowledge(old(Db()), l).Some?
      ensures Db() == if ok then Outbox.Acknowledge(old(Db()), l).value else old(Db())
    {
      ok := l.message in rows && rows[l.message].token == Some(l.token) && rows[l.message].status == Claimed;
      if !ok {
        return;
      }
      var before := rows;
      rows := rows[l.message := rows[l.message].(status := Acknowledged, expired := false)];
      ok := AppendAttempt(l.message, l.attempt, 4, Ack);
      if !ok {
        rows := before;
      }
    }

    /** One statement reschedules every expired lease; then each is logged under the next free stages. */
    method RecoverExpiredLeases(expired: seq<Message>)
      requires Distinct(expired) && forall m :: m in expired <==> RunOut(Db(), m)
      modifies this`rows, this`attempts, this`recoveredLeases
      ensures Db() == RecoverAll(old(Db()), expired)
      ensures forall m :: m in rows ==> !RunOut(Db(), m)
      ensures recoveredLeases == old(recoveredLeases) + |expired|
    {
      hide RecoverAll;
      ghost var before := Db();
      RecoveredAll(before, expired);
      rows := map m | m in rows :: if m in expired then Retried(rows[m]) else rows[m];
      var i := 0;
      assert expired[..0] == [] && RecoverAll(before, []) == before by {
        NothingToRecover(before);
      }
      while i < |expired|
        modifies this`attempts
        invariant 0 <= i <= |expired|
        invariant attempts == RecoverAll(before, expired[..i]).attempts
      {
        var m := expired[i];
        RecoverOneMore(before, expired, i);
        var stages := StagesOf(Db(), m, rows[m].attempt);
        assert stages == StagesOf(RecoverAll(before, expired[..i]), m, rows[m].attempt);
        var stage := NextStage(stages);
        attempts := attempts[AttemptKey(m, rows[m].attempt, stage) :=
                             LeaseExpired][AttemptKey(m, rows[m].attempt, stage + 1) := Retry];
        i := i + 1;
      }
      assert expired[..i] == expired;
      recoveredLeases := recoveredLeases + |expired|;
    }
  }

  /** A worker's whole dealing with one message. */
  ghost function Published(db: Database, w: WorkerId, m: Message, token: Token, delivered: bool, lost: bool): World {
    Apply(Delivered(Apply(World(db, map[], [], token), TakeClaim(w, m)), w, delivered, lost), TakeAck(w))
  }

  lemma ClaimStep(db: Database, w: WorkerId, m: Message, token: Token)
    requires Claimable(db, m)
    ensures
      var start := World(db, map[], [], token);
      Apply(start, TakeClaim(w, m)) ==
      if ClaimRow(db, m, token).None? then start
      else World(ClaimRow(db, m, token).value, map[w := Holding(Lease(m, db.rows[m].attempt + 1, token))], [],
                 token + 1)
  {
    hide ClaimRow, Claimable;
    assert forall pc: Worker :: map[][w := pc] == map[w := pc];
  }

  lemma AckStep(world: World, w: WorkerId, l: Lease)
    requires w in world.workers
    ensures world.workers[w] == Idle ==> Apply(world, TakeAck(w)).db == world.db
    ensures world.workers[w] == Returned(l) ==>
              Apply(world, TakeAck(w)).db ==
              if Outbox.Acknowledge(world.db, l).None? then world.db else Outbox.Acknowledge(world.db, l).value
  {
    hide Outbox.Acknowledge;
  }

  lemma NothingPublished(db: Database, w: WorkerId, m: Message, token: Token, delivered: bool, lost: bool)
    requires Claimable(db, m) && ClaimRow(db, m, token).None?
    ensures Published(db, w, m, token, delivered, lost).db == db
  {
    hide ClaimRow;
    ClaimStep(db, w, m, token);
  }

  /** The three transactions of a publication, one after the other, are the worker's steps. */
  lemma PublicationSteps(db: Database, w: WorkerId, m: Message, token: Token, delivered: bool, lost: bool)
    requires Claimable(db, m) && ClaimRow(db, m, token).Some?
    ensures
      var l := Lease(m, db.rows[m].attempt + 1, token);
      var d := Delivered(World(ClaimRow(db, m, token).value, map[w := Holding(l)], [], token + 1), w, delivered, lost);
      w in d.workers ==>
        (d.workers[w] == Idle ==> Published(db, w, m, token, delivered, lost).db == d.db) &&
        (d.workers[w] == Returned(l) ==>
          var acked := Outbox.Acknowledge(d.db, l);
          Published(db, w, m, token, delivered, lost).db == (if acked.None? then d.db else acked.value) &&
          (acked.Some? ==> m in acked.value.rows && acked.value.rows[m].status == Acknowledged))
  {
    var l := Lease(m, db.rows[m].attempt + 1, token);
    var d := Delivered(World(ClaimRow(db, m, token).value, map[w := Holding(l)], [], token + 1), w, delivered, lost);
    hide Delivered, Apply, ClaimRow, Claimable;
    ClaimStep(db, w, m, token);
    if w in d.workers {
      AckStep(d, w, l);
    }
  }

  class RealtimeOutboxPump {
    const publisher: PostgresOutboxPublisher
    var acceptingClaims: bool

    constructor (publisher: PostgresOutboxPublisher)
      ensures this.publisher == publisher && acceptingClaims
    {
      this.publisher := publisher;
      acceptingClaims := true;
    }

    method DrainAndStop()
      modifies this
      ensures !acceptingClaims
    {
      acceptingClaims := false;
    }

    /**
     Claim, deliver, acknowledge, stopping at the first that throws: with nobody acting in between, the
     database ends where the worker's steps lead, and the result says whether the message is acknowledged.
     */
    method PublishOne(token: Token, game: Option<GameId>, ghost locked: set<Message>, candidate: Option<Message>,
                      delivered: bool, lost: bool, ghost w: WorkerId)
      returns (published: bool)
      requires Selected(publisher.Db(), game, locked, candidate)
      modifies publisher
      ensures !acceptingClaims || candidate.None? ==> !published && publisher.Db() == old(publisher.Db())
      ensures acceptingClaims && candidate.Some? ==>
                publisher.Db() == Published(old(publisher.Db()), w, candidate.value, token, delivered, lost).db
      ensures published ==>
                delivered && candidate.value in publisher.Db().rows &&
                publisher.Db().rows[candidate.value].status == Acknowledged
    {
      hide *;
      published := false;
      if !acceptingClaims {
        return;
      }
      ghost var db := publisher.Db();
      if candidate.Some? {
        SelectedIsClaimable(db, game, locked, candidate);
      }
      var lease := publisher.ClaimOne(token, game, locked, candidate);
      if candidate.None? {
        return;
      }
      if lease.None? {
        NothingPublished(db, w, candidate.value, token, delivered, lost);
        return;
      }
      PublicationSteps(db, w, candidate.value, token, delivered, lost);
      ghost var claimed := World(publisher.Db(), map[w := Holding(lease.value)], [], token + 1);
      var ok := publisher.Deliver(lease.value, delivered, lost, claimed, w);
      if !ok {
        return;
      }
      published := publisher.Acknowledge(lease.value);
    }
  }
}
