/**
 The outbox lease protocol: any number of pump workers claim messages under tokens, send them and
 acknowledge them, while leases expire and are recovered. Each database transaction is one step; a worker
 may stop between any two of its steps.
 */
module Outbox {
  import opened Prelude

  type GameId = nat
  type WorkerId = nat
  type Token = nat

  /** Messages of a game are numbered by the game's outbox head. */
  datatype Message = Message(game: GameId, sequence: nat)
  datatype Status = Pending | Claimed | RetryScheduled | Acknowledged
  datatype Row = Row(status: Status, attempt: nat, token: Option<Token>, expired: bool)

  datatype AttemptKey = AttemptKey(message: Message, attempt: nat, stage: nat)
  datatype AttemptEvent = Claim | SendStarted | SendReturned | Ack | Fail | LeaseExpired | Retry

  datatype Database = Database(rows: map<Message, Row>, attempts: map<AttemptKey, AttemptEvent>)

  datatype Lease = Lease(message: Message, attempt: nat, token: Token)

  /** Where a worker stands in publishing one claimed message. */
  datatype Worker =
    | Idle
    | Holding(lease: Lease)
    | Sending(lease: Lease)
    | Sent(lease: Lease)
    | Failing(lease: Lease)
    | Returned(lease: Lease)

  datatype World = World(db: Database, workers: map<WorkerId, Worker>, sent: seq<Message>, nextToken: Token)

  // ----------------------------------------------------------- transactions

  /** Every earlier message of the game has been acknowledged. */
  ghost predicate EarlierDone(db: Database, m: Message) {
    forall e :: e in db.rows && e.game == m.game && e.sequence < m.sequence ==> db.rows[e].status == Acknowledged
  }

  ghost predicate Claimable(db: Database, m: Message) {
    m in db.rows && EarlierDone(db, m) &&
    (db.rows[m].status == Pending || db.rows[m].status == RetryScheduled ||
     (db.rows[m].status == Claimed && db.rows[m].expired))
  }

  /** The attempt log refuses a second entry for the same message, attempt and stage. */
  function Log(db: Database, m: Message, attempt: nat, stage: nat, event: AttemptEvent): Option<Database> {
    var key := AttemptKey(m, attempt, stage);
    if key in db.attempts then None else Some(db.(attempts := db.attempts[key := event]))
  }

  function ClaimRow(db: Database, m: Message, token: Token): Option<Database>
    requires m in db.rows
  {
    var attempt := db.rows[m].attempt + 1;
    Log(db.(rows := db.rows[m := Row(Claimed, attempt, Some(token), false)]), m, attempt, 1, Claim)
  }

  /** A failed send is logged and retried; the row is matched by token alone, whatever its status. */
  function FailSend(db: Database, l: Lease): Option<Database> {
    var logged := Log(db, l.message, l.attempt, 3, Fail);
    if logged.None? then None
    else
      var rows := if l.message in db.rows && db.rows[l.message].token == Some(l.token)
                  then db.rows[l.message := db.rows[l.message].(status := RetryScheduled)] else db.rows;
      Log(logged.value.(rows := rows), l.message, l.attempt, 4, Retry)
  }

  predicate Authoritative(db: Database, l: Lease) {
    l.message in db.rows && db.rows[l.message].token == Some(l.token) && db.rows[l.message].status == Claimed
  }

  function Acknowledge(db: Database, l: Lease): Option<Database> {
    if !Authoritative(db, l) then None
    else
      var row := db.rows[l.message].(status := Acknowledged, expired := false);
      Log(db.(rows := db.rows[l.message := row]), l.message, l.attempt, 4, Ack)
  }

  lemma {:induction false} LargestExists(stages: set<nat>)
    requires stages != {}
    ensures exists m :: m in stages && forall s :: s in stages ==> s <= m
  {
    var x :| x in stages;
    var rest := stages - {x};
    assert stages == rest + {x};
    if rest != {} {
      LargestExists(rest);
      var m :| m in rest && forall s :: s in rest ==> s <= m;
      var top := if x > m then x else m;
      assert top in stages && forall s :: s in stages ==> s <= top;
    }
  }

  /** One after the last logged stage. */
  function NextStage(stages: set<nat>): (n: nat)
    ensures n > 0 && forall s :: s in stages ==> s < n
  {
    if stages == {} then 1
    else
      LargestExists(stages);
      var m :| m in stages && forall s :: s in stages ==> s <= m;
      m + 1
  }

  function StagesOf(db: Database, m: Message, attempt: nat): set<nat> {
    set k | k in db.attempts && k.message == m && k.attempt == attempt :: k.stage
  }

  /** An expired lease is logged and the message scheduled again. */
  function RecoverRow(db: Database, m: Message): Database
    requires m in db.rows
  {
    var row := db.rows[m];
    var stage := NextStage(StagesOf(db, m, row.attempt));
    Database(db.rows[m := row.(status := RetryScheduled)],
             db.attempts[AttemptKey(m, row.attempt, stage) := LeaseExpired][AttemptKey(m, row.attempt, stage + 1) :=
                 Retry])
  }

  /** One transaction recovers the listed messages whose leases have expired. */
  function RecoverAll(db: Database, messages: seq<Message>): (r: Database)
    ensures r.rows.Keys == db.rows.Keys
  {
    if messages == [] then db
    else
      var before, m := RecoverAll(db, messages[..|messages| - 1]), messages[|messages| - 1];
      if m in before.rows && before.rows[m].status == Claimed && before.rows[m].expired then RecoverRow(before, m)
        else before
  }

  // ------------------------------------------------------------------ steps

  /** `lost`: the transaction commits but its worker does not survive or sees an error. */
  datatype Step =
    | Insert(m: Message)
    | TakeClaim(w: WorkerId, m: Message)
    | StartSend(w: WorkerId, lost: bool)
    | Send(w: WorkerId, delivered: bool, lost: bool)
    | ReturnSend(w: WorkerId, lost: bool)
    | ReportFailure(w: WorkerId)
    | TakeAck(w: WorkerId)
    | Stop(w: WorkerId)
    | Expire(m: Message)
    | Recover(messages: seq<Message>)

  function WorkerOf(world: World, w: WorkerId): Worker {
    Get(world.workers, w, Idle)
  }

  function Put(world: World, db: Database, w: WorkerId, pc: Worker): World {
    world.(db := db, workers := world.workers[w := pc])
  }

  /**
   What a worker does next with its lease, or how a message is inserted, expired or recovered; a step that is
   not enabled changes nothing.
   */
  ghost function Apply(world: World, step: Step): World {
    var db := world.db;
    match step
    case Insert(m) =>
      if m in db.rows || exists e :: e in db.rows && e.game == m.game && e.sequence >= m.sequence then world
      else world.(db := db.(rows := db.rows[m := Row(Pending, 0, None, false)]))
    case TakeClaim(w, m) =>
      if !WorkerOf(world, w).Idle? || !Claimable(db, m) then world
      else
        var claimed := ClaimRow(db, m, world.nextToken);
        if claimed.None? then world
        else Put(world, claimed.value, w,
                 Holding(Lease(m, db.rows[m].attempt + 1, world.nextToken))).(nextToken := world.nextToken + 1)
    case StartSend(w, lost) =>
      if !WorkerOf(world, w).Holding? then world
      else
        var l := WorkerOf(world, w).lease;
        var logged := Log(db, l.message, l.attempt, 2, SendStarted);
        if logged.None? then Put(world, db, w, Idle) else Put(world, logged.value, w, if lost then Idle else Sending(l))
    case Send(w, delivered, lost) =>
      if !WorkerOf(world, w).Sending? then world
      else
        var l := WorkerOf(world, w).lease;
        Put(world, db, w, if delivered && !lost then Sent(l)
            else Failing(l)).(sent := if delivered then world.sent + [l.message] else world.sent)
    case ReturnSend(w, lost) =>
      if !WorkerOf(world, w).Sent? then world
      else
        var l := WorkerOf(world, w).lease;
        var logged := Log(db, l.message, l.attempt, 3, SendReturned);
        if logged.None? then Put(world, db, w, Failing(l))
          else Put(world, logged.value, w, if lost then Failing(l) else Returned(l))
    case ReportFailure(w) =>
      if !WorkerOf(world, w).Failing? then world
      else
        var failed := FailSend(db, WorkerOf(world, w).lease);
        Put(world, if failed.None? then db else failed.value, w, Idle)
    case TakeAck(w) =>
      if !WorkerOf(world, w).Returned? then world
      else
        var acked := Acknowledge(db, WorkerOf(world, w).lease);
        Put(world, if acked.None? then db else acked.value, w, Idle)
    case Stop(w) => Put(world, db, w, Idle)
    case Expire(m) =>
      if m in db.rows && db.rows[m].status ==
        Claimed then world.(db := db.(rows := db.rows[m := db.rows[m].(expired := true)])) else world
    case Recover(messages) => world.(db := RecoverAll(db, messages))
  }

  // -------------------------------------------------------------- invariant

  ghost predicate Leased(world: World, w: WorkerId) {
    w in world.workers && !world.workers[w].Idle?
  }

  function LeaseOf(world: World, w: WorkerId): Lease
    requires w in world.workers && !world.workers[w].Idle?
  {
    world.workers[w].lease
  }

  /** Highest stage of its attempt a worker has logged. */
  function Reached(pc: Worker): nat {
    match pc
    case Idle => 0
    case Holding(_) => 1
    case Sending(_) => 2
    case Sent(_) => 2
    case Failing(_) => 3
    case Returned(_) => 3
  }

  /** Only a first-in-line message has ever been claimed; what was acknowledged was sent. */
  ghost predicate RowsOk(db: Database, sent: seq<Message>, nextToken: Token) {
    (forall m :: m in db.rows && db.rows[m].status != Pending ==> EarlierDone(db, m)) &&
    (forall m :: m in db.rows && db.rows[m].status == Acknowledged ==> m in sent) &&
    (forall m :: m in db.rows && db.rows[m].token.Some? ==> db.rows[m].token.value < nextToken) &&
    (forall k :: k in db.attempts ==> k.message in db.rows && k.attempt <= db.rows[k.message].attempt)
  }

  /** A worker's lease: its message was first in line, its token is its own and has not acknowledged anything yet. */
  ghost predicate LeaseOk(db: Database, sent: seq<Message>, nextToken: Token, pc: Worker) {
    !pc.Idle? ==>
      var l := pc.lease;
      l.message in db.rows && EarlierDone(db, l.message) && 0 < l.attempt <= db.rows[l.message].attempt &&
        l.token < nextToken &&
      (forall m :: m in db.rows && db.rows[m].token == Some(l.token) ==> m == l.message) &&
      (db.rows[l.message].token == Some(l.token) <==> db.rows[l.message].attempt == l.attempt) &&
      (db.rows[l.message].token == Some(l.token) ==> db.rows[l.message].status != Acknowledged) &&
      (Authoritative(db, l) ==> forall s: nat :: AttemptKey(l.message, l.attempt, s) in db.attempts ==>
       s <= Reached(pc)) &&
      (pc.Sent? || pc.Returned? ==> l.message in sent)
  }

  /** Every message was sent after all earlier messages of its game. */
  ghost predicate SentInOrder(db: Database, sent: seq<Message>) {
    (forall m :: m in sent ==> m in db.rows) &&
    (forall i, e :: 0 <= i < |sent| && e in db.rows && e.game == sent[i].game && e.sequence < sent[i].sequence ==>
     e in sent[..i])
  }

  ghost predicate Different(a: Worker, b: Worker) {
    !a.Idle? && !b.Idle? ==>
      a.lease.token != b.lease.token && (a.lease.message == b.lease.message ==> a.lease.attempt != b.lease.attempt)
  }

  ghost predicate Inv(world: World) {
    RowsOk(world.db, world.sent, world.nextToken) && SentInOrder(world.db, world.sent) &&
    (forall w :: w in world.workers ==> LeaseOk(world.db, world.sent, world.nextToken, world.workers[w])) &&
    (forall v, w :: v in world.workers && w in world.workers && v != w ==>
     Different(world.workers[v], world.workers[w]))
  }

  // ---------------------------------------------------------- preservation

  /** Nothing a worker's lease relies on has changed. */
  ghost predicate Undisturbed(db: Database, later: Database, l: Lease) {
    (forall m :: m in db.rows ==> m in later.rows) && l.message in db.rows &&
    later.rows[l.message].attempt >= db.rows[l.message].attempt &&
    (forall m :: m in later.rows && later.rows[m].token == Some(l.token) ==>
     m in db.rows && db.rows[m].token == Some(l.token)) &&
    (later.rows[l.message].token == Some(l.token) ==>
      later.rows[l.message].attempt == db.rows[l.message].attempt && later.rows[l.message].status != Acknowledged) &&
    (later.rows[l.message].attempt == l.attempt && db.rows[l.message].token == Some(l.token) ==>
     later.rows[l.message].token == Some(l.token)) &&
    (Authoritative(later, l) ==> Authoritative(db, l)) &&
    (Authoritative(later, l) ==>
      forall s: nat :: AttemptKey(l.message, l.attempt, s) in later.attempts ==>
        AttemptKey(l.message, l.attempt, s) in db.attempts) &&
    (forall e :: e in db.rows && db.rows[e].status == Acknowledged ==> later.rows[e].status == Acknowledged) &&
    (forall e :: e in later.rows && e !in db.rows && e.game == l.message.game ==> e.sequence > l.message.sequence)
  }

  lemma LeaseStays(db: Database, later: Database, sent: seq<Message>, more: seq<Message>, nextToken: Token,
                   next: Token, pc: Worker)
    requires LeaseOk(db, sent, nextToken, pc) && nextToken <= next && forall m :: m in sent ==> m in more
    requires !pc.Idle? ==> Undisturbed(db, later, pc.lease)
    ensures LeaseOk(later, more, next, pc)
  {
  }

  /** All workers but one keep their leases; that one is looked at separately. */
  lemma OthersKeep(world: World, later: World, w: WorkerId)
    requires Inv(world) && world.nextToken <= later.nextToken && forall m :: m in world.sent ==> m in later.sent
    requires later.workers == world.workers[w := WorkerOf(later, w)] && w in later.workers
    requires RowsOk(later.db, later.sent, later.nextToken) && SentInOrder(later.db, later.sent)
    requires forall v :: v in world.workers && v != w && !world.workers[v].Idle? ==>
             Undisturbed(world.db, later.db, world.workers[v].lease)
    requires LeaseOk(later.db, later.sent, later.nextToken, WorkerOf(later, w))
    requires forall v :: v in world.workers && v != w ==> Different(world.workers[v], WorkerOf(later, w))
    ensures Inv(later)
  {
    forall v | v in later.workers
      ensures LeaseOk(later.db, later.sent, later.nextToken, later.workers[v])
    {
      if v != w {
        LeaseStays(world.db, later.db, world.sent, later.sent, world.nextToken, later.nextToken, world.workers[v]);
      }
    }
    hide LeaseOk, RowsOk, SentInOrder, Undisturbed;
    forall u, v | u in later.workers && v in later.workers && u != v
      ensures Different(later.workers[u], later.workers[v])
    {
    }
  }

  /** A step of the database alone. */
  lemma DatabaseKeeps(world: World, db: Database)
    requires Inv(world) && RowsOk(db, world.sent, world.nextToken) && SentInOrder(db, world.sent)
    requires forall v :: v in world.workers && !world.workers[v].Idle? ==>
             Undisturbed(world.db, db, world.workers[v].lease)
    ensures Inv(world.(db := db))
  {
    forall v | v in world.workers
      ensures LeaseOk(db, world.sent, world.nextToken, world.workers[v])
    {
      LeaseStays(world.db, db, world.sent, world.sent, world.nextToken, world.nextToken, world.workers[v]);
    }
  }

  lemma InsertKeeps(world: World, m: Message)
    requires Inv(world) && m !in world.db.rows
    requires forall e :: e in world.db.rows && e.game == m.game ==> e.sequence < m.sequence
    ensures Inv(world.(db := world.db.(rows := world.db.rows[m := Row(Pending, 0, None, false)])))
  {
    var db := world.db.(rows := world.db.rows[m := Row(Pending, 0, None, false)]);
    forall v | v in world.workers && !world.workers[v].Idle?
      ensures Undisturbed(world.db, db, world.workers[v].lease)
    {
      assert LeaseOk(world.db, world.sent, world.nextToken, world.workers[v]);
    }
    DatabaseKeeps(world, db);
  }

  lemma ExpireKeeps(world: World, m: Message)
    requires Inv(world) && m in world.db.rows && world.db.rows[m].status == Claimed
    ensures Inv(world.(db := world.db.(rows := world.db.rows[m := world.db.rows[m].(expired := true)])))
  {
    var db := world.db.(rows := world.db.rows[m := world.db.rows[m].(expired := true)]);
    forall v | v in world.workers && !world.workers[v].Idle?
      ensures Undisturbed(world.db, db, world.workers[v].lease)
    {
      assert LeaseOk(world.db, world.sent, world.nextToken, world.workers[v]);
    }
    DatabaseKeeps(world, db);
  }

  lemma RecoveredRows(world: World, m: Message)
    requires RowsOk(world.db, world.sent, world.nextToken) && m in world.db.rows && world.db.rows[m].status == Claimed
    ensures RowsOk(RecoverRow(world.db, m), world.sent, world.nextToken)
  {
    var db := RecoverRow(world.db, m);
    assert forall e :: e in world.db.rows && e != m ==> db.rows[e] == world.db.rows[e];
  }

  lemma RecoveredOthers(world: World, m: Message, pc: Worker)
    requires LeaseOk(world.db, world.sent, world.nextToken, pc) && !pc.Idle?
    requires m in world.db.rows && world.db.rows[m].status == Claimed
    ensures Undisturbed(world.db, RecoverRow(world.db, m), pc.lease)
  {
  }

  lemma RecoverRowKeeps(world: World, m: Message)
    requires Inv(world) && m in world.db.rows && world.db.rows[m].status == Claimed
    ensures Inv(world.(db := RecoverRow(world.db, m)))
  {
    assert RecoverRow(world.db, m).rows.Keys == world.db.rows.Keys;
    hide RowsOk, LeaseOk, SentInOrder, Undisturbed, RecoverRow;
    RecoveredRows(world, m);
    OrderIsOfMessages(world.db, RecoverRow(world.db, m), world.sent);
    forall v | v in world.workers && !world.workers[v].Idle?
      ensures Undisturbed(world.db, RecoverRow(world.db, m), world.workers[v].lease)
    {
      RecoveredOthers(world, m, world.workers[v]);
    }
    DatabaseKeeps(world, RecoverRow(world.db, m));
  }

  lemma {:induction false} RecoverKeeps(world: World, messages: seq<Message>)
    requires Inv(world)
    ensures Inv(world.(db := RecoverAll(world.db, messages)))
  {
    if messages != [] {
      hide Inv, RecoverRow;
      var init, m := messages[..|messages| - 1], messages[|messages| - 1];
      RecoverKeeps(world, init);
      var before := world.(db := RecoverAll(world.db, init));
      if m in before.db.rows && before.db.rows[m].status == Claimed {
        RecoverRowKeeps(before, m);
      }
    }
  }

  /** The order of sending speaks of the messages only, not of their rows. */
  lemma OrderIsOfMessages(db: Database, later: Database, sent: seq<Message>)
    requires SentInOrder(db, sent) && later.rows.Keys == db.rows.Keys
    ensures SentInOrder(later, sent)
  {
  }

  lemma ClaimedLease(world: World, m: Message)
    requires RowsOk(world.db, world.sent, world.nextToken) && Claimable(world.db, m)
    ensures ClaimRow(world.db, m, world.nextToken).Some?
    ensures LeaseOk(ClaimRow(world.db, m, world.nextToken).value, world.sent, world.nextToken + 1,
                    Holding(Lease(m, world.db.rows[m].attempt + 1, world.nextToken)))
  {
  }

  lemma ClaimedRows(world: World, m: Message)
    requires RowsOk(world.db, world.sent, world.nextToken) && Claimable(world.db, m)
    requires ClaimRow(world.db, m, world.nextToken).Some?
    ensures RowsOk(ClaimRow(world.db, m, world.nextToken).value, world.sent, world.nextToken + 1)
  {
    var db := ClaimRow(world.db, m, world.nextToken).value;
    assert forall e :: e in world.db.rows && e != m ==> db.rows[e] == world.db.rows[e];
  }

  lemma ClaimedOthers(world: World, m: Message, pc: Worker)
    requires LeaseOk(world.db, world.sent, world.nextToken, pc) && !pc.Idle? && Claimable(world.db, m)
    requires ClaimRow(world.db, m, world.nextToken).Some?
    ensures Undisturbed(world.db, ClaimRow(world.db, m, world.nextToken).value, pc.lease)
    ensures Different(pc, Holding(Lease(m, world.db.rows[m].attempt + 1, world.nextToken)))
  {
  }

  lemma ClaimKeeps(world: World, w: WorkerId, m: Message)
    requires Inv(world) && WorkerOf(world, w).Idle? && Claimable(world.db, m)
    ensures Inv(Apply(world, TakeClaim(w, m))) && ClaimRow(world.db, m, world.nextToken).Some?
  {
    assert ClaimRow(world.db, m, world.nextToken).Some? ==>
        ClaimRow(world.db, m, world.nextToken).value.rows.Keys == world.db.rows.Keys;
    hide RowsOk, LeaseOk, SentInOrder, Undisturbed, Different, ClaimRow;
    ClaimedLease(world, m);
    ClaimedRows(world, m);
    var later := Apply(world, TakeClaim(w, m));
    OrderIsOfMessages(world.db, later.db, world.sent);
    forall v | v in world.workers && v != w
      ensures !world.workers[v].Idle? ==> Undisturbed(world.db, later.db, world.workers[v].lease)
      ensures Different(world.workers[v], WorkerOf(later, w))
    {
      if !world.workers[v].Idle? {
        ClaimedOthers(world, m, world.workers[v]);
      } else {
        IdleDiffers(world.workers[v], WorkerOf(later, w));
      }
    }
    OthersKeep(world, later, w);
  }

  lemma IdleDiffers(a: Worker, b: Worker)
    requires a.Idle? || b.Idle?
    ensures Different(a, b)
  {
  }

  /** Logging a stage of one's own attempt. */
  lemma LogKeeps(world: World, w: WorkerId, stage: nat, event: AttemptEvent, pc: Worker)
    requires Inv(world) && Leased(world, w) && (pc.Idle? || (pc.lease == LeaseOf(world, w) && stage <= Reached(pc)))
    requires Reached(world.workers[w]) <= Reached(pc) || pc.Idle?
    requires pc.Returned? || pc.Sent? ==> LeaseOf(world, w).message in world.sent
    requires Log(world.db, LeaseOf(world, w).message, LeaseOf(world, w).attempt, stage, event).Some?
    ensures Inv(Put(world, Log(world.db, LeaseOf(world, w).message, LeaseOf(world, w).attempt, stage, event).value, w,
                    pc))
  {
    var l := LeaseOf(world, w);
    var db := Log(world.db, l.message, l.attempt, stage, event).value;
    assert LeaseOk(world.db, world.sent, world.nextToken, world.workers[w]);
    forall v | v in world.workers && v != w && !world.workers[v].Idle?
      ensures Undisturbed(world.db, db, world.workers[v].lease) && Different(world.workers[v], pc)
    {
      assert LeaseOk(world.db, world.sent, world.nextToken, world.workers[v]);
      assert Different(world.workers[v], world.workers[w]);
    }
    OthersKeep(world, Put(world, db, w, pc), w);
  }

  lemma SameDatabase(db: Database, sent: seq<Message>, nextToken: Token, pc: Worker)
    requires LeaseOk(db, sent, nextToken, pc) && !pc.Idle?
    ensures Undisturbed(db, db, pc.lease)
  {
  }

  /** Sending a message that is first in line keeps the order of everything sent. */
  lemma SendKeepsOrder(db: Database, sent: seq<Message>, nextToken: Token, pc: Worker)
    requires RowsOk(db, sent, nextToken) && SentInOrder(db, sent) && LeaseOk(db, sent, nextToken, pc) && !pc.Idle?
    ensures RowsOk(db, sent + [pc.lease.message], nextToken) && SentInOrder(db, sent + [pc.lease.message])
  {
    var m := pc.lease.message;
    var more := sent + [m];
    forall i, e | 0 <= i < |more| && e in db.rows && e.game == more[i].game && e.sequence < more[i].sequence
      ensures e in more[..i]
    {
      if i < |sent| {
        assert more[..i] == sent[..i];
      } else {
        assert more[..i] == sent;
        assert db.rows[e].status == Acknowledged;
      }
    }
  }

  /** A worker moves on without touching the database. */
  lemma WorkerKeeps(world: World, w: WorkerId, pc: Worker, sent: seq<Message>)
    requires Inv(world)
    requires !pc.Idle? ==>
               Leased(world, w) && pc.lease == LeaseOf(world, w) && Reached(world.workers[w]) <= Reached(pc)
    requires sent == world.sent || (Leased(world, w) && sent == world.sent + [LeaseOf(world, w).message])
    requires pc.Sent? || pc.Returned? ==> pc.lease.message in sent
    ensures Inv(Put(world, world.db, w, pc).(sent := sent))
  {
    var later := Put(world, world.db, w, pc).(sent := sent);
    if sent != world.sent {
      SendKeepsOrder(world.db, world.sent, world.nextToken, world.workers[w]);
    }
    assert LeaseOk(world.db, sent, world.nextToken, pc) by {
      hide RowsOk, SentInOrder;
      if !pc.Idle? {
        assert LeaseOk(world.db, world.sent, world.nextToken, world.workers[w]);
      }
    }
    hide RowsOk, SentInOrder, LeaseOk, Undisturbed;
    forall v | v in world.workers && v != w
      ensures !world.workers[v].Idle? ==> Undisturbed(world.db, world.db, world.workers[v].lease)
      ensures Different(world.workers[v], pc)
    {
      if !world.workers[v].Idle? {
        SameDatabase(world.db, world.sent, world.nextToken, world.workers[v]);
      }
      if w in world.workers {
        assert Different(world.workers[v], world.workers[w]);
      }
    }
    OthersKeep(world, later, w);
  }

  // ------------------------------------------------- failure and acknowledgement

  lemma FailedRows(world: World, pc: Worker, db: Database)
    requires RowsOk(world.db, world.sent, world.nextToken) && SentInOrder(world.db, world.sent)
    requires !pc.Idle? && LeaseOk(world.db, world.sent, world.nextToken, pc) && FailSend(world.db, pc.lease) == Some(db)
    ensures RowsOk(db, world.sent, world.nextToken) && SentInOrder(db, world.sent)
  {
    assert forall e :: e in world.db.rows && e != pc.lease.message ==> db.rows[e] == world.db.rows[e];
  }

  lemma FailedOthers(world: World, pc: Worker, db: Database, other: Worker)
    requires !pc.Idle? && LeaseOk(world.db, world.sent, world.nextToken, pc) && FailSend(world.db, pc.lease) == Some(db)
    requires !other.Idle? && LeaseOk(world.db, world.sent, world.nextToken, other) && Different(other, pc)
    ensures Undisturbed(world.db, db, other.lease)
  {
  }

  lemma FailKeeps(world: World, w: WorkerId, db: Database)
    requires Inv(world) && Leased(world, w) && FailSend(world.db, LeaseOf(world, w)) == Some(db)
    ensures Inv(Put(world, db, w, Idle))
  {
    hide RowsOk, SentInOrder, LeaseOk, Undisturbed, FailSend;
    var pc := world.workers[w];
    FailedRows(world, pc, db);
    forall v | v in world.workers && v != w
      ensures !world.workers[v].Idle? ==> Undisturbed(world.db, db, world.workers[v].lease)
      ensures Different(world.workers[v], Idle)
    {
      if !world.workers[v].Idle? {
        FailedOthers(world, pc, db, world.workers[v]);
      }
    }
    IdleOk(db, world.sent, world.nextToken);
    OthersKeep(world, Put(world, db, w, Idle), w);
  }

  lemma IdleOk(db: Database, sent: seq<Message>, nextToken: Token)
    ensures LeaseOk(db, sent, nextToken, Idle)
  {
  }

  /** An authoritative worker that logged its send finds stage 4 of its attempt free. */
  lemma AckedRows(world: World, pc: Worker)
    requires RowsOk(world.db, world.sent, world.nextToken) && SentInOrder(world.db, world.sent)
    requires pc.Returned? && LeaseOk(world.db, world.sent, world.nextToken, pc)
    ensures Acknowledge(world.db, pc.lease).Some? <==> Authoritative(world.db, pc.lease)
    ensures Authoritative(world.db, pc.lease) ==>
              RowsOk(Acknowledge(world.db, pc.lease).value, world.sent, world.nextToken) &&
              SentInOrder(Acknowledge(world.db, pc.lease).value, world.sent)
  {
    if Authoritative(world.db, pc.lease) {
      assert AttemptKey(pc.lease.message, pc.lease.attempt, 4) !in world.db.attempts;
      var db := Acknowledge(world.db, pc.lease).value;
      assert forall e :: e in world.db.rows && e != pc.lease.message ==> db.rows[e] == world.db.rows[e];
    }
  }

  lemma AckedOthers(world: World, pc: Worker, db: Database, other: Worker)
    requires !pc.Idle? && LeaseOk(world.db, world.sent, world.nextToken, pc)
    requires Acknowledge(world.db, pc.lease) == Some(db)
    requires !other.Idle? && LeaseOk(world.db, world.sent, world.nextToken, other) && Different(other, pc)
    ensures Undisturbed(world.db, db, other.lease)
  {
  }

  lemma AckKeeps(world: World, w: WorkerId, db: Database)
    requires Inv(world) && Leased(world, w) && world.workers[w].Returned?
    requires Acknowledge(world.db, LeaseOf(world, w)) == Some(db)
    ensures Inv(Put(world, db, w, Idle))
  {
    hide RowsOk, SentInOrder, LeaseOk, Undisturbed, Acknowledge;
    var pc := world.workers[w];
    AckedRows(world, pc);
    forall v | v in world.workers && v != w
      ensures !world.workers[v].Idle? ==> Undisturbed(world.db, db, world.workers[v].lease)
      ensures Different(world.workers[v], Idle)
    {
      if !world.workers[v].Idle? {
        AckedOthers(world, pc, db, world.workers[v]);
      }
    }
    IdleOk(db, world.sent, world.nextToken);
    OthersKeep(world, Put(world, db, w, Idle), w);
  }
}
