/** The persistent event queue: one table of rows, each method one transaction. */
module CfsQueue {

  datatype Option<T> = None | Some(value: T)

  datatype EventKind = MemoryStored | CheckUpdate | SessionTurnStored | SessionMerged | SessionEnded

  datatype Event = Event(
    kind: EventKind, tenant: string, user: string, project: string,
    session: string, uri: string, recordId: string)

  /** A queue payload; `None` stands for one the worker cannot decode. */
  datatype Payload = Payload(event: Option<Event>, requestId: string)

  datatype Status = Pending | Processing | Done | Failed

  datatype Row = Row(
    queueName: string, payload: Payload, status: Status,
    attempts: nat, maxAttempts: nat,
    availableAt: real, startedAt: Option<real>, createdAt: real,
    requeueCount: nat)

  /** The worker's copy of a claimed row. */
  datatype QueueMessage = QueueMessage(
    id: string, queueName: string, payload: Payload, attempts: nat, maxAttempts: nat)

  type Rows = map<string, Row>

  function AtLeastOne(n: int): nat {
    if n > 1 then n else 1
  }

  function NonNegative(d: real): real {
    if d > 0.0 then d else 0.0
  }

  // ---- What each transaction does to one row ----

  function NewRow(queueName: string, payload: Payload, maxAttempts: int, now: real): Row {
    Row(queueName, payload, Pending, 0, AtLeastOne(maxAttempts), now, None, now, 0)
  }

  predicate Claimable(r: Row, queueName: string, now: real) {
    r.queueName == queueName && r.status == Pending && r.availableAt <= now
  }

  function ClaimRow(r: Row, now: real): Row {
    r.(status := Processing, attempts := r.attempts + 1, startedAt := Some(now))
  }

  function AckRow(r: Row): Row {
    r.(status := Done, startedAt := None)
  }

  /** Only a processing row is released; a release gives the attempt back. */
  function ReleaseRow(r: Row, now: real, delay: real): Row {
    if r.status != Processing then r
    else r.(status := Pending, startedAt := None, availableAt := now + NonNegative(delay),
            attempts := if r.attempts > 0 then r.attempts - 1 else 0)
  }

  function FailRow(r: Row, retry: bool, now: real, delay: real): Row {
    if retry && r.attempts < r.maxAttempts then
      r.(status := Pending, startedAt := None, availableAt := now + NonNegative(delay),
         requeueCount := r.requeueCount + 1)
    else
      r.(status := Failed, startedAt := None)
  }

  predicate Stale(r: Row, now: real, staleAfter: real) {
    r.status == Processing && r.startedAt.Some? && r.startedAt.value < now - staleAfter
  }

  function RecoverRow(r: Row, now: real): Row {
    r.(status := Pending, startedAt := None, availableAt := now, requeueCount := r.requeueCount + 1)
  }

  function RequeueRow(r: Row, newMax: Option<int>, reset: bool, now: real): Row {
    r.(status := Pending, startedAt := None, availableAt := now,
       attempts := if reset then 0 else r.attempts,
       maxAttempts := if newMax.Some? then AtLeastOne(newMax.value) else r.maxAttempts,
       requeueCount := r.requeueCount + 1)
  }

  // ---- The table as a transition system ----

  datatype Op =
    | Enqueue(id: string, queueName: string, payload: Payload, max: int, now: real)
    | Claim(id: string, now: real)
    | Ack(id: string)
    | Release(id: string, now: real, delay: real)
    | Fail(id: string, retry: bool, now: real, delay: real)
    | Recover(queue: Option<string>, now: real)
    | RequeueFailed(queueName: string, newMax: Option<int>, reset: bool, now: real)

  predicate HitByRecover(r: Row, op: Op, staleAfter: real)
    requires op.Recover?
  {
    Stale(r, op.now, staleAfter) && (op.queue.Some? ==> r.queueName == op.queue.value)
  }

  /** One transaction. Ids that do not match any row change nothing, as in SQL. */
  function Apply(rows: Rows, op: Op, staleAfter: real): Rows {
    match op
    case Enqueue(id, queueName, payload, max, now) =>
      if id in rows then rows else rows[id := NewRow(queueName, payload, max, now)]
    case Claim(id, now) =>
      if id in rows && Claimable(rows[id], rows[id].queueName, now)
      then rows[id := ClaimRow(rows[id], now)] else rows
    case Ack(id) => if id in rows then rows[id := AckRow(rows[id])] else rows
    case Release(id, now, delay) =>
      if id in rows then rows[id := ReleaseRow(rows[id], now, delay)] else rows
    case Fail(id, retry, now, delay) =>
      if id in rows then rows[id := FailRow(rows[id], retry, now, delay)] else rows
    case Recover(_, now) =>
      map id | id in rows ::
        if HitByRecover(rows[id], op, staleAfter) then RecoverRow(rows[id], now) else rows[id]
    case RequeueFailed(queueName, newMax, reset, now) =>
      map id | id in rows ::
        if rows[id].status == Failed && rows[id].queueName == queueName
        then RequeueRow(rows[id], newMax, reset, now) else rows[id]
  }

  function Table(ops: seq<Op>, staleAfter: real): Rows {
    if ops == [] then map[]
    else Apply(Table(ops[..|ops| - 1], staleAfter), ops[|ops| - 1], staleAfter)
  }

  /** How many stale recoveries hit the message. */
  function Recoveries(ops: seq<Op>, id: string, staleAfter: real): nat {
    if ops == [] then 0
    else
      var before, op := ops[..|ops| - 1], ops[|ops| - 1];
      var rows := Table(before, staleAfter);
      Recoveries(before, id, staleAfter)
      + if op.Recover? && id in rows && HitByRecover(rows[id], op, staleAfter) then 1 else 0
  }

  /** In every sequence of transactions, by owners and stale workers alike, each attempt
      beyond the first was paid for by a requeue. */
  lemma {:induction false} AttemptsCoveredByRequeues(ops: seq<Op>, staleAfter: real, id: string)
    requires id in Table(ops, staleAfter)
    ensures var r := Table(ops, staleAfter)[id];
            && r.attempts <= r.requeueCount + 1
            && (r.status == Pending ==> r.attempts <= r.requeueCount)
  {
    var before := ops[..|ops| - 1];
    if id in Table(before, staleAfter) {
      AttemptsCoveredByRequeues(before, staleAfter, id);
    }
  }

  predicate DefaultResets(ops: seq<Op>) {
    forall op :: op in ops && op.RequeueFailed? ==> op.reset
  }

  predicate Within(r: Row, extra: nat) {
    && r.maxAttempts >= 1
    && r.attempts <= r.maxAttempts + extra
    && (r.status == Pending ==> r.attempts < r.maxAttempts + extra)
  }

  lemma WithinStep(rows: Rows, op: Op, staleAfter: real, id: string, extra: nat)
    requires op.RequeueFailed? ==> op.reset
    requires id in rows ==> Within(rows[id], extra)
    requires id in Apply(rows, op, staleAfter)
    ensures Within(Apply(rows, op, staleAfter)[id],
                   extra + if op.Recover? && id in rows && HitByRecover(rows[id], op, staleAfter) then 1 else 0)
  {
  }

  /** With default resets, a message gains attempts beyond its maximum only from stale
      recoveries, one each. */
  lemma {:induction false} AttemptsBounded(ops: seq<Op>, staleAfter: real, id: string)
    requires id in Table(ops, staleAfter) && DefaultResets(ops)
    ensures Within(Table(ops, staleAfter)[id], Recoveries(ops, id, staleAfter))
  {
    var before, op := ops[..|ops| - 1], ops[|ops| - 1];
    assert op in ops && forall x :: x in before ==> x in ops;
    if id in Table(before, staleAfter) {
      AttemptsBounded(before, staleAfter, id);
    }
    WithinStep(Table(before, staleAfter), op, staleAfter, id, Recoveries(before, id, staleAfter));
  }

  /** Claim and lose the claim, `n` times over, then claim once more. */
  function ClaimAndLose(n: nat, staleAfter: real): seq<Op> {
    if n == 0 then [Enqueue("m", "q", Payload(None, ""), 1, 0.0)] + [Claim("m", 0.0)]
    else
      var t := Instant(n, staleAfter);
      ClaimAndLose(n - 1, staleAfter) + [Recover(None, t)] + [Claim("m", t)]
  }

  /** One instant after another, each past the stale limit. */
  function Instant(n: nat, staleAfter: real): real {
    if n == 0 then 0.0 else Instant(n - 1, staleAfter) + staleAfter + 1.0
  }

  lemma TableSnoc(ops: seq<Op>, op: Op, staleAfter: real, id: string)
    ensures Table(ops + [op], staleAfter) == Apply(Table(ops, staleAfter), op, staleAfter)
    ensures Recoveries(ops + [op], id, staleAfter)
            == Recoveries(ops, id, staleAfter)
               + if op.Recover? && id in Table(ops, staleAfter)
                    && HitByRecover(Table(ops, staleAfter)[id], op, staleAfter) then 1 else 0
  {
    assert (ops + [op])[..|ops|] == ops;
  }

  /** Losing a stale claim and claiming again costs one recovery and gains one attempt. */
  lemma LoseAndClaim(ops: seq<Op>, t: real, staleAfter: real)
    requires "m" in Table(ops, staleAfter) && Stale(Table(ops, staleAfter)["m"], t, staleAfter)
    ensures var r := Table(ops, staleAfter)["m"];
            var ops' := ops + [Recover(None, t)] + [Claim("m", t)];
            && "m" in Table(ops', staleAfter)
            && Table(ops', staleAfter)["m"]
               == ClaimRow(RecoverRow(r, t), t)
            && Recoveries(ops', "m", staleAfter) == Recoveries(ops, "m", staleAfter) + 1
  {
    TableSnoc(ops, Recover(None, t), staleAfter, "m");
    TableSnoc(ops + [Recover(None, t)], Claim("m", t), staleAfter, "m");
  }

  /** The bound is reached, so recoveries are the exact price of the extra attempts. */
  lemma {:induction false} AttemptsBoundIsSharp(n: nat, staleAfter: real)
    ensures var ops := ClaimAndLose(n, staleAfter);
            && "m" in Table(ops, staleAfter)
            && var r := Table(ops, staleAfter)["m"];
               && r.status == Processing && r.startedAt == Some(Instant(n, staleAfter))
               && r.maxAttempts == 1 && r.attempts == n + 1
               && Recoveries(ops, "m", staleAfter) == n
  {
    if n == 0 {
      var enqueue := Enqueue("m", "q", Payload(None, ""), 1, 0.0);
      TableSnoc([], enqueue, staleAfter, "m");
      TableSnoc([] + [enqueue], Claim("m", 0.0), staleAfter, "m");
      assert [] + [enqueue] == [enqueue];
    } else {
      AttemptsBoundIsSharp(n - 1, staleAfter);
      LoseAndClaim(ClaimAndLose(n - 1, staleAfter), Instant(n, staleAfter), staleAfter);
    }
  }

  // ---- Delays ----

  /** Whatever else happens to the table, a pending message that is due at `until` stays as it
      is while nobody settles it and nobody asks for it before then. */
  lemma {:induction false} DelayedStays(ops: seq<Op>, more: seq<Op>, id: string, until: real, staleAfter: real)
    requires id in Table(ops, staleAfter)
    requires var r := Table(ops, staleAfter)[id]; r.status == Pending && r.availableAt == until
    requires forall op :: op in more ==> (op.Ack? || op.Release? || op.Fail? ==> op.id != id)
    requires forall op :: op in more && op.Claim? && op.id == id ==> op.now < until
    ensures id in Table(ops + more, staleAfter)
    ensures Table(ops + more, staleAfter)[id] == Table(ops, staleAfter)[id]
    decreases |more|
  {
    if more == [] {
      assert ops + more == ops;
    } else {
      var front, last := more[..|more| - 1], more[|more| - 1];
      assert last in more && forall op :: op in front ==> op in more;
      DelayedStays(ops, front, id, until, staleAfter);
      assert (ops + more)[..|ops + more| - 1] == ops + front;
    }
  }

  /** A release, or a failure that is retried, makes the message wait. */
  lemma GivenBackIsDelayed(rows: Rows, id: string, now: real, delay: real, staleAfter: real)
    requires id in rows
    ensures rows[id].status == Processing ==>
              var r := Apply(rows, Release(id, now, delay), staleAfter)[id];
              && r.status == Pending && r.queueName == rows[id].queueName
              && r.availableAt == (if delay > 0.0 then now + delay else now)
              && r.attempts == (if rows[id].attempts == 0 then 0 else rows[id].attempts - 1)
    ensures rows[id].attempts < rows[id].maxAttempts ==>
              var r := Apply(rows, Fail(id, true, now, delay), staleAfter)[id];
              && r.status == Pending && r.queueName == rows[id].queueName
              && r.availableAt == (if delay > 0.0 then now + delay else now)
              && r.attempts == rows[id].attempts
  {
  }

  // ---- The queue object ----

  ghost predicate Oldest(rows: Rows, queueName: string, now: real, id: string) {
    && id in rows && Claimable(rows[id], queueName, now)
    && forall j :: j in rows && Claimable(rows[j], queueName, now) ==>
         rows[id].createdAt <= rows[j].createdAt
  }

  /** Some claimable row is oldest. */
  lemma {:induction false} OldestExists(rows: Rows, ids: set<string>, queueName: string, now: real)
    returns (id: string)
    requires ids != {} && forall j :: j in ids ==> j in rows && Claimable(rows[j], queueName, now)
    ensures id in ids && forall j :: j in ids ==> rows[id].createdAt <= rows[j].createdAt
  {
    var x :| x in ids;
    if ids == {x} {
      id := x;
    } else {
      var y := OldestExists(rows, ids - {x}, queueName, now);
      assert forall j :: j in ids ==> j == x || j in ids - {x};
      id := if rows[x].createdAt <= rows[y].createdAt then x else y;
    }
  }

  /** What another queue holds, what is settled and what is not due yet is left alone. */
  lemma OthersWait(rows: Rows, queueName: string, now: real, staleAfter: real, claimed: string)
    requires Oldest(Apply(rows, Recover(Some(queueName), now), staleAfter), queueName, now, claimed)
    ensures forall id :: id in rows
                         && (rows[id].queueName != queueName || rows[id].status == Done || rows[id].status == Failed
                             || (rows[id].status == Pending && rows[id].availableAt > now)) ==>
              Apply(rows, Recover(Some(queueName), now), staleAfter)[id] == rows[id] && claimed != id
  {
  }

  /** A message that is due, and older than all others of its queue that are not settled, is next. */
  lemma FirstIsClaimed(rows: Rows, queueName: string, now: real, staleAfter: real, claimed: string)
    requires Oldest(Apply(rows, Recover(Some(queueName), now), staleAfter), queueName, now, claimed)
    ensures forall id :: id in rows
                         && rows[id].queueName == queueName && rows[id].status == Pending
                         && rows[id].availableAt <= now
                         && (forall j :: j in rows && j != id && rows[j].queueName == queueName
                                         && rows[j].status != Done && rows[j].status != Failed ==>
                               rows[id].createdAt < rows[j].createdAt) ==>
              claimed == id
  {
    var recovered := Apply(rows, Recover(Some(queueName), now), staleAfter);
    assert recovered[claimed].createdAt == rows[claimed].createdAt;
    assert forall id :: id in rows && rows[id].status == Pending ==> recovered[id] == rows[id];
  }

  datatype QueueStatus = QueueStatus(pending: nat, processing: nat, done: nat, failed: nat, requeues: nat)

  function WithStatus(rows: Rows, queueName: string, st: Status): set<string> {
    set id | id in rows && rows[id].queueName == queueName && rows[id].status == st
  }

  lemma DisjointSizes(a: set<string>, b: set<string>, c: set<string>, d: set<string>)
    requires a !! b && a !! c && a !! d && b !! c && b !! d && c !! d
    ensures |a + b + c + d| == |a| + |b| + |c| + |d|
  {
  }

  function OfQueue(rows: Rows, queueName: string): set<string> {
    set id | id in rows && rows[id].queueName == queueName
  }

  lemma StatusParts(rows: Rows, queueName: string)
    ensures forall st, st' :: st != st' ==>
              WithStatus(rows, queueName, st) !! WithStatus(rows, queueName, st')
    ensures OfQueue(rows, queueName)
            == WithStatus(rows, queueName, Pending) + WithStatus(rows, queueName, Processing)
               + WithStatus(rows, queueName, Done) + WithStatus(rows, queueName, Failed)
  {
  }

  /** The four statuses partition the rows of a queue. */
  lemma StatusPartition(rows: Rows, queueName: string)
    ensures |WithStatus(rows, queueName, Pending)| + |WithStatus(rows, queueName, Processing)|
            + |WithStatus(rows, queueName, Done)| + |WithStatus(rows, queueName, Failed)|
            == |OfQueue(rows, queueName)|
  {
    StatusParts(rows, queueName);
    DisjointSizes(WithStatus(rows, queueName, Pending), WithStatus(rows, queueName, Processing),
                  WithStatus(rows, queueName, Done), WithStatus(rows, queueName, Failed));
  }

  /** Each member of the set once. */
  predicate Lists(ids: seq<string>, all: set<string>) {
    && (forall i :: 0 <= i < |ids| ==> ids[i] in all)
    && (forall id :: id in all ==> id in ids)
    && (forall i, j :: 0 <= i < j < |ids| ==> ids[i] != ids[j])
  }

  lemma ListsSnoc(ids: seq<string>, all: set<string>, id: string)
    requires Lists(ids, all) && id !in all
    ensures Lists(ids + [id], all + {id})
  {
  }

  function RequeuesOf(rows: Rows, ids: seq<string>): nat
    requires forall i :: 0 <= i < |ids| ==> ids[i] in rows
  {
    if ids == [] then 0
    else RequeuesOf(rows, ids[..|ids| - 1]) + rows[ids[|ids| - 1]].requeueCount
  }

  ghost predicate IsRequeueTotal(rows: Rows, ids: set<string>, total: nat) {
    exists listed :: Lists(listed, ids) && (forall i :: 0 <= i < |listed| ==> listed[i] in rows)
                     && RequeuesOf(rows, listed) == total
  }

  class CFSQueue {
    var rows: Rows
    const staleAfterSeconds: real

    constructor (staleAfter: real)
      ensures rows == map[] && staleAfterSeconds == if staleAfter > 1.0 then staleAfter else 1.0
    {
      rows := map[];
      staleAfterSeconds := if staleAfter > 1.0 then staleAfter else 1.0;
    }

    method EnqueueMessage(id: string, queueName: string, payload: Payload, maxAttempts: int, now: real)
      requires id !in rows
      modifies this
      ensures rows == Apply(old(rows), Enqueue(id, queueName, payload, maxAttempts, now), staleAfterSeconds)
      ensures rows == old(rows)[id := Row(queueName, payload, Pending, 0, if maxAttempts >= 1 then maxAttempts else 1,
                                          now, None, now, 0)]
    {
      rows := rows[id := NewRow(queueName, payload, maxAttempts, now)];
    }

    /** Recover what is stale, then claim the oldest available row. */
    method Dequeue(queueName: string, now: real) returns (message: Option<QueueMessage>)
      modifies this
      ensures var recovered := Apply(old(rows), Recover(Some(queueName), now), staleAfterSeconds);
              match message
              case None =>
                rows == recovered && forall id :: id in recovered ==> !Claimable(recovered[id], queueName, now)
              case Some(m) =>
                && Oldest(recovered, queueName, now, m.id)
                && rows == Apply(recovered, Claim(m.id, now), staleAfterSeconds)
                && m == QueueMessage(m.id, queueName, rows[m.id].payload,
                                     rows[m.id].attempts, rows[m.id].maxAttempts)
      ensures message.Some? ==>
                var id := message.value.id;
                && id in old(rows) && rows[id].status == Processing && rows[id].startedAt == Some(now)
                && rows[id].attempts == old(rows)[id].attempts + 1 && rows[id].queueName == queueName
      ensures forall id :: id in old(rows)
                           && (old(rows)[id].queueName != queueName
                               || old(rows)[id].status == Done || old(rows)[id].status == Failed
                               || (old(rows)[id].status == Pending && old(rows)[id].availableAt > now)) ==>
                rows[id] == old(rows)[id] && (message.Some? ==> message.value.id != id)
      ensures forall id :: id in old(rows)
                           && old(rows)[id].queueName == queueName && old(rows)[id].status == Pending
                           && old(rows)[id].availableAt <= now
                           && (forall j :: j in old(rows) && j != id && old(rows)[j].queueName == queueName
                                           && old(rows)[j].status != Done && old(rows)[j].status != Failed ==>
                                 old(rows)[id].createdAt < old(rows)[j].createdAt) ==>
                message.Some? && message.value.id == id
    {
      ghost var before := rows;
      RecoverStale(Some(queueName), now);
      message := ClaimOldest(queueName, now);
      if message.Some? {
        OthersWait(before, queueName, now, staleAfterSeconds, message.value.id);
        FirstIsClaimed(before, queueName, now, staleAfterSeconds, message.value.id);
      } else {
        ghost var recovered := Apply(before, Recover(Some(queueName), now), staleAfterSeconds);
        assert forall id :: id in before && before[id].status == Pending ==> recovered[id] == before[id];
      }
    }

    /** One select and one update. */
    method ClaimOldest(queueName: string, now: real) returns (message: Option<QueueMessage>)
      modifies this
      ensures match message
              case None =>
                rows == old(rows) && forall id :: id in rows ==> !Claimable(rows[id], queueName, now)
              case Some(m) =>
                && Oldest(old(rows), queueName, now, m.id)
                && rows == old(rows)[m.id := ClaimRow(old(rows)[m.id], now)]
                && m == QueueMessage(m.id, queueName, rows[m.id].payload,
                                     rows[m.id].attempts, rows[m.id].maxAttempts)
    {
      var ready := set id | id in rows && Claimable(rows[id], queueName, now);
      if ready == {} {
        assert forall id :: id in rows && Claimable(rows[id], queueName, now) ==> id in ready;
        return None;
      }
      ghost var first := OldestExists(rows, ready, queueName, now);
      assert Oldest(rows, queueName, now, first);
      var id :| id in rows && Claimable(rows[id], queueName, now)
                && forall j :: j in rows.Keys && Claimable(rows[j], queueName, now) ==>
                     rows[id].createdAt <= rows[j].createdAt;
      var row := rows[id];
      rows := rows[id := ClaimRow(row, now)];
      return Some(QueueMessage(id, row.queueName, row.payload, row.attempts + 1, row.maxAttempts));
    }

    method AckMessage(id: string)
      modifies this
      ensures rows == Apply(old(rows), Ack(id), staleAfterSeconds)
      ensures rows == if id in old(rows) then old(rows)[id := old(rows)[id].(status := Done, startedAt := None)]
                      else old(rows)
    {
      if id in rows {
        rows := rows[id := AckRow(rows[id])];
      }
    }

    method ReleaseMessage(id: string, now: real, delay: real)
      modifies this
      ensures rows == Apply(old(rows), Release(id, now, delay), staleAfterSeconds)
      ensures id !in old(rows) || old(rows)[id].status != Processing ==> rows == old(rows)
      ensures id in old(rows) && old(rows)[id].status == Processing ==>
                rows == old(rows)[id := old(rows)[id].(
                  status := Pending, startedAt := None,
                  availableAt := if delay > 0.0 then now + delay else now,
                  attempts := if old(rows)[id].attempts == 0 then 0 else old(rows)[id].attempts - 1)]
    {
      if id in rows {
        rows := rows[id := ReleaseRow(rows[id], now, delay)];
      }
    }

    method FailMessage(id: string, retry: bool, now: real, delay: real)
      modifies this
      ensures rows == Apply(old(rows), Fail(id, retry, now, delay), staleAfterSeconds)
      ensures id in old(rows) ==>
                var r := old(rows)[id];
                rows == old(rows)[id :=
                  if retry && r.attempts < r.maxAttempts then
                    r.(status := Pending, startedAt := None,
                       availableAt := if delay > 0.0 then now + delay else now, requeueCount := r.requeueCount + 1)
                  else r.(status := Failed, startedAt := None)]
    {
      if id !in rows {
        return;
      }
      var row := rows[id];
      if retry && row.attempts < row.maxAttempts {
        rows := rows[id := row.(status := Pending, startedAt := None,
                                availableAt := now + NonNegative(delay),
                                requeueCount := row.requeueCount + 1)];
        return;
      }
      rows := rows[id := row.(status := Failed, startedAt := None)];
    }

    method RecoverStale(queue: Option<string>, now: real)
      modifies this
      ensures rows == Apply(old(rows), Recover(queue, now), staleAfterSeconds)
      ensures forall id :: id in rows && rows[id].status == Processing ==> rows[id] == old(rows)[id]
      ensures rows.Keys == old(rows).Keys
      ensures forall id :: id in rows ==>
                var r := old(rows)[id];
                rows[id] == if r.status == Processing && r.startedAt.Some?
                               && r.startedAt.value + staleAfterSeconds < now
                               && (queue == None || queue == Some(r.queueName))
                            then r.(status := Pending, startedAt := None, availableAt := now,
                                    requeueCount := r.requeueCount + 1)
                            else r
    {
      rows := map id | id in rows ::
        if Stale(rows[id], now, staleAfterSeconds)
           && (queue.Some? ==> rows[id].queueName == queue.value)
        then RecoverRow(rows[id], now) else rows[id];
    }

    method RequeueFailedMessages(queueName: string, newMax: Option<int>, reset: bool, now: real)
      modifies this
      ensures rows == Apply(old(rows), RequeueFailed(queueName, newMax, reset, now), staleAfterSeconds)
      ensures WithStatus(rows, queueName, Failed) == {} && rows.Keys == old(rows).Keys
      ensures forall id :: id in rows ==>
                var r := old(rows)[id];
                rows[id] == if r.status == Failed && r.queueName == queueName
                            then r.(status := Pending, startedAt := None, availableAt := now,
                                    attempts := if reset then 0 else r.attempts,
                                    maxAttempts := if newMax == None then r.maxAttempts
                                                   else if newMax.value >= 1 then newMax.value else 1,
                                    requeueCount := r.requeueCount + 1)
                            else r
    {
      rows := map id | id in rows ::
        if rows[id].status == Failed && rows[id].queueName == queueName
        then RequeueRow(rows[id], newMax, reset, now) else rows[id];
    }

    /** The four counters partition the queue; the requeues of all its rows are added up. */
    method CountStatus(queueName: string) returns (st: QueueStatus)
      ensures st.pending == |WithStatus(rows, queueName, Pending)|
      ensures st.processing == |WithStatus(rows, queueName, Processing)|
      ensures st.done == |WithStatus(rows, queueName, Done)|
      ensures st.failed == |WithStatus(rows, queueName, Failed)|
      ensures st.pending + st.processing + st.done + st.failed
              == |OfQueue(rows, queueName)|
      ensures IsRequeueTotal(rows, OfQueue(rows, queueName), st.requeues)
    {
      var total := SumRequeues(OfQueue(rows, queueName));
      st := QueueStatus(|WithStatus(rows, queueName, Pending)|,
                        |WithStatus(rows, queueName, Processing)|,
                        |WithStatus(rows, queueName, Done)|,
                        |WithStatus(rows, queueName, Failed)|, total);
      StatusPartition(rows, queueName);
    }

    method SumRequeues(ids: set<string>) returns (total: nat)
      requires ids <= rows.Keys
      ensures IsRequeueTotal(rows, ids, total)
    {
      total := 0;
      var rest := ids;
      ghost var seen: seq<string> := [];
      while rest != {}
        invariant rest <= ids && Lists(seen, ids - rest)
        invariant total == RequeuesOf(rows, seen)
      {
        var id :| id in rest;
        ListsSnoc(seen, ids - rest, id);
        assert (ids - rest) + {id} == ids - (rest - {id});
        assert (seen + [id])[..|seen|] == seen;
        seen := seen + [id];
        total := total + rows[id].requeueCount;
        rest := rest - {id};
      }
      assert ids - {} == ids;
    }
  }
}
