/** What goes wrong outside the runs for which the tracker and the routes are sound: each case
    is a reachable state, built step by step. */
module EventHazards {
  import opened CfsQueue
  import opened W = WaitTracker
  import opened EventProtocol
  import opened EventReadiness
  import opened EventClasses
  import opened EventExactness

  ghost predicate Reachable(s: State, n: nat, cfg: Config) {
    exists steps :: After(steps, n, cfg) == s
  }

  lemma Start(n: nat, cfg: Config)
    ensures Reachable(Init(n), n, cfg)
  {
    assert After([], n, cfg) == Init(n);
  }

  lemma Take(s: State, step: Step, n: nat, cfg: Config) returns (s': State)
    requires Reachable(s, n, cfg) && Enabled(s, step, cfg)
    ensures Reachable(s', n, cfg) && s' == Next(s, step, cfg)
  {
    var steps :| After(steps, n, cfg) == s;
    s' := Next(s, step, cfg);
    assert (steps + [step])[..|steps|] == steps;
    assert After(steps + [step], n, cfg) == s';
  }

  function Copy(id: string, row: Row): QueueMessage {
    QueueMessage(id, row.queueName, row.payload, row.attempts, row.maxAttempts)
  }

  function Outcome(failure: CfsQueue.Option<bool>): Commit {
    if failure.Some? then DoFail(failure.value) else DoAck
  }

  /** A worker claims a message and runs its handlers undisturbed. */
  lemma ClaimAndRun(s: State, w: nat, id: string, failure: CfsQueue.Option<bool>, n: nat, cfg: Config)
    returns (s': State)
    requires Reachable(s, n, cfg) && Enabled(s, ClaimNext(w, id), cfg) && s.locks == {}
    requires s.rows[id].payload.event.Some?
    ensures Reachable(s', n, cfg)
    ensures var row := ClaimRow(s.rows[id], s.now);
            s' == s.(rows := s.rows[id := row],
                     workers := s.workers[w := Committing(Copy(id, row), Outcome(failure))],
                     runs := s.runs[id := Runs(s, id) + 1])
  {
    var a := Take(s, ClaimNext(w, id), n, cfg);
    var b := Take(a, Begin(w), n, cfg);
    s' := Take(b, Finish(w, failure), n, cfg);
  }

  /** And settles it with the queue. */
  lemma ClaimRunCommit(s: State, w: nat, id: string, failure: CfsQueue.Option<bool>, n: nat, cfg: Config)
    returns (s': State)
    requires Reachable(s, n, cfg) && Enabled(s, ClaimNext(w, id), cfg) && s.locks == {}
    requires s.rows[id].payload.event.Some?
    ensures Reachable(s', n, cfg)
    ensures var row := ClaimRow(s.rows[id], s.now);
            && s'.rows == s.rows[id :=
                 if failure.None? then AckRow(row)
                 else FailRow(row, failure.value, s.now, if failure.value then 1.0 else 0.0)]
            && s'.workers == s.workers[w := Marking(Copy(id, row), MarkFor(Copy(id, row), Outcome(failure)))]
            && s'.locks == {} && s'.tracks == s.tracks && s'.tasks == s.tasks
            && s'.routes == s.routes && s'.now == s.now
  {
    var c := ClaimAndRun(s, w, id, failure, n, cfg);
    s' := Take(c, CommitOp(w), n, cfg);
  }

  const EVENT := Event(MemoryStored, "t", "u", "p", "", "uri", "")
  const LIMITS := Config(300.0, 3, 2.0, 900.0)

  /** One open request with its events queued under the given ids. */
  lemma OneQueued(n: nat) returns (s: State)
    ensures Reachable(s, n, LIMITS)
    ensures s == Init(n).(
              routes := map["r" := Open],
              tasks := [Enqueued("r", "a")],
              rows := map["a" := NewRow(QUEUE, Payload(CfsQueue.Some(EVENT), "r"), 3, 0.0)],
              tracks := map["r" := Track({"a"}, 0, 0, 0, 0.0)])
  {
    Start(n, LIMITS);
    var a := Take(Init(n), RegisterRequest("r"), n, LIMITS);
    var b := Take(a, Publish("r", EVENT), n, LIMITS);
    s := Take(b, Dispatch(0, "a", true), n, LIMITS);
    assert [] + [Scheduled("r", EVENT)] == [Scheduled("r", EVENT)];
    assert {} + {"a"} == {"a"};
    assert s.tasks == [Enqueued("r", "a")];
  }

  /** The message is given back for a retry, and the worker is slow to say so. */
  lemma RetryUnmarked() returns (s: State)
    ensures Reachable(s, 2, LIMITS) && Enabled(s, ClaimNext(1, "a"), LIMITS) && s.locks == {}
    ensures s.rows.Keys == {"a"} && s.rows["a"].payload == Payload(CfsQueue.Some(EVENT), "r")
    ensures s.rows["a"].attempts == 1
    ensures |s.workers| == 2 && s.workers[0].Marking? && s.workers[0].mark == RequeueMark
    ensures s.workers[0].copy.id == "a" && s.workers[0].copy.payload.requestId == "r"
    ensures s.tracks == map["r" := Track({"a"}, 0, 0, 0, 0.0)]
  {
    var a := OneQueued(2);
    var b := ClaimRunCommit(a, 0, "a", CfsQueue.Some(true), 2, LIMITS);
    s := Take(b, Tick(1.0), 2, LIMITS);
  }

  ghost predicate StuckAlthoughDone(s: State, r: string) {
    && r in s.tracks && RowsDone(s.rows, r) && s.workers == [Idle, Idle]
    && StatusOf(s.tracks, r) == InProgress
    && Known(s.tracks[r]) > |RowsOf(s.rows, r)|
  }

  /** A requeue mark that arrives after the retry succeeded makes a finished message pending
      again, for good: its row is done, nobody holds it, and the tracker still waits. */
  lemma LateMarkNeverReady() returns (s: State)
    ensures Reachable(s, 2, LIMITS) && StuckAlthoughDone(s, "r")
  {
    var c := RetryUnmarked();
    var d := ClaimRunCommit(c, 1, "a", CfsQueue.None, 2, LIMITS);
    assert d.rows["a"].status == Status.Done;
    var e := Take(d, MarkTracker(1), 2, LIMITS);
    assert e.tracks["r"].pending == {} && e.tracks["r"].done == 1;
    s := Take(e, MarkTracker(0), 2, LIMITS);
    assert RowsOf(s.rows, "r") == {"a"};
    assert s.tracks["r"].pending == {"a"};
  }

  /** Two events of one request, the first of them queued. */
  lemma TwoPublished() returns (s: State)
    ensures Reachable(s, 1, LIMITS)
    ensures s == Init(1).(
              routes := map["r" := Open],
              tasks := [Enqueued("r", "a"), Scheduled("r", EVENT)],
              rows := map["a" := NewRow(QUEUE, Payload(CfsQueue.Some(EVENT), "r"), 3, 0.0)],
              tracks := map["r" := Track({"a"}, 0, 0, 0, 0.0)])
  {
    Start(1, LIMITS);
    var a := Take(Init(1), RegisterRequest("r"), 1, LIMITS);
    var b := Take(a, Publish("r", EVENT), 1, LIMITS);
    var c := Take(b, Publish("r", EVENT), 1, LIMITS);
    assert c.tasks == [Scheduled("r", EVENT), Scheduled("r", EVENT)];
    s := Take(c, Dispatch(0, "a", true), 1, LIMITS);
    assert {} + {"a"} == {"a"};
    assert s.tasks == [Enqueued("r", "a"), Scheduled("r", EVENT)];
  }

  /** The first event fails for good and retention forgets it. */
  lemma FailedAndForgotten() returns (s: State)
    ensures Reachable(s, 1, LIMITS) && s.locks == {} && s.workers == [Idle]
    ensures s.rows.Keys == {"a"} && s.rows["a"].status == Status.Failed
    ensures s.rows["a"].payload.requestId == "r"
    ensures s.tasks == [Enqueued("r", "a"), Scheduled("r", EVENT)]
    ensures s.tracks == map[] && s.routes == map["r" := Open]
  {
    var d := TwoPublished();
    var e := ClaimRunCommit(d, 0, "a", CfsQueue.Some(false), 1, LIMITS);
    var f := Take(e, MarkTracker(0), 1, LIMITS);
    assert f.tracks["r"].pending == {} && f.workers == [Idle];
    var g := Take(f, Tick(1000.0), 1, LIMITS);
    s := Take(g, Forget("r"), 1, LIMITS);
  }

  ghost predicate ReadyAlthoughFailed(s: State, r: string) {
    && r in s.routes && s.routes[r] == Answered(Ready)
    && exists id :: id in s.rows && s.rows[id].payload.requestId == r && s.rows[id].status == Status.Failed
  }

  /** Ready comes early when retention forgets a failure of a request still being served. */
  lemma ForgottenFailureReadsReady() returns (s: State)
    ensures Reachable(s, 1, LIMITS) && ReadyAlthoughFailed(s, "r")
  {
    var a := FailedAndForgotten();
    var b := Take(a, Dispatch(1, "b", true), 1, LIMITS);
    assert b.tasks == [Enqueued("r", "a"), Enqueued("r", "b")];
    assert b.tracks["r"].pending == {"b"};
    var c := ClaimRunCommit(b, 0, "b", CfsQueue.None, 1, LIMITS);
    var d := Take(c, MarkTracker(0), 1, LIMITS);
    assert d.tracks["r"].pending == {} && d.tracks["r"].failed == 0;
    s := AnswerPublished(d, "r", 1, LIMITS);
    assert s.rows["a"].status == Status.Failed;
  }

  lemma AnswerPublished(s: State, r: string, n: nat, cfg: Config) returns (s': State)
    requires Reachable(s, n, cfg) && r in s.routes && s.routes[r].Open?
    requires ScheduledTasks(s.tasks) == {}
    ensures Reachable(s', n, cfg)
    ensures s' == s.(routes := s.routes[r := Answered(StatusOf(s.tracks, r))])
  {
    var a := Take(s, CloseScope(r), n, cfg);
    var b := Take(a, PublishDone(r), n, cfg);
    s' := Take(b, Answer(r), n, cfg);
  }

  /** A worker that ran the handlers but was slow to acknowledge loses its claim. */
  lemma SlowAcknowledger() returns (s: State)
    ensures Reachable(s, 2, LIMITS) && s.locks == {} && s.now == 301.0
    ensures s.rows == map["a" := NewRow(QUEUE, Payload(CfsQueue.Some(EVENT), "r"), 3, 0.0).(
              attempts := 1, availableAt := 301.0, requeueCount := 1)]
    ensures s.tasks == [Enqueued("r", "a")] && s.routes == map["r" := Open]
    ensures s.tracks == map["r" := Track({"a"}, 0, 0, 0, 0.0)]
    ensures s.workers == [Committing(QueueMessage("a", QUEUE, Payload(CfsQueue.Some(EVENT), "r"), 1, 3), DoAck), Idle]
  {
    var a := OneQueued(2);
    var d := ClaimAndRun(a, 0, "a", CfsQueue.None, 2, LIMITS);
    assert d.workers == [d.workers[0], Idle];
    var e := Take(d, Tick(301.0), 2, LIMITS);
    s := Take(e, RecoverStale, 2, LIMITS);
  }

  /** Another worker is then running the same message. */
  lemma TwoOwners() returns (s: State)
    ensures Reachable(s, 2, LIMITS) && !Owned(s)
    ensures s.rows.Keys == {"a"} && s.rows["a"].payload.requestId == "r"
    ensures s.tasks == [Enqueued("r", "a")] && s.routes == map["r" := Open]
    ensures s.tracks == map["r" := Track({"a"}, 0, 0, 0, 0.0)]
    ensures |s.workers| == 2 && s.workers[0].Committing? && s.workers[0].op == DoAck
    ensures s.workers[0].copy.id == "a" && s.workers[0].copy.payload.requestId == "r"
    ensures s.workers[1].Handling? && s.workers[1].copy.id == "a"
  {
    var a := SlowAcknowledger();
    var b := Take(a, ClaimNext(1, "a"), 2, LIMITS);
    s := Take(b, Begin(1), 2, LIMITS);
    assert s.workers[0].Holds() && s.workers[1].Holds();
  }

  /** The first owner acknowledges, and the route answers. */
  lemma AnsweredWhileHandling() returns (s: State)
    ensures Reachable(s, 2, LIMITS) && s.routes == map["r" := Answered(Ready)]
    ensures s.rows.Keys == {"a"} && s.rows["a"].payload.requestId == "r"
    ensures |s.workers| == 2 && s.workers[1].Handling? && s.workers[1].copy.id == "a"
  {
    var a := TwoOwners();
    var b := Take(a, CommitOp(0), 2, LIMITS);
    var c := Take(b, MarkTracker(0), 2, LIMITS);
    assert c.tracks["r"].pending == {} && c.tracks["r"].failed == 0;
    assert c.workers[1] == a.workers[1];
    s := AnswerPublished(c, "r", 2, LIMITS);
  }

  /** So stale recovery of a live claim can make an answered "ready" false: the done row is
      failed by the second owner. */
  lemma StaleRecoveryRevokesReady() returns (s: State)
    ensures Reachable(s, 2, LIMITS) && ReadyAlthoughFailed(s, "r")
  {
    var d := AnsweredWhileHandling();
    var e := Take(d, Finish(1, CfsQueue.Some(false)), 2, LIMITS);
    s := Take(e, CommitOp(1), 2, LIMITS);
    assert s.rows["a"].status == Status.Failed;
  }

  ghost predicate FailedAlthoughDone(s: State, r: string) {
    && r in s.tracks && RowsDone(s.rows, r) && s.workers == [Idle]
    && StatusOf(s.tracks, r) == FailedIndex
  }

  /** An explicit requeue gives the message a new chance, but the tracker has counted it as
      failed: when the retry succeeds, the request still reads as failed, for good. */
  lemma RequeuedSuccessReadsFailed() returns (s: State)
    ensures Reachable(s, 1, LIMITS) && FailedAlthoughDone(s, "r")
  {
    var b := Revived();
    var c := ClaimRunCommit(b, 0, "a", CfsQueue.None, 1, LIMITS);
    s := Take(c, MarkTracker(0), 1, LIMITS);
    assert s.rows["a"].status == Status.Done;
  }

  lemma Revived() returns (s: State)
    ensures Reachable(s, 1, LIMITS) && s.locks == {} && Enabled(s, ClaimNext(0, "a"), LIMITS)
    ensures s.rows.Keys == {"a"} && s.rows["a"].payload == Payload(CfsQueue.Some(EVENT), "r")
    ensures s.workers == [Idle] && s.tracks.Keys == {"r"} && s.tracks["r"].failed == 1
  {
    var a := FailedOnce();
    s := Take(a, RequeueAll(CfsQueue.None, true), 1, LIMITS);
  }

  lemma FailedOnce() returns (s: State)
    ensures Reachable(s, 1, LIMITS) && s.locks == {} && s.workers == [Idle]
    ensures s.rows.Keys == {"a"} && s.rows["a"].status == Status.Failed && s.rows["a"].queueName == QUEUE
    ensures s.rows["a"].payload == Payload(CfsQueue.Some(EVENT), "r")
    ensures s.tracks.Keys == {"r"} && s.tracks["r"].pending == {} && s.tracks["r"].failed == 1
    ensures s.tracks["r"].done == 0
  {
    var a := OneQueued(1);
    var b := ClaimRunCommit(a, 0, "a", CfsQueue.Some(false), 1, LIMITS);
    s := Take(b, MarkTracker(0), 1, LIMITS);
  }
}
