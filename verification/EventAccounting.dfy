/** Timely runs keep every track exact, and no message is handled too often. */
module EventAccounting {
  import opened CfsQueue
  import opened W = WaitTracker
  import opened EventProtocol
  import opened EventReadiness
  import opened EventClasses
  import opened EventExactness

  // ---- One hand per message, up to its tracker mark ----

  /** The mark a worker still owes is the one its row shows. */
  predicate MarkMatches(rows: Rows, wk: Worker)
    requires wk.Marking?
  {
    && wk.copy.id in rows
    && rows[wk.copy.id].payload == wk.copy.payload
    && rows[wk.copy.id].status ==
         match wk.mark case DoneMark => Status.Done case FailMark => Status.Failed case RequeueMark => Pending
  }

  predicate OneHand(rows: Rows, workers: seq<Worker>) {
    && (forall w, v :: 0 <= w < v < |workers| && !workers[w].Idle? && !workers[v].Idle?
          ==> workers[w].copy.id != workers[v].copy.id)
    && (forall w :: 0 <= w < |workers| && workers[w].Marking? ==> MarkMatches(rows, workers[w]))
  }

  /** Prompt runs without explicit requeues, in which no message is claimed again before its
      requeue mark arrived and no request is forgotten before its events are queued. */
  predicate TimelyStep(s: State, step: Step, cfg: Config) {
    && PromptStep(s, step, cfg)
    && !step.RequeueAll?
    && (step.ClaimNext? ==> !Settling(s.workers, step.id))
    && (step.Forget? && step.r in s.routes ==>
          !s.routes[step.r].Open? && NoneScheduled(s.tasks, step.r))
  }

  lemma OneHandAfterMove(rows: Rows, rows': Rows, workers: seq<Worker>, w: nat, wk: Worker, id: string)
    requires OneHand(rows, workers) && w < |workers|
    requires rows' == rows || (id in rows' && rows' == rows[id := rows'[id]])
    requires forall v :: 0 <= v < |workers| && v != w && !workers[v].Idle? ==> workers[v].copy.id != id
    requires !wk.Idle? ==> wk.copy.id == id
    requires wk.Marking? ==> MarkMatches(rows', wk)
    ensures OneHand(rows', workers[w := wk])
  {
  }

  lemma OneHandAfterRows(rows: Rows, rows': Rows, workers: seq<Worker>)
    requires OneHand(rows, workers)
    requires forall id :: id in rows && (rows[id].status != Processing) ==>
               id in rows' && rows'[id] == rows[id]
    ensures OneHand(rows', workers)
  {
  }

  lemma OneHandClaim(s: State, w: nat, id: string, cfg: Config)
    requires Owned(s) && OneHand(s.rows, s.workers)
    requires Enabled(s, ClaimNext(w, id), cfg) && TimelyStep(s, ClaimNext(w, id), cfg)
    ensures var s' := Next(s, ClaimNext(w, id), cfg); OneHand(s'.rows, s'.workers)
  {
    var s' := Next(s, ClaimNext(w, id), cfg);
    forall v | 0 <= v < |s.workers| && v != w && !s.workers[v].Idle? ensures s.workers[v].copy.id != id {
      assert s.workers[v].Holds() || s.workers[v].Marking?;
    }
    OneHandAfterMove(s.rows, s'.rows, s.workers, w, s'.workers[w], id);
  }

  /** A worker that begins, finishes or reports back touches no row. */
  lemma OneHandQuiet(s: State, step: Step, cfg: Config)
    requires OneHand(s.rows, s.workers) && Enabled(s, step, cfg)
    requires step.Begin? || step.Finish? || step.MarkTracker?
    ensures var s' := Next(s, step, cfg); OneHand(s'.rows, s'.workers)
  {
    var s' := Next(s, step, cfg);
    OneHandAfterMove(s.rows, s.rows, s.workers, step.w, s'.workers[step.w], s.workers[step.w].copy.id);
  }

  lemma OneHandCommit(s: State, w: nat, cfg: Config)
    requires Owned(s) && OneHand(s.rows, s.workers) && Enabled(s, CommitOp(w), cfg)
    ensures var s' := Next(s, CommitOp(w), cfg); OneHand(s'.rows, s'.workers)
  {
    var s' := Next(s, CommitOp(w), cfg);
    assert Current(s.rows, s.workers[w].copy);
    assert MarkMatches(s'.rows, s'.workers[w]);
    OneHandAfterMove(s.rows, s'.rows, s.workers, w, s'.workers[w], s.workers[w].copy.id);
  }

  lemma OneHandStep(s: State, step: Step, cfg: Config)
    requires Owned(s) && OneHand(s.rows, s.workers)
    requires Enabled(s, step, cfg) && TimelyStep(s, step, cfg)
    ensures var s' := Next(s, step, cfg); OneHand(s'.rows, s'.workers)
  {
    var s' := Next(s, step, cfg);
    match step
    case ClaimNext(w, id) => OneHandClaim(s, w, id, cfg);
    case Begin(_) => OneHandQuiet(s, step, cfg);
    case Finish(_, _) => OneHandQuiet(s, step, cfg);
    case MarkTracker(_) => OneHandQuiet(s, step, cfg);
    case CommitOp(w) => OneHandCommit(s, w, cfg);
    case Dispatch(_, _, _) => OneHandAfterRows(s.rows, s'.rows, s.workers);
    case RecoverStale => OneHandAfterRows(s.rows, s'.rows, s.workers);
    case _ =>
  }

  // ---- Every timely run ----

  /** Events and tracks belong to routes, and a route without a track expects no more events. */
  predicate Opened(s: State) {
    && "" !in s.routes
    && (forall t :: 0 <= t < |s.tasks| && s.tasks[t].Scheduled? && s.tasks[t].request != "" ==>
          s.tasks[t].request in s.routes)
    && (forall r :: r in s.tracks ==> r in s.routes)
    && (forall r :: r in s.routes && r !in s.tracks ==>
          !s.routes[r].Open? && NoneScheduled(s.tasks, r))
  }

  lemma OpenedStep(s: State, step: Step, cfg: Config)
    requires Opened(s) && Enabled(s, step, cfg) && TimelyStep(s, step, cfg)
    ensures Opened(Next(s, step, cfg))
  {
    if step.Dispatch? {
      DispatchKeepsOpened(s, step.t, step.id, step.ok, cfg);
    } else if step.MarkTracker? {
      assert Next(s, step, cfg).tracks.Keys == s.tracks.Keys;
    }
  }

  lemma DispatchKeepsOpened(s: State, t: nat, id: string, ok: bool, cfg: Config)
    requires Opened(s) && Enabled(s, Dispatch(t, id, ok), cfg)
    ensures Opened(Next(s, Dispatch(t, id, ok), cfg))
  {
    var s' := Next(s, Dispatch(t, id, ok), cfg);
    assert s.tasks[t].request != "" ==> s.tasks[t].request in s.routes;
    forall r | NoneScheduled(s.tasks, r) ensures NoneScheduled(s'.tasks, r) {
    }
  }

  predicate Accounted(s: State) {
    Owned(s) && OneHand(s.rows, s.workers) && Opened(s)
  }

  lemma MarkIsOrderly(rows: Rows, workers: seq<Worker>, w: nat)
    requires OneHand(rows, workers) && w < |workers| && workers[w].Marking?
    ensures workers[w].copy.id in rows
    ensures ClassOf(rows, workers[w := Idle], workers[w].copy.id) == Settled(workers[w].mark)
  {
    assert MarkMatches(rows, workers[w]);
    assert !Settling(workers[w := Idle], workers[w].copy.id);
  }

  /** Timely steps are orderly for every request. */
  lemma TimelyIsOrderly(s: State, step: Step, cfg: Config, r: string)
    requires Accounted(s) && Enabled(s, step, cfg) && TimelyStep(s, step, cfg) && r != ""
    ensures Orderly(s, step, r)
  {
    if step.MarkTracker? {
      MarkIsOrderly(s.rows, s.workers, step.w);
    } else if step.CommitOp? {
      assert Current(s.rows, s.workers[step.w].copy);
      NotSettling(s, step.w);
    }
  }

  lemma NotSettling(s: State, w: nat)
    requires OneHand(s.rows, s.workers) && w < |s.workers| && s.workers[w].Committing?
    ensures !Settling(s.workers, s.workers[w].copy.id)
  {
  }

  ghost predicate TimelyRun(steps: seq<Step>, n: nat, cfg: Config) {
    steps == []
    || var before, step := steps[..|steps| - 1], steps[|steps| - 1];
       && TimelyRun(before, n, cfg)
       && (Enabled(After(before, n, cfg), step, cfg) ==> TimelyStep(After(before, n, cfg), step, cfg))
  }

  lemma {:induction false} AccountedRun(steps: seq<Step>, n: nat, cfg: Config)
    requires TimelyRun(steps, n, cfg)
    ensures Accounted(After(steps, n, cfg))
  {
    if steps != [] {
      var before, step := steps[..|steps| - 1], steps[|steps| - 1];
      AccountedRun(before, n, cfg);
      var s := After(before, n, cfg);
      if Enabled(s, step, cfg) {
        OwnedStep(s, step, cfg);
        OneHandStep(s, step, cfg);
        OpenedStep(s, step, cfg);
      }
    }
  }

  lemma {:induction false} TimelyRunIsOrderly(steps: seq<Step>, n: nat, cfg: Config, r: string)
    requires TimelyRun(steps, n, cfg) && r != ""
    ensures OrderlyRun(steps, n, cfg, r)
  {
    if steps != [] {
      var before, step := steps[..|steps| - 1], steps[|steps| - 1];
      TimelyRunIsOrderly(before, n, cfg, r);
      AccountedRun(before, n, cfg);
      if Enabled(After(before, n, cfg), step, cfg) {
        TimelyIsOrderly(After(before, n, cfg), step, cfg, r);
      }
    }
  }

  /** So in timely runs the tracker refines the queue: pending is exactly what is not terminal
      or not yet marked, done and failed count the rest, and nothing registered is missing. */
  lemma TrackerRefinesQueue(steps: seq<Step>, n: nat, cfg: Config, r: string)
    requires TimelyRun(steps, n, cfg) && r != "" && r in After(steps, n, cfg).tracks
    ensures var s := After(steps, n, cfg);
            && Exact(s.rows, s.workers, s.tracks[r], r)
            && Known(s.tracks[r]) == |RowsOf(s.rows, r)|
  {
    TimelyRunIsOrderly(steps, n, cfg, r);
    ExactThroughoutIff(steps, n, cfg, r);
    ExactCountsAll(After(steps, n, cfg), r);
  }

  // ---- Handler runs ----

  /** Claimed but not run, or given back without having run. */
  predicate HoldsUnrun(wk: Worker) {
    wk.Claimed? || (wk.Committing? && wk.op.DoRelease?)
  }

  predicate UnrunHolder(workers: seq<Worker>, id: string) {
    exists w :: 0 <= w < |workers| && HoldsUnrun(workers[w]) && workers[w].copy.id == id
  }

  /** A handler run spends an attempt; an attempt released for a locked key was not a run. */
  predicate Paid(s: State, id: string) {
    if id !in s.rows then Runs(s, id) == 0
    else
      var row := s.rows[id];
      && row.attempts <= row.maxAttempts
      && (row.status == Pending ==> row.attempts < row.maxAttempts)
      && Runs(s, id) + (if UnrunHolder(s.workers, id) then 1 else 0) <= row.attempts
  }

  predicate PlainStep(step: Step) {
    !step.RecoverStale? && !step.RequeueAll?
  }

  lemma UnrunAfterMove(workers: seq<Worker>, w: nat, wk: Worker, id: string)
    requires w < |workers|
    ensures UnrunHolder(workers[w := wk], id) ==>
              (exists v :: 0 <= v < |workers| && v != w && HoldsUnrun(workers[v]) && workers[v].copy.id == id)
              || (HoldsUnrun(wk) && wk.copy.id == id)
  {
    var moved := workers[w := wk];
    if UnrunHolder(moved, id) {
      var v :| 0 <= v < |moved| && HoldsUnrun(moved[v]) && moved[v].copy.id == id;
      assert v != w ==> moved[v] == workers[v];
    }
  }

  lemma PaidMove(s: State, step: Step, cfg: Config, id: string)
    requires Owned(s) && Paid(s, id) && Enabled(s, step, cfg)
    requires step.ClaimNext? || step.Begin? || step.Finish? || step.CommitOp? || step.MarkTracker?
    ensures Paid(Next(s, step, cfg), id)
  {
    if step.CommitOp? {
      PaidCommit(s, step.w, cfg, id);
    } else {
      PaidHand(s, step, cfg, id);
    }
  }

  lemma PaidCommit(s: State, w: nat, cfg: Config, id: string)
    requires Owned(s) && Paid(s, id) && Enabled(s, CommitOp(w), cfg)
    ensures Paid(Next(s, CommitOp(w), cfg), id)
  {
    UnrunAfterMove(s.workers, w, Next(s, CommitOp(w), cfg).workers[w], id);
    if HoldsUnrun(s.workers[w]) && s.workers[w].copy.id == id {
      assert UnrunHolder(s.workers, id);
    }
  }

  lemma PaidHand(s: State, step: Step, cfg: Config, id: string)
    requires Owned(s) && Paid(s, id) && Enabled(s, step, cfg)
    requires step.ClaimNext? || step.Begin? || step.Finish? || step.MarkTracker?
    ensures Paid(Next(s, step, cfg), id)
  {
    UnrunAfterMove(s.workers, step.w, Next(s, step, cfg).workers[step.w], id);
    if HoldsUnrun(s.workers[step.w]) && s.workers[step.w].copy.id == id {
      assert UnrunHolder(s.workers, id);
    }
  }

  lemma PaidStep(s: State, step: Step, cfg: Config, id: string)
    requires Owned(s) && Paid(s, id)
    requires Enabled(s, step, cfg) && PlainStep(step)
    ensures Paid(Next(s, step, cfg), id)
  {
    if step.ClaimNext? || step.Begin? || step.Finish? || step.CommitOp? || step.MarkTracker? {
      PaidMove(s, step, cfg, id);
    } else if step.Crash? {
      assert !UnrunHolder(Next(s, step, cfg).workers, id);
    } else if step.Dispatch? {
      assert id == step.id ==> !UnrunHolder(s.workers, id);
    }
  }

  predicate PlainRun(steps: seq<Step>) {
    forall step :: step in steps ==> PlainStep(step)
  }

  lemma {:induction false} PaidRun(steps: seq<Step>, n: nat, cfg: Config, id: string)
    requires PlainRun(steps)
    ensures Owned(After(steps, n, cfg)) && Paid(After(steps, n, cfg), id)
  {
    if steps != [] {
      var before, step := steps[..|steps| - 1], steps[|steps| - 1];
      PaidRun(before, n, cfg, id);
      if Enabled(After(before, n, cfg), step, cfg) {
        assert step in steps;
        OwnedStep(After(before, n, cfg), step, cfg);
        PaidStep(After(before, n, cfg), step, cfg, id);
      }
    }
  }

  /** How often a handler for the message was started: a worker began, and its key was free. */
  function Starts(steps: seq<Step>, n: nat, cfg: Config, id: string): nat {
    if steps == [] then 0
    else
      var before, step := steps[..|steps| - 1], steps[|steps| - 1];
      var s := After(before, n, cfg);
      Starts(before, n, cfg, id) + if StartsHandler(s, step, id) then 1 else 0
  }

  predicate StartsHandler(s: State, step: Step, id: string) {
    && step.Begin? && step.w < |s.workers| && s.workers[step.w].Claimed? && s.workers[step.w].copy.id == id
    && s.workers[step.w].copy.payload.event.Some?
    && OrderingKey(s.workers[step.w].copy.payload.event.value) !in s.locks
  }

  lemma RunsStep(s: State, step: Step, cfg: Config, id: string)
    requires Enabled(s, step, cfg)
    ensures Runs(Next(s, step, cfg), id) == Runs(s, id) + if StartsHandler(s, step, id) then 1 else 0
  {
  }

  lemma {:induction false} RunsAreStarts(steps: seq<Step>, n: nat, cfg: Config, id: string)
    ensures Runs(After(steps, n, cfg), id) == Starts(steps, n, cfg, id)
  {
    if steps != [] {
      var before, step := steps[..|steps| - 1], steps[|steps| - 1];
      RunsAreStarts(before, n, cfg, id);
      if Enabled(After(before, n, cfg), step, cfg) {
        RunsStep(After(before, n, cfg), step, cfg, id);
      }
    }
  }

  /** However often its key is locked, whatever the workers do and whenever they crash: with no
      stale recovery and no explicit requeue, a message is handled at most its maximum. */
  lemma HandledAtMostMax(steps: seq<Step>, n: nat, cfg: Config, id: string)
    requires PlainRun(steps) && id in After(steps, n, cfg).rows
    ensures Starts(steps, n, cfg, id) <= After(steps, n, cfg).rows[id].maxAttempts
  {
    RunsAreStarts(steps, n, cfg, id);
    PaidRun(steps, n, cfg, id);
  }
}
