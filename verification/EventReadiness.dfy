/** "ready" is never early: in every interleaving of publisher tasks, workers, timeouts and
    recoveries, a store route answers ready only when every event of its request is done. */
module EventReadiness {
  import opened CfsQueue
  import opened W = WaitTracker
  import opened EventProtocol

  predicate Live(s: State, r: string) {
    r in s.routes && r != "" && !s.routes[r].Answered?
  }

  predicate RowsDone(rows: Rows, r: string) {
    forall id :: id in rows && rows[id].payload.requestId == r ==> rows[id].status == Done
  }

  /** Every unfinished message of the request is visible to whoever asks the tracker. */
  predicate Covered(rows: Rows, tracks: Tracks, r: string) {
    forall id :: id in rows && rows[id].payload.requestId == r && rows[id].status != Done ==>
      r in tracks && (id in tracks[r].pending || tracks[r].failed > 0)
  }

  predicate NoneScheduled(tasks: seq<Task>, r: string) {
    forall t :: 0 <= t < |tasks| && tasks[t].Scheduled? ==> tasks[t].request != r
  }

  predicate ScheduledWithin(tasks: seq<Task>, r: string, among: set<nat>) {
    forall t :: 0 <= t < |tasks| && tasks[t].Scheduled? && tasks[t].request == r ==> t in among
  }

  /** What each route may rely on about the events it published. */
  predicate RouteSound(s: State, r: string)
    requires r in s.routes
  {
    match s.routes[r]
    case Open => true
    case AwaitingPublish(ts) => ScheduledWithin(s.tasks, r, ts)
    case Polling(published) => published ==> NoneScheduled(s.tasks, r)
    case Answered(st) => st == Ready ==> NoneScheduled(s.tasks, r) && RowsDone(s.rows, r)
  }

  predicate TasksHaveRows(rows: Rows, tasks: seq<Task>) {
    forall t :: 0 <= t < |tasks| && tasks[t].Enqueued? ==>
      tasks[t].id in rows && rows[tasks[t].id].payload.requestId == tasks[t].request
  }

  /** Who is about to report success acknowledged the row first. */
  predicate DoneMarksDone(rows: Rows, workers: seq<Worker>) {
    forall w :: 0 <= w < |workers| && workers[w].Marking? && workers[w].mark == DoneMark ==>
      workers[w].copy.id in rows && rows[workers[w].copy.id].status == Done
  }

  ghost predicate Sound(s: State) {
    && Owned(s)
    && "" !in s.routes
    && DoneMarksDone(s.rows, s.workers)
    && TasksHaveRows(s.rows, s.tasks)
    && (forall r :: r in s.routes ==> RouteSound(s, r))
    && (forall r :: Live(s, r) ==> Covered(s.rows, s.tracks, r) || Hopeless(s, r))
  }

  /** The route may yet see an event of its request registered and answer ready. */
  predicate StillPublishing(s: State, r: string) {
    r in s.routes && (s.routes[r].Open? || (s.routes[r].AwaitingPublish? && !NoneScheduled(s.tasks, r)))
  }

  /** The route will never answer ready: publishing timed out, or it is over and forgotten. */
  predicate Hopeless(s: State, r: string) {
    && r in s.routes
    && (s.routes[r] == Polling(false)
        || (!s.routes[r].Open? && NoneScheduled(s.tasks, r) && r !in s.tracks))
  }

  /** Stale recovery takes no live claim away, and retention forgets a request for which events
      may yet be published only if its messages are done. */
  predicate ServingStep(s: State, step: Step, cfg: Config) {
    && PromptStep(s, step, cfg)
    && (step.Forget? && Live(s, step.r) && StillPublishing(s, step.r) ==> RowsDone(s.rows, step.r))
  }

  // ---- How rows move ----

  /** Rows persist, keep their request and stay done. */
  predicate Grows(rows: Rows, rows': Rows) {
    forall id :: id in rows ==>
      && id in rows'
      && rows'[id].payload == rows[id].payload
      && (rows[id].status == Done ==> rows'[id].status == Done)
  }

  lemma RowsGrow(s: State, step: Step, cfg: Config)
    requires Owned(s) && Enabled(s, step, cfg) && PromptStep(s, step, cfg)
    ensures Grows(s.rows, Next(s, step, cfg).rows)
    ensures !step.Dispatch? ==> Next(s, step, cfg).rows.Keys == s.rows.Keys
  {
    RowsPersist(s, step, cfg);
    forall id | id in s.rows && s.rows[id].status == Done
      ensures Next(s, step, cfg).rows[id].status == Done {
      TerminalRowsAreFinal(s, step, cfg, id);
    }
  }

  lemma RowsPersist(s: State, step: Step, cfg: Config)
    requires Enabled(s, step, cfg)
    ensures forall id :: id in s.rows ==>
              && id in Next(s, step, cfg).rows
              && Next(s, step, cfg).rows[id].payload == s.rows[id].payload
    ensures !step.Dispatch? ==> Next(s, step, cfg).rows.Keys == s.rows.Keys
  {
    if step.CommitOp? {
      ApplyPersists(s.rows, Transaction(s.workers[step.w].copy, s.workers[step.w].op, s.now, cfg), cfg.staleAfter);
    } else if step.RecoverStale? {
      ApplyPersists(s.rows, Recover(CfsQueue.Some(QUEUE), s.now), cfg.staleAfter);
    } else if step.RequeueAll? {
      ApplyPersists(s.rows, RequeueFailed(QUEUE, step.newMax, step.reset, s.now), cfg.staleAfter);
    }
  }

  lemma ApplyPersists(rows: Rows, op: Op, staleAfter: real)
    requires !op.Enqueue?
    ensures Apply(rows, op, staleAfter).Keys == rows.Keys
    ensures forall id :: id in rows ==> Apply(rows, op, staleAfter)[id].payload == rows[id].payload
  {
  }

  lemma CoveredIfGrown(rows: Rows, rows': Rows, tracks: Tracks, r: string)
    requires Covered(rows, tracks, r) && Grows(rows, rows') && rows'.Keys == rows.Keys
    ensures Covered(rows', tracks, r)
  {
  }

  // ---- The tracker step ----

  lemma MarkKeepsCovered(rows: Rows, tracks: Tracks, copy: QueueMessage, mark: Mark, now: real, r: string)
    requires Covered(rows, tracks, r)
    requires mark == DoneMark ==> copy.id in rows && rows[copy.id].status == Done
    ensures Covered(rows, Marked(tracks, copy, mark, now), r)
  {
  }

  lemma DispatchKeepsCovered(s: State, t: nat, id: string, ok: bool, cfg: Config, r: string)
    requires Enabled(s, Dispatch(t, id, ok), cfg)
    requires r != "" && Covered(s.rows, s.tracks, r)
    ensures var s' := Next(s, Dispatch(t, id, ok), cfg); Covered(s'.rows, s'.tracks, r)
  {
  }

  /** Exactly when forgetting a request leaves its unfinished messages visible. */
  lemma ForgetKeepsCoveredIff(s: State, r: string, cfg: Config)
    requires Covered(s.rows, s.tracks, r) && Enabled(s, Forget(r), cfg)
    ensures var s' := Next(s, Forget(r), cfg);
            Covered(s'.rows, s'.tracks, r) <==> RowsDone(s.rows, r)
    ensures s.tracks[r].failed == 0 ==> RowsDone(s.rows, r)
  {
  }

  lemma HopelessStep(s: State, step: Step, cfg: Config, r: string)
    requires Enabled(s, step, cfg) && Live(s, r) && Hopeless(s, r) && Live(Next(s, step, cfg), r)
    ensures Hopeless(Next(s, step, cfg), r)
  {
  }

  lemma ForgetStep(s: State, cfg: Config, r: string)
    requires Enabled(s, Forget(r), cfg) && ServingStep(s, Forget(r), cfg)
    requires Live(s, r) && RouteSound(s, r)
    ensures var s' := Next(s, Forget(r), cfg); Covered(s'.rows, s'.tracks, r) || Hopeless(s', r)
  {
  }

  lemma RegisterKeepsCovered(s: State, x: string, cfg: Config, r: string)
    requires Enabled(s, RegisterRequest(x), cfg)
    requires x == r || Covered(s.rows, s.tracks, r)
    ensures var s' := Next(s, RegisterRequest(x), cfg); Covered(s'.rows, s'.tracks, r)
  {
  }

  lemma CoveredStep(s: State, step: Step, cfg: Config, r: string)
    requires Owned(s) && DoneMarksDone(s.rows, s.workers)
    requires Enabled(s, step, cfg) && ServingStep(s, step, cfg) && step != Forget(r)
    requires Live(s, r) ==> Covered(s.rows, s.tracks, r)
    requires Live(Next(s, step, cfg), r)
    ensures var s' := Next(s, step, cfg); Covered(s'.rows, s'.tracks, r)
  {
    var s' := Next(s, step, cfg);
    match step
    case RegisterRequest(x) => RegisterKeepsCovered(s, x, cfg, r);
    case Dispatch(t, id, ok) => DispatchKeepsCovered(s, t, id, ok, cfg, r);
    case Forget(x) => assert s'.rows == s.rows && (r in s.tracks ==> s'.tracks[r] == s.tracks[r]);
    case MarkTracker(w) => MarkKeepsCovered(s.rows, s.tracks, s.workers[w].copy, s.workers[w].mark, s.now, r);
    case _ =>
      RowsGrow(s, step, cfg);
      CoveredIfGrown(s.rows, s'.rows, s.tracks, r);
  }

  lemma VisibleStep(s: State, step: Step, cfg: Config, r: string)
    requires Sound(s) && Enabled(s, step, cfg) && ServingStep(s, step, cfg)
    requires Live(Next(s, step, cfg), r)
    ensures var s' := Next(s, step, cfg); Covered(s'.rows, s'.tracks, r) || Hopeless(s', r)
  {
    if Live(s, r) && Hopeless(s, r) {
      HopelessStep(s, step, cfg, r);
    } else if step == Forget(r) {
      ForgetStep(s, cfg, r);
    } else {
      CoveredStep(s, step, cfg, r);
    }
  }

  lemma TasksStep(s: State, step: Step, cfg: Config)
    requires Owned(s) && TasksHaveRows(s.rows, s.tasks)
    requires Enabled(s, step, cfg) && PromptStep(s, step, cfg)
    ensures var s' := Next(s, step, cfg); TasksHaveRows(s'.rows, s'.tasks)
  {
    RowsGrow(s, step, cfg);
  }

  lemma DoneMarksStep(s: State, step: Step, cfg: Config)
    requires Owned(s) && DoneMarksDone(s.rows, s.workers)
    requires Enabled(s, step, cfg) && PromptStep(s, step, cfg)
    ensures var s' := Next(s, step, cfg); DoneMarksDone(s'.rows, s'.workers)
  {
    RowsGrow(s, step, cfg);
  }

  /** Events are scheduled only for open routes, and a scheduled event is only ever resolved. */
  lemma RouteStep(s: State, step: Step, cfg: Config, r: string)
    requires Owned(s) && Enabled(s, step, cfg) && PromptStep(s, step, cfg)
    requires r in Next(s, step, cfg).routes && r != "" && !step.Answer?
    requires r in s.routes ==> RouteSound(s, r)
    ensures RouteSound(Next(s, step, cfg), r)
  {
    if r in s.routes && s.routes[r].Answered? {
      RowsGrow(s, step, cfg);
      AnsweredStep(s, step, cfg, r);
    } else {
      ServedStep(s, step, cfg, r);
    }
  }

  lemma AnsweredStep(s: State, step: Step, cfg: Config, r: string)
    requires Enabled(s, step, cfg) && r in Next(s, step, cfg).routes && r != "" && !step.Answer?
    requires r in s.routes && s.routes[r].Answered? && RouteSound(s, r)
    requires Grows(s.rows, Next(s, step, cfg).rows)
    requires !step.Dispatch? ==> Next(s, step, cfg).rows.Keys == s.rows.Keys
    ensures RouteSound(Next(s, step, cfg), r)
  {
    var s' := Next(s, step, cfg);
    assert s'.routes[r] == s.routes[r];
    if s.routes[r] == Answered(Ready) {
      NoneScheduledKept(s, step, cfg, r);
      if step.Dispatch? {
        RowsDoneAtDispatch(s, step, cfg, r);
      } else {
        RowsDoneKept(s.rows, s'.rows, r);
      }
    }
  }

  lemma NoneScheduledKept(s: State, step: Step, cfg: Config, r: string)
    requires Enabled(s, step, cfg) && r != "" && r in s.routes && !s.routes[r].Open? && NoneScheduled(s.tasks, r)
    ensures NoneScheduled(Next(s, step, cfg).tasks, r)
  {
  }

  lemma RowsDoneAtDispatch(s: State, step: Step, cfg: Config, r: string)
    requires step.Dispatch? && Enabled(s, step, cfg) && NoneScheduled(s.tasks, r) && RowsDone(s.rows, r)
    ensures RowsDone(Next(s, step, cfg).rows, r)
  {
  }

  lemma RowsDoneKept(rows: Rows, rows': Rows, r: string)
    requires RowsDone(rows, r) && Grows(rows, rows') && rows'.Keys == rows.Keys
    ensures RowsDone(rows', r)
  {
  }

  lemma ServedStep(s: State, step: Step, cfg: Config, r: string)
    requires Enabled(s, step, cfg) && r in Next(s, step, cfg).routes && r != "" && !step.Answer?
    requires r in s.routes ==> !s.routes[r].Answered? && RouteSound(s, r)
    ensures RouteSound(Next(s, step, cfg), r)
  {
  }

  /** Ready is answered only after publishing completed and with nothing failed or pending. */
  lemma AnswerStep(s: State, r: string, cfg: Config)
    requires Sound(s) && Enabled(s, Answer(r), cfg)
    ensures RouteSound(Next(s, Answer(r), cfg), r)
  {
    assert Live(s, r);
  }

  lemma {:induction false} SoundStep(s: State, step: Step, cfg: Config)
    requires Sound(s)
    requires Enabled(s, step, cfg) && ServingStep(s, step, cfg)
    ensures Sound(Next(s, step, cfg))
  {
    var s' := Next(s, step, cfg);
    OwnedStep(s, step, cfg);
    DoneMarksStep(s, step, cfg);
    TasksStep(s, step, cfg);
    forall r | r in s'.routes ensures RouteSound(s', r) {
      if step.Answer? {
        if r == step.r { AnswerStep(s, r, cfg); }
      } else {
        RouteStep(s, step, cfg, r);
      }
    }
    forall r | Live(s', r) ensures Covered(s'.rows, s'.tracks, r) || Hopeless(s', r) {
      VisibleStep(s, step, cfg, r);
    }
  }

  ghost predicate ServingRun(steps: seq<Step>, n: nat, cfg: Config) {
    steps == []
    || var before, step := steps[..|steps| - 1], steps[|steps| - 1];
       && ServingRun(before, n, cfg)
       && (Enabled(After(before, n, cfg), step, cfg) ==> ServingStep(After(before, n, cfg), step, cfg))
  }

  lemma {:induction false} SoundRun(steps: seq<Step>, n: nat, cfg: Config)
    requires ServingRun(steps, n, cfg)
    ensures Sound(After(steps, n, cfg))
  {
    if steps != [] {
      var before, step := steps[..|steps| - 1], steps[|steps| - 1];
      SoundRun(before, n, cfg);
      if Enabled(After(before, n, cfg), step, cfg) {
        SoundStep(After(before, n, cfg), step, cfg);
      }
    }
  }

  /** The event reached the queue and its row is done. */
  predicate TaskDone(s: State, t: nat)
    requires t < |s.tasks|
  {
    s.tasks[t].Enqueued? && s.tasks[t].id in s.rows && s.rows[s.tasks[t].id].status == Done
  }

  /** Ready is never early: each event the request published is done, unless its enqueue failed. */
  lemma ReadyIsNeverEarly(steps: seq<Step>, n: nat, cfg: Config, r: string, t: nat)
    requires ServingRun(steps, n, cfg)
    requires var s := After(steps, n, cfg);
             && r in s.routes && s.routes[r] == Answered(Ready)
             && t < |s.tasks| && s.tasks[t].request == r
    ensures TaskDone(After(steps, n, cfg), t) <==> !After(steps, n, cfg).tasks[t].Dropped?
  {
    SoundRun(steps, n, cfg);
  }

  // ---- What the cleanup would have to look at ----

  predicate HasFailedRow(rows: Rows, r: string) {
    exists id :: id in rows && rows[id].payload.requestId == r && rows[id].status == Status.Failed
  }

  /** Whoever is about to report a failure failed the row first. */
  predicate FailMarksFailed(rows: Rows, workers: seq<Worker>) {
    forall w :: 0 <= w < |workers| && workers[w].Marking? && workers[w].mark == FailMark ==>
      && workers[w].copy.id in rows && rows[workers[w].copy.id].status == Status.Failed
      && rows[workers[w].copy.id].payload == workers[w].copy.payload
  }

  predicate FailuresShow(rows: Rows, tracks: Tracks) {
    forall r :: r in tracks && tracks[r].failed > 0 ==> HasFailedRow(rows, r)
  }

  predicate FailedRowsStay(rows: Rows, rows': Rows) {
    forall id :: id in rows && rows[id].status == Status.Failed ==> id in rows' && rows'[id] == rows[id]
  }

  lemma FailedRowsStayStep(s: State, step: Step, cfg: Config)
    requires Owned(s) && Enabled(s, step, cfg) && PromptStep(s, step, cfg) && !step.RequeueAll?
    ensures FailedRowsStay(s.rows, Next(s, step, cfg).rows)
  {
    forall id | id in s.rows && s.rows[id].status == Status.Failed
      ensures id in Next(s, step, cfg).rows && Next(s, step, cfg).rows[id] == s.rows[id] {
      TerminalRowsAreFinal(s, step, cfg, id);
    }
  }

  lemma FailMarksStep(s: State, step: Step, cfg: Config)
    requires Owned(s) && FailMarksFailed(s.rows, s.workers)
    requires Enabled(s, step, cfg) && PromptStep(s, step, cfg) && !step.RequeueAll?
    ensures var s' := Next(s, step, cfg); FailMarksFailed(s'.rows, s'.workers)
  {
    FailedRowsStayStep(s, step, cfg);
    if step.CommitOp? {
      assert Current(s.rows, s.workers[step.w].copy);
    }
  }

  lemma FailuresShowStep(s: State, step: Step, cfg: Config)
    requires Owned(s) && FailMarksFailed(s.rows, s.workers) && FailuresShow(s.rows, s.tracks)
    requires Enabled(s, step, cfg) && PromptStep(s, step, cfg) && !step.RequeueAll?
    ensures var s' := Next(s, step, cfg); FailuresShow(s'.rows, s'.tracks)
  {
    FailedRowsStayStep(s, step, cfg);
    var s' := Next(s, step, cfg);
    forall r | r in s'.tracks && s'.tracks[r].failed > 0 ensures HasFailedRow(s'.rows, r) {
      if r in s.tracks && s.tracks[r].failed > 0 {
        var id :| id in s.rows && s.rows[id].payload.requestId == r && s.rows[id].status == Status.Failed;
        assert s'.rows[id] == s.rows[id];
      } else {
        assert step.MarkTracker?;
      }
    }
  }

  lemma {:induction false} FailuresShowRun(steps: seq<Step>, n: nat, cfg: Config)
    requires ServingRun(steps, n, cfg) && forall step :: step in steps ==> !step.RequeueAll?
    ensures var s := After(steps, n, cfg);
            FailMarksFailed(s.rows, s.workers) && FailuresShow(s.rows, s.tracks)
  {
    if steps != [] {
      var before, step := steps[..|steps| - 1], steps[|steps| - 1];
      assert step in steps && forall x :: x in before ==> x in steps;
      FailuresShowRun(before, n, cfg);
      SoundRun(before, n, cfg);
      if Enabled(After(before, n, cfg), step, cfg) {
        FailMarksStep(After(before, n, cfg), step, cfg);
        FailuresShowStep(After(before, n, cfg), step, cfg);
      }
    }
  }

  /** In serving runs without explicit requeues, retention may forget a request that is still
      being served if and only if no failure is counted, or none of its events can follow. */
  lemma ForgetIsServingIff(steps: seq<Step>, n: nat, cfg: Config, r: string)
    requires ServingRun(steps, n, cfg) && forall step :: step in steps ==> !step.RequeueAll?
    requires Enabled(After(steps, n, cfg), Forget(r), cfg) && Live(After(steps, n, cfg), r)
    ensures ServingRun(steps + [Forget(r)], n, cfg) <==>
              After(steps, n, cfg).tracks[r].failed == 0 || !StillPublishing(After(steps, n, cfg), r)
  {
    var s := After(steps, n, cfg);
    SoundRun(steps, n, cfg);
    FailuresShowRun(steps, n, cfg);
    assert (steps + [Forget(r)])[..|steps|] == steps;
    if s.tracks[r].failed > 0 {
      assert HasFailedRow(s.rows, r);
    } else if StillPublishing(s, r) {
      ForgetKeepsCoveredIff(s, r, cfg);
    }
  }
}
