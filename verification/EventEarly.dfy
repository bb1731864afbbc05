/** Exactly when ready can come early: what forgetting a failed request makes possible, and that
    nothing else does as long as stale recovery takes no live claim away. */
module EventEarly {
  import opened CfsQueue
  import opened W = WaitTracker
  import opened EventProtocol
  import opened EventReadiness

  /** Ready although some message of the request is not done. */
  predicate ReadyEarly(s: State, r: string) {
    r in s.routes && s.routes[r] == Answered(Ready) && !RowsDone(s.rows, r)
  }

  ghost predicate NoRequeues(steps: seq<Step>) {
    forall step :: step in steps ==> !step.RequeueAll?
  }

  /** The run goes on with serving steps and no explicit requeue. */
  ghost predicate GoesOn(steps: seq<Step>, more: seq<Step>, n: nat, cfg: Config) {
    more == []
    || var front, step := more[..|more| - 1], more[|more| - 1];
       && GoesOn(steps, front, n, cfg) && !step.RequeueAll?
       && (Enabled(After(steps + front, n, cfg), step, cfg) ==>
             ServingStep(After(steps + front, n, cfg), step, cfg))
  }

  lemma {:induction false} GoesOnServing(steps: seq<Step>, more: seq<Step>, n: nat, cfg: Config)
    requires ServingRun(steps, n, cfg) && GoesOn(steps, more, n, cfg)
    ensures ServingRun(steps + more, n, cfg)
    decreases |more|
  {
    if more == [] {
      assert steps + more == steps;
    } else {
      GoesOnServing(steps, more[..|more| - 1], n, cfg);
      assert (steps + more)[..|steps + more| - 1] == steps + more[..|more| - 1];
    }
  }

  /** Serving runs are never early, however they go on. */
  lemma ServingIsNeverEarly(steps: seq<Step>, more: seq<Step>, n: nat, cfg: Config, r: string)
    requires ServingRun(steps, n, cfg) && GoesOn(steps, more, n, cfg)
    ensures !ReadyEarly(After(steps + more, n, cfg), r)
  {
    GoesOnServing(steps, more, n, cfg);
    SoundRun(steps + more, n, cfg);
  }

  // ---- What holds in every run: locks have holders, failures had workers ----

  predicate Holder(workers: seq<Worker>, k: Key) {
    exists w :: 0 <= w < |workers| && workers[w].Handling? && workers[w].key == k
  }

  predicate LocksHeld(locks: set<Key>, workers: seq<Worker>) {
    forall k :: k in locks ==> Holder(workers, k)
  }

  lemma LocksHeldMove(locks: set<Key>, workers: seq<Worker>, w: nat, wk: Worker, locks': set<Key>)
    requires LocksHeld(locks, workers) && w < |workers|
    requires locks' == (if workers[w].Handling? then locks - {workers[w].key} else locks)
                       + (if wk.Handling? then {wk.key} else {})
    ensures LocksHeld(locks', workers[w := wk])
  {
    forall k | k in locks' ensures Holder(workers[w := wk], k) {
      if wk.Handling? && k == wk.key {
        assert workers[w := wk][w].key == k;
      } else {
        var v :| 0 <= v < |workers| && workers[v].Handling? && workers[v].key == k;
        assert workers[w := wk][v] == workers[v];
      }
    }
  }

  lemma LocksHeldStep(s: State, step: Step, cfg: Config)
    requires LocksHeld(s.locks, s.workers) && Enabled(s, step, cfg)
    ensures var s' := Next(s, step, cfg); LocksHeld(s'.locks, s'.workers)
  {
    if step.ClaimNext? || step.Begin? || step.Finish? || step.CommitOp? || step.MarkTracker? {
      var s' := Next(s, step, cfg);
      LocksHeldMove(s.locks, s.workers, step.w, s'.workers[step.w], s'.locks);
    }
  }

  predicate FailuresNeedWorkers(s: State) {
    forall r :: r in s.tracks && s.tracks[r].failed > 0 ==> s.workers != []
  }

  lemma {:induction false} LocksRun(steps: seq<Step>, n: nat, cfg: Config)
    ensures var s := After(steps, n, cfg); LocksHeld(s.locks, s.workers) && FailuresNeedWorkers(s)
  {
    if steps != [] {
      var before, step := steps[..|steps| - 1], steps[|steps| - 1];
      LocksRun(before, n, cfg);
      if Enabled(After(before, n, cfg), step, cfg) {
        LocksHeldStep(After(before, n, cfg), step, cfg);
      }
    }
  }

  // ---- Going on, one step at a time ----

  /** A failed message of the request stays failed, and everybody can be brought to rest. */
  ghost predicate Failing(s: State, r: string) {
    Owned(s) && LocksHeld(s.locks, s.workers) && s.workers != [] && HasFailedRow(s.rows, r)
  }

  ghost predicate Leads(steps: seq<Step>, more: seq<Step>, s: State, r: string, n: nat, cfg: Config) {
    GoesOn(steps, more, n, cfg) && After(steps + more, n, cfg) == s && Failing(s, r)
  }

  lemma HasFailedStep(s: State, step: Step, r: string, cfg: Config)
    requires Owned(s) && HasFailedRow(s.rows, r)
    requires Enabled(s, step, cfg) && PromptStep(s, step, cfg) && !step.RequeueAll?
    ensures HasFailedRow(Next(s, step, cfg).rows, r)
  {
    FailedRowsStayStep(s, step, cfg);
    var id :| id in s.rows && s.rows[id].payload.requestId == r && s.rows[id].status == Status.Failed;
    assert Next(s, step, cfg).rows[id] == s.rows[id];
  }

  lemma Go(steps: seq<Step>, more: seq<Step>, s: State, step: Step, r: string, n: nat, cfg: Config)
    returns (more': seq<Step>, s': State)
    requires Leads(steps, more, s, r, n, cfg) && Enabled(s, step, cfg)
    requires !step.RequeueAll? && !step.RecoverStale? && !step.Forget? && !step.Crash?
    ensures s' == Next(s, step, cfg) && Leads(steps, more', s', r, n, cfg)
  {
    more', s' := more + [step], Next(s, step, cfg);
    assert (more + [step])[..|more|] == more;
    assert (steps + more')[..|steps + more'| - 1] == steps + more;
    OwnedStep(s, step, cfg);
    LocksHeldStep(s, step, cfg);
    HasFailedStep(s, step, r, cfg);
  }

  // ---- Bringing all workers to rest ----

  /** Nothing but workers' own steps, and the request stays forgotten. */
  predicate OnlyWorkers(s: State, s': State, r: string) {
    && s'.tasks == s.tasks && s'.routes == s.routes && s'.now == s.now && |s'.workers| == |s.workers|
    && (r !in s.tracks ==> r !in s'.tracks)
  }

  predicate IdleUpTo(workers: seq<Worker>, k: nat) {
    forall v :: 0 <= v < |workers| && v < k ==> workers[v].Idle?
  }

  function Distance(wk: Worker): nat {
    match wk
    case Idle => 0
    case Marking(_, _) => 1
    case Committing(_, _) => 2
    case Handling(_, _) => 3
    case Claimed(_) => 4
  }

  /** The next step of a worker that is not idle. */
  function WorkerStep(wk: Worker, w: nat): Step
    requires !wk.Idle?
  {
    match wk
    case Claimed(_) => Begin(w)
    case Handling(_, _) => Finish(w, CfsQueue.None)
    case Committing(_, _) => CommitOp(w)
    case Marking(_, _) => MarkTracker(w)
  }

  lemma WorkerNears(s: State, w: nat, cfg: Config, r: string)
    requires w < |s.workers| && !s.workers[w].Idle?
    ensures Enabled(s, WorkerStep(s.workers[w], w), cfg)
    ensures var s' := Next(s, WorkerStep(s.workers[w], w), cfg);
            && OnlyWorkers(s, s', r) && Distance(s'.workers[w]) < Distance(s.workers[w])
            && s'.workers == s.workers[w := s'.workers[w]]
  {
  }

  lemma {:induction false} Rest(steps: seq<Step>, more: seq<Step>, s: State, w: nat, r: string, n: nat, cfg: Config)
    returns (more': seq<Step>, s': State)
    requires Leads(steps, more, s, r, n, cfg) && w < |s.workers| && IdleUpTo(s.workers, w)
    ensures Leads(steps, more', s', r, n, cfg) && OnlyWorkers(s, s', r) && IdleUpTo(s'.workers, w + 1)
    decreases Distance(s.workers[w])
  {
    if s.workers[w].Idle? {
      more', s' := more, s;
    } else {
      WorkerNears(s, w, cfg, r);
      more', s' := Go(steps, more, s, WorkerStep(s.workers[w], w), r, n, cfg);
      more', s' := Rest(steps, more', s', w, r, n, cfg);
    }
  }

  lemma NoLocksAtRest(locks: set<Key>, workers: seq<Worker>)
    requires LocksHeld(locks, workers) && IdleUpTo(workers, |workers|)
    ensures locks == {}
  {
  }

  lemma {:induction false} RestAll(steps: seq<Step>, more: seq<Step>, s: State, w: nat, r: string, n: nat, cfg: Config)
    returns (more': seq<Step>, s': State)
    requires Leads(steps, more, s, r, n, cfg) && w <= |s.workers| && IdleUpTo(s.workers, w)
    ensures Leads(steps, more', s', r, n, cfg) && OnlyWorkers(s, s', r)
    ensures IdleUpTo(s'.workers, |s'.workers|) && s'.locks == {}
    decreases |s.workers| - w
  {
    if w == |s.workers| {
      more', s' := more, s;
      NoLocksAtRest(s.locks, s.workers);
    } else {
      more', s' := Rest(steps, more, s, w, r, n, cfg);
      more', s' := RestAll(steps, more', s', w + 1, r, n, cfg);
    }
  }

  // ---- Publishing runs out ----

  lemma {:induction false} LongerThanAll(ids: set<string>) returns (id: string)
    ensures forall x :: x in ids ==> |x| < |id|
    ensures id != ""
  {
    if ids == {} {
      id := "x";
    } else {
      var x :| x in ids;
      var rest := LongerThanAll(ids - {x});
      id := rest + x;
      assert forall y :: y in ids ==> y == x || y in ids - {x};
    }
  }

  predicate OnlyScheduled(tasks: seq<Task>, t: nat, upTo: nat) {
    forall x :: 0 <= x < |tasks| && x < upTo && x != t ==> !tasks[x].Scheduled?
  }

  /** All other events fail to enqueue. */
  lemma {:induction false} DropOthers(steps: seq<Step>, more: seq<Step>, s: State, t: nat, upTo: nat,
                                      r: string, n: nat, cfg: Config)
    returns (more': seq<Step>, s': State)
    requires Leads(steps, more, s, r, n, cfg)
    requires t < |s.tasks| && upTo <= |s.tasks| && OnlyScheduled(s.tasks, t, upTo)
    ensures Leads(steps, more', s', r, n, cfg)
    ensures s' == s.(tasks := s'.tasks) && |s'.tasks| == |s.tasks| && s'.tasks[t] == s.tasks[t]
    ensures OnlyScheduled(s'.tasks, t, |s'.tasks|)
    decreases |s.tasks| - upTo
  {
    if upTo == |s.tasks| {
      more', s' := more, s;
    } else if upTo == t || !s.tasks[upTo].Scheduled? {
      more', s' := DropOthers(steps, more, s, t, upTo + 1, r, n, cfg);
    } else {
      var id := LongerThanAll(s.rows.Keys);
      assert id !in s.rows;
      more', s' := Go(steps, more, s, Dispatch(upTo, id, false), r, n, cfg);
      more', s' := DropOthers(steps, more', s', t, upTo + 1, r, n, cfg);
    }
  }

  // ---- One more event, handled and answered for ----

  /** At rest, with one event of the forgotten request left to enqueue. */
  ghost predicate LastOne(s: State, r: string, t: nat) {
    && IdleUpTo(s.workers, |s.workers|) && s.locks == {}
    && r != "" && r !in s.tracks && StillPublishing(s, r)
    && t < |s.tasks| && s.tasks[t].Scheduled? && s.tasks[t].request == r
    && OnlyScheduled(s.tasks, t, |s.tasks|)
  }

  /** Nothing scheduled, and the tracker knows of one message, which is done. */
  ghost predicate LooksReady(s: State, r: string) {
    && r != "" && r in s.routes && (s.routes[r].Open? || s.routes[r].AwaitingPublish?)
    && ScheduledTasks(s.tasks) == {} && StatusOf(s.tracks, r) == Ready
  }

  lemma Enqueue(steps: seq<Step>, more: seq<Step>, s: State, t: nat, r: string, n: nat, cfg: Config)
    returns (more': seq<Step>, s': State, id: string)
    requires Leads(steps, more, s, r, n, cfg) && LastOne(s, r, t)
    ensures Leads(steps, more', s', r, n, cfg) && ScheduledTasks(s'.tasks) == {}
    ensures s'.routes == s.routes && s'.workers == s.workers && s'.locks == {}
    ensures id in s'.rows && s'.rows[id].payload == Payload(CfsQueue.Some(s.tasks[t].event), r)
    ensures Claimable(s'.rows[id], QUEUE, s'.now)
    ensures s'.tracks == s.tracks[r := Register(NewTrack(s.now), id, s.now)]
  {
    id := LongerThanAll(s.rows.Keys);
    assert id !in s.rows;
    more', s' := Go(steps, more, s, Dispatch(t, id, true), r, n, cfg);
  }

  /** The new message is handled without failure. */
  lemma Run(steps: seq<Step>, more: seq<Step>, s: State, id: string, r: string, n: nat, cfg: Config)
    returns (more': seq<Step>, s': State)
    requires Leads(steps, more, s, r, n, cfg) && s.workers[0].Idle? && s.locks == {}
    requires id in s.rows && s.rows[id].payload.event.Some? && s.rows[id].payload.requestId == r
    requires Claimable(s.rows[id], QUEUE, s.now)
    ensures Leads(steps, more', s', r, n, cfg)
    ensures s'.tasks == s.tasks && s'.routes == s.routes && s'.tracks == s.tracks
    ensures s'.workers[0].Committing? && s'.workers[0].op == DoAck
    ensures s'.workers[0].copy.id == id && s'.workers[0].copy.payload.requestId == r
  {
    more', s' := Go(steps, more, s, ClaimNext(0, id), r, n, cfg);
    more', s' := Go(steps, more', s', Begin(0), r, n, cfg);
    assert s'.workers[0].Handling?;
    more', s' := Go(steps, more', s', Finish(0, CfsQueue.None), r, n, cfg);
  }

  lemma Settle(steps: seq<Step>, more: seq<Step>, s: State, id: string, r: string, n: nat, cfg: Config)
    returns (more': seq<Step>, s': State)
    requires Leads(steps, more, s, r, n, cfg) && s.workers[0].Committing? && s.workers[0].op == DoAck
    requires s.workers[0].copy.id == id && s.workers[0].copy.payload.requestId == r && r != ""
    requires r in s.tracks && s.tracks[r].pending == {id} && s.tracks[r].failed == 0
    ensures Leads(steps, more', s', r, n, cfg)
    ensures s'.tasks == s.tasks && s'.routes == s.routes && StatusOf(s'.tracks, r) == Ready
  {
    more', s' := Go(steps, more, s, CommitOp(0), r, n, cfg);
    assert s'.workers[0].Marking? && s'.workers[0].mark == DoneMark && s'.workers[0].copy.id == id;
    more', s' := Go(steps, more', s', MarkTracker(0), r, n, cfg);
  }

  lemma AnswerReady(steps: seq<Step>, more: seq<Step>, s: State, r: string, n: nat, cfg: Config)
    returns (more': seq<Step>, s': State)
    requires Leads(steps, more, s, r, n, cfg) && LooksReady(s, r)
    ensures Leads(steps, more', s', r, n, cfg) && r in s'.routes && s'.routes[r] == Answered(Ready)
  {
    more', s' := more, s;
    if s.routes[r].Open? {
      more', s' := Go(steps, more, s, CloseScope(r), r, n, cfg);
    }
    more', s' := Go(steps, more', s', PublishDone(r), r, n, cfg);
    more', s' := Go(steps, more', s', Answer(r), r, n, cfg);
  }

  lemma FromLastOne(steps: seq<Step>, more: seq<Step>, s: State, t: nat, r: string, n: nat, cfg: Config)
    returns (more': seq<Step>, s': State)
    requires Leads(steps, more, s, r, n, cfg) && LastOne(s, r, t)
    ensures Leads(steps, more', s', r, n, cfg) && r in s'.routes && s'.routes[r] == Answered(Ready)
  {
    var id;
    more', s', id := Enqueue(steps, more, s, t, r, n, cfg);
    more', s' := Run(steps, more', s', id, r, n, cfg);
    more', s' := Settle(steps, more', s', id, r, n, cfg);
    more', s' := AnswerReady(steps, more', s', r, n, cfg);
  }

  const ANY := Event(MemoryStored, "", "", "", "", "", "")

  /** An event of the request is scheduled, or the open route schedules one. */
  lemma ScheduleOne(steps: seq<Step>, more: seq<Step>, s: State, r: string, n: nat, cfg: Config)
    returns (more': seq<Step>, s': State, t: nat)
    requires Leads(steps, more, s, r, n, cfg) && StillPublishing(s, r) && r != ""
    ensures Leads(steps, more', s', r, n, cfg) && s' == s.(tasks := s'.tasks) && StillPublishing(s', r)
    ensures t < |s'.tasks| && s'.tasks[t].Scheduled? && s'.tasks[t].request == r
  {
    more', s' := more, s;
    if s.routes[r].Open? {
      more', s' := Go(steps, more, s, Publish(r, ANY), r, n, cfg);
      t := |s.tasks|;
    } else {
      t :| 0 <= t < |s.tasks| && s.tasks[t].Scheduled? && s.tasks[t].request == r;
    }
  }

  /** From a state in which a failure is forgotten and events may still come: ready, although a
      message of the request failed. */
  lemma ReadyFollows(steps: seq<Step>, r: string, n: nat, cfg: Config) returns (more: seq<Step>)
    requires var s := After(steps, n, cfg);
             Failing(s, r) && r != "" && r !in s.tracks && StillPublishing(s, r)
    ensures GoesOn(steps, more, n, cfg)
    ensures var s := After(steps + more, n, cfg);
            && r in s.routes && s.routes[r] == Answered(Ready) && HasFailedRow(s.rows, r)
  {
    assert steps + [] == steps;
    var s, t;
    more, s := RestAll(steps, [], After(steps, n, cfg), 0, r, n, cfg);
    more, s, t := ScheduleOne(steps, more, s, r, n, cfg);
    more, s := DropOthers(steps, more, s, t, 0, r, n, cfg);
    more, s := FromLastOne(steps, more, s, t, r, n, cfg);
  }

  // ---- The exact condition ----

  /** Some way to go on answers ready with a failed message. */
  ghost predicate CanComeEarly(steps: seq<Step>, r: string, n: nat, cfg: Config) {
    exists more :: GoesOn(steps, more, n, cfg) && ReadyEarly(After(steps + more, n, cfg), r)
  }

  lemma ForgettingFails(steps: seq<Step>, n: nat, cfg: Config, r: string)
    requires ServingRun(steps, n, cfg) && NoRequeues(steps)
    requires var s := After(steps, n, cfg);
             && Enabled(s, Forget(r), cfg) && Live(s, r)
             && s.tracks[r].failed > 0 && StillPublishing(s, r)
    ensures CanComeEarly(steps + [Forget(r)], r, n, cfg)
  {
    var s := After(steps, n, cfg);
    SoundRun(steps, n, cfg);
    FailuresShowRun(steps, n, cfg);
    LocksRun(steps, n, cfg);
    assert (steps + [Forget(r)])[..|steps|] == steps;
    assert After(steps + [Forget(r)], n, cfg) == Next(s, Forget(r), cfg);
    OwnedStep(s, Forget(r), cfg);
    var more := ReadyFollows(steps + [Forget(r)], r, n, cfg);
  }

  /** In serving runs without explicit requeues: after retention forgets a request that is being
      served, ready can come early if and only if a failure was counted and events of the request
      may still be published. */
  lemma ForgetComesEarlyIff(steps: seq<Step>, n: nat, cfg: Config, r: string)
    requires ServingRun(steps, n, cfg) && NoRequeues(steps)
    requires Enabled(After(steps, n, cfg), Forget(r), cfg) && Live(After(steps, n, cfg), r)
    ensures CanComeEarly(steps + [Forget(r)], r, n, cfg) <==>
              After(steps, n, cfg).tracks[r].failed > 0 && StillPublishing(After(steps, n, cfg), r)
  {
    var s := After(steps, n, cfg);
    ForgetIsServingIff(steps, n, cfg, r);
    if s.tracks[r].failed > 0 && StillPublishing(s, r) {
      ForgettingFails(steps, n, cfg, r);
    } else {
      forall more | GoesOn(steps + [Forget(r)], more, n, cfg)
        ensures !ReadyEarly(After(steps + [Forget(r)] + more, n, cfg), r) {
        ServingIsNeverEarly(steps + [Forget(r)], more, n, cfg, r);
      }
    }
  }

  // ---- Whole runs ----

  /** At no point of the run can ready come early for any request. */
  ghost predicate NeverEarlyRun(steps: seq<Step>, n: nat, cfg: Config) {
    && (forall r :: !CanComeEarly(steps, r, n, cfg))
    && (steps == [] || NeverEarlyRun(steps[..|steps| - 1], n, cfg))
  }

  /** Stale recovery takes no live claim away, wherever the run is; nothing is requeued. */
  ghost predicate PlainPrompt(steps: seq<Step>, n: nat, cfg: Config) {
    PromptRun(steps, n, cfg) && NoRequeues(steps)
  }

  /** In every prompt run without explicit requeues: ready can come early at no point if and only
      if retention forgets no request with unfinished messages whose events may yet be published. */
  lemma {:induction false} NeverEarlyRunIff(steps: seq<Step>, n: nat, cfg: Config)
    requires PlainPrompt(steps, n, cfg)
    ensures NeverEarlyRun(steps, n, cfg) <==> ServingRun(steps, n, cfg)
  {
    if ServingRun(steps, n, cfg) {
      forall r ensures !CanComeEarly(steps, r, n, cfg) {
        forall more | GoesOn(steps, more, n, cfg) ensures !ReadyEarly(After(steps + more, n, cfg), r) {
          ServingIsNeverEarly(steps, more, n, cfg, r);
        }
      }
    }
    if steps != [] {
      var before, step := steps[..|steps| - 1], steps[|steps| - 1];
      assert step in steps && forall x :: x in before ==> x in steps;
      NeverEarlyRunIff(before, n, cfg);
      if ServingRun(before, n, cfg) && !ServingRun(steps, n, cfg) {
        UnservingComesEarly(before, step, n, cfg);
        assert before + [step] == steps;
      }
    }
  }

  lemma UnservingComesEarly(before: seq<Step>, step: Step, n: nat, cfg: Config)
    requires ServingRun(before, n, cfg) && NoRequeues(before)
    requires Enabled(After(before, n, cfg), step, cfg) && PromptStep(After(before, n, cfg), step, cfg)
    requires !ServingStep(After(before, n, cfg), step, cfg)
    ensures step.Forget? && CanComeEarly(before + [step], step.r, n, cfg)
  {
    var s := After(before, n, cfg);
    SoundRun(before, n, cfg);
    assert Covered(s.rows, s.tracks, step.r);
    ForgetKeepsCoveredIff(s, step.r, cfg);
    ForgettingFails(before, n, cfg, step.r);
  }
}
