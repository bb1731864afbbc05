/** Exactly when the wait tracker refines the queue: for every kind of step the condition under
    which a request's track stays exact, and from them the condition for whole runs. */
module EventExactness {
  import opened CfsQueue
  import opened W = WaitTracker
  import opened EventProtocol
  import opened EventReadiness
  import opened EventClasses

  predicate ExactFor(s: State, r: string) {
    r in s.tracks ==> Exact(s.rows, s.workers, s.tracks[r], r)
  }

  /** A requeue would revive a message of the request that the tracker already counts as failed. */
  predicate RevivesFailure(s: State, r: string) {
    exists id :: id in s.rows && s.rows[id].payload.requestId == r && s.rows[id].queueName == QUEUE
                 && ClassOf(s.rows, s.workers, id) == GivenUp
  }

  /** What must hold before a step so that the track of `r` stays exact. A mark must report
      the class its message is in; a worker must not settle a message that is settled already;
      a requeue must find no failure of the request; and a track may be made anew only for a
      request that has no rows yet. */
  predicate Orderly(s: State, step: Step, r: string) {
    match step
    case MarkTracker(w) =>
      w < |s.workers| && s.workers[w].Marking? && s.workers[w].copy.payload.requestId == r
      && s.workers[w].copy.id in s.rows && r in s.tracks ==>
        ClassOf(s.rows, s.workers[w := Idle], s.workers[w].copy.id) == Settled(s.workers[w].mark)
    case CommitOp(w) =>
      w < |s.workers| && s.workers[w].Committing? && s.workers[w].copy.payload.requestId == r
      && s.workers[w].copy.id in s.rows && r in s.tracks ==>
        ClassOf(s.rows, s.workers, s.workers[w].copy.id) == Outstanding
    case RequeueAll(_, _) => r in s.tracks ==> !RevivesFailure(s, r)
    case Dispatch(t, _, ok) =>
      ok && t < |s.tasks| && s.tasks[t].request == r && r !in s.tracks ==> RowsOf(s.rows, r) == {}
    case _ => true
  }

  // ---- Copies belong to rows, in every run ----

  predicate Copies(rows: Rows, workers: seq<Worker>) {
    forall w :: 0 <= w < |workers| && !workers[w].Idle? ==>
      workers[w].copy.id in rows && rows[workers[w].copy.id].payload == workers[w].copy.payload
  }

  lemma CopiesStep(s: State, step: Step, cfg: Config)
    requires Copies(s.rows, s.workers) && Enabled(s, step, cfg)
    ensures var s' := Next(s, step, cfg); Copies(s'.rows, s'.workers)
  {
    RowsPersist(s, step, cfg);
  }

  // ---- One step ----

  lemma MovedClasses(rows: Rows, rows': Rows, workers: seq<Worker>, w: nat, wk: Worker, id: string)
    requires w < |workers| && (!workers[w].Idle? ==> workers[w].copy.id == id)
    requires !wk.Idle? ==> wk.copy.id == id
    requires id in rows && id in rows' && rows' == rows[id := rows'[id]] && rows'[id].payload == rows[id].payload
    ensures OthersKept(rows, workers, rows', workers[w := wk], id)
  {
    forall j | j in rows && j != id
      ensures Settling(workers[w := wk], j) <==> Settling(workers, j) {
      SettlingElsewhere(workers, w, wk, id, j);
    }
  }

  lemma SettlingElsewhere(workers: seq<Worker>, w: nat, wk: Worker, id: string, j: string)
    requires w < |workers| && j != id
    requires !workers[w].Idle? ==> workers[w].copy.id == id
    requires !wk.Idle? ==> wk.copy.id == id
    ensures Settling(workers[w := wk], j) <==> Settling(workers, j)
  {
    var moved := workers[w := wk];
    if Settling(workers, j) {
      var v :| 0 <= v < |workers| && workers[v].Marking? && workers[v].copy.id == j;
      assert moved[v] == workers[v];
    }
  }

  /** A mark keeps the track exact if and only if it reports the class its message is in. */
  lemma MarkExactIff(rows: Rows, workers: seq<Worker>, w: nat, tracks: Tracks, now: real, r: string)
    requires Copies(rows, workers) && w < |workers| && workers[w].Marking?
    requires r != "" && r in tracks && Exact(rows, workers, tracks[r], r)
    ensures var copy := workers[w].copy;
            var tracks' := Marked(tracks, copy, workers[w].mark, now);
            && r in tracks'
            && (Exact(rows, workers[w := Idle], tracks'[r], r) <==>
                  (copy.payload.requestId == r ==>
                     ClassOf(rows, workers[w := Idle], copy.id) == Settled(workers[w].mark)))
  {
    var copy, workers' := workers[w].copy, workers[w := Idle];
    var tracks' := Marked(tracks, copy, workers[w].mark, now);
    assert Settling(workers, copy.id);
    assert rows == rows[copy.id := rows[copy.id]];
    MovedClasses(rows, rows, workers, w, Idle, copy.id);
    if copy.payload.requestId == r {
      assert copy.id in tracks[r].pending;
      assert tracks[r].pending + {copy.id} == tracks[r].pending;
      ExactAfterMoveIff(rows, workers, rows, workers', copy.id, r, tracks[r], tracks'[r],
                        Settled(workers[w].mark));
    } else {
      ExactElsewhere(rows, workers, rows, workers', copy.id, r, tracks[r]);
    }
  }

  /** Settling with the queue keeps it exact if and only if the message was not settled yet. */
  lemma CommitExactIff(rows: Rows, rows': Rows, workers: seq<Worker>, w: nat, wk: Worker, t: Track, r: string)
    requires Copies(rows, workers) && w < |workers| && workers[w].Committing?
    requires wk.Marking? && wk.copy == workers[w].copy
    requires var id := wk.copy.id; id in rows' && rows' == rows[id := rows'[id]]
                                   && rows'[id].payload == rows[id].payload
    requires Exact(rows, workers, t, r)
    ensures Exact(rows', workers[w := wk], t, r) <==>
              (wk.copy.payload.requestId == r ==> ClassOf(rows, workers, wk.copy.id) == Outstanding)
  {
    var id, workers' := wk.copy.id, workers[w := wk];
    assert workers'[w] == wk && Settling(workers', id);
    MovedClasses(rows, rows', workers, w, wk, id);
    if wk.copy.payload.requestId != r {
      ExactElsewhere(rows, workers, rows', workers', id, r, t);
    } else if ClassOf(rows, workers, id) == Outstanding {
      SameClasses(rows, workers, rows', workers', r);
    } else {
      assert id !in t.pending && id in Of(rows', workers', r, Outstanding);
    }
  }

  /** A requeue keeps it exact if and only if it revives no failure of the request. */
  lemma RequeueExactIff(s: State, newMax: CfsQueue.Option<int>, reset: bool, cfg: Config, r: string)
    requires r in s.tracks && Exact(s.rows, s.workers, s.tracks[r], r)
    ensures var s' := Next(s, RequeueAll(newMax, reset), cfg);
            Exact(s'.rows, s'.workers, s'.tracks[r], r) <==> !RevivesFailure(s, r)
  {
    var s' := Next(s, RequeueAll(newMax, reset), cfg);
    if RevivesFailure(s, r) {
      var id :| id in s.rows && s.rows[id].payload.requestId == r && s.rows[id].queueName == QUEUE
                && ClassOf(s.rows, s.workers, id) == GivenUp;
      assert id !in s.tracks[r].pending && id in Of(s'.rows, s'.workers, r, Outstanding);
    } else {
      forall c ensures Of(s'.rows, s'.workers, r, c) == Of(s.rows, s.workers, r, c) {
        RequeueKeepsClasses(s, newMax, reset, cfg, r, c);
      }
    }
  }

  lemma RequeueKeepsClasses(s: State, newMax: CfsQueue.Option<int>, reset: bool, cfg: Config, r: string, c: Class)
    requires !RevivesFailure(s, r)
    ensures var s' := Next(s, RequeueAll(newMax, reset), cfg);
            Of(s'.rows, s'.workers, r, c) == Of(s.rows, s.workers, r, c)
  {
    var s' := Next(s, RequeueAll(newMax, reset), cfg);
    forall id ensures id in Of(s'.rows, s'.workers, r, c) <==> id in Of(s.rows, s.workers, r, c) {
      if id in s.rows && s.rows[id].payload.requestId == r {
        RequeueKeepsClass(s, newMax, reset, cfg, r, id);
      }
    }
  }

  lemma RequeueKeepsClass(s: State, newMax: CfsQueue.Option<int>, reset: bool, cfg: Config, r: string, id: string)
    requires id in s.rows && s.rows[id].payload.requestId == r && !RevivesFailure(s, r)
    ensures var s' := Next(s, RequeueAll(newMax, reset), cfg);
            id in s'.rows && ClassOf(s'.rows, s'.workers, id) == ClassOf(s.rows, s.workers, id)
  {
  }

  lemma NewRowOthersKept(rows: Rows, workers: seq<Worker>, id: string, row: Row)
    requires Copies(rows, workers) && id !in rows && row.status == Pending
    ensures OthersKept(rows, workers, rows[id := row], workers, id)
    ensures ClassOf(rows[id := row], workers, id) == Outstanding
  {
  }

  /** A new message keeps a track exact; a track made anew for it, after the request was
      forgotten, is exact if and only if the request has no other rows. */
  lemma DispatchExactIff(s: State, t: nat, id: string, cfg: Config, r: string)
    requires Copies(s.rows, s.workers) && Enabled(s, Dispatch(t, id, true), cfg)
    requires r != "" && ExactFor(s, r)
    ensures var s' := Next(s, Dispatch(t, id, true), cfg);
            ExactFor(s', r) <==> Orderly(s, Dispatch(t, id, true), r)
  {
    var s' := Next(s, Dispatch(t, id, true), cfg);
    NewRowOthersKept(s.rows, s.workers, id, s'.rows[id]);
    if s.tasks[t].request != r {
      DispatchElsewhere(s, t, id, cfg, r);
    } else if r in s.tracks {
      ExactAfterMoveIff(s.rows, s.workers, s'.rows, s.workers, id, r, s.tracks[r], s'.tracks[r], Outstanding);
    } else {
      NewTrackExactIff(s.rows, s.workers, s'.rows, id, r, s'.tracks[r]);
    }
  }

  lemma DispatchElsewhere(s: State, t: nat, id: string, cfg: Config, r: string)
    requires Copies(s.rows, s.workers) && Enabled(s, Dispatch(t, id, true), cfg)
    requires ExactFor(s, r) && s.tasks[t].request != r
    ensures ExactFor(Next(s, Dispatch(t, id, true), cfg), r)
  {
    var s' := Next(s, Dispatch(t, id, true), cfg);
    NewRowOthersKept(s.rows, s.workers, id, s'.rows[id]);
    if r in s.tracks {
      ExactElsewhere(s.rows, s.workers, s'.rows, s.workers, id, r, s.tracks[r]);
    }
  }

  lemma NewTrackExactIff(rows: Rows, workers: seq<Worker>, rows': Rows, id: string, r: string, t: Track)
    requires id !in rows && OthersKept(rows, workers, rows', workers, id)
    requires rows'[id].payload.requestId == r && ClassOf(rows', workers, id) == Outstanding
    requires t.pending == {id} && t.done == 0 && t.failed == 0
    ensures Exact(rows', workers, t, r) <==> RowsOf(rows, r) == {}
  {
    if RowsOf(rows, r) == {} {
      assert Of(rows', workers, r, Outstanding) == {id};
      assert Of(rows', workers, r, Succeeded) == {} && Of(rows', workers, r, GivenUp) == {};
    } else {
      var j :| j in RowsOf(rows, r);
      assert j in Of(rows', workers, r, ClassOf(rows', workers, j));
    }
  }

  predicate Quiet(step: Step) {
    !step.MarkTracker? && !step.CommitOp? && !step.RequeueAll? && !step.Dispatch?
  }

  lemma QuietClasses(s: State, step: Step, cfg: Config, id: string)
    requires Enabled(s, step, cfg) && Quiet(step) && !step.Crash? && id in s.rows
    ensures var s' := Next(s, step, cfg);
            && id in s'.rows && s'.rows[id].payload == s.rows[id].payload
            && ClassOf(s'.rows, s'.workers, id) == ClassOf(s.rows, s.workers, id)
  {
    if step.ClaimNext? || step.Begin? || step.Finish? {
      SettlingAfterMove(s.workers, step.w, Next(s, step, cfg).workers[step.w], id);
    }
  }

  lemma QuietKeepsExact(s: State, step: Step, cfg: Config, r: string)
    requires Enabled(s, step, cfg) && Quiet(step) && r != "" && ExactFor(s, r)
    ensures ExactFor(Next(s, step, cfg), r)
  {
    var s' := Next(s, step, cfg);
    if r in s'.tracks && r in s.tracks {
      forall id | id in s.rows
        ensures id in s'.rows && s'.rows[id].payload == s.rows[id].payload
        ensures ClassOf(s'.rows, s'.workers, id) == ClassOf(s.rows, s.workers, id) {
        QuietClasses(s, step, cfg, id);
      }
      SameClasses(s.rows, s.workers, s'.rows, s'.workers, r);
    } else if r in s'.tracks {
      assert Of(s'.rows, s'.workers, r, Outstanding) == {};
      assert Of(s'.rows, s'.workers, r, Succeeded) == {} && Of(s'.rows, s'.workers, r, GivenUp) == {};
    }
  }

  /** For every kind of step: the track of a request stays exact if and only if the step is
      orderly for it. */
  lemma StepExactIff(s: State, step: Step, cfg: Config, r: string)
    requires Copies(s.rows, s.workers) && Enabled(s, step, cfg)
    requires r != "" && ExactFor(s, r)
    ensures ExactFor(Next(s, step, cfg), r) <==> Orderly(s, step, r)
  {
    var s' := Next(s, step, cfg);
    if step.MarkTracker? {
      if r in s.tracks {
        MarkExactIff(s.rows, s.workers, step.w, s.tracks, s.now, r);
      }
    } else if step.CommitOp? {
      if r in s.tracks {
        CommitExactIff(s.rows, s'.rows, s.workers, step.w, s'.workers[step.w], s.tracks[r], r);
      }
    } else if step.RequeueAll? {
      if r in s.tracks {
        RequeueExactIff(s, step.newMax, step.reset, cfg, r);
      }
    } else if step.Dispatch? && step.ok {
      DispatchExactIff(s, step.t, step.id, cfg, r);
    } else if !step.Dispatch? {
      QuietKeepsExact(s, step, cfg, r);
    }
  }

  // ---- Whole runs ----

  ghost predicate OrderlyRun(steps: seq<Step>, n: nat, cfg: Config, r: string) {
    steps == []
    || var before, step := steps[..|steps| - 1], steps[|steps| - 1];
       && OrderlyRun(before, n, cfg, r)
       && (Enabled(After(before, n, cfg), step, cfg) ==> Orderly(After(before, n, cfg), step, r))
  }

  /** The track of the request is exact after every step of the run. */
  ghost predicate ExactThroughout(steps: seq<Step>, n: nat, cfg: Config, r: string) {
    && ExactFor(After(steps, n, cfg), r)
    && (steps == [] || ExactThroughout(steps[..|steps| - 1], n, cfg, r))
  }

  lemma {:induction false} CopiesRun(steps: seq<Step>, n: nat, cfg: Config)
    ensures var s := After(steps, n, cfg); Copies(s.rows, s.workers)
  {
    if steps != [] {
      var before, step := steps[..|steps| - 1], steps[|steps| - 1];
      CopiesRun(before, n, cfg);
      if Enabled(After(before, n, cfg), step, cfg) {
        CopiesStep(After(before, n, cfg), step, cfg);
      }
    }
  }

  /** In every run at all, stale recoveries, requeues and crashes included: the tracker refines
      the queue for a request throughout if and only if every step is orderly for it. */
  lemma {:induction false} ExactThroughoutIff(steps: seq<Step>, n: nat, cfg: Config, r: string)
    requires r != ""
    ensures ExactThroughout(steps, n, cfg, r) <==> OrderlyRun(steps, n, cfg, r)
  {
    if steps != [] {
      var before, step := steps[..|steps| - 1], steps[|steps| - 1];
      ExactThroughoutIff(before, n, cfg, r);
      CopiesRun(before, n, cfg);
      if ExactThroughout(before, n, cfg, r) && Enabled(After(before, n, cfg), step, cfg) {
        StepExactIff(After(before, n, cfg), step, cfg, r);
      }
    }
  }

  // ---- What an exact track tells its readers ----

  /** Pending, done and failed add up to the messages registered. */
  lemma ExactCountsAll(s: State, r: string)
    requires r in s.tracks && ExactFor(s, r)
    ensures Known(s.tracks[r]) == |RowsOf(s.rows, r)|
  {
    ClassPartition(s.rows, s.workers, r);
  }

  /** Ready means that every message is done and marked, failed that some marked one failed. */
  lemma VerdictIsExact(s: State, r: string)
    requires r in s.tracks && ExactFor(s, r)
    ensures StatusOf(s.tracks, r) == Ready <==>
              forall id :: id in RowsOf(s.rows, r) ==>
                s.rows[id].status == Status.Done && !Settling(s.workers, id)
    ensures StatusOf(s.tracks, r) == FailedIndex <==>
              exists id :: id in RowsOf(s.rows, r) &&
                s.rows[id].status == Status.Failed && !Settling(s.workers, id)
  {
    var t := s.tracks[r];
    assert t.failed > 0 <==> Of(s.rows, s.workers, r, GivenUp) != {};
    if t.failed > 0 {
      var id :| id in Of(s.rows, s.workers, r, GivenUp);
      assert id in RowsOf(s.rows, r);
    }
    if t.pending != {} {
      var id :| id in Of(s.rows, s.workers, r, Outstanding);
      assert id in RowsOf(s.rows, r);
    }
    forall id | id in RowsOf(s.rows, r)
      ensures s.rows[id].status == Status.Failed && !Settling(s.workers, id) ==> t.failed > 0
      ensures t.failed == 0 && t.pending == {} ==>
                s.rows[id].status == Status.Done && !Settling(s.workers, id) {
      if s.rows[id].status == Status.Failed && !Settling(s.workers, id) {
        assert id in Of(s.rows, s.workers, r, GivenUp);
      } else if ClassOf(s.rows, s.workers, id) == Outstanding {
        assert id in Of(s.rows, s.workers, r, Outstanding);
      }
    }
  }

  /** Whoever waits for completion waits exactly until every message has reached a terminal
      row and its worker has said so. */
  lemma CompleteIsExact(s: State, r: string)
    requires r in s.tracks && ExactFor(s, r)
    ensures s.tracks[r].pending == {} <==>
              forall id :: id in RowsOf(s.rows, r) ==>
                (s.rows[id].status == Status.Done || s.rows[id].status == Status.Failed)
                && !Settling(s.workers, id)
  {
    if s.tracks[r].pending == {} {
      forall id | id in RowsOf(s.rows, r) ensures ClassOf(s.rows, s.workers, id) != Outstanding {
        assert id !in Of(s.rows, s.workers, r, Outstanding);
      }
    } else {
      var id :| id in Of(s.rows, s.workers, r, Outstanding);
      assert id in RowsOf(s.rows, r);
    }
  }
}
