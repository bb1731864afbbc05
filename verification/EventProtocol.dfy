/** The store-event protocol as a transition system. Everything between two awaits is one
    step; every queue transaction is one step; any worker, publisher task, route, timeout
    or recovery may move next. */
module EventProtocol {
  import opened CfsQueue
  import opened W = WaitTracker

  datatype Key =
    | SessionOrder(tenant: string, user: string, project: string, session: string)
    | RecordOrder(tenant: string, user: string, project: string, uri: string)

  /** The serialization key for ordered side effects. */
  function OrderingKey(e: Event): Key {
    if e.kind == SessionTurnStored || e.kind == SessionMerged || e.kind == SessionEnded then
      SessionOrder(e.tenant, e.user, e.project, e.session)
    else
      RecordOrder(e.tenant, e.user, e.project, if e.uri != "" then e.uri else e.recordId)
  }

  /** Two events wait for each other exactly if both concern one session, or both one record,
      of the same project; record events without a URI go by their record id. */
  lemma SameKeyIff(a: Event, b: Event)
    ensures OrderingKey(a) == OrderingKey(b) <==>
              && a.tenant == b.tenant && a.user == b.user && a.project == b.project
              && (if a.kind in {SessionTurnStored, SessionMerged, SessionEnded} then
                    b.kind in {SessionTurnStored, SessionMerged, SessionEnded} && a.session == b.session
                  else
                    && b.kind in {MemoryStored, CheckUpdate}
                    && (if a.uri == "" then a.recordId else a.uri) == (if b.uri == "" then b.recordId else b.uri))
  {
  }

  datatype Commit = DoAck | DoRelease | DoFail(retry: bool)

  datatype Mark = DoneMark | RequeueMark | FailMark

  /** Where a worker task is, between two awaits. */
  datatype Worker =
    | Idle
    | Claimed(copy: QueueMessage)                  // dequeued, not yet looked at
    | Handling(copy: QueueMessage, key: Key)       // inside the key lock
    | Committing(copy: QueueMessage, op: Commit)   // the queue transaction is outstanding
    | Marking(copy: QueueMessage, mark: Mark)      // transaction done, tracker not yet told
  {
    /** The worker believes it owns the message. */
    predicate Holds() {
      Claimed? || Handling? || Committing?
    }
  }

  /** One published event: scheduled, turned into a queue row, or failed to enqueue. */
  datatype Task =
    | Scheduled(request: string, event: Event)
    | Enqueued(request: string, id: string)
    | Dropped(request: string)

  /** A store route that asked to wait. */
  datatype Route =
    | Open
    | AwaitingPublish(tasks: set<nat>)
    | Polling(published: bool)
    | Answered(status: IndexStatus)

  datatype Config = Config(staleAfter: real, maxAttempts: int, lockedDelay: real, retention: real)

  datatype State = State(
    rows: Rows,
    workers: seq<Worker>,
    locks: set<Key>,
    tracks: Tracks,
    tasks: seq<Task>,
    routes: map<string, Route>,
    now: real,
    runs: map<string, nat>)      // handler runs started, per message

  datatype Step =
    | Tick(time: real)
    | RegisterRequest(r: string)
    | Publish(r: string, event: Event)
    | Dispatch(t: nat, id: string, ok: bool)
    | CloseScope(r: string)
    | PublishDone(r: string)
    | PublishTimeout(r: string)
    | Answer(r: string)
    | Forget(r: string)
    | ClaimNext(w: nat, id: string)
    | Begin(w: nat)
    | Finish(w: nat, failure: CfsQueue.Option<bool>)
    | CommitOp(w: nat)
    | MarkTracker(w: nat)
    | RecoverStale
    | RequeueAll(newMax: CfsQueue.Option<int>, reset: bool)
    | Crash

  const QUEUE := "store_events"

  function Init(concurrency: nat): State {
    State(map[], seq(concurrency, _ => Idle), {}, map[], [], map[], 0.0, map[])
  }

  function Runs(s: State, id: string): nat {
    if id in s.runs then s.runs[id] else 0
  }

  function ScheduledTasks(tasks: seq<Task>): set<nat> {
    set t: nat | t < |tasks| && tasks[t].Scheduled?
  }

  predicate Enabled(s: State, step: Step, cfg: Config) {
    match step
    case Tick(time) => time >= s.now
    case RegisterRequest(r) =>
      && r != "" && r !in s.routes && r !in s.tracks
      && (forall id :: id in s.rows ==> s.rows[id].payload.requestId != r)
      && (forall x :: x in s.tasks ==> x.request != r)
    case Publish(r, _) => r == "" || (r in s.routes && s.routes[r].Open?)
    case Dispatch(t, id, _) => t < |s.tasks| && s.tasks[t].Scheduled? && id != "" && id !in s.rows
    case CloseScope(r) => r in s.routes && s.routes[r].Open?
    case PublishDone(r) =>
      && r in s.routes && s.routes[r].AwaitingPublish?
      && s.routes[r].tasks !! ScheduledTasks(s.tasks)
    case PublishTimeout(r) => r in s.routes && s.routes[r].AwaitingPublish?
    case Answer(r) => r in s.routes && s.routes[r].Polling?
    case Forget(r) => r in s.tracks && Expired(s.tracks[r], s.now, cfg.retention)
    case ClaimNext(w, id) =>
      && w < |s.workers| && s.workers[w].Idle?
      && id in s.rows && Claimable(s.rows[id], QUEUE, s.now)
    case Begin(w) => w < |s.workers| && s.workers[w].Claimed?
    case Finish(w, _) => w < |s.workers| && s.workers[w].Handling?
    case CommitOp(w) => w < |s.workers| && s.workers[w].Committing?
    case MarkTracker(w) => w < |s.workers| && s.workers[w].Marking?
    case RecoverStale => true
    case RequeueAll(_, _) => true
    case Crash => true
  }

  /** How a claimed message starts: undecodable payloads fail for good, a locked key gives
      the message back, a free key is locked and the handlers run. */
  function Started(s: State, copy: QueueMessage): Worker {
    if copy.payload.event.None? then Committing(copy, DoFail(false))
    else
      var key := OrderingKey(copy.payload.event.value);
      if key in s.locks then Committing(copy, DoRelease) else Handling(copy, key)
  }

  function Transaction(copy: QueueMessage, op: Commit, now: real, cfg: Config): Op {
    match op
    case DoAck => Ack(copy.id)
    case DoRelease => Release(copy.id, now, cfg.lockedDelay)
    case DoFail(retry) => Fail(copy.id, retry, now, if retry then 1.0 else 0.0)
  }

  /** What the worker will tell the tracker, judged from its claimed copy. */
  function MarkFor(copy: QueueMessage, op: Commit): Mark {
    match op
    case DoAck => DoneMark
    case DoRelease => RequeueMark
    case DoFail(retry) => if retry && copy.attempts < copy.maxAttempts then RequeueMark else FailMark
  }

  function Marked(ts: Tracks, copy: QueueMessage, mark: Mark, now: real): Tracks {
    var r := copy.payload.requestId;
    if r == "" || r !in ts then ts
    else
      match mark
      case DoneMark => ts[r := MarkDone(ts[r], copy.id, now)]
      case RequeueMark => ts[r := MarkRequeued(ts[r], copy.id, now)]
      case FailMark => ts[r := MarkFailed(ts[r], copy.id, now)]
  }

  /** The answer of the store route; without completed publishing "ready" is withheld. */
  function RouteAnswer(ts: Tracks, r: string, published: bool): IndexStatus {
    var st := StatusOf(ts, r);
    if !published && st == Ready then InProgress else st
  }

  function Next(s: State, step: Step, cfg: Config): State
    requires Enabled(s, step, cfg)
  {
    match step
    case Tick(time) => s.(now := time)
    case RegisterRequest(r) =>
      s.(routes := s.routes[r := Open], tracks := s.tracks[r := NewTrack(s.now)])
    case Publish(r, event) => s.(tasks := s.tasks + [Scheduled(r, event)])
    case Dispatch(t, id, ok) =>
      var task := s.tasks[t];
      if !ok then s.(tasks := s.tasks[t := Dropped(task.request)])
      else
        var payload := Payload(CfsQueue.Some(task.event), task.request);
        s.(rows := s.rows[id := NewRow(QUEUE, payload, cfg.maxAttempts, s.now)],
           tasks := s.tasks[t := Enqueued(task.request, id)],
           tracks := if task.request == "" then s.tracks
                     else s.tracks[task.request := Register(
                       if task.request in s.tracks then s.tracks[task.request]
                       else NewTrack(s.now), id, s.now)])
    case CloseScope(r) => s.(routes := s.routes[r := AwaitingPublish(ScheduledTasks(s.tasks))])
    case PublishDone(r) => s.(routes := s.routes[r := Polling(true)])
    case PublishTimeout(r) => s.(routes := s.routes[r := Polling(false)])
    case Answer(r) =>
      s.(routes := s.routes[r := Answered(RouteAnswer(s.tracks, r, s.routes[r].published))])
    case Forget(r) => s.(tracks := s.tracks - {r})
    case ClaimNext(w, id) =>
      var row := ClaimRow(s.rows[id], s.now);
      s.(rows := s.rows[id := row],
         workers := s.workers[w := Claimed(
           QueueMessage(id, row.queueName, row.payload, row.attempts, row.maxAttempts))])
    case Begin(w) =>
      var copy := s.workers[w].copy;
      var wk := Started(s, copy);
      s.(workers := s.workers[w := wk],
         locks := if wk.Handling? then s.locks + {wk.key} else s.locks,
         runs := if wk.Handling? then s.runs[copy.id := Runs(s, copy.id) + 1] else s.runs)
    case Finish(w, failure) =>
      var wk := s.workers[w];
      s.(workers := s.workers[w := Committing(wk.copy,
           if failure.Some? then DoFail(failure.value) else DoAck)],
         locks := s.locks - {wk.key})
    case CommitOp(w) =>
      var wk := s.workers[w];
      s.(rows := Apply(s.rows, Transaction(wk.copy, wk.op, s.now, cfg), cfg.staleAfter),
         workers := s.workers[w := Marking(wk.copy, MarkFor(wk.copy, wk.op))])
    case MarkTracker(w) =>
      var wk := s.workers[w];
      s.(tracks := Marked(s.tracks, wk.copy, wk.mark, s.now), workers := s.workers[w := Idle])
    case RecoverStale =>
      s.(rows := Apply(s.rows, Recover(CfsQueue.Some(QUEUE), s.now), cfg.staleAfter))
    case RequeueAll(newMax, reset) =>
      s.(rows := Apply(s.rows, RequeueFailed(QUEUE, newMax, reset, s.now), cfg.staleAfter))
    case Crash =>
      s.(workers := seq(|s.workers|, _ => Idle), locks := {}, tracks := map[], tasks := [],
         routes := map[])
  }

  /** The steps leave nothing out: time may advance, any new request may register, anybody may publish
      for an open route, any scheduled event may be enqueued or fail to, publishing may end or time
      out, retention may forget what is settled and idle for long enough, any idle worker may claim
      any message that is due, and recovery, requeues and crashes may come at any time. */
  lemma NothingIsExcluded(s: State, cfg: Config)
    ensures forall time :: time >= s.now ==> Enabled(s, Tick(time), cfg)
    ensures forall r :: r != "" && r !in s.routes && r !in s.tracks
                        && (forall id :: id in s.rows ==> s.rows[id].payload.requestId != r)
                        && (forall t :: 0 <= t < |s.tasks| ==> s.tasks[t].request != r) ==>
              Enabled(s, RegisterRequest(r), cfg)
    ensures forall r, event :: r in s.routes && s.routes[r].Open? ==> Enabled(s, Publish(r, event), cfg)
    ensures forall event :: Enabled(s, Publish("", event), cfg)
    ensures forall t: nat, id, ok :: t < |s.tasks| && s.tasks[t].Scheduled? && id != "" && id !in s.rows ==>
              Enabled(s, Dispatch(t, id, ok), cfg)
    ensures forall r :: r in s.routes && s.routes[r].Open? ==> Enabled(s, CloseScope(r), cfg)
    ensures forall r :: r in s.routes && s.routes[r].AwaitingPublish? ==> Enabled(s, PublishTimeout(r), cfg)
    ensures forall r :: r in s.routes && s.routes[r].AwaitingPublish?
                        && (forall t :: t in s.routes[r].tasks && t < |s.tasks| ==> !s.tasks[t].Scheduled?) ==>
              Enabled(s, PublishDone(r), cfg)
    ensures forall r :: r in s.routes && s.routes[r].Polling? ==> Enabled(s, Answer(r), cfg)
    ensures forall r :: r in s.tracks && s.tracks[r].pending == {} && s.tracks[r].updatedAt < s.now - cfg.retention
              ==> Enabled(s, Forget(r), cfg)
    ensures forall w: nat, id :: w < |s.workers| && s.workers[w].Idle? && id in s.rows
                                 && s.rows[id].queueName == "store_events"
                                 && s.rows[id].status == Pending && s.rows[id].availableAt <= s.now ==>
              Enabled(s, ClaimNext(w, id), cfg)
    ensures Enabled(s, RecoverStale, cfg) && Enabled(s, Crash, cfg)
    ensures forall newMax, reset :: Enabled(s, RequeueAll(newMax, reset), cfg)
  {
  }

  /** The life of a waiting route: closing awaits the events scheduled so far; a timeout, unlike
      their completion, withholds ready; the answer is what the tracker says. */
  lemma RouteLife(s: State, r: string, cfg: Config)
    requires r in s.routes
    ensures s.routes[r].Open? ==>
              Next(s, CloseScope(r), cfg).routes
              == s.routes[r := AwaitingPublish(set t: nat | t < |s.tasks| && s.tasks[t].Scheduled?)]
    ensures s.routes[r].AwaitingPublish? ==>
              Next(s, PublishTimeout(r), cfg).routes == s.routes[r := Polling(false)]
    ensures Enabled(s, PublishDone(r), cfg) ==>
              Next(s, PublishDone(r), cfg).routes == s.routes[r := Polling(true)]
    ensures s.routes[r].Polling? ==>
              Next(s, Answer(r), cfg).routes == s.routes[r := Answered(
                if r !in s.tracks then Unknown
                else if s.tracks[r].failed > 0 then FailedIndex
                else if s.tracks[r].pending == {} && s.routes[r].published then Ready
                else InProgress)]
  {
  }

  /** Any sequence of steps is a run; a step that cannot happen is skipped. */
  function After(steps: seq<Step>, n: nat, cfg: Config): State {
    if steps == [] then Init(n)
    else
      var s, step := After(steps[..|steps| - 1], n, cfg), steps[|steps| - 1];
      if Enabled(s, step, cfg) then Next(s, step, cfg) else s
  }

  // ---- Mutual exclusion per ordering key, in every run ----

  predicate Exclusive(s: State) {
    Excludes(s.workers, s.locks)
  }

  predicate Excludes(workers: seq<Worker>, locks: set<Key>) {
    && (forall w :: 0 <= w < |workers| && workers[w].Handling? ==>
          && workers[w].key in locks
          && workers[w].copy.payload.event.Some?
          && workers[w].key == OrderingKey(workers[w].copy.payload.event.value))
    && (forall w, v :: 0 <= w < v < |workers| && workers[w].Handling? && workers[v].Handling?
          ==> workers[w].key != workers[v].key)
  }

  /** A handler starts only under a free lock, and only its own lock is given up. */
  lemma ExcludesAfterMove(workers: seq<Worker>, locks: set<Key>, w: nat, wk: Worker, locks': set<Key>)
    requires Excludes(workers, locks) && w < |workers|
    requires wk.Handling? ==>
               && wk.copy.payload.event.Some? && wk.key == OrderingKey(wk.copy.payload.event.value)
               && wk.key !in locks && locks' == locks + {wk.key}
    requires !wk.Handling? ==>
               locks' == if workers[w].Handling? then locks - {workers[w].key} else locks
    ensures Excludes(workers[w := wk], locks')
  {
  }

  lemma ExclusiveStep(s: State, step: Step, cfg: Config)
    requires Exclusive(s) && Enabled(s, step, cfg)
    ensures Exclusive(Next(s, step, cfg))
  {
    if step.ClaimNext? || step.Begin? || step.Finish? || step.CommitOp? || step.MarkTracker? {
      var s' := Next(s, step, cfg);
      ExcludesAfterMove(s.workers, s.locks, step.w, s'.workers[step.w], s'.locks);
    }
  }

  lemma {:induction false} MutualExclusion(steps: seq<Step>, n: nat, cfg: Config)
    ensures Exclusive(After(steps, n, cfg))
  {
    if steps != [] {
      var before, step := steps[..|steps| - 1], steps[|steps| - 1];
      MutualExclusion(before, n, cfg);
      if Enabled(After(before, n, cfg), step, cfg) {
        ExclusiveStep(After(before, n, cfg), step, cfg);
      }
    }
  }

  /** So no two running handlers ever deal with the same session, or the same record. */
  lemma HandledApart(steps: seq<Step>, n: nat, cfg: Config, w: nat, v: nat)
    requires var s := After(steps, n, cfg);
             w < |s.workers| && v < |s.workers| && w != v && s.workers[w].Handling? && s.workers[v].Handling?
    ensures var s := After(steps, n, cfg);
            && s.workers[w].copy.payload.event.Some? && s.workers[v].copy.payload.event.Some?
            && var a, b := s.workers[w].copy.payload.event.value, s.workers[v].copy.payload.event.value;
               && (a.tenant == b.tenant && a.user == b.user && a.project == b.project ==>
                     (if a.kind in {SessionTurnStored, SessionMerged, SessionEnded} then
                        b.kind in {SessionTurnStored, SessionMerged, SessionEnded} ==> a.session != b.session
                      else
                        b.kind in {MemoryStored, CheckUpdate} ==>
                          (if a.uri == "" then a.recordId else a.uri)
                          != (if b.uri == "" then b.recordId else b.uri)))
  {
    MutualExclusion(steps, n, cfg);
    var s := After(steps, n, cfg);
    SameKeyIff(s.workers[w].copy.payload.event.value, s.workers[v].copy.payload.event.value);
  }

  /** No worker ever waits for a lock, or for another worker: whatever the others hold, a
      worker that is not idle can take its next step at once. */
  lemma WorkersNeverBlock(s: State, w: nat, cfg: Config)
    requires w < |s.workers| && !s.workers[w].Idle?
    ensures exists step :: Enabled(s, step, cfg) && Next(s, step, cfg).workers[w] != s.workers[w]
                           && forall v :: 0 <= v < |s.workers| && v != w ==>
                                Next(s, step, cfg).workers[v] == s.workers[v]
  {
    var step := match s.workers[w]
      case Claimed(_) => Begin(w)
      case Handling(_, _) => Finish(w, CfsQueue.None)
      case Committing(_, _) => CommitOp(w)
      case Marking(_, _) => MarkTracker(w);
    assert Enabled(s, step, cfg);
  }

  // ---- Ownership ----

  /** A holder's row is processing and its copy is current; no message has two holders. */
  predicate Owned(s: State) {
    Owns(s.rows, s.workers)
  }

  predicate Owns(rows: Rows, workers: seq<Worker>) {
    && (forall w :: 0 <= w < |workers| && workers[w].Holds() ==> Current(rows, workers[w].copy))
    && (forall w, v :: 0 <= w < v < |workers| && workers[w].Holds() && workers[v].Holds()
          ==> workers[w].copy.id != workers[v].copy.id)
  }

  predicate Current(rows: Rows, m: QueueMessage) {
    && m.id in rows
    && rows[m.id].status == Processing
    && rows[m.id].startedAt.Some?
    && rows[m.id].attempts == m.attempts
    && rows[m.id].maxAttempts == m.maxAttempts
    && rows[m.id].payload == m.payload
    && rows[m.id].queueName == QUEUE
  }

  /** No live worker has kept its claim past the stale limit. */
  predicate NoStaleHolder(s: State, cfg: Config) {
    forall w :: 0 <= w < |s.workers| && s.workers[w].Holds() && s.workers[w].copy.id in s.rows
      ==> !Stale(s.rows[s.workers[w].copy.id], s.now, cfg.staleAfter)
  }

  predicate PromptStep(s: State, step: Step, cfg: Config) {
    step.RecoverStale? ==> NoStaleHolder(s, cfg)
  }

  predicate HeldByOther(workers: seq<Worker>, w: nat, id: string) {
    exists v :: 0 <= v < |workers| && v != w && workers[v].Holds() && workers[v].copy.id == id
  }

  /** One worker moves and touches at most one row, which nobody else holds. */
  lemma OwnsAfterMove(rows: Rows, rows': Rows, workers: seq<Worker>, w: nat, wk: Worker, id: string)
    requires Owns(rows, workers) && w < |workers|
    requires rows' == rows || (id in rows' && rows' == rows[id := rows'[id]] && !HeldByOther(workers, w, id))
    requires wk.Holds() ==> wk.copy.id == id && Current(rows', wk.copy) && !HeldByOther(workers, w, id)
    ensures Owns(rows', workers[w := wk])
  {
  }

  /** Rows that change while no worker moves are rows without a live claim. */
  lemma OwnsAfterRows(rows: Rows, rows': Rows, workers: seq<Worker>)
    requires Owns(rows, workers)
    requires forall w :: 0 <= w < |workers| && workers[w].Holds() ==>
               workers[w].copy.id in rows' && rows'[workers[w].copy.id] == rows[workers[w].copy.id]
    ensures Owns(rows', workers)
  {
  }

  lemma OwnedStep(s: State, step: Step, cfg: Config)
    requires Owned(s) && Enabled(s, step, cfg) && PromptStep(s, step, cfg)
    ensures Owned(Next(s, step, cfg))
  {
    var s' := Next(s, step, cfg);
    match step
    case ClaimNext(w, id) =>
      assert !HeldByOther(s.workers, w, id);
      OwnsAfterMove(s.rows, s'.rows, s.workers, w, s'.workers[w], id);
    case Begin(w) =>
      OwnsAfterMove(s.rows, s'.rows, s.workers, w, s'.workers[w], s.workers[w].copy.id);
    case Finish(w, _) =>
      OwnsAfterMove(s.rows, s'.rows, s.workers, w, s'.workers[w], s.workers[w].copy.id);
    case CommitOp(w) =>
      OwnsAfterMove(s.rows, s'.rows, s.workers, w, s'.workers[w], s.workers[w].copy.id);
    case MarkTracker(w) =>
      OwnsAfterMove(s.rows, s'.rows, s.workers, w, s'.workers[w], s.workers[w].copy.id);
    case Dispatch(_, _, _) => OwnsAfterRows(s.rows, s'.rows, s.workers);
    case RecoverStale => OwnsAfterRows(s.rows, s'.rows, s.workers);
    case RequeueAll(_, _) => OwnsAfterRows(s.rows, s'.rows, s.workers);
    case _ =>
  }

  /** Exactly when a stale recovery keeps single ownership: no live claim has expired. */
  lemma RecoveryKeepsOwnershipIff(s: State, cfg: Config)
    requires Owned(s)
    ensures Owned(Next(s, RecoverStale, cfg)) <==> NoStaleHolder(s, cfg)
  {
    if !NoStaleHolder(s, cfg) {
      var w :| 0 <= w < |s.workers| && s.workers[w].Holds() && s.workers[w].copy.id in s.rows
               && Stale(s.rows[s.workers[w].copy.id], s.now, cfg.staleAfter);
      assert Next(s, RecoverStale, cfg).rows[s.workers[w].copy.id].status == Pending;
    }
  }

  /** Done and failed rows are final, except that an explicit requeue revives failed ones. */
  lemma TerminalRowsAreFinal(s: State, step: Step, cfg: Config, id: string)
    requires Owned(s) && Enabled(s, step, cfg) && PromptStep(s, step, cfg)
    requires id in s.rows && (s.rows[id].status == Done || s.rows[id].status == Failed)
    ensures id in Next(s, step, cfg).rows
    ensures s.rows[id].status == Done || !step.RequeueAll? ==>
              Next(s, step, cfg).rows[id] == s.rows[id]
  {
  }

  ghost predicate PromptRun(steps: seq<Step>, n: nat, cfg: Config) {
    steps == []
    || var before := steps[..|steps| - 1];
       PromptRun(before, n, cfg) && PromptStep(After(before, n, cfg), steps[|steps| - 1], cfg)
  }

  /** Single owner: in every run where no live claim outlives the stale limit. */
  lemma {:induction false} SingleOwner(steps: seq<Step>, n: nat, cfg: Config)
    requires PromptRun(steps, n, cfg)
    ensures Owned(After(steps, n, cfg))
  {
    if steps != [] {
      var before, step := steps[..|steps| - 1], steps[|steps| - 1];
      SingleOwner(before, n, cfg);
      var s := After(before, n, cfg);
      if Enabled(s, step, cfg) {
        OwnedStep(s, step, cfg);
      }
    }
  }

  /** In every such run, the verdict a worker takes from its copy is the queue's from the row. */
  lemma VerdictAgrees(steps: seq<Step>, n: nat, cfg: Config, w: nat)
    requires PromptRun(steps, n, cfg)
    requires Enabled(After(steps, n, cfg), CommitOp(w), cfg) && After(steps, n, cfg).workers[w].op.DoFail?
    ensures var s := After(steps, n, cfg);
            var s' := Next(s, CommitOp(w), cfg);
            var id := s.workers[w].copy.id;
            && id in s'.rows
            && (s'.workers[w].mark == RequeueMark <==> s'.rows[id].status == Pending)
            && (s'.workers[w].mark == FailMark <==> s'.rows[id].status == Failed)
  {
    SingleOwner(steps, n, cfg);
  }

  /** And a done row is final whatever follows, a failed one as long as nothing is requeued. */
  lemma {:induction false} TerminalForever(steps: seq<Step>, more: seq<Step>, n: nat, cfg: Config, id: string)
    requires PromptRun(steps + more, n, cfg) && id in After(steps, n, cfg).rows
    requires var st := After(steps, n, cfg).rows[id].status;
             st == Done || (st == Failed && forall step :: step in more ==> !step.RequeueAll?)
    ensures id in After(steps + more, n, cfg).rows
    ensures After(steps + more, n, cfg).rows[id] == After(steps, n, cfg).rows[id]
    decreases |more|
  {
    if more == [] {
      assert steps + more == steps;
    } else {
      var front, last := more[..|more| - 1], more[|more| - 1];
      assert (steps + more)[..|steps + more| - 1] == steps + front;
      TerminalForever(steps, front, n, cfg, id);
      SingleOwner(steps + front, n, cfg);
      var s := After(steps + front, n, cfg);
      if Enabled(s, last, cfg) {
        TerminalRowsAreFinal(s, last, cfg, id);
      }
    }
  }
}
