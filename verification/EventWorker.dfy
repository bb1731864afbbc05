/** The event worker's own calls, run without interruption, are runs of the protocol's steps. */
module EventWorkers {
  import opened CfsQueue
  import opened W = WaitTracker
  import opened EventProtocol

  /** What an action listens to: every event, or one kind only. */
  datatype Action = Everything | Only(kind: EventKind)

  /** Update checks reach only the actions made for them. */
  predicate Matches(action: Action, kind: EventKind) {
    if kind == CheckUpdate then action == Only(CheckUpdate) else action == Everything || action == Only(kind)
  }

  /** The outcomes of the actions that match, in order. */
  function Heard(actions: seq<Action>, kind: EventKind, outcomes: seq<CfsQueue.Option<bool>>)
    : seq<CfsQueue.Option<bool>>
    requires |outcomes| == |actions|
  {
    if actions == [] then []
    else
      var n := |actions| - 1;
      Heard(actions[..n], kind, outcomes[..n]) + if Matches(actions[n], kind) then [outcomes[n]] else []
  }

  /** The failures among outcomes; a failing action does not stop the others. */
  function Raised(outcomes: seq<CfsQueue.Option<bool>>): seq<bool> {
    if outcomes == [] then []
    else
      var n := |outcomes| - 1;
      Raised(outcomes[..n]) + if outcomes[n].Some? then [outcomes[n].value] else []
  }

  lemma RaisedSnoc(outcomes: seq<CfsQueue.Option<bool>>, o: CfsQueue.Option<bool>)
    ensures Raised(outcomes + [o]) == Raised(outcomes) + if o.Some? then [o.value] else []
  {
    assert (outcomes + [o])[..|outcomes|] == outcomes;
  }

  lemma RaisedHeardSnoc(actions: seq<Action>, kind: EventKind, outcomes: seq<CfsQueue.Option<bool>>, i: nat)
    requires i < |outcomes| == |actions|
    ensures Raised(Heard(actions[..i + 1], kind, outcomes[..i + 1]))
            == Raised(Heard(actions[..i], kind, outcomes[..i]))
               + if Matches(actions[i], kind) && outcomes[i].Some? then [outcomes[i].value] else []
  {
    assert actions[..i + 1][..i] == actions[..i] && outcomes[..i + 1][..i] == outcomes[..i];
    var heard := Heard(actions[..i], kind, outcomes[..i]);
    RaisedSnoc(heard, outcomes[i]);
    assert heard + [] == heard;
  }

  /** The first failure decides. */
  function FirstFailure(outcomes: seq<CfsQueue.Option<bool>>): CfsQueue.Option<bool> {
    if outcomes == [] then CfsQueue.None
    else if outcomes[0].Some? then outcomes[0]
    else FirstFailure(outcomes[1..])
  }

  lemma {:induction false} FirstRaised(outcomes: seq<CfsQueue.Option<bool>>)
    ensures FirstFailure(outcomes)
            == if Raised(outcomes) == [] then CfsQueue.None else CfsQueue.Some(Raised(outcomes)[0])
  {
    if outcomes != [] {
      RaisedCons(outcomes[0], outcomes[1..]);
      assert outcomes == [outcomes[0]] + outcomes[1..];
      FirstRaised(outcomes[1..]);
    }
  }

  lemma {:induction false} RaisedCons(o: CfsQueue.Option<bool>, rest: seq<CfsQueue.Option<bool>>)
    ensures Raised([o] + rest) == (if o.Some? then [o.value] else []) + Raised(rest)
  {
    if rest == [] {
      assert [o] + rest == [] + [o];
      RaisedSnoc([], o);
    } else {
      var front, last := rest[..|rest| - 1], rest[|rest| - 1];
      RaisedCons(o, front);
      assert [o] + rest == ([o] + front) + [last] && rest == front + [last];
      RaisedSnoc([o] + front, last);
      RaisedSnoc(front, last);
    }
  }

  /** Who listens: an action made for exactly this kind, or one for everything unless the event
      is an update check. */
  predicate Listens(action: Action, kind: EventKind) {
    action == Only(kind) || (action == Everything && kind != CheckUpdate)
  }

  /** Nobody who listens to the event failed. */
  ghost predicate AllSucceed(actions: seq<Action>, kind: EventKind, outcomes: seq<CfsQueue.Option<bool>>)
    requires |outcomes| == |actions|
  {
    forall i :: 0 <= i < |actions| && Listens(actions[i], kind) ==> outcomes[i] == CfsQueue.None
  }

  /** The first listener that failed asks for a retry or not. */
  ghost predicate FirstFailed(actions: seq<Action>, kind: EventKind, outcomes: seq<CfsQueue.Option<bool>>, retry: bool)
    requires |outcomes| == |actions|
  {
    exists i :: 0 <= i < |actions| && Listens(actions[i], kind) && outcomes[i] == CfsQueue.Some(retry)
                && AllSucceed(actions[..i], kind, outcomes[..i])
  }

  lemma AllSucceedSnoc(actions: seq<Action>, kind: EventKind, outcomes: seq<CfsQueue.Option<bool>>, n: nat)
    requires |outcomes| == |actions| == n + 1
    ensures AllSucceed(actions, kind, outcomes) <==>
              AllSucceed(actions[..n], kind, outcomes[..n]) && (Listens(actions[n], kind) ==> outcomes[n] == CfsQueue.None)
  {
    assert forall i :: 0 <= i < n ==> actions[..n][i] == actions[i] && outcomes[..n][i] == outcomes[i];
  }

  lemma FirstFailedSnoc(actions: seq<Action>, kind: EventKind, outcomes: seq<CfsQueue.Option<bool>>, n: nat, retry: bool)
    requires |outcomes| == |actions| == n + 1 && FirstFailed(actions[..n], kind, outcomes[..n], retry)
    ensures FirstFailed(actions, kind, outcomes, retry)
  {
    var i :| 0 <= i < n && Listens(actions[..n][i], kind) && outcomes[..n][i] == CfsQueue.Some(retry)
             && AllSucceed(actions[..n][..i], kind, outcomes[..n][..i]);
    assert actions[..n][..i] == actions[..i] && outcomes[..n][..i] == outcomes[..i];
  }

  /** What is collected is empty exactly if nobody failed, and starts with the first failure. */
  lemma {:induction false} CollectedFailures(actions: seq<Action>, kind: EventKind, outcomes: seq<CfsQueue.Option<bool>>)
    requires |outcomes| == |actions|
    ensures var failures := Raised(Heard(actions, kind, outcomes));
            && (failures == [] <==> AllSucceed(actions, kind, outcomes))
            && (failures != [] ==> FirstFailed(actions, kind, outcomes, failures[0]))
  {
    if actions != [] {
      var n := |actions| - 1;
      CollectedFailures(actions[..n], kind, outcomes[..n]);
      assert actions[..n + 1] == actions && outcomes[..n + 1] == outcomes;
      RaisedHeardSnoc(actions, kind, outcomes, n);
      AllSucceedSnoc(actions, kind, outcomes, n);
      var before := Raised(Heard(actions[..n], kind, outcomes[..n]));
      if before != [] {
        FirstFailedSnoc(actions, kind, outcomes, n, before[0]);
      }
    }
  }

  /** The queue transaction that settles a claimed message when nobody interferes. */
  function Settlement(copy: QueueMessage, locks: set<Key>, outcomes: seq<CfsQueue.Option<bool>>): Commit {
    if copy.payload.event.None? then DoFail(false)
    else if OrderingKey(copy.payload.event.value) in locks then DoRelease
    else if FirstFailure(outcomes).Some? then DoFail(FirstFailure(outcomes).value)
    else DoAck
  }

  class EventWorker {
    const queue: CFSQueue
    const tracker: StoreWaitTracker
    const maxAttempts: int
    const lockedKeyDelay: real
    const actions: seq<Action>
    var locks: set<Key>

    constructor (queue: CFSQueue, tracker: StoreWaitTracker, maxAttempts: int, delay: real, actions: seq<Action>)
      ensures this.queue == queue && this.tracker == tracker && this.actions == actions && locks == {}
      ensures this.maxAttempts == AtLeastOne(maxAttempts)
      ensures lockedKeyDelay == if delay > 0.05 then delay else 0.05
    {
      this.queue := queue;
      this.tracker := tracker;
      this.maxAttempts := AtLeastOne(maxAttempts);
      lockedKeyDelay := if delay > 0.05 then delay else 0.05;
      this.actions := actions;
      locks := {};
    }

    /** The row and its registration appear together, as in the protocol's dispatch step. */
    method Enqueue(event: Event, request: string, id: string, now: real)
      requires id != "" && id !in queue.rows
      modifies queue, tracker
      ensures queue.rows == old(queue.rows)[id :=
                NewRow(QUEUE, Payload(CfsQueue.Some(event), request), maxAttempts, now)]
      ensures tracker.states == if request == "" then old(tracker.states)
                                else old(tracker.states)[request := Register(
                                  if request in old(tracker.states) then old(tracker.states)[request]
                                  else NewTrack(now), id, now)]
      ensures id in queue.rows && queue.rows[id].queueName == "store_events"
              && queue.rows[id].payload == Payload(CfsQueue.Some(event), request)
    {
      queue.EnqueueMessage(id, QUEUE, Payload(CfsQueue.Some(event), request), maxAttempts, now);
      if request != "" {
        tracker.RegisterMessageNowait(request, id, now);
      }
    }

    /** Run all matching actions, in order and whatever fails, under the lock for the event;
        `outcomes` says what each action would come to. */
    method Handle(kind: EventKind, outcomes: seq<CfsQueue.Option<bool>>, ghost key: Key)
      returns (ran: seq<nat>, failures: seq<bool>)
      requires |outcomes| == |actions| && key in locks
      ensures forall i: nat :: i in ran <==> i < |actions| && Matches(actions[i], kind)
      ensures forall i: nat :: i < |actions| && actions[i] == Only(kind) ==> i in ran
      ensures forall i: nat :: i < |actions| && actions[i] == Everything ==> (i in ran <==> kind != CheckUpdate)
      ensures forall i: nat :: i < |actions| && actions[i].Only? && actions[i].kind != kind ==> i !in ran
      ensures forall i, j :: 0 <= i < j < |ran| ==> ran[i] < ran[j]
      ensures failures == Raised(Heard(actions, kind, outcomes))
      ensures failures == [] <==> AllSucceed(actions, kind, outcomes)
      ensures failures != [] ==> FirstFailed(actions, kind, outcomes, failures[0])
    {
      ran, failures := [], [];
      for i := 0 to |actions|
        invariant forall k: nat :: k in ran <==> k < i && Matches(actions[k], kind)
        invariant forall k, l :: 0 <= k < l < |ran| ==> ran[k] < ran[l]
        invariant failures == Raised(Heard(actions[..i], kind, outcomes[..i]))
      {
        RaisedHeardSnoc(actions, kind, outcomes, i);
        if Matches(actions[i], kind) {
          assert forall l :: 0 <= l < |ran| ==> ran[l] in ran;
          ran := ran + [i];
          if outcomes[i].Some? {
            failures := failures + [outcomes[i].value];
          }
        }
      }
      assert actions[..|actions|] == actions && outcomes[..|actions|] == outcomes;
      CollectedFailures(actions, kind, outcomes);
    }

    /** What the message's handlers come to; nothing is handled for an undecodable payload. */
    function HeardBy(message: QueueMessage, outcomes: seq<CfsQueue.Option<bool>>): seq<CfsQueue.Option<bool>>
      requires |outcomes| == |actions|
    {
      if message.payload.event.None? then []
      else Heard(actions, message.payload.event.value.kind, outcomes)
    }

    /** Acknowledged exactly if it can be decoded, its key is free and no listener fails. */
    lemma ProcessAcksIff(message: QueueMessage, outcomes: seq<CfsQueue.Option<bool>>)
      requires |outcomes| == |actions|
      ensures Settlement(message, locks, HeardBy(message, outcomes)) == DoAck <==>
                && message.payload.event.Some? && OrderingKey(message.payload.event.value) !in locks
                && AllSucceed(actions, message.payload.event.value.kind, outcomes)
    {
      FirstRaised(HeardBy(message, outcomes));
      if message.payload.event.Some? {
        CollectedFailures(actions, message.payload.event.value.kind, outcomes);
      }
    }

    /** One claimed message from start to tracker mark. The key lock is free again afterwards,
        and queue and tracker changed by exactly one transaction and its matching mark. */
    method Process(message: QueueMessage, outcomes: seq<CfsQueue.Option<bool>>, now: real)
      requires message.id != "" && |outcomes| == |actions|
      modifies this, queue, tracker
      ensures locks == old(locks)
      ensures var op := Settlement(message, old(locks), HeardBy(message, outcomes));
              && queue.rows == Apply(old(queue.rows), Transaction(message, op, now,
                   Config(queue.staleAfterSeconds, maxAttempts, lockedKeyDelay, tracker.retentionSeconds)),
                   queue.staleAfterSeconds)
              && tracker.states == Marked(old(tracker.states), message, MarkFor(message, op), now)
      ensures message.id in old(queue.rows) && old(queue.rows)[message.id].status == Processing ==>
                (message.id in queue.rows && queue.rows[message.id].status == Status.Done <==>
                   && message.payload.event.Some? && OrderingKey(message.payload.event.value) !in old(locks)
                   && forall i :: 0 <= i < |actions|
                                  && (actions[i] == Only(message.payload.event.value.kind)
                                      || (actions[i] == Everything
                                          && message.payload.event.value.kind != CheckUpdate)) ==>
                        outcomes[i] == CfsQueue.None)
      ensures message.id in old(queue.rows) && message.payload.event.None? ==>
                message.id in queue.rows && queue.rows[message.id].status == Status.Failed
    {
      ProcessAcksIff(message, outcomes);
      if message.payload.event.None? {
        FailMessage(message, false, now);
        return;
      }
      var key := OrderingKey(message.payload.event.value);
      if key in locks {
        queue.ReleaseMessage(message.id, now, lockedKeyDelay);
        tracker.Requeued(message.payload.requestId, message.id, now);
        return;
      }
      locks := locks + {key};
      var ran, failures := Handle(message.payload.event.value.kind, outcomes, key);
      FirstRaised(HeardBy(message, outcomes));
      locks := locks - {key};
      if failures != [] {
        FailMessage(message, failures[0], now);
        return;
      }
      queue.AckMessage(message.id);
      tracker.Done(message.payload.requestId, message.id, now);
    }

    method FailMessage(message: QueueMessage, retry: bool, now: real)
      requires message.id != ""
      modifies queue, tracker
      ensures queue.rows == Apply(old(queue.rows),
                Fail(message.id, retry, now, if retry then 1.0 else 0.0), queue.staleAfterSeconds)
      ensures tracker.states == Marked(old(tracker.states), message, MarkFor(message, DoFail(retry)), now)
    {
      queue.FailMessage(message.id, retry, now, if retry then 1.0 else 0.0);
      if retry && message.attempts < message.maxAttempts {
        tracker.Requeued(message.payload.requestId, message.id, now);
      } else {
        tracker.Failed(message.payload.requestId, message.id, now);
      }
    }
  }

  /** The uninterrupted call is what the protocol's steps make of the same message. */
  lemma ProcessIsARun(s: State, w: nat, outcomes: seq<CfsQueue.Option<bool>>, cfg: Config)
    requires w < |s.workers| && s.workers[w].Claimed?
    ensures var copy := s.workers[w].copy;
            var op := Settlement(copy, s.locks, outcomes);
            var begun := Next(s, Begin(w), cfg);
            var run := if begun.workers[w].Handling?
                       then Next(begun, Finish(w, FirstFailure(outcomes)), cfg) else begun;
            && Enabled(run, CommitOp(w), cfg)
            && var settled := Next(run, CommitOp(w), cfg);
               && Enabled(settled, MarkTracker(w), cfg)
               && var end := Next(settled, MarkTracker(w), cfg);
                  && end.rows == Apply(s.rows, Transaction(copy, op, s.now, cfg), cfg.staleAfter)
                  && end.tracks == Marked(s.tracks, copy, MarkFor(copy, op), s.now)
                  && end.locks == s.locks
  {
  }

  const MAX_STORE_WAIT_SECONDS := 55.0

  class StoreRoute {
    const tracker: StoreWaitTracker

    constructor (tracker: StoreWaitTracker)
      ensures this.tracker == tracker
    {
      this.tracker := tracker;
    }

    /** The wait never exceeds the gateway budget nor what the client asked for. */
    method Budget(requested: CfsQueue.Option<real>) returns (timeout: real)
      ensures 0.0 <= timeout <= MAX_STORE_WAIT_SECONDS
      ensures requested.Some? ==> timeout <= NonNegative(requested.value)
      ensures requested.Some? ==> timeout == MAX_STORE_WAIT_SECONDS || timeout == NonNegative(requested.value)
      ensures requested.None? ==> timeout == 55.0
      ensures requested.Some? ==>
                timeout == if requested.value < 0.0 then 0.0 else if requested.value < 55.0 then requested.value
                           else 55.0
    {
      timeout := MAX_STORE_WAIT_SECONDS;
      if requested.Some? {
        var asked := if requested.value > 0.0 then requested.value else 0.0;
        if asked < timeout {
          timeout := asked;
        }
      }
    }

    /** The answer once waiting for publishers, and then for messages, is over. */
    method Respond(request: string, publishCompleted: bool, now: real)
      returns (status: IndexStatus, pending: nat)
      modifies tracker
      ensures tracker.states == Cleanup(old(tracker.states), now, tracker.retentionSeconds)
      ensures status == RouteAnswer(tracker.states, request, publishCompleted)
      ensures status == Ready ==> publishCompleted && pending == 0
      ensures status == InProgress ==> pending >= 1
      ensures status == FailedIndex || status == Unknown || (status == InProgress && publishCompleted) ==>
                pending == if request in tracker.states then |tracker.states[request].pending| else 0
      ensures status == InProgress && !publishCompleted && request in tracker.states ==>
                pending == if tracker.states[request].pending == {} then 1 else |tracker.states[request].pending|
    {
      status := tracker.GetStatus(request, now);
      pending := if request in tracker.states then |tracker.states[request].pending| else 0;
      if !publishCompleted && status == Ready {
        status := InProgress;
        pending := AtLeastOne(pending);
      }
    }
  }
}
