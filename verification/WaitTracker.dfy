/** Request-scoped wait state: which queue messages of a store request are outstanding. */
module WaitTracker {

  datatype Option<T> = None | Some(value: T)

  datatype Track = Track(pending: set<string>, done: nat, failed: nat, requeues: nat, updatedAt: real)

  type Tracks = map<string, Track>

  datatype IndexStatus = Ready | InProgress | FailedIndex | Unknown

  function NewTrack(now: real): Track {
    Track({}, 0, 0, 0, now)
  }

  // ---- What each operation does to one request ----

  function Register(t: Track, id: string, now: real): Track {
    t.(pending := t.pending + {id}, updatedAt := now)
  }

  /** Only a message still pending counts as done. */
  function MarkDone(t: Track, id: string, now: real): Track {
    if id in t.pending then t.(pending := t.pending - {id}, done := t.done + 1, updatedAt := now)
    else t.(updatedAt := now)
  }

  function MarkRequeued(t: Track, id: string, now: real): Track {
    t.(pending := t.pending + {id}, requeues := t.requeues + 1, updatedAt := now)
  }

  /** A failure always counts, pending or not. */
  function MarkFailed(t: Track, id: string, now: real): Track {
    t.(pending := t.pending - {id}, failed := t.failed + 1, updatedAt := now)
  }

  /** What a client is told: failures win over everything, then outstanding messages. */
  function StatusOf(ts: Tracks, request: string): IndexStatus {
    if request !in ts then Unknown
    else if ts[request].failed > 0 then FailedIndex
    else if ts[request].pending == {} then Ready
    else InProgress
  }

  predicate Expired(t: Track, now: real, retention: real) {
    t.updatedAt < now - retention && t.pending == {}
  }

  function Cleanup(ts: Tracks, now: real, retention: real): Tracks {
    map r | r in ts && !Expired(ts[r], now, retention) :: ts[r]
  }

  /** Messages the request has ever been told about. */
  function Known(t: Track): nat {
    |t.pending| + t.done + t.failed
  }

  lemma AddSize(a: set<string>, id: string)
    ensures |a + {id}| == if id in a then |a| else |a| + 1
    ensures |a - {id}| == if id in a then |a| - 1 else |a|
  {
    if id in a {
      assert a + {id} == a;
      assert a == (a - {id}) + {id};
    } else {
      assert a - {id} == a;
    }
  }

  /** When the count of known messages stays: registering adds one new message; a requeue or
      a failure keeps the count exactly if the message is still pending. Marking done always
      keeps it. So a requeue mark that arrives after the final mark breaks the count. */
  lemma KnownUnderMarks(t: Track, id: string, now: real)
    ensures Known(Register(t, id, now)) == Known(t) + (if id in t.pending then 0 else 1)
    ensures Known(MarkDone(t, id, now)) == Known(t)
    ensures Known(MarkRequeued(t, id, now)) == Known(t) <==> id in t.pending
    ensures Known(MarkFailed(t, id, now)) == Known(t) <==> id in t.pending
  {
    AddSize(t.pending, id);
  }

  class StoreWaitTracker {
    var states: Tracks
    const retentionSeconds: real

    constructor (retention: real)
      ensures states == map[]
      ensures retentionSeconds == if retention > 60.0 then retention else 60.0
    {
      states := map[];
      retentionSeconds := if retention > 60.0 then retention else 60.0;
    }

    method RegisterRequest(request: string, now: real)
      modifies this
      ensures var kept := Cleanup(old(states), now, retentionSeconds);
              states == if request == "" then old(states)
                        else if request in kept then kept
                        else kept[request := NewTrack(now)]
      ensures request != "" ==>
                && request in states
                && (request !in old(states) ==> states[request] == Track({}, 0, 0, 0, now))
                && (request in old(states) && old(states)[request].pending != {} ==>
                      states[request] == old(states)[request])
    {
      if request == "" {
        return;
      }
      CleanupLocked(now);
      if request !in states {
        states := states[request := NewTrack(now)];
      }
    }

    method RegisterMessageNowait(request: string, id: string, now: real)
      modifies this
      ensures states == if request == "" || id == "" then old(states)
                        else old(states)[request := Register(
                          if request in old(states) then old(states)[request] else NewTrack(now), id, now)]
      ensures request != "" && id != "" ==>
                states[request] == if request in old(states)
                                   then old(states)[request].(pending := old(states)[request].pending + {id},
                                                              updatedAt := now)
                                   else Track({id}, 0, 0, 0, now)
    {
      if request == "" || id == "" {
        return;
      }
      var state := if request in states then states[request] else NewTrack(now);
      states := states[request := state.(pending := state.pending + {id}, updatedAt := now)];
    }

    method Done(request: string, id: string, now: real)
      modifies this
      ensures states == if request == "" || id == "" || request !in old(states) then old(states)
                        else old(states)[request := MarkDone(old(states)[request], id, now)]
    {
      if request == "" || id == "" || request !in states {
        return;
      }
      var state := states[request];
      if id in state.pending {
        state := state.(pending := state.pending - {id}, done := state.done + 1);
      }
      states := states[request := state.(updatedAt := now)];
    }

    method Requeued(request: string, id: string, now: real)
      modifies this
      ensures states == if request == "" || id == "" || request !in old(states) then old(states)
                        else old(states)[request := MarkRequeued(old(states)[request], id, now)]
    {
      if request == "" || id == "" || request !in states {
        return;
      }
      var state := states[request];
      states := states[request := state.(
        pending := state.pending + {id}, requeues := state.requeues + 1, updatedAt := now)];
    }

    method Failed(request: string, id: string, now: real)
      modifies this
      ensures states == if request == "" || id == "" || request !in old(states) then old(states)
                        else old(states)[request := MarkFailed(old(states)[request], id, now)]
    {
      if request == "" || id == "" || request !in states {
        return;
      }
      var state := states[request];
      if id in state.pending {
        state := state.(pending := state.pending - {id});
      }
      assert state.pending == old(states)[request].pending - {id};
      states := states[request := state.(failed := state.failed + 1, updatedAt := now)];
    }

    /** What ends a wait: for a known request without failures it ends exactly when the request
        is ready; a failed request still waits for its other messages; there is nothing to wait
        for without a request or for one the tracker does not know. */
    method IsComplete(request: string) returns (complete: bool)
      ensures request == "" || StatusOf(states, request) == Unknown ==> complete
      ensures request != "" && request in states && states[request].failed == 0 ==>
                (complete <==> StatusOf(states, request) == Ready)
      ensures request != "" && request in states ==>
                (complete <==> forall id :: id !in states[request].pending)
    {
      complete := request == "" || request !in states || states[request].pending == {};
    }

    method GetStatus(request: string, now: real) returns (status: IndexStatus)
      modifies this
      ensures states == Cleanup(old(states), now, retentionSeconds)
      ensures status == StatusOf(states, request)
      ensures status == Ready <==> request in states && states[request].pending == {} && states[request].failed == 0
      ensures status == FailedIndex <==> request in states && states[request].failed > 0
      ensures status == Unknown <==> request !in states
      ensures forall r :: r in states <==>
                r in old(states) && (old(states)[r].pending != {} || now <= old(states)[r].updatedAt + retentionSeconds)
    {
      CleanupLocked(now);
      if request !in states {
        return Unknown;
      }
      var state := states[request];
      status := if state.pending == {} then Ready else InProgress;
      if state.failed > 0 {
        status := FailedIndex;
      }
    }

    /** Only settled and idle requests are forgotten. */
    method CleanupLocked(now: real)
      modifies this
      ensures states == Cleanup(old(states), now, retentionSeconds)
      ensures forall r :: r in states <==>
                r in old(states) && (old(states)[r].pending != {} || now <= old(states)[r].updatedAt + retentionSeconds)
      ensures forall r :: r in states ==> states[r] == old(states)[r]
    {
      var expired := set r | r in states && Expired(states[r], now, retentionSeconds);
      states := states - expired;
    }
  }
}
