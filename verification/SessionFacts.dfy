/** What the session pipeline keeps in every run, reuse of dropped keys included: where messages
    are, what merged records hold, what was published. */
module SessionFacts {
  import opened Strings
  import opened Segmentation
  import opened Namespace
  import opened VectorStore
  import opened SessionLog
  import opened SessionBuffer
  import opened SessionPipeline

  function Contents(v: Session): seq<Message> {
    Flatten(Bodies(v.pending)) + v.active
  }

  predicate Distinct(ms: seq<Message>) {
    forall a, b :: 0 <= a < b < |ms| ==> ms[a].uri != ms[b].uri
  }

  predicate Apart(a: seq<Message>, b: seq<Message>) {
    forall m, n :: m in a && n in b ==> m.uri != n.uri
  }

  ghost predicate Sessions(s: State) {
    forall k :: k in s.sessions ==>
      Distinct(Contents(s.sessions[k])) && AllIn(Contents(s.sessions[k]), s.accepted)
  }

  ghost predicate SessionsApart(s: State) {
    forall k, l :: k in s.sessions && l in s.sessions && k != l ==>
      Apart(Contents(s.sessions[k]), Contents(s.sessions[l]))
  }

  ghost predicate Flights(s: State) {
    && (forall i, j :: 0 <= i < j < |s.flights| ==>
          Apart(s.flights[i].chunk.messages, s.flights[j].chunk.messages))
    && (forall f :: f in s.flights ==> AllIn(f.chunk.messages, s.accepted))
  }

  ghost predicate FlightsApart(s: State) {
    forall f, k :: f in s.flights && k in s.sessions ==>
      Apart(f.chunk.messages, Contents(s.sessions[k]))
  }

  /** Every message sits in at most one place: one session buffer or one taken chunk. */
  ghost predicate Placed(s: State) {
    Sessions(s) && SessionsApart(s) && Flights(s) && FlightsApart(s)
  }

  ghost predicate FromWritten(s: State, ev: seq<string>) {
    exists i :: 0 <= i < |s.flights| && s.flights[i].status.Written?
                && Uris(s.flights[i].chunk.messages) == ev
  }

  /** Events are exactly the source lists of written chunks. */
  ghost predicate Published(s: State) {
    && (forall ev :: ev in s.events ==> FromWritten(s, ev))
    && (forall i :: 0 <= i < |s.flights| && s.flights[i].status.Written? ==>
          Uris(s.flights[i].chunk.messages) in s.events)
  }

  /** Every merged record in the store is the record of some taken chunk, at its own URI. */
  ghost predicate Recorded(s: State) {
    forall u :: u in s.store && s.store[u].layer == "merged" ==> RecordOf(s, u, s.store[u])
  }

  ghost predicate RecordOf(s: State, u: string, p: Payload) {
    exists i :: 0 <= i < |s.flights| && s.flights[i].chunk.messages != []
                && u == RecordUri(s.flights[i]) && p == MergedRecord(s.flights[i])
  }

  ghost predicate Named(s: State) {
    && (forall m :: m in s.accepted ==> IsImmediate(m.uri))
    && (forall m, n :: m in s.accepted && n in s.accepted && m.uri == n.uri ==> m == n)
    && (forall u :: u in s.store ==> s.store[u].uri == u)
  }

  ghost predicate Always(s: State) {
    Placed(s) && Published(s) && Recorded(s) && Named(s)
  }

  // ---- `Always` holds in every run, careful or not ----

  lemma FreezeOneContents(v: Session, budget: nat)
    requires v.active != []
    ensures Contents(FreezeOne(v, budget)) == Contents(v)
  {
    var k := ChunkLength(v.active, budget);
    var c := v.active[..k];
    var v' := FreezeOne(v, budget);
    assert Bodies(v'.pending) == Bodies(v.pending) + [c];
    FlattenConcat(Bodies(v.pending), [c]);
    assert Flatten([c]) == c;
    assert v.active == c + v.active[k..];
  }

  lemma {:induction false} FreezeReadyContents(v: Session, budget: nat)
    ensures Contents(FreezeReady(v, budget)) == Contents(v)
    decreases |v.active|
  {
    if v.active != [] && Total(v.active) >= budget {
      FreezeOneContents(v, budget);
      FreezeReadyContents(FreezeOne(v, budget), budget);
    }
  }

  lemma {:induction false} FreezeAllContents(v: Session, budget: nat)
    ensures Contents(FreezeAll(v, budget)) == Contents(v)
    decreases |v.active|
  {
    if v.active != [] {
      FreezeOneContents(v, budget);
      FreezeAllContents(FreezeOne(v, budget), budget);
    }
  }

  lemma TakeContents(v0: Session, budget: nat)
    requires BeforeTake(v0, budget).pending != []
    ensures var v := BeforeTake(v0, budget);
            Contents(v0) == v.pending[0].messages + Contents(Pop(v))
  {
    if v0.pending == [] && v0.active != [] {
      FreezeOneContents(v0, budget);
    }
    var v := BeforeTake(v0, budget);
    assert Bodies(v.pending)[0] == v.pending[0].messages;
    assert Bodies(v.pending)[1..] == Bodies(Pop(v).pending);
  }

  /** A session whose contents do not change changes nothing. */
  lemma SameContentsPlaced(s: State, key: SessionKey, v: Session)
    requires Placed(s) && key in s.sessions && Contents(v) == Contents(s.sessions[key])
    ensures Placed(s.(sessions := s.sessions[key := v]))
  {
  }

  lemma AcceptPlaced(s: State, m: Message)
    requires Placed(s)
    ensures Placed(s.(accepted := s.accepted + {m}))
  {
  }

  lemma AppendPlaced(s: State, key: SessionKey, m: Message, v: Session)
    requires Placed(s) && m in s.accepted
    requires Contents(v) == (if key in s.sessions then Contents(s.sessions[key]) else []) + [m]
    requires forall k, n :: k in s.sessions && n in Contents(s.sessions[k]) ==> n.uri != m.uri
    requires forall f, n :: f in s.flights && n in f.chunk.messages ==> n.uri != m.uri
    ensures Placed(s.(sessions := s.sessions[key := v]))
  {
    AppendDistinct(if key in s.sessions then Contents(s.sessions[key]) else [], m);
    AppendSessions(s, key, v);
    AppendApart(s, key, m, v);
  }

  lemma AppendDistinct(ms: seq<Message>, m: Message)
    requires Distinct(ms) && forall n :: n in ms ==> n.uri != m.uri
    ensures Distinct(ms + [m])
  {
    assert forall x :: 0 <= x < |ms| ==> ms[x] in ms;
  }

  lemma AppendSessions(s: State, key: SessionKey, v: Session)
    requires Sessions(s) && Flights(s) && Distinct(Contents(v)) && AllIn(Contents(v), s.accepted)
    ensures Sessions(s.(sessions := s.sessions[key := v]))
    ensures Flights(s.(sessions := s.sessions[key := v]))
  {
  }

  lemma AppendApart(s: State, key: SessionKey, m: Message, v: Session)
    requires SessionsApart(s) && FlightsApart(s)
    requires forall n :: n in Contents(v) ==> n == m || (key in s.sessions && n in Contents(s.sessions[key]))
    requires forall k, n :: k in s.sessions && n in Contents(s.sessions[k]) ==> n.uri != m.uri
    requires forall f, n :: f in s.flights && n in f.chunk.messages ==> n.uri != m.uri
    ensures SessionsApart(s.(sessions := s.sessions[key := v]))
    ensures FlightsApart(s.(sessions := s.sessions[key := v]))
  {
  }

  lemma SplitDistinct(a: seq<Message>, b: seq<Message>)
    requires Distinct(a + b)
    ensures Distinct(b) && Apart(a, b)
  {
    var all := a + b;
    assert forall x :: 0 <= x < |a| ==> all[x] == a[x];
    assert forall x :: 0 <= x < |b| ==> all[|a| + x] == b[x];
  }

  lemma TakePlaced(s: State, f: Flight, v: Session)
    requires Placed(s) && f.key in s.sessions
    requires Contents(s.sessions[f.key]) == f.chunk.messages + Contents(v)
    ensures Placed(s.(sessions := s.sessions[f.key := v], flights := s.flights + [f]))
  {
    var all := Contents(s.sessions[f.key]);
    SplitDistinct(f.chunk.messages, Contents(v));
    assert forall m :: m in f.chunk.messages || m in Contents(v) ==> m in all;
    assert AllIn(Contents(v), s.accepted) && AllIn(f.chunk.messages, s.accepted);
    NarrowSession(s, f.key, v);
    AddFlight(s.(sessions := s.sessions[f.key := v]), f);
  }

  lemma NarrowSession(s: State, key: SessionKey, v: Session)
    requires Placed(s) && key in s.sessions && Distinct(Contents(v))
    requires forall m :: m in Contents(v) ==> m in Contents(s.sessions[key])
    ensures Placed(s.(sessions := s.sessions[key := v]))
  {
    var s' := s.(sessions := s.sessions[key := v]);
    assert Sessions(s') && SessionsApart(s');
    assert Flights(s') && FlightsApart(s');
  }

  lemma AddFlight(s: State, f: Flight)
    requires Placed(s) && AllIn(f.chunk.messages, s.accepted)
    requires forall k :: k in s.sessions ==> Apart(f.chunk.messages, Contents(s.sessions[k]))
    requires forall g :: g in s.flights ==> Apart(g.chunk.messages, f.chunk.messages)
    ensures Placed(s.(flights := s.flights + [f]))
  {
    var s' := s.(flights := s.flights + [f]);
    assert forall i :: 0 <= i < |s.flights| ==> s.flights[i] in s.flights;
    assert Flights(s');
    assert FlightsApart(s');
  }

  lemma StatusPlaced(s: State, i: nat, f: Flight)
    requires Placed(s) && i < |s.flights| && f.chunk == s.flights[i].chunk
    ensures Placed(s.(flights := s.flights[i := f]))
  {
    var s' := s.(flights := s.flights[i := f]);
    forall g | g in s'.flights
      ensures exists h :: h in s.flights && h.chunk == g.chunk
    {
      var x :| 0 <= x < |s'.flights| && s'.flights[x] == g;
      assert s.flights[x] in s.flights && s.flights[x].chunk == g.chunk;
    }
    SameChunksFlights(s, s');
    SameChunksApart(s, s');
  }

  lemma SameChunksFlights(s: State, s': State)
    requires Flights(s) && |s'.flights| == |s.flights| && s'.accepted == s.accepted
    requires forall x :: 0 <= x < |s.flights| ==> s'.flights[x].chunk == s.flights[x].chunk
    requires forall g :: g in s'.flights ==> exists h :: h in s.flights && h.chunk == g.chunk
    ensures Flights(s')
  {
  }

  lemma SameChunksApart(s: State, s': State)
    requires FlightsApart(s) && s'.sessions == s.sessions
    requires forall g :: g in s'.flights ==> exists h :: h in s.flights && h.chunk == g.chunk
    ensures FlightsApart(s')
  {
  }

  lemma PlacedFrame(s: State, s': State)
    requires Placed(s) && s'.sessions == s.sessions && s'.flights == s.flights
    requires s'.accepted == s.accepted
    ensures Placed(s')
  {
  }

  lemma StepPlaced(s: State, step: Step, budget: nat)
    requires Always(s) && Enabled(s, step, budget)
    ensures Placed(Next(s, step, budget))
  {
    var s' := Next(s, step, budget);
    match step
    case Store(key, project, hex, text, tools, _, _, _) =>
      var m := Message(text, ImmediateUri(ScopeOf(key, project), hex), tools);
      AcceptPlaced(s, m);
      var s1 := s.(accepted := s.accepted + {m});
      if step.appended {
        var v := Append(View(s, key), m);
        assert Contents(EMPTY) == [];
        assert Contents(v) == Contents(View(s, key)) + [m];
        AppendPlaced(s1, key, m, v);
        PlacedFrame(s1.(sessions := s.sessions[key := v]), s');
      } else {
        PlacedFrame(s1, s');
      }
    case Freeze(key) =>
      FreezeReadyContents(s.sessions[key], budget);
      SameContentsPlaced(s, key, FreezeReady(s.sessions[key], budget));
    case End(key) =>
      FreezeAllContents(s.sessions[key], budget);
      SameContentsPlaced(s, key, FreezeAll(s.sessions[key], budget));
    case Take(key, project) =>
      var v := BeforeTake(View(s, key), budget);
      TakeContents(View(s, key), budget);
      TakePlaced(s, Flight(key, project, v.pending[0], InFlight), Pop(v));
    case WriteOk(i) =>
      var f := s.flights[i].(status := Written);
      StatusPlaced(s, i, f);
      PlacedFrame(s.(flights := s.flights[i := f]), s');
    case WriteRaises(i, _) =>
      var f := s.flights[i].(status := Raised);
      StatusPlaced(s, i, f);
      PlacedFrame(s.(flights := s.flights[i := f]), s');
    case Cleanup(_, _) => PlacedFrame(s, s');
    case Drop(key) => DropPlaced(s, key);
  }

  lemma DropPlaced(s: State, key: SessionKey)
    requires Placed(s)
    ensures Placed(s.(sessions := s.sessions - {key}, dropped := s.dropped + {key}))
  {
  }

  lemma StepPublished(s: State, step: Step, budget: nat)
    requires Published(s) && Enabled(s, step, budget)
    ensures Published(Next(s, step, budget))
  {
    var s' := Next(s, step, budget);
    forall ev | ev in s'.events
      ensures FromWritten(s', ev)
    {
      if ev in s.events {
        var i :| 0 <= i < |s.flights| && s.flights[i].status.Written?
                 && Uris(s.flights[i].chunk.messages) == ev;
        assert s'.flights[i] == s.flights[i];
      } else {
        var i := step.i;
        assert s'.flights[i].status.Written? && s'.flights[i].chunk == s.flights[i].chunk;
        assert ev == Uris(s'.flights[i].chunk.messages);
      }
    }
    forall i | 0 <= i < |s'.flights| && s'.flights[i].status.Written?
      ensures Uris(s'.flights[i].chunk.messages) in s'.events
    {
      if step.WriteOk? && step.i == i {
        assert s'.events[|s.events|] == Uris(s'.flights[i].chunk.messages);
      } else {
        assert i < |s.flights| && s.flights[i] == s'.flights[i];
      }
    }
  }

  lemma RecordOfFrame(s: State, s': State, u: string, p: Payload)
    requires RecordOf(s, u, p) && |s.flights| <= |s'.flights|
    requires forall x :: 0 <= x < |s.flights| ==>
               s'.flights[x] == s.flights[x].(status := s'.flights[x].status)
    ensures RecordOf(s', u, p)
  {
    var i :| 0 <= i < |s.flights| && s.flights[i].chunk.messages != []
             && u == RecordUri(s.flights[i]) && p == MergedRecord(s.flights[i]);
    SameRecord(s.flights[i], s'.flights[i]);
  }

  lemma StepRecorded(s: State, step: Step, budget: nat)
    requires Recorded(s) && Enabled(s, step, budget)
    ensures Recorded(Next(s, step, budget))
  {
    var s' := Next(s, step, budget);
    assert forall x :: 0 <= x < |s.flights| ==>
      s'.flights[x] == s.flights[x].(status := s'.flights[x].status);
    forall u | u in s'.store && s'.store[u].layer == "merged"
      ensures RecordOf(s', u, s'.store[u])
    {
      if u in s.store && s'.store[u] == s.store[u] {
        RecordOfFrame(s, s', u, s.store[u]);
      } else {
        SameRecord(s.flights[step.i], s'.flights[step.i]);
      }
    }
  }

  lemma SameRecord(f: Flight, g: Flight)
    requires f.chunk.messages != []
    requires f.key == g.key && f.project == g.project && f.chunk == g.chunk
    ensures RecordUri(f) == RecordUri(g) && MergedRecord(f) == MergedRecord(g)
  {
  }

  lemma StepNamed(s: State, step: Step, budget: nat)
    requires Named(s) && Enabled(s, step, budget)
    ensures Named(Next(s, step, budget))
  {
    if step.Store? {
      assert IsImmediate(ImmediateUri(ScopeOf(step.key, step.project), step.hex));
    }
  }

  lemma {:induction false} RunAlways(steps: seq<Step>, budget: nat)
    ensures Always(After(steps, budget))
  {
    if steps != [] {
      var before, step := steps[..|steps| - 1], steps[|steps| - 1];
      RunAlways(before, budget);
      var s := After(before, budget);
      if Enabled(s, step, budget) {
        StepPlaced(s, step, budget);
        StepPublished(s, step, budget);
        StepRecorded(s, step, budget);
        StepNamed(s, step, budget);
      }
    }
  }

  /** One more step of a run. */
  lemma AfterSnoc(steps: seq<Step>, step: Step, budget: nat)
    ensures After(steps + [step], budget)
            == (var s := After(steps, budget);
                if Enabled(s, step, budget) then Next(s, step, budget) else s)
  {
    assert (steps + [step])[..|steps|] == steps;
  }
}
