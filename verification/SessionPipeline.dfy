/** The session log pipeline as a transition system: message stores, freezes, merges whose
    writes may fail, session ends, and cleanups that come late, repeat or reorder. */
module SessionPipeline {
  import opened Strings
  import opened Segmentation
  import opened Namespace
  import opened VectorStore
  import opened SessionLog
  import opened SessionBuffer

  datatype Status = InFlight | Written | Raised

  /** A chunk taken by the merger, and what became of its write. */
  datatype Flight = Flight(key: SessionKey, project: string, chunk: Chunk, status: Status)

  datatype State = State(
    sessions: map<SessionKey, Session>,  // buffer state; a missing key is empty
    flights: seq<Flight>,                // every chunk ever taken, oldest first
    store: Points,
    events: seq<seq<string>>,            // source URIs of published session-merged events
    accepted: set<Message>,              // every message whose immediate write succeeded
    dropped: set<SessionKey>)            // keys whose buffer state was dropped

  const INIT := State(map[], [], map[], [], {}, {})

  datatype Step =
    | Store(key: SessionKey, project: string, hex: string, text: string, tools: seq<string>,
            metaSource: string, metaTree: string, appended: bool)
    | Freeze(key: SessionKey)
    | End(key: SessionKey)
    | Take(key: SessionKey, project: string)
    | WriteOk(i: nat)
    | WriteRaises(i: nat, landed: bool)
    | Cleanup(e: nat, j: nat)
    | Drop(key: SessionKey)

  function ScopeOf(key: SessionKey, project: string): Scope {
    Scope(key.tenantId, key.userId, project, key.sessionId)
  }

  function View(s: State, key: SessionKey): Session {
    if key in s.sessions then s.sessions[key] else EMPTY
  }

  function Uris(ms: seq<Message>): seq<string> {
    seq(|ms|, i requires 0 <= i < |ms| => ms[i].uri)
  }

  function Texts(ms: seq<Message>): seq<string> {
    seq(|ms|, i requires 0 <= i < |ms| => ms[i].text)
  }

  function ImmediateRecord(sc: Scope, hex: string, text: string, source: string, tree: string): Payload {
    Payload(ImmediateUri(sc, hex), SessionEventsParent(sc), "", source, tree, "immediate", [], text)
  }

  function RecordUri(f: Flight): string
    requires f.chunk.messages != []
  {
    MergedUri(ScopeOf(f.key, f.project), f.chunk.start, f.chunk.start + |f.chunk.messages| - 1)
  }

  function MergedRecord(f: Flight): Payload
    requires f.chunk.messages != []
  {
    var parent := SessionEventsParent(ScopeOf(f.key, f.project));
    Payload(RecordUri(f), parent, "", parent, "", "merged",
            Uris(f.chunk.messages), Join(Texts(f.chunk.messages), "\n\n"))
  }

  /** When a step can happen. Ids are slugs; a message URI is fresh; one collection. */
  predicate Enabled(s: State, step: Step, budget: nat) {
    match step
    case Store(key, project, hex, _, _, _, _, _) =>
      && key.collection == "" && ScopeOf(key, project).Valid() && IsHex(hex)
      && forall m :: m in s.accepted ==> m.uri != ImmediateUri(ScopeOf(key, project), hex)
    case Take(key, project) =>
      && key.collection == "" && ScopeOf(key, project).Valid()
      && BeforeTake(View(s, key), budget).pending != []
    case WriteOk(i) =>
      i < |s.flights| && s.flights[i].status.InFlight? && s.flights[i].chunk.messages != []
    case WriteRaises(i, _) =>
      i < |s.flights| && s.flights[i].status.InFlight? && s.flights[i].chunk.messages != []
    case Cleanup(e, j) => e < |s.events| && j < |s.events[e]|
    case Freeze(key) => key in s.sessions
    case End(key) => key in s.sessions
    case Drop(_) => true
  }

  function Next(s: State, step: Step, budget: nat): State
    requires Enabled(s, step, budget)
  {
    match step
    case Store(key, project, hex, text, tools, source, tree, appended) =>
      var p := ImmediateRecord(ScopeOf(key, project), hex, text, source, tree);
      var m := Message(text, p.uri, tools);
      s.(store := s.store[p.uri := p],
         accepted := s.accepted + {m},
         sessions := if appended then s.sessions[key := Append(View(s, key), m)] else s.sessions)
    case Freeze(key) => s.(sessions := s.sessions[key := FreezeReady(View(s, key), budget)])
    case End(key) => s.(sessions := s.sessions[key := FreezeAll(View(s, key), budget)])
    case Take(key, project) =>
      var v := BeforeTake(View(s, key), budget);
      s.(sessions := s.sessions[key := Pop(v)],
         flights := s.flights + [Flight(key, project, v.pending[0], InFlight)])
    case WriteOk(i) =>
      var f := s.flights[i];
      s.(flights := s.flights[i := f.(status := Written)],
         store := s.store[RecordUri(f) := MergedRecord(f)],
         events := s.events + [Uris(f.chunk.messages)])
    case WriteRaises(i, landed) =>
      var f := s.flights[i];
      s.(flights := s.flights[i := f.(status := Raised)],
         store := if landed then s.store[RecordUri(f) := MergedRecord(f)] else s.store)
    case Cleanup(e, j) => s.(store := Remove(s.store, s.events[e][j]))
    case Drop(key) => s.(sessions := s.sessions - {key}, dropped := s.dropped + {key})
  }

  /** Any sequence of steps is a run; a step that cannot happen is skipped. */
  function After(steps: seq<Step>, budget: nat): State {
    if steps == [] then INIT
    else
      var s, step := After(steps[..|steps| - 1], budget), steps[|steps| - 1];
      if Enabled(s, step, budget) then Next(s, step, budget) else s
  }

  /** The text survives: in the message's own record, or inside a merged record naming it. */
  ghost predicate Held(store: Points, m: Message) {
    || (m.uri in store && store[m.uri].content == m.text)
    || exists u :: u in store && store[u].layer == "merged"
                   && m.uri in store[u].metaSourceUris && Contains(store[u].content, m.text)
  }

  /** A link into the subtree of some immediate record. */
  ghost predicate NamesImmediate(link: string) {
    exists sc: Scope, hex :: sc.Valid() && IsHex(hex) && Under(link, ImmediateUri(sc, hex))
  }

  /** The two things a caller must respect: no append to a key whose state was dropped, and
      no message metadata that links into another message's immediate record. */
  ghost predicate Careful(s: State, step: Step) {
    step.Store? ==>
      && (step.appended ==> step.key !in s.dropped)
      && !NamesImmediate(step.metaSource) && !NamesImmediate(step.metaTree)
  }

  ghost predicate CarefulRun(steps: seq<Step>, budget: nat) {
    steps == []
    || var before := steps[..|steps| - 1];
       CarefulRun(before, budget) && Careful(After(before, budget), steps[|steps| - 1])
  }

  // ---- What every careful run keeps ----

  predicate AllIn(ms: seq<Message>, accepted: set<Message>) {
    forall m :: m in ms ==> m in accepted
  }

  /** First index not yet handed to the merger. */
  function Low(v: Session): nat {
    if v.pending == [] then v.start else v.pending[0].start
  }

  predicate SessionOk(v: Session, accepted: set<Message>, budget: nat) {
    && Linked(v.pending, Low(v), v.start, budget)
    && AllIn(v.active, accepted)
    && forall c :: c in v.pending ==> AllIn(c.messages, accepted)
  }

  function Upper(c: Chunk): nat {
    c.start + |c.messages|
  }

  predicate FlightOk(s: State, f: Flight) {
    && ScopeOf(f.key, f.project).Valid() && f.key.collection == ""
    && f.chunk.messages != [] && AllIn(f.chunk.messages, s.accepted)
    && (f.key in s.sessions ==> Upper(f.chunk) <= Low(s.sessions[f.key]))
    && (f.key in s.sessions || f.key in s.dropped)
    && (f.status.Written? ==> RecordUri(f) in s.store && s.store[RecordUri(f)] == MergedRecord(f))
  }

  ghost predicate SessionsOk(s: State, budget: nat) {
    forall k :: k in s.sessions ==> k !in s.dropped && SessionOk(s.sessions[k], s.accepted, budget)
  }

  ghost predicate FlightsOk(s: State) {
    && (forall i :: 0 <= i < |s.flights| ==> FlightOk(s, s.flights[i]))
    && (forall i, j :: 0 <= i < j < |s.flights| && s.flights[i].key == s.flights[j].key
          ==> Upper(s.flights[i].chunk) <= s.flights[j].chunk.start)
  }

  ghost predicate MergedInto(s: State, i: nat, m: Message) {
    i < |s.flights| && s.flights[i].status.Written? && m in s.flights[i].chunk.messages
  }

  ghost predicate EventsOk(s: State) {
    forall e :: 0 <= e < |s.events| ==> forall u :: u in s.events[e] ==>
      exists i: nat, m :: MergedInto(s, i, m) && m.uri == u
  }

  ghost predicate AcceptedOk(s: State) {
    && (forall m :: m in s.accepted ==> IsImmediate(m.uri))
    && (forall m :: m in s.accepted ==>
          || (m.uri in s.store && s.store[m.uri].content == m.text)
          || exists i: nat :: MergedInto(s, i, m))
    && (forall m, n :: m in s.accepted && n in s.accepted && m.uri == n.uri ==> m == n)
  }

  ghost predicate IsImmediate(u: string) {
    exists sc: Scope, hex :: sc.Valid() && IsHex(hex) && u == ImmediateUri(sc, hex)
  }

  ghost predicate IsMerged(u: string) {
    exists sc: Scope, a: nat, b: nat :: sc.Valid() && u == MergedUri(sc, a, b)
  }

  ghost predicate IsParent(u: string) {
    exists sc: Scope :: sc.Valid() && u == SessionEventsParent(sc)
  }

  /** No link field of the record leads into a foreign immediate record. */
  ghost predicate RecordOk(u: string, p: Payload) {
    && p.uri == u && p.sourceUri == "" && IsParent(p.parentUri)
    && (IsImmediate(u) || IsMerged(u))
    && !NamesImmediate(p.metaSourceUri) && !NamesImmediate(p.metaTreeUri)
  }

  ghost predicate StoreOk(store: Points) {
    forall u :: u in store ==> RecordOk(u, store[u])
  }

  ghost predicate Inv(s: State, budget: nat) {
    SessionsOk(s, budget) && FlightsOk(s) && EventsOk(s) && AcceptedOk(s) && StoreOk(s.store)
  }

  // ---- Removal of one immediate URI touches one record ----

  lemma ShallowNotUnder(link: string, sc: Scope, hex: string)
    requires sc.Valid() && IsHex(hex) && Count(link, '/') <= 9
    ensures Under(link, ImmediateUri(sc, hex)) ==> link == ImmediateUri(sc, hex)
  {
    var u := ImmediateUri(sc, hex);
    ImmediateDepth(sc, hex);
    assert u[|u| - 1] == hex[31];
    if StartsWith(link, u + "/") {
      CountConcat(u, "/", '/');
      assert Count("/", '/') == 1;
      CountPrefix(link, u + "/", '/');
    }
  }

  lemma RecordMatchesOnlyItself(u: string, p: Payload, sc: Scope, hex: string)
    requires RecordOk(u, p) && sc.Valid() && IsHex(hex)
    ensures PayloadMatchesUri(p, ImmediateUri(sc, hex)) <==> u == ImmediateUri(sc, hex)
  {
    var target := ImmediateUri(sc, hex);
    ImmediateDepth(sc, hex);
    assert Count(u, '/') == 9 by {
      if IsImmediate(u) {
        var t: Scope, h :| t.Valid() && IsHex(h) && u == ImmediateUri(t, h);
        ImmediateDepth(t, h);
      } else {
        var t: Scope, a: nat, b: nat :| t.Valid() && u == MergedUri(t, a, b);
        MergedDepth(t, a, b);
      }
    }
    var t: Scope :| t.Valid() && p.parentUri == SessionEventsParent(t);
    ParentDepth(t);
    ShallowNotUnder(u, sc, hex);
    ShallowNotUnder(p.parentUri, sc, hex);
    ShallowNotUnder("", sc, hex);
    assert LinkFields(p) == [u, "", p.parentUri, p.metaSourceUri, p.metaTreeUri];
    assert u in LinkFields(p);
  }

  /** A cleanup deletes exactly the record it names. */
  lemma CleanupRemovesOne(s: State, u: string)
    requires StoreOk(s.store) && IsImmediate(u)
    ensures Remove(s.store, u) == s.store - {u}
  {
    var sc: Scope, hex :| sc.Valid() && IsHex(hex) && u == ImmediateUri(sc, hex);
    forall id | id in s.store
      ensures PayloadMatchesUri(s.store[id], u) <==> id == u
    {
      RecordMatchesOnlyItself(id, s.store[id], sc, hex);
    }
    RemoveIsDelete(s.store, u);
  }

  lemma RemoveIsDelete(store: Points, u: string)
    requires forall id :: id in store ==> (PayloadMatchesUri(store[id], u) <==> id == u)
    ensures Remove(store, u) == store - {u}
  {
  }

  // ---- One lemma per kind of step ----

  lemma ParentNamesNoImmediate(sc: Scope)
    requires sc.Valid()
    ensures !NamesImmediate(SessionEventsParent(sc)) && !NamesImmediate("")
  {
    forall t: Scope, h | t.Valid() && IsHex(h)
      ensures !Under(SessionEventsParent(sc), ImmediateUri(t, h)) && !Under("", ImmediateUri(t, h))
    {
      ParentDepth(sc);
      ImmediateDepth(t, h);
      ShallowNotUnder(SessionEventsParent(sc), t, h);
      ShallowNotUnder("", t, h);
    }
  }

  /** Flights survive any change that keeps their records, their messages and their order
      against the sessions. */
  lemma FlightsFrame(s: State, s': State)
    requires FlightsOk(s) && s'.flights == s.flights && s.accepted <= s'.accepted
    requires forall f :: f in s.flights && f.status.Written? && f.chunk.messages != []
               && RecordUri(f) in s.store
               ==> RecordUri(f) in s'.store && s'.store[RecordUri(f)] == s.store[RecordUri(f)]
    requires forall f :: f in s.flights ==>
               && (f.key in s'.sessions ==> Upper(f.chunk) <= Low(s'.sessions[f.key]))
               && (f.key in s'.sessions || f.key in s'.dropped)
    ensures FlightsOk(s')
  {
    forall i | 0 <= i < |s'.flights|
      ensures FlightOk(s', s'.flights[i])
    {
      assert FlightOk(s, s.flights[i]) && s.flights[i] in s.flights;
    }
  }

  /** Events stay explained while no flight loses its written status. */
  lemma EventsFrame(s: State, s': State)
    requires EventsOk(s) && s'.events == s.events
    requires forall i: nat, m :: MergedInto(s, i, m) ==> MergedInto(s', i, m)
    ensures EventsOk(s')
  {
    forall e, u | 0 <= e < |s'.events| && u in s'.events[e]
      ensures exists i: nat, m :: MergedInto(s', i, m) && m.uri == u
    {
      var i: nat, m :| MergedInto(s, i, m) && m.uri == u;
      assert MergedInto(s', i, m);
    }
  }

  /** Messages stay accounted for while every message record that disappears is merged. */
  lemma AcceptedFrame(s: State, s': State)
    requires AcceptedOk(s) && s'.accepted == s.accepted
    requires forall i: nat, m :: MergedInto(s, i, m) ==> MergedInto(s', i, m)
    requires forall m :: m in s.accepted && m.uri in s.store ==>
               || (m.uri in s'.store && s'.store[m.uri] == s.store[m.uri])
               || exists i: nat :: MergedInto(s', i, m)
    ensures AcceptedOk(s')
  {
    forall m | m in s.accepted && !(m.uri in s'.store && s'.store[m.uri].content == m.text)
      ensures exists i: nat :: MergedInto(s', i, m)
    {
      if !(m.uri in s.store && s.store[m.uri].content == m.text) {
        var i: nat :| MergedInto(s, i, m);
        assert MergedInto(s', i, m);
      }
    }
  }

  lemma SessionStepFlights(s: State, key: SessionKey, v: Session)
    requires FlightsOk(s) && Low(v) == Low(View(s, key)) && key !in s.dropped
    ensures FlightsOk(s.(sessions := s.sessions[key := v]))
  {
    var s' := s.(sessions := s.sessions[key := v]);
    forall f | f in s.flights
      ensures f.key in s'.sessions ==> Upper(f.chunk) <= Low(s'.sessions[f.key])
      ensures f.key in s'.sessions || f.key in s'.dropped
    {
      assert FlightOk(s, f);
    }
    FlightsFrame(s, s');
  }

  /** Events and messages are untouched by what only changes sessions. */
  lemma SessionsFrame(s: State, s': State)
    requires EventsOk(s) && AcceptedOk(s)
    requires s'.flights == s.flights && s'.events == s.events
    requires s'.accepted == s.accepted && s'.store == s.store
    ensures EventsOk(s') && AcceptedOk(s')
  {
    assert forall i: nat, m :: MergedInto(s, i, m) ==> MergedInto(s', i, m);
    EventsFrame(s, s');
    AcceptedFrame(s, s');
  }

  /** A changed session must keep its order against the flights of its key. */
  lemma SessionStep(s: State, key: SessionKey, v: Session, budget: nat)
    requires Inv(s, budget) && key in s.sessions
    requires SessionOk(v, s.accepted, budget) && Low(v) == Low(s.sessions[key])
    ensures Inv(s.(sessions := s.sessions[key := v]), budget)
  {
    SessionStepFlights(s, key, v);
    SessionsFrame(s, s.(sessions := s.sessions[key := v]));
  }

  lemma FreezeOneOk(v: Session, accepted: set<Message>, budget: nat)
    requires SessionOk(v, accepted, budget) && v.active != []
    ensures SessionOk(FreezeOne(v, budget), accepted, budget)
    ensures Low(FreezeOne(v, budget)) == Low(v)
  {
    var k := ChunkLength(v.active, budget);
    LinkedSnoc(v.pending, Low(v), v.start, Chunk(v.start, v.active[..k]), budget);
  }

  lemma {:induction false} FreezeReadyOk(v: Session, accepted: set<Message>, budget: nat)
    requires SessionOk(v, accepted, budget)
    ensures SessionOk(FreezeReady(v, budget), accepted, budget)
    ensures Low(FreezeReady(v, budget)) == Low(v)
    decreases |v.active|
  {
    if v.active != [] && Total(v.active) >= budget {
      FreezeOneOk(v, accepted, budget);
      FreezeReadyOk(FreezeOne(v, budget), accepted, budget);
    }
  }

  lemma {:induction false} FreezeAllOk(v: Session, accepted: set<Message>, budget: nat)
    requires SessionOk(v, accepted, budget)
    ensures SessionOk(FreezeAll(v, budget), accepted, budget)
    ensures Low(FreezeAll(v, budget)) == Low(v)
    decreases |v.active|
  {
    if v.active != [] {
      FreezeOneOk(v, accepted, budget);
      FreezeAllOk(FreezeOne(v, budget), accepted, budget);
    }
  }

  /** What a take hands over, and what it leaves in the buffer. */
  lemma TakeFromSession(v0: Session, accepted: set<Message>, budget: nat)
    requires SessionOk(v0, accepted, budget) && BeforeTake(v0, budget).pending != []
    ensures var v := BeforeTake(v0, budget);
            var c := v.pending[0];
            && c.messages != [] && AllIn(c.messages, accepted)
            && c.start == Low(v0) && Low(Pop(v)) == Upper(c)
            && SessionOk(Pop(v), accepted, budget)
  {
    if v0.pending == [] {
      FreezeOneOk(v0, accepted, budget);
    }
    var v := BeforeTake(v0, budget);
    var c := v.pending[0];
    assert c in v.pending;
    LinkedBounds(v.pending[1..], Upper(c), v.start, budget);
  }

  lemma TakeKeepsFlights(s: State, f: Flight, v: Session)
    requires FlightsOk(s) && f.key in s.sessions && f.status.InFlight?
    requires ScopeOf(f.key, f.project).Valid() && f.key.collection == ""
    requires f.chunk.messages != [] && AllIn(f.chunk.messages, s.accepted)
    requires f.chunk.start == Low(s.sessions[f.key]) && Low(v) == Upper(f.chunk)
    ensures FlightsOk(s.(sessions := s.sessions[f.key := v], flights := s.flights + [f]))
  {
    var s' := s.(sessions := s.sessions[f.key := v], flights := s.flights + [f]);
    forall i | 0 <= i < |s.flights|
      ensures FlightOk(s', s.flights[i])
      ensures s.flights[i].key == f.key ==> Upper(s.flights[i].chunk) <= f.chunk.start
    {
      assert FlightOk(s, s.flights[i]);
    }
    assert FlightOk(s', f);
  }

  lemma TakeKeepsInv(s: State, step: Step, budget: nat)
    requires Inv(s, budget) && step.Take? && Enabled(s, step, budget)
    ensures Inv(Next(s, step, budget), budget)
  {
    var v0 := View(s, step.key);
    assert step.key in s.sessions;
    TakeFromSession(v0, s.accepted, budget);
    var v := BeforeTake(v0, budget);
    var f := Flight(step.key, step.project, v.pending[0], InFlight);
    TakeKeepsFlights(s, f, Pop(v));
    FlightAdded(s, f);
    var s1 := s.(flights := s.flights + [f]);
    SessionsFrame(s1, s1.(sessions := s.sessions[step.key := Pop(v)]));
  }

  lemma FlightAdded(s: State, f: Flight)
    requires EventsOk(s) && AcceptedOk(s)
    ensures EventsOk(s.(flights := s.flights + [f])) && AcceptedOk(s.(flights := s.flights + [f]))
  {
    var s' := s.(flights := s.flights + [f]);
    assert forall i: nat, m :: MergedInto(s, i, m) ==> MergedInto(s', i, m);
    EventsFrame(s, s');
    AcceptedFrame(s, s');
  }

  lemma StoreKeepsFlights(s: State, sc: Scope, hex: string, p: Payload, m: Message)
    requires FlightsOk(s) && IsHex(hex) && p.uri == ImmediateUri(sc, hex)
    ensures FlightsOk(s.(store := s.store[p.uri := p], accepted := s.accepted + {m}))
  {
    var s' := s.(store := s.store[p.uri := p], accepted := s.accepted + {m});
    forall i | 0 <= i < |s'.flights|
      ensures FlightOk(s', s'.flights[i])
    {
      assert FlightOk(s, s.flights[i]);
      StoreKeepsFlight(s, sc, hex, p, m, s.flights[i]);
    }
  }

  lemma StoreKeepsFlight(s: State, sc: Scope, hex: string, p: Payload, m: Message, f: Flight)
    requires FlightOk(s, f) && IsHex(hex) && p.uri == ImmediateUri(sc, hex)
    ensures FlightOk(s.(store := s.store[p.uri := p], accepted := s.accepted + {m}), f)
  {
    ImmediateIsNotMerged(sc, hex, ScopeOf(f.key, f.project),
                         f.chunk.start, f.chunk.start + |f.chunk.messages| - 1);
  }

  lemma AcceptMessage(s: State, s': State, m: Message, p: Payload)
    requires AcceptedOk(s) && IsImmediate(m.uri) && p.content == m.text
    requires forall n :: n in s.accepted ==> n.uri != m.uri
    requires s'.accepted == s.accepted + {m} && s'.store == s.store[m.uri := p]
    requires s'.flights == s.flights
    ensures AcceptedOk(s')
  {
    forall n | n in s.accepted && !(n.uri in s'.store && s'.store[n.uri].content == n.text)
      ensures exists i: nat :: MergedInto(s', i, n)
    {
      var i: nat :| MergedInto(s, i, n);
      assert MergedInto(s', i, n);
    }
  }

  lemma AcceptEvents(s: State, s': State)
    requires EventsOk(s) && s'.events == s.events && s'.flights == s.flights
    ensures EventsOk(s')
  {
    assert forall i: nat, m :: MergedInto(s, i, m) ==> MergedInto(s', i, m);
    EventsFrame(s, s');
  }

  lemma AcceptSessions(s: State, m: Message, budget: nat)
    requires SessionsOk(s, budget)
    ensures SessionsOk(s.(accepted := s.accepted + {m}), budget)
  {
  }

  /** The immediate record is written and the message accepted. */
  lemma RecordKeepsInv(s: State, sc: Scope, hex: string, p: Payload, m: Message, budget: nat)
    requires Inv(s, budget) && sc.Valid() && IsHex(hex)
    requires p == ImmediateRecord(sc, hex, m.text, p.metaSourceUri, p.metaTreeUri) && m.uri == p.uri
    requires !NamesImmediate(p.metaSourceUri) && !NamesImmediate(p.metaTreeUri)
    requires forall n :: n in s.accepted ==> n.uri != m.uri
    ensures Inv(s.(store := s.store[p.uri := p], accepted := s.accepted + {m}), budget)
  {
    var s' := s.(store := s.store[p.uri := p], accepted := s.accepted + {m});
    assert IsImmediate(ImmediateUri(sc, hex)) && IsParent(SessionEventsParent(sc));
    StoreKeepsFlights(s, sc, hex, p, m);
    AcceptMessage(s, s', m, p);
    AcceptEvents(s, s');
    AcceptSessions(s, m, budget);
    PutKeepsStore(s.store, p);
    assert SessionsOk(s', budget);
  }

  /** The accepted message joins the active tail of its session. */
  lemma AppendKeepsInv(s: State, key: SessionKey, m: Message, budget: nat)
    requires Inv(s, budget) && key !in s.dropped && m in s.accepted
    ensures Inv(s.(sessions := s.sessions[key := Append(View(s, key), m)]), budget)
  {
    var v := View(s, key);
    assert SessionOk(v, s.accepted, budget);
    SessionStepFlights(s, key, Append(v, m));
    SessionsFrame(s, s.(sessions := s.sessions[key := Append(v, m)]));
    AppendKeepsSessions(s, key, Append(v, m), budget);
  }

  lemma AppendKeepsSessions(s: State, key: SessionKey, v: Session, budget: nat)
    requires SessionsOk(s, budget) && key !in s.dropped && SessionOk(v, s.accepted, budget)
    ensures SessionsOk(s.(sessions := s.sessions[key := v]), budget)
  {
  }

  lemma StoreKeepsInv(s: State, step: Step, budget: nat)
    requires Inv(s, budget) && step.Store? && Enabled(s, step, budget) && Careful(s, step)
    ensures Inv(Next(s, step, budget), budget)
  {
    var sc := ScopeOf(step.key, step.project);
    var p := ImmediateRecord(sc, step.hex, step.text, step.metaSource, step.metaTree);
    var m := Message(step.text, p.uri, step.tools);
    RecordKeepsInv(s, sc, step.hex, p, m, budget);
    if step.appended {
      AppendKeepsInv(s.(store := s.store[p.uri := p], accepted := s.accepted + {m}), step.key, m, budget);
    }
  }

  /** Writing the record of an in-flight chunk hits no record of another written chunk. */
  lemma WriteHitsFreshUri(s: State, i: nat, j: nat)
    requires FlightsOk(s) && i < |s.flights| && j < |s.flights|
    requires i != j
    ensures RecordUri(s.flights[i]) != RecordUri(s.flights[j])
  {
    var f, g := s.flights[i], s.flights[j];
    assert FlightOk(s, f) && FlightOk(s, g);
    if RecordUri(f) == RecordUri(g) {
      MergedUriInjective(ScopeOf(f.key, f.project), f.chunk.start, f.chunk.start + |f.chunk.messages| - 1,
                         ScopeOf(g.key, g.project), g.chunk.start, g.chunk.start + |g.chunk.messages| - 1);
    }
  }

  lemma MergedRecordOk(f: Flight)
    requires ScopeOf(f.key, f.project).Valid() && f.chunk.messages != []
    ensures RecordOk(RecordUri(f), MergedRecord(f))
  {
    var sc := ScopeOf(f.key, f.project);
    ParentNamesNoImmediate(sc);
    assert IsMerged(RecordUri(f)) && IsParent(SessionEventsParent(sc));
  }

  lemma WriteKeepsFlights(s: State, step: Step, budget: nat)
    requires FlightsOk(s) && (step.WriteOk? || step.WriteRaises?) && Enabled(s, step, budget)
    ensures FlightsOk(Next(s, step, budget))
  {
    var s' := Next(s, step, budget);
    forall j | 0 <= j < |s'.flights|
      ensures FlightOk(s', s'.flights[j])
    {
      WriteKeepsFlight(s, step, budget, j);
    }
    assert forall j :: 0 <= j < |s.flights| ==>
      s'.flights[j].key == s.flights[j].key && s'.flights[j].chunk == s.flights[j].chunk;
  }

  lemma WriteKeepsFlight(s: State, step: Step, budget: nat, j: nat)
    requires FlightsOk(s) && (step.WriteOk? || step.WriteRaises?) && Enabled(s, step, budget)
    requires j < |s.flights|
    ensures FlightOk(Next(s, step, budget), Next(s, step, budget).flights[j])
  {
    assert FlightOk(s, s.flights[j]);
    if j == step.i {
      WriteKeepsOwnFlight(s, step, budget);
    } else {
      WriteHitsFreshUri(s, step.i, j);
    }
  }

  lemma WriteKeepsOwnFlight(s: State, step: Step, budget: nat)
    requires (step.WriteOk? || step.WriteRaises?) && Enabled(s, step, budget)
    requires FlightOk(s, s.flights[step.i])
    ensures FlightOk(Next(s, step, budget), Next(s, step, budget).flights[step.i])
  {
  }

  lemma WriteKeepsStore(s: State, step: Step, budget: nat)
    requires StoreOk(s.store) && FlightsOk(s)
    requires (step.WriteOk? || step.WriteRaises?) && Enabled(s, step, budget)
    ensures StoreOk(Next(s, step, budget).store)
  {
    var f := s.flights[step.i];
    assert FlightOk(s, f);
    MergedRecordOk(f);
    PutKeepsStore(s.store, MergedRecord(f));
  }

  lemma PutKeepsStore(store: Points, p: Payload)
    requires StoreOk(store) && RecordOk(p.uri, p)
    ensures StoreOk(store[p.uri := p])
  {
  }

  lemma WriteKeepsAccepted(s: State, step: Step, budget: nat)
    requires AcceptedOk(s) && (step.WriteOk? || step.WriteRaises?) && Enabled(s, step, budget)
    ensures AcceptedOk(Next(s, step, budget))
  {
    var s' := Next(s, step, budget);
    assert forall j: nat, m :: MergedInto(s, j, m) ==> MergedInto(s', j, m);
    forall m | m in s.accepted && m.uri in s.store
      ensures m.uri in s'.store && s'.store[m.uri] == s.store[m.uri]
    {
      ImmediateNotRecord(m.uri, s.flights[step.i]);
    }
    AcceptedFrame(s, s');
  }

  lemma WriteKeepsEvents(s: State, step: Step, budget: nat)
    requires EventsOk(s) && (step.WriteOk? || step.WriteRaises?) && Enabled(s, step, budget)
    ensures EventsOk(Next(s, step, budget))
  {
    var s' := Next(s, step, budget);
    var ms := s.flights[step.i].chunk.messages;
    assert forall j: nat, m :: MergedInto(s, j, m) ==> MergedInto(s', j, m);
    forall e, u | 0 <= e < |s'.events| && u in s'.events[e]
      ensures exists j: nat, m :: MergedInto(s', j, m) && m.uri == u
    {
      if e < |s.events| {
        var j: nat, m :| MergedInto(s, j, m) && m.uri == u;
        assert MergedInto(s', j, m);
      } else {
        var k :| 0 <= k < |ms| && ms[k].uri == u;
        assert MergedInto(s', step.i, ms[k]);
      }
    }
  }

  lemma WriteKeepsInv(s: State, step: Step, budget: nat)
    requires Inv(s, budget) && (step.WriteOk? || step.WriteRaises?) && Enabled(s, step, budget)
    ensures Inv(Next(s, step, budget), budget)
  {
    WriteKeepsFlights(s, step, budget);
    WriteKeepsStore(s, step, budget);
    WriteKeepsEvents(s, step, budget);
    WriteKeepsAccepted(s, step, budget);
    WriteKeepsSessions(s, step, budget);
  }

  lemma WriteKeepsSessions(s: State, step: Step, budget: nat)
    requires SessionsOk(s, budget) && (step.WriteOk? || step.WriteRaises?) && Enabled(s, step, budget)
    ensures SessionsOk(Next(s, step, budget), budget)
  {
  }

  lemma ImmediateNotRecord(u: string, f: Flight)
    requires IsImmediate(u) && f.chunk.messages != []
    ensures u != RecordUri(f)
  {
    var sc: Scope, hex :| sc.Valid() && IsHex(hex) && u == ImmediateUri(sc, hex);
    ImmediateIsNotMerged(sc, hex, ScopeOf(f.key, f.project),
                         f.chunk.start, f.chunk.start + |f.chunk.messages| - 1);
  }

  lemma CleanupKeepsFlights(s: State, u: string)
    requires FlightsOk(s) && StoreOk(s.store) && IsImmediate(u)
    ensures FlightsOk(s.(store := Remove(s.store, u)))
  {
    var s' := s.(store := Remove(s.store, u));
    CleanupRemovesOne(s, u);
    forall i | 0 <= i < |s'.flights|
      ensures FlightOk(s', s'.flights[i])
    {
      assert FlightOk(s, s.flights[i]);
      ImmediateNotRecord(u, s.flights[i]);
    }
  }

  lemma CleanupKeepsAccepted(s: State, u: string, i: nat, m: Message)
    requires AcceptedOk(s) && StoreOk(s.store) && m in s.accepted && MergedInto(s, i, m) && m.uri == u
    ensures AcceptedOk(s.(store := Remove(s.store, u)))
  {
    var s' := s.(store := Remove(s.store, u));
    CleanupRemovesOne(s, u);
    assert forall k: nat, n :: MergedInto(s, k, n) ==> MergedInto(s', k, n);
    assert MergedInto(s', i, m);
    AcceptedFrame(s, s');
  }

  lemma CleanupKeepsInv(s: State, step: Step, budget: nat)
    requires Inv(s, budget) && step.Cleanup? && Enabled(s, step, budget)
    ensures Inv(Next(s, step, budget), budget)
  {
    var u := s.events[step.e][step.j];
    assert u in s.events[step.e];
    var i: nat, m :| MergedInto(s, i, m) && m.uri == u;
    assert FlightOk(s, s.flights[i]);
    CleanupKeepsFlights(s, u);
    CleanupKeepsAccepted(s, u, i, m);
    CleanupKeepsEvents(s, u);
    CleanupKeepsStore(s.store, u);
    CleanupKeepsSessions(s, u, budget);
  }

  lemma CleanupKeepsEvents(s: State, u: string)
    requires EventsOk(s)
    ensures EventsOk(s.(store := Remove(s.store, u)))
  {
    var s' := s.(store := Remove(s.store, u));
    assert forall k: nat, n :: MergedInto(s, k, n) ==> MergedInto(s', k, n);
    EventsFrame(s, s');
  }

  lemma CleanupKeepsStore(store: Points, u: string)
    requires StoreOk(store)
    ensures StoreOk(Remove(store, u))
  {
  }

  lemma CleanupKeepsSessions(s: State, u: string, budget: nat)
    requires SessionsOk(s, budget)
    ensures SessionsOk(s.(store := Remove(s.store, u)), budget)
  {
  }

  lemma DropKeepsInv(s: State, step: Step, budget: nat)
    requires Inv(s, budget) && step.Drop?
    ensures Inv(Next(s, step, budget), budget)
  {
    var s' := Next(s, step, budget);
    forall f | f in s.flights
      ensures f.key in s'.sessions ==> Upper(f.chunk) <= Low(s'.sessions[f.key])
      ensures f.key in s'.sessions || f.key in s'.dropped
    {
      assert FlightOk(s, f);
    }
    FlightsFrame(s, s');
    assert forall i: nat, m :: MergedInto(s, i, m) ==> MergedInto(s', i, m);
    EventsFrame(s, s');
    AcceptedFrame(s, s');
  }

  lemma StepKeepsInv(s: State, step: Step, budget: nat)
    requires Inv(s, budget) && Enabled(s, step, budget) && Careful(s, step)
    ensures Inv(Next(s, step, budget), budget)
  {
    match step
    case Store(_, _, _, _, _, _, _, _) => StoreKeepsInv(s, step, budget);
    case Freeze(key) =>
      FreezeReadyOk(s.sessions[key], s.accepted, budget);
      SessionStep(s, key, FreezeReady(s.sessions[key], budget), budget);
    case End(key) =>
      FreezeAllOk(s.sessions[key], s.accepted, budget);
      SessionStep(s, key, FreezeAll(s.sessions[key], budget), budget);
    case Take(_, _) => TakeKeepsInv(s, step, budget);
    case WriteOk(_) => WriteKeepsInv(s, step, budget);
    case WriteRaises(_, _) => WriteKeepsInv(s, step, budget);
    case Cleanup(_, _) => CleanupKeepsInv(s, step, budget);
    case Drop(_) => DropKeepsInv(s, step, budget);
  }

  lemma {:induction false} RunKeepsInv(steps: seq<Step>, budget: nat)
    requires CarefulRun(steps, budget)
    ensures Inv(After(steps, budget), budget)
  {
    if steps != [] {
      var before, step := steps[..|steps| - 1], steps[|steps| - 1];
      RunKeepsInv(before, budget);
      if Enabled(After(before, budget), step, budget) {
        StepKeepsInv(After(before, budget), step, budget);
      }
    }
  }

  /** No accepted message is ever lost, in any careful run: its text is in its own record
      or inside a merged record that names it. */
  lemma NoMessageLost(steps: seq<Step>, budget: nat, m: Message)
    requires CarefulRun(steps, budget) && m in After(steps, budget).accepted
    ensures Held(After(steps, budget).store, m)
  {
    RunKeepsInv(steps, budget);
    var s := After(steps, budget);
    if !(m.uri in s.store && s.store[m.uri].content == m.text) {
      var i: nat :| MergedInto(s, i, m);
      MergedIsHeld(s, i, m);
    }
  }

  lemma MergedIsHeld(s: State, i: nat, m: Message)
    requires FlightsOk(s) && MergedInto(s, i, m)
    ensures Held(s.store, m)
  {
    var f := s.flights[i];
    assert FlightOk(s, f);
    var ms := f.chunk.messages;
    var k :| 0 <= k < |ms| && ms[k] == m;
    assert Uris(ms)[k] == m.uri && Texts(ms)[k] == m.text;
    JoinContains(Texts(ms), "\n\n", k);
    assert RecordUri(f) in s.store;
  }
}
