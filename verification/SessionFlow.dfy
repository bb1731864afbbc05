/** The flows around the session buffer as the source runs them: the message loop, the
    merger, the drain after a turn, the session end and the cleanup. The outcome of each
    awaited write is a parameter. */
module SessionFlow {
  import opened Strings
  import opened Segmentation
  import opened VectorStore
  import opened SessionLog
  import opened SessionBuffer
  import P = SessionPipeline
  import N = Namespace

  /** A write succeeds, or raises with or without the record having reached the store. */
  datatype Outcome = Done | Raises(landed: bool)

  datatype Incoming = Incoming(record: Payload, tools: seq<string>)

  function AsMessage(x: Incoming): Message {
    Message(x.record.content, x.record.uri, x.tools)
  }

  function AsMessages(xs: seq<Incoming>): seq<Message> {
    seq(|xs|, i requires 0 <= i < |xs| => AsMessage(xs[i]))
  }

  function Record(key: SessionKey, project: string, c: Chunk): Payload
    requires c.messages != []
  {
    P.MergedRecord(P.Flight(key, project, c, P.Written))
  }

  // ---- What a merged record says ----

  /** Where the i-th text begins: after the texts before it, each followed by an empty line. */
  function Offset(ms: seq<Message>, i: nat): nat
    requires i <= |ms|
  {
    if i == 0 then 0 else Offset(ms, i - 1) + |ms[i - 1].text| + 2
  }

  ghost predicate SpelledAt(content: string, ms: seq<Message>, i: nat)
    requires i < |ms|
  {
    var from, to := Offset(ms, i), Offset(ms, i) + |ms[i].text|;
    && to <= |content| && content[from..to] == ms[i].text
    && (if i == |ms| - 1 then to == |content| else to + 2 <= |content| && content[to..to + 2] == "\n\n")
  }

  /** The texts in order, two line feeds between neighbours, and nothing else. */
  ghost predicate Spells(content: string, ms: seq<Message>) {
    forall i :: 0 <= i < |ms| ==> SpelledAt(content, ms, i)
  }

  lemma {:induction false} OffsetShift(ms: seq<Message>, i: nat)
    requires 1 <= i <= |ms|
    ensures Offset(ms, i) == |ms[0].text| + 2 + Offset(ms[1..], i - 1)
  {
    if i > 1 {
      OffsetShift(ms, i - 1);
    }
  }

  lemma {:induction false} JoinSpells(ms: seq<Message>, i: nat)
    requires i < |ms|
    ensures SpelledAt(Join(P.Texts(ms), "\n\n"), ms, i)
  {
    var content, rest := Join(P.Texts(ms), "\n\n"), Join(P.Texts(ms[1..]), "\n\n");
    assert P.Texts(ms)[1..] == P.Texts(ms[1..]);
    var front := ms[0].text + "\n\n";
    if |ms| > 1 {
      assert content == front + rest;
    }
    if i > 0 {
      JoinSpells(ms[1..], i - 1);
      OffsetShift(ms, i);
      assert ms[1..][i - 1] == ms[i];
      SliceBehind(front, rest, Offset(ms[1..], i - 1), |ms[i].text|);
    }
  }

  lemma SliceBehind(front: string, rest: string, from: nat, length: nat)
    requires from + length <= |rest|
    ensures (front + rest)[|front| + from..|front| + from + length] == rest[from..from + length]
    ensures from + length + 2 <= |rest| ==>
              (front + rest)[|front| + from + length..|front| + from + length + 2]
              == rest[from + length..from + length + 2]
  {
  }

  /** The record of a chunk: named by the session and the indexes of its first and last message,
      with the messages' texts and URIs in order. */
  ghost predicate Tells(p: Payload, key: SessionKey, project: string, c: Chunk) {
    var session := "opencortex://" + key.tenantId + "/" + key.userId + "/memories/" + project
                   + "/events/" + key.sessionId;
    var ms := c.messages;
    && ms != []
    && p.uri == session + "/merged/" + Decimal(c.start) + "-" + Decimal(c.start + |ms| - 1)
    && p.parentUri == session && p.metaSourceUri == session && p.sourceUri == "" && p.metaTreeUri == ""
    && p.layer == "merged"
    && Spells(p.content, ms)
    && Lists(p.metaSourceUris, ms)
  }

  /** The URIs of the messages, in order. */
  ghost predicate Lists(uris: seq<string>, ms: seq<Message>) {
    |uris| == |ms| && forall i :: 0 <= i < |ms| ==> uris[i] == ms[i].uri
  }

  lemma RecordTells(key: SessionKey, project: string, c: Chunk)
    requires c.messages != []
    ensures Tells(Record(key, project, c), key, project, c)
    ensures Lists(P.Uris(c.messages), c.messages)
  {
    forall i | 0 <= i < |c.messages| ensures SpelledAt(Record(key, project, c).content, c.messages, i) {
      JoinSpells(c.messages, i);
    }
    RecordName(key, project, c.start, c.start + |c.messages| - 1);
  }

  /** The record of one message: named by the session and its id, with its text and whatever
      links its metadata carries. */
  lemma ImmediateTells(key: SessionKey, project: string, hex: string, text: string, source: string, tree: string)
    ensures var p := P.ImmediateRecord(P.ScopeOf(key, project), hex, text, source, tree);
            var session := "opencortex://" + key.tenantId + "/" + key.userId + "/memories/" + project
                           + "/events/" + key.sessionId;
            && p.uri == session + "/immediate/" + hex && p.parentUri == session && p.sourceUri == ""
            && p.metaSourceUri == source && p.metaTreeUri == tree && p.metaSourceUris == []
            && p.layer == "immediate" && p.content == text
  {
    RecordName(key, project, 0, 0);
    var session := N.SessionEventsParent(P.ScopeOf(key, project));
    assert session + "/" + "immediate" + "/" == session + "/immediate/";
  }

  lemma RecordName(key: SessionKey, project: string, first: nat, last: nat)
    ensures var sc := P.ScopeOf(key, project);
            var session := "opencortex://" + key.tenantId + "/" + key.userId + "/memories/" + project
                           + "/events/" + key.sessionId;
            && N.SessionEventsParent(sc) == session
            && N.MergedUri(sc, first, last) == session + "/merged/" + Decimal(first) + "-" + Decimal(last)
  {
    assert "opencortex:/" + "/" == "opencortex://";
    assert "/" + "memories" + "/" == "/memories/" && "/" + "events" == "/events" && "/merged" + "/" == "/merged/";
    var a := "opencortex://" + key.tenantId + "/" + key.userId;
    assert a + "/" + "memories" + "/" == a + "/memories/";
    var b := a + "/memories/" + project;
    assert b + "/" + "events" + "/" == b + "/events/";
    var s := b + "/events/" + key.sessionId;
    assert N.SessionEventsParent(P.ScopeOf(key, project)) == s;
    assert s + "/" + "merged" + "/" == s + "/merged/";
    assert s + "/merged/" + (Decimal(first) + "-" + Decimal(last))
           == s + "/merged/" + Decimal(first) + "-" + Decimal(last);
  }

  /** The store after the records of `chunks` are written in order. */
  function WithRecords(points: Points, key: SessionKey, project: string, chunks: seq<Chunk>): Points
    requires forall c :: c in chunks ==> c.messages != []
  {
    if chunks == [] then points
    else
      var last := chunks[|chunks| - 1];
      var p := Record(key, project, last);
      WithRecords(points, key, project, chunks[..|chunks| - 1])[p.uri := p]
  }

  /** What the published events name: the sources of each chunk, in order. */
  function Sources(chunks: seq<Chunk>): (r: seq<seq<string>>)
    ensures |r| == |chunks|
    ensures forall i :: 0 <= i < |r| ==> r[i] == P.Uris(chunks[i].messages)
  {
    seq(|chunks|, i requires 0 <= i < |chunks| => P.Uris(chunks[i].messages))
  }

  /** The outcome of the i-th write; writes beyond the listed ones succeed. */
  function At(outcomes: seq<Outcome>, i: nat): Outcome {
    if i < |outcomes| then outcomes[i] else Done
  }

  /** How many of the first `n` writes happen before one raises. */
  function FirstRaise(outcomes: seq<Outcome>, n: nat): (k: nat)
    ensures k <= n
    ensures forall i :: 0 <= i < k ==> At(outcomes, i).Done?
    ensures k < n ==> At(outcomes, k).Raises?
    ensures forall i :: 0 <= i < k && i < |outcomes| ==> outcomes[i] == Done
    ensures k < n ==> k < |outcomes| && outcomes[k].Raises?
  {
    if n == 0 then 0
    else
      var k := FirstRaise(outcomes, n - 1);
      if k < n - 1 || At(outcomes, n - 1).Raises? then k else n
  }

  lemma {:induction false} FirstRaiseStops(outcomes: seq<Outcome>, n: nat, k: nat)
    requires k < n && FirstRaise(outcomes, k) == k && At(outcomes, k).Raises?
    ensures FirstRaise(outcomes, n) == k
  {
    if k < n - 1 {
      FirstRaiseStops(outcomes, n - 1, k);
    }
  }

  /** With a chunk waiting, a take is a plain pop: no forced cut. */
  lemma DrainStep(v: Session, i: nat, budget: nat)
    requires i < |v.pending|
    ensures var w := v.(pending := v.pending[i..]);
            && BeforeTake(w, budget) == w && w.pending[0] == v.pending[i]
            && Pop(w) == v.(pending := v.pending[i + 1..])
  {
  }

  lemma WithRecordsSnoc(points: Points, key: SessionKey, project: string, chunks: seq<Chunk>, i: nat)
    requires i < |chunks| && forall c :: c in chunks ==> c.messages != []
    ensures var p := Record(key, project, chunks[i]);
            WithRecords(points, key, project, chunks[..i + 1])
            == WithRecords(points, key, project, chunks[..i])[p.uri := p]
  {
    assert chunks[..i + 1][..i] == chunks[..i];
  }

  lemma SourcesSnoc(chunks: seq<Chunk>, i: nat)
    requires i < |chunks|
    ensures Sources(chunks[..i + 1]) == Sources(chunks[..i]) + [P.Uris(chunks[i].messages)]
  {
  }

  /** The store after the first `k` records of a turn. */
  function WithTurn(points: Points, turn: seq<Incoming>, k: nat): Points
    requires k <= |turn|
  {
    if k == 0 then points
    else
      var p := turn[k - 1].record;
      WithTurn(points, turn, k - 1)[p.uri := p]
  }

  /** The session after `k` messages of a turn: appended together, then frozen once. */
  function TurnView(v: Session, turn: seq<Incoming>, k: nat, budget: nat): Session
    requires k <= |turn|
  {
    if k == 0 then v
    else FreezeReady(v.(active := v.active + AsMessages(turn[..k])), budget)
  }

  lemma TurnStep(v: Session, turn: seq<Incoming>, k: nat, budget: nat)
    requires k < |turn|
    ensures FreezeReady(Append(TurnView(v, turn, k, budget), AsMessage(turn[k])), budget)
            == TurnView(v, turn, k + 1, budget)
  {
    var before := v.(active := v.active + AsMessages(turn[..k]));
    FreezeBetweenAppends(before, AsMessage(turn[k]), budget);
    assert AsMessages(turn[..k + 1]) == AsMessages(turn[..k]) + [AsMessage(turn[k])];
    assert before.active + [AsMessage(turn[k])] == v.active + AsMessages(turn[..k + 1]);
    assert k == 0 ==> before == v;
  }

  /** What a flow acts on: one session, the store, the published events. */
  datatype World = World(view: Session, points: Points, events: seq<seq<string>>)

  ghost predicate Solid(v: Session) {
    forall c :: c in v.pending ==> c.messages != []
  }

  /** Where a drain stops: at the first write that raises, or with nothing left. */
  function DrainStop(v: Session, outcomes: seq<Outcome>): nat {
    FirstRaise(outcomes, |v.pending|)
  }

  /** The world after `gone` chunks were taken, `landed` written and `published` published. */
  ghost function DrainedTo(w: World, key: SessionKey, project: string, gone: nat, landed: nat, published: nat): World
    requires Solid(w.view) && gone <= |w.view.pending| && landed <= |w.view.pending|
    requires published <= |w.view.pending|
  {
    World(w.view.(pending := w.view.pending[gone..]),
          WithRecords(w.points, key, project, w.view.pending[..landed]),
          w.events + Sources(w.view.pending[..published]))
  }

  lemma NothingDrained(w: World, key: SessionKey, project: string)
    requires Solid(w.view)
    ensures DrainedTo(w, key, project, 0, 0, 0) == w
  {
  }

  /** A drain takes the waiting chunks one by one, writes and publishes them; a write that
      raises ends it and costs the buffer that one chunk. The active tail is not touched. */
  ghost function Drained(w: World, key: SessionKey, project: string, outcomes: seq<Outcome>): World
    requires Solid(w.view)
  {
    var n := |w.view.pending|;
    var k := DrainStop(w.view, outcomes);
    DrainedTo(w, key, project, if k < n then k + 1 else k,
              if k < n && At(outcomes, k).landed then k + 1 else k, k)
  }

  /** One chunk further: taken, and perhaps written and published. */
  lemma DrainedNext(w: World, key: SessionKey, project: string, i: nat, budget: nat)
    requires Solid(w.view) && i < |w.view.pending|
    ensures var now := DrainedTo(w, key, project, i, i, i);
            var c := w.view.pending[i];
            var p := Record(key, project, c);
            && BeforeTake(now.view, budget) == now.view && now.view.pending != [] && now.view.pending[0] == c
            && DrainedTo(w, key, project, i + 1, i, i) == now.(view := Pop(now.view))
            && DrainedTo(w, key, project, i + 1, i + 1, i)
               == now.(view := Pop(now.view), points := now.points[p.uri := p])
            && DrainedTo(w, key, project, i + 1, i + 1, i + 1)
               == World(Pop(now.view), now.points[p.uri := p], now.events + [P.Uris(c.messages)])
  {
    WithRecordsSnoc(w.points, key, project, w.view.pending, i);
    DrainStep(w.view, i, budget);
    SourcesSnoc(w.view.pending, i);
  }

  lemma DrainedAt(w: World, key: SessionKey, project: string, outcomes: seq<Outcome>, i: nat)
    requires Solid(w.view) && FirstRaise(outcomes, i) == i
    requires i < |w.view.pending| && At(outcomes, i).Raises?
    ensures DrainStop(w.view, outcomes) == i
    ensures Drained(w, key, project, outcomes)
            == DrainedTo(w, key, project, i + 1, if At(outcomes, i).landed then i + 1 else i, i)
  {
    FirstRaiseStops(outcomes, |w.view.pending|, i);
  }

  /** A turn stores and buffers its messages up to the first write that raises; the record of
      that one may have landed. */
  ghost function Told(w: World, turn: seq<Incoming>, outcomes: seq<Outcome>, budget: nat): World {
    var k := FirstRaise(outcomes, |turn|);
    w.(view := TurnView(w.view, turn, k, budget),
       points := WithTurn(w.points, turn, if k < |turn| && At(outcomes, k).landed then k + 1 else k))
  }

  lemma {:induction false} FreezeAllSolid(v: Session, budget: nat)
    requires Solid(v)
    ensures Solid(FreezeAll(v, budget))
    decreases |v.active|
  {
    if v.active != [] {
      FreezeAllSolid(FreezeOne(v, budget), budget);
    }
  }

  lemma {:induction false} FreezeReadySolid(v: Session, budget: nat)
    requires Solid(v)
    ensures Solid(FreezeReady(v, budget))
    decreases |v.active|
  {
    if v.active != [] && Total(v.active) >= budget {
      FreezeReadySolid(FreezeOne(v, budget), budget);
    }
  }

  /** Chunks waiting in a valid buffer are never empty. */
  lemma PendingNonEmpty(b: SessionBuffer, key: SessionKey)
    requires b.Valid()
    ensures Solid(b.View(key))
  {
  }

  class SessionFlow {
    const buffer: SessionBuffer
    const store: QdrantVectorStore
    var events: seq<seq<string>>

    constructor (buffer: SessionBuffer, store: QdrantVectorStore)
      ensures this.buffer == buffer && this.store == store && events == []
    {
      this.buffer := buffer;
      this.store := store;
      events := [];
    }

    ghost function Now(key: SessionKey): World
      reads this, buffer, store
      requires buffer.Valid()
    {
      World(buffer.View(key), store.points, events)
    }

    /** `merge_unmerged`: take a chunk before the write; publish only after it succeeded. */
    method MergeUnmerged(key: SessionKey, project: string, outcome: Outcome) returns (raised: bool)
      requires buffer.Valid()
      modifies this, buffer, store
      ensures buffer.Valid() && buffer.OthersUnchanged(key)
      ensures var v := BeforeTake(old(buffer.View(key)), buffer.mergeTokenBudget);
              if v.pending == [] then
                !raised && buffer.View(key) == v
                && events == old(events) && store.points == old(store.points)
              else
                var p := Record(key, project, v.pending[0]);
                && buffer.View(key) == Pop(v)
                && (raised <==> outcome.Raises?)
                && events == old(events)
                             + (if raised then [] else [P.Uris(v.pending[0].messages)])
                && store.points == if outcome == Raises(false) then old(store.points)
                                   else old(store.points)[p.uri := p]
      ensures var v := BeforeTake(old(buffer.View(key)), buffer.mergeTokenBudget);
              v.pending != [] ==>
                && (outcome != Raises(false) ==>
                      exists p :: Tells(p, key, project, v.pending[0])
                                  && store.points == old(store.points)[p.uri := p])
                && (outcome == Done ==>
                      exists e :: Lists(e, v.pending[0].messages) && events == old(events) + [e])
    {
      var snapshot := buffer.PopMergeChunk(key);
      if snapshot.None? {
        snapshot := buffer.TakeSnapshot(key);
        if snapshot.None? {
          return false;
        }
      }
      var chunk := ToChunk(snapshot.value);
      RecordTells(key, project, chunk);
      var record := Record(key, project, chunk);
      if outcome != Raises(false) {
        store.Upsert(record);
      }
      if outcome.Raises? {
        return true;
      }
      events := events + [P.Uris(chunk.messages)];
      return false;
    }

    /** Take, write and publish what waits, until a write raises: see `Drained`. */
    method Drain(key: SessionKey, project: string, outcomes: seq<Outcome>) returns (raised: bool)
      requires buffer.Valid()
      modifies this, buffer, store
      ensures buffer.Valid() && buffer.OthersUnchanged(key)
      ensures Solid(old(buffer.View(key)))
      ensures raised <==> DrainStop(old(buffer.View(key)), outcomes) < |old(buffer.View(key)).pending|
      ensures Now(key) == Drained(old(Now(key)), key, project, outcomes)
    {
      PendingNonEmpty(buffer, key);
      NothingDrained(Now(key), key, project);
      raised := DrainLoop(Now(key), key, project, outcomes);
    }

    method DrainLoop(ghost w: World, key: SessionKey, project: string, outcomes: seq<Outcome>)
      returns (raised: bool)
      requires buffer.Valid() && Solid(w.view) && Now(key) == w == DrainedTo(w, key, project, 0, 0, 0)
      modifies this, buffer, store
      ensures buffer.Valid() && buffer.OthersUnchanged(key)
      ensures raised <==> DrainStop(w.view, outcomes) < |w.view.pending|
      ensures Now(key) == Drained(w, key, project, outcomes)
    {
      var i := 0;
      raised := false;
      var waiting := buffer.HasPendingMerge(key);
      while waiting
        invariant i <= |w.view.pending| && buffer.Valid() && buffer.OthersUnchanged(key)
        invariant raised ==> !waiting && DrainStop(w.view, outcomes) < |w.view.pending|
                             && Now(key) == Drained(w, key, project, outcomes)
        invariant !raised ==> FirstRaise(outcomes, i) == i && (waiting <==> i < |w.view.pending|)
                              && Now(key) == DrainedTo(w, key, project, i, i, i)
        decreases waiting, |w.view.pending| - i
      {
        raised := DrainNext(w, key, project, i, At(outcomes, i));
        if raised {
          DrainedAt(w, key, project, outcomes, i);
          waiting := false;
        } else {
          i := i + 1;
          waiting := buffer.HasPendingMerge(key);
        }
      }
    }

    /** The next chunk of a drain that started in `w`. */
    method DrainNext(ghost w: World, key: SessionKey, project: string, ghost i: nat, outcome: Outcome)
      returns (raised: bool)
      requires buffer.Valid() && Solid(w.view) && i < |w.view.pending|
      requires Now(key) == DrainedTo(w, key, project, i, i, i)
      modifies this, buffer, store
      ensures buffer.Valid() && buffer.OthersUnchanged(key) && raised == outcome.Raises?
      ensures !raised ==> Now(key) == DrainedTo(w, key, project, i + 1, i + 1, i + 1)
      ensures raised ==>
                Now(key) == DrainedTo(w, key, project, i + 1, if outcome.landed then i + 1 else i, i)
    {
      DrainedNext(w, key, project, i, buffer.mergeTokenBudget);
      raised := MergeUnmerged(key, project, outcome);
    }

    /** The session-merge action after a turn: freeze what is ready, then drain. */
    method MergeAction(key: SessionKey, project: string, outcomes: seq<Outcome>) returns (raised: bool)
      requires buffer.Valid()
      modifies this, buffer, store
      ensures buffer.Valid() && buffer.OthersUnchanged(key)
      ensures var v := FreezeReady(old(buffer.View(key)), buffer.mergeTokenBudget);
              && Solid(v)
              && (raised <==> DrainStop(v, outcomes) < |v.pending|)
              && Now(key) == Drained(old(Now(key)).(view := v), key, project, outcomes)
    {
      var _ := buffer.FreezeReadyChunks(key);
      raised := Drain(key, project, outcomes);
    }

    /** The message loop: write, append, freeze, one message at a time. A write that raises
        ends the turn; what was stored before it stays buffered. */
    method StoreMessages(key: SessionKey, turn: seq<Incoming>, outcomes: seq<Outcome>)
      returns (stored: nat, froze: bool)
      requires buffer.Valid()
      modifies buffer, store
      ensures buffer.Valid() && buffer.OthersUnchanged(key)
      ensures stored == FirstRaise(outcomes, |turn|)
      ensures buffer.View(key) == TurnView(old(buffer.View(key)), turn, stored, buffer.mergeTokenBudget)
      ensures store.points == WithTurn(old(store.points), turn,
                if stored < |turn| && At(outcomes, stored).landed then stored + 1 else stored)
      ensures froze <==> |buffer.View(key).pending| > |old(buffer.View(key)).pending|
    {
      ghost var v, points := buffer.View(key), store.points;
      stored, froze := 0, false;
      while stored < |turn|
        invariant stored <= |turn| && buffer.Valid() && buffer.OthersUnchanged(key)
        invariant FirstRaise(outcomes, stored) == stored
        invariant TurnSoFar(v, points, key, turn, stored, froze)
      {
        var raised;
        raised, froze := StoreNext(v, points, key, turn, stored, froze, At(outcomes, stored));
        if raised {
          FirstRaiseStops(outcomes, |turn|, stored);
          return;
        }
        stored := stored + 1;
      }
    }

    /** The next message of a turn. */
    method StoreNext(ghost v: Session, ghost points: Points, key: SessionKey, turn: seq<Incoming>, k: nat,
                     froze: bool, outcome: Outcome)
      returns (raised: bool, froze': bool)
      requires buffer.Valid() && k < |turn| && TurnSoFar(v, points, key, turn, k, froze)
      modifies buffer, store
      ensures buffer.Valid() && buffer.OthersUnchanged(key) && raised == outcome.Raises?
      ensures !raised ==> TurnSoFar(v, points, key, turn, k + 1, froze')
      ensures raised ==> froze' == froze && buffer.View(key) == old(buffer.View(key))
                         && store.points == WithTurn(points, turn, if outcome.landed then k + 1 else k)
    {
      TurnStep(v, turn, k, buffer.mergeTokenBudget);
      var more;
      raised, more := StoreMessage(key, turn[k], outcome);
      froze' := froze || more;
    }

    /** Buffer and store after the first `k` messages of a turn. */
    ghost predicate TurnSoFar(v: Session, points: Points, key: SessionKey, turn: seq<Incoming>, k: nat, froze: bool)
      requires buffer.Valid() && k <= |turn|
      reads buffer, store
    {
      var now := buffer.View(key);
      && now == TurnView(v, turn, k, buffer.mergeTokenBudget)
      && store.points == WithTurn(points, turn, k)
      && |now.pending| >= |v.pending| && (froze <==> |now.pending| > |v.pending|)
    }

    /** One session turn; `mergeRequested` is what a turn that did not raise reports. */
    method StoreTurn(key: SessionKey, turn: seq<Incoming>, outcomes: seq<Outcome>)
      returns (stored: nat, mergeRequested: bool)
      requires buffer.Valid()
      modifies buffer, store
      ensures buffer.Valid() && buffer.OthersUnchanged(key)
      ensures stored == FirstRaise(outcomes, |turn|)
      ensures Now(key) == Told(old(Now(key)), turn, outcomes, buffer.mergeTokenBudget)
      ensures mergeRequested <==> |buffer.View(key).pending| > |old(buffer.View(key)).pending|
                                  || Total(buffer.View(key).active) >= buffer.mergeTokenBudget
    {
      stored, mergeRequested := StoreMessages(key, turn, outcomes);
      var ready := buffer.ShouldMerge(key);
      mergeRequested := mergeRequested || ready;
    }

    /** One pass of the message loop. */
    method StoreMessage(key: SessionKey, x: Incoming, outcome: Outcome)
      returns (raised: bool, froze: bool)
      requires buffer.Valid()
      modifies buffer, store
      ensures buffer.Valid() && buffer.OthersUnchanged(key) && raised == outcome.Raises?
      ensures buffer.View(key)
              == if raised then old(buffer.View(key))
                 else FreezeReady(Append(old(buffer.View(key)), AsMessage(x)), buffer.mergeTokenBudget)
      ensures |buffer.View(key).pending| >= |old(buffer.View(key)).pending|
      ensures froze <==> |buffer.View(key).pending| > |old(buffer.View(key)).pending|
      ensures store.points == if outcome == Raises(false) then old(store.points)
                              else old(store.points)[x.record.uri := x.record]
    {
      var _ := buffer.NextMsgIndex(key);
      if outcome != Raises(false) {
        store.Upsert(x.record);
      }
      if outcome.Raises? {
        return true, false;
      }
      buffer.Append(key, x.record.content, x.record.uri, x.tools);
      var frozen := buffer.FreezeReadyChunks(key);
      return false, frozen > 0;
    }

    /** Session end: freeze everything, drain, then drop the state unless a write raised. */
    method End(key: SessionKey, project: string, outcomes: seq<Outcome>) returns (raised: bool)
      requires buffer.Valid()
      modifies this, buffer, store
      ensures buffer.Valid() && buffer.OthersUnchanged(key)
      ensures var v := FreezeAll(old(buffer.View(key)), buffer.mergeTokenBudget);
              && Solid(v) && v.active == []
              && (raised <==> DrainStop(v, outcomes) < |v.pending|)
              && var drained := Drained(old(Now(key)).(view := v), key, project, outcomes);
                 Now(key) == if raised then drained else drained.(view := EMPTY)
    {
      FreezeAllBodies(buffer.View(key), buffer.mergeTokenBudget);
      var _ := buffer.FreezeAllChunks(key);
      raised := Drain(key, project, outcomes);
      if !raised {
        buffer.Drop(key);
      }
    }

    /** The cleanup action: one subtree removal per named source; empty names are skipped.
        `scroll` is how the server pages a full listing. */
    method CleanUp(sources: seq<string>, scroll: Points -> seq<seq<string>>)
      requires forall p: Points :: scroll(p) != [] && Listed(scroll(p), |scroll(p)|) == p.Keys
      modifies store
      ensures store.points == RemoveAll(old(store.points), sources)
    {
      for i := 0 to |sources|
        invariant store.points == RemoveAll(old(store.points), sources[..i])
      {
        assert sources[..i + 1][..i] == sources[..i];
        if sources[i] != "" {
          var pages := scroll(store.points);
          var _ := store.RemoveByUri(sources[i], pages);
        }
      }
      assert sources[..|sources|] == sources;
    }
  }

  function RemoveAll(points: Points, sources: seq<string>): Points {
    if sources == [] then points
    else
      var rest, u := RemoveAll(points, sources[..|sources| - 1]), sources[|sources| - 1];
      if u == "" then rest else Remove(rest, u)
  }

  /** A cleanup removes exactly the points some named source covers, in whatever order. */
  lemma {:induction false} RemoveAllExact(points: Points, sources: seq<string>, id: string)
    ensures id in RemoveAll(points, sources)
            <==> id in points
                 && forall u :: u in sources && u != "" ==> !PayloadMatchesUri(points[id], u)
    ensures id in RemoveAll(points, sources) ==> RemoveAll(points, sources)[id] == points[id]
  {
    if sources != [] {
      var before, last := sources[..|sources| - 1], sources[|sources| - 1];
      RemoveAllExact(points, before, id);
      assert forall u :: u in sources <==> u in before || u == last;
    }
  }
}
