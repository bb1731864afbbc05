/** The state of one session between two drops, and the laws of its whole life:
    conservation of the log, adjoining index ranges, confluent chunk borders. */
module SessionLog {
  import opened Segmentation

  /** A frozen run of messages; `start` is the index of its first message. */
  datatype Chunk = Chunk(start: nat, messages: seq<Message>)

  /** Frozen chunks waiting for a merge, unfrozen messages, index of the first unfrozen one. */
  datatype Session = Session(pending: seq<Chunk>, active: seq<Message>, start: nat)

  const EMPTY := Session([], [], 0)

  function Append(s: Session, m: Message): Session {
    s.(active := s.active + [m])
  }

  function FreezeOne(s: Session, budget: nat): Session
    requires s.active != []
  {
    var k := ChunkLength(s.active, budget);
    Session(s.pending + [Chunk(s.start, s.active[..k])], s.active[k..], s.start + k)
  }

  function FreezeReady(s: Session, budget: nat): Session
    decreases |s.active|
  {
    if s.active == [] || Total(s.active) < budget then s
    else FreezeReady(FreezeOne(s, budget), budget)
  }

  function FreezeAll(s: Session, budget: nat): Session
    decreases |s.active|
  {
    if s.active == [] then s else FreezeAll(FreezeOne(s, budget), budget)
  }

  function Pop(s: Session): Session
    requires s.pending != []
  {
    s.(pending := s.pending[1..])
  }

  /** What `merge_unmerged` takes: the oldest frozen chunk, else a forced cut of the rest. */
  function BeforeTake(s: Session, budget: nat): Session {
    if s.pending == [] && s.active != [] then FreezeOne(s, budget) else s
  }

  function Bodies(chunks: seq<Chunk>): seq<seq<Message>> {
    seq(|chunks|, i requires 0 <= i < |chunks| => chunks[i].messages)
  }

  /** Chunks cover the index range `from..to` without gap or overlap, each within budget. */
  predicate Linked(chunks: seq<Chunk>, from: nat, to: nat, budget: nat) {
    if chunks == [] then from == to
    else
      var c := chunks[0];
      && c.start == from
      && c.messages != []
      && Bounded(c.messages, budget)
      && Linked(chunks[1..], from + |c.messages|, to, budget)
  }

  lemma {:induction false} LinkedSnoc(chunks: seq<Chunk>, from: nat, to: nat, c: Chunk, budget: nat)
    requires Linked(chunks, from, to, budget)
    requires c.start == to && c.messages != [] && Bounded(c.messages, budget)
    ensures Linked(chunks + [c], from, to + |c.messages|, budget)
  {
    if chunks == [] {
      assert chunks + [c] == [c];
    } else {
      assert (chunks + [c])[1..] == chunks[1..] + [c];
      LinkedSnoc(chunks[1..], from + |chunks[0].messages|, to, c, budget);
    }
  }

  /** Two different chunks of a linked list have disjoint index ranges, in list order. */
  lemma {:induction false} LinkedOrdered(chunks: seq<Chunk>, from: nat, to: nat, budget: nat, i: nat, j: nat)
    requires Linked(chunks, from, to, budget) && i < j < |chunks|
    ensures from <= chunks[i].start
    ensures chunks[i].start + |chunks[i].messages| <= chunks[j].start
    ensures chunks[j].start + |chunks[j].messages| <= to
  {
    var next := from + |chunks[0].messages|;
    if i > 0 {
      LinkedOrdered(chunks[1..], next, to, budget, i - 1, j - 1);
    } else {
      LinkedWithin(chunks[1..], next, to, budget, j - 1);
    }
  }

  lemma {:induction false} LinkedWithin(chunks: seq<Chunk>, from: nat, to: nat, budget: nat, i: nat)
    requires Linked(chunks, from, to, budget) && i < |chunks|
    ensures from <= chunks[i].start
    ensures chunks[i].messages != [] && chunks[i].start + |chunks[i].messages| <= to
  {
    if i > 0 {
      LinkedWithin(chunks[1..], from + |chunks[0].messages|, to, budget, i - 1);
    } else {
      LinkedBounds(chunks[1..], from + |chunks[0].messages|, to, budget);
    }
  }

  lemma {:induction false} LinkedBounds(chunks: seq<Chunk>, from: nat, to: nat, budget: nat)
    requires Linked(chunks, from, to, budget)
    ensures from <= to
  {
    if chunks != [] {
      LinkedBounds(chunks[1..], from + |chunks[0].messages|, to, budget);
    }
  }

  /** Everything that happens to a session between two drops. `Take` is one call of
      `merge_unmerged` up to its write; `All` is the freeze at session end. */
  datatype Op = Put(m: Message) | Ready | All | Take

  /** A session together with the chunks already handed to the merger. */
  datatype Trail = Trail(popped: seq<Chunk>, session: Session)

  function Step(t: Trail, op: Op, budget: nat): Trail {
    match op
    case Put(m) => t.(session := Append(t.session, m))
    case Ready => t.(session := FreezeReady(t.session, budget))
    case All => t.(session := FreezeAll(t.session, budget))
    case Take =>
      var s := BeforeTake(t.session, budget);
      if s.pending == [] then t else Trail(t.popped + [s.pending[0]], Pop(s))
  }

  function Run(ops: seq<Op>, budget: nat): Trail {
    if ops == [] then Trail([], EMPTY)
    else Step(Run(ops[..|ops| - 1], budget), ops[|ops| - 1], budget)
  }

  /** All messages ever appended, in order. */
  function Log(ops: seq<Op>): seq<Message> {
    if ops == [] then []
    else
      var op := ops[|ops| - 1];
      Log(ops[..|ops| - 1]) + if op.Put? then [op.m] else []
  }

  function Frozen(t: Trail): seq<Chunk> {
    t.popped + t.session.pending
  }

  /** Nothing is lost, repeated or reordered, and index ranges tile the log. */
  predicate Conserves(t: Trail, log: seq<Message>, budget: nat) {
    && Flatten(Bodies(Frozen(t))) + t.session.active == log
    && t.session.start + |t.session.active| == |log|
    && Linked(Frozen(t), 0, t.session.start, budget)
  }

  lemma FreezeOneConserves(t: Trail, log: seq<Message>, budget: nat)
    requires Conserves(t, log, budget) && t.session.active != []
    ensures Conserves(t.(session := FreezeOne(t.session, budget)), log, budget)
  {
    var s := t.session;
    var k := ChunkLength(s.active, budget);
    var c := Chunk(s.start, s.active[..k]);
    var t' := t.(session := FreezeOne(s, budget));
    assert Frozen(t') == Frozen(t) + [c];
    assert Bodies(Frozen(t')) == Bodies(Frozen(t)) + [c.messages];
    FlattenConcat(Bodies(Frozen(t)), [c.messages]);
    assert Flatten([c.messages]) == c.messages;
    assert s.active == c.messages + s.active[k..];
    LinkedSnoc(Frozen(t), 0, s.start, c, budget);
  }

  lemma {:induction false} FreezeReadyConserves(t: Trail, log: seq<Message>, budget: nat)
    requires Conserves(t, log, budget)
    ensures Conserves(t.(session := FreezeReady(t.session, budget)), log, budget)
    decreases |t.session.active|
  {
    if t.session.active != [] && Total(t.session.active) >= budget {
      FreezeOneConserves(t, log, budget);
      FreezeReadyConserves(t.(session := FreezeOne(t.session, budget)), log, budget);
    }
  }

  lemma {:induction false} FreezeAllConserves(t: Trail, log: seq<Message>, budget: nat)
    requires Conserves(t, log, budget)
    ensures Conserves(t.(session := FreezeAll(t.session, budget)), log, budget)
    decreases |t.session.active|
  {
    if t.session.active != [] {
      FreezeOneConserves(t, log, budget);
      FreezeAllConserves(t.(session := FreezeOne(t.session, budget)), log, budget);
    }
  }

  /** Conservation over every run, forced cuts included. */
  lemma {:induction false} RunConserves(ops: seq<Op>, budget: nat)
    ensures Conserves(Run(ops, budget), Log(ops), budget)
  {
    if ops != [] {
      var before, op := ops[..|ops| - 1], ops[|ops| - 1];
      RunConserves(before, budget);
      var t, log := Run(before, budget), Log(before);
      match op
      case Put(m) =>
        var front := Flatten(Bodies(Frozen(t)));
        assert front + (t.session.active + [m]) == (front + t.session.active) + [m];
      case Ready => FreezeReadyConserves(t, log, budget);
      case All => FreezeAllConserves(t, log, budget);
      case Take =>
        if t.session.pending == [] && t.session.active != [] {
          FreezeOneConserves(t, log, budget);
        }
        var t1 := t.(session := BeforeTake(t.session, budget));
        if t1.session.pending != [] {
          assert Frozen(Step(t, op, budget)) == Frozen(t1);
        }
    }
  }

  /** The ranges that name merged records are pairwise disjoint, so no two are equal. */
  lemma MergedRangesDisjoint(ops: seq<Op>, budget: nat, i: nat, j: nat)
    requires i < j < |Frozen(Run(ops, budget))|
    ensures var f := Frozen(Run(ops, budget));
            && f[i].messages != [] && f[j].messages != []
            && f[i].start + |f[i].messages| <= f[j].start
  {
    RunConserves(ops, budget);
    var t := Run(ops, budget);
    LinkedOrdered(Frozen(t), 0, t.session.start, budget, i, j);
    LinkedWithin(Frozen(t), 0, t.session.start, budget, i);
    LinkedWithin(Frozen(t), 0, t.session.start, budget, j);
  }

  /** No step freezes below the budget: no session end, and merges take only what waits. */
  predicate Unforced(ops: seq<Op>, budget: nat) {
    ops == []
    || var before, op := ops[..|ops| - 1], ops[|ops| - 1];
       && Unforced(before, budget)
       && op != All
       && (op == Take ==> Run(before, budget).session.pending != [])
  }

  /** The cut between the frozen chunks and `active` agrees with one pass over the log,
      whatever is appended later. */
  ghost predicate Stable(frozen: seq<seq<Message>>, active: seq<Message>, budget: nat) {
    forall ext :: ReadyChunks(Flatten(frozen) + active + ext, budget)
                  == frozen + ReadyChunks(active + ext, budget)
  }

  lemma StablePut(frozen: seq<seq<Message>>, active: seq<Message>, m: Message, budget: nat)
    requires Stable(frozen, active, budget)
    ensures Stable(frozen, active + [m], budget)
  {
    forall ext
      ensures ReadyChunks(Flatten(frozen) + (active + [m]) + ext, budget)
              == frozen + ReadyChunks(active + [m] + ext, budget)
    {
      Regroup(Flatten(frozen), active, [m], ext);
      assert active + ([m] + ext) == active + [m] + ext;
    }
  }

  lemma Regroup(f: seq<Message>, a: seq<Message>, b: seq<Message>, ext: seq<Message>)
    ensures f + (a + b) + ext == f + a + (b + ext)
    ensures f + a + b + ext == f + (a + b) + ext
  {
  }

  lemma StableFreeze(frozen: seq<seq<Message>>, active: seq<Message>, budget: nat)
    requires Stable(frozen, active, budget) && active != [] && Total(active) >= budget
    ensures var k := ChunkLength(active, budget);
            Stable(frozen + [active[..k]], active[k..], budget)
  {
    var k := ChunkLength(active, budget);
    var c, rest := active[..k], active[k..];
    FlattenConcat(frozen, [c]);
    assert Flatten([c]) == c;
    forall ext
      ensures ReadyChunks(Flatten(frozen + [c]) + rest + ext, budget)
              == frozen + [c] + ReadyChunks(rest + ext, budget)
    {
      StableAfterCut(frozen, active, k, ext, budget);
    }
  }

  lemma StableAfterCut(frozen: seq<seq<Message>>, active: seq<Message>, k: nat, ext: seq<Message>, budget: nat)
    requires active != [] && Total(active) >= budget && k == ChunkLength(active, budget)
    requires ReadyChunks(Flatten(frozen) + active + ext, budget) == frozen + ReadyChunks(active + ext, budget)
    ensures ReadyChunks(Flatten(frozen) + active[..k] + active[k..] + ext, budget)
            == frozen + [active[..k]] + ReadyChunks(active[k..] + ext, budget)
  {
    Regroup(Flatten(frozen), active[..k], active[k..], ext);
    assert active[..k] + active[k..] == active;
    FirstChunkStable(active, ext, budget);
    RegroupChunks(frozen, active[..k], ReadyChunks(active[k..] + ext, budget));
  }

  lemma RegroupChunks(f: seq<seq<Message>>, c: seq<Message>, tail: seq<seq<Message>>)
    ensures f + [c] + tail == f + ([c] + tail)
  {
  }

  lemma {:induction false} StableFreezeReady(t: Trail, budget: nat)
    requires Stable(Bodies(Frozen(t)), t.session.active, budget)
    ensures var s := FreezeReady(t.session, budget);
            Stable(Bodies(Frozen(t.(session := s))), s.active, budget)
    decreases |t.session.active|
  {
    var s := t.session;
    if s.active != [] && Total(s.active) >= budget {
      StableFreeze(Bodies(Frozen(t)), s.active, budget);
      var t1 := t.(session := FreezeOne(s, budget));
      assert Bodies(Frozen(t1)) == Bodies(Frozen(t)) + [s.active[..ChunkLength(s.active, budget)]];
      StableFreezeReady(t1, budget);
    }
  }

  lemma {:induction false} RunStable(ops: seq<Op>, budget: nat)
    requires Unforced(ops, budget)
    ensures Stable(Bodies(Frozen(Run(ops, budget))), Run(ops, budget).session.active, budget)
  {
    if ops == [] {
      forall ext: seq<Message>
        ensures ReadyChunks([] + [] + ext, budget) == [] + ReadyChunks([] + ext, budget)
      {
        assert [] + [] + ext == ext && [] + ext == ext;
      }
    } else {
      var before, op := ops[..|ops| - 1], ops[|ops| - 1];
      RunStable(before, budget);
      var t := Run(before, budget);
      match op
      case Put(m) => StablePut(Bodies(Frozen(t)), t.session.active, m, budget);
      case Ready => StableFreezeReady(t, budget);
      case Take => assert Frozen(Step(t, op, budget)) == Frozen(t);
    }
  }

  /** Whatever the grouping into requests and however late the merges, the chunks frozen so
      far plus those the active tail would give are exactly those of one pass over the log. */
  lemma FrozenMatchesOnePass(ops: seq<Op>, budget: nat)
    requires Unforced(ops, budget)
    ensures var t := Run(ops, budget);
            ReadyChunks(Log(ops), budget)
            == Bodies(Frozen(t)) + ReadyChunks(t.session.active, budget)
  {
    RunStable(ops, budget);
    RunConserves(ops, budget);
    var t := Run(ops, budget);
    var f, a := Flatten(Bodies(Frozen(t))), t.session.active;
    assert f + a + [] == Log(ops) && a + [] == a;
  }

  lemma {:induction false} FreezeReadySettles(s: Session, budget: nat)
    ensures var a := FreezeReady(s, budget).active; a == [] || Total(a) < budget
    decreases |s.active|
  {
    if s.active != [] && Total(s.active) >= budget {
      FreezeReadySettles(FreezeOne(s, budget), budget);
    }
  }

  /** Confluence: two runs over the same log freeze the same chunks with the same ranges. */
  lemma Confluent(ops1: seq<Op>, ops2: seq<Op>, budget: nat)
    requires Unforced(ops1, budget) && Unforced(ops2, budget) && Log(ops1) == Log(ops2)
    ensures Frozen(Run(ops1 + [Ready], budget)) == Frozen(Run(ops2 + [Ready], budget))
    ensures Bodies(Frozen(Run(ops1 + [Ready], budget))) == ReadyChunks(Log(ops1), budget)
  {
    SettledRun(ops1, budget);
    SettledRun(ops2, budget);
    var t1, t2 := Run(ops1 + [Ready], budget), Run(ops2 + [Ready], budget);
    LinkedDetermined(Frozen(t1), Frozen(t2), 0, t1.session.start, t2.session.start, budget);
  }

  lemma SettledRun(ops: seq<Op>, budget: nat)
    requires Unforced(ops, budget)
    ensures var t := Run(ops + [Ready], budget);
            && Bodies(Frozen(t)) == ReadyChunks(Log(ops), budget)
            && Linked(Frozen(t), 0, t.session.start, budget)
  {
    var all := ops + [Ready];
    assert all[..|all| - 1] == ops;
    FrozenMatchesOnePass(all, budget);
    RunConserves(all, budget);
    FreezeReadySettles(Run(ops, budget).session, budget);
    var t := Run(all, budget);
    assert t.session == FreezeReady(Run(ops, budget).session, budget);
    assert ReadyChunks(t.session.active, budget) == [];
    assert Log(all) == Log(ops);
    assert Bodies(Frozen(t)) + [] == Bodies(Frozen(t));
  }

  lemma {:induction false} LinkedDetermined(
    a: seq<Chunk>, b: seq<Chunk>, from: nat, toA: nat, toB: nat, budget: nat)
    requires Linked(a, from, toA, budget) && Linked(b, from, toB, budget) && Bodies(a) == Bodies(b)
    ensures a == b
  {
    assert |a| == |Bodies(a)| == |b|;
    if a != [] {
      assert Bodies(a)[0] == a[0].messages && Bodies(b)[0] == b[0].messages;
      assert Bodies(a[1..]) == Bodies(a)[1..] && Bodies(b[1..]) == Bodies(b)[1..];
      LinkedDetermined(a[1..], b[1..], from + |a[0].messages|, toA, toB, budget);
    }
  }

  lemma {:induction false} FreezeAllBodies(s: Session, budget: nat)
    ensures FreezeAll(s, budget).active == []
    ensures Bodies(FreezeAll(s, budget).pending) == Bodies(s.pending) + Greedy(s.active, budget)
    decreases |s.active|
  {
    if s.active != [] {
      var s1 := FreezeOne(s, budget);
      FreezeAllBodies(s1, budget);
      assert Bodies(s1.pending) == Bodies(s.pending) + [s1.pending[|s.pending|].messages];
    }
  }

  /** The freeze at session end completes the greedy pass over the whole log, so a session
      is merged into as few chunks as any bounded in-order split allows. */
  lemma EndIsGreedyAndFewest(ops: seq<Op>, split: seq<seq<Message>>, budget: nat)
    requires Unforced(ops, budget) && IsSplit(split, Log(ops), budget)
    ensures var t := Run(ops + [All], budget);
            && t.session.active == []
            && Bodies(Frozen(t)) == Greedy(Log(ops), budget)
            && |Frozen(t)| <= |split|
  {
    SettledActive(ops, budget);
    EndCompletesGreedy(ops, budget);
    ReadyBeforeEnd(ops, budget);
    GreedyFewest(Log(ops), split, budget);
    var f := Frozen(Run(ops + [All], budget));
    assert |Bodies(f)| == |f|;
  }

  /** Freezing what is ready first makes no difference to freezing everything. */
  lemma {:induction false} ReadyThenAll(s: Session, budget: nat)
    ensures FreezeAll(FreezeReady(s, budget), budget) == FreezeAll(s, budget)
    decreases |s.active|
  {
    if s.active != [] && Total(s.active) >= budget {
      ReadyThenAll(FreezeOne(s, budget), budget);
    }
  }

  lemma ReadyBeforeEnd(ops: seq<Op>, budget: nat)
    ensures Run(ops + [Ready, All], budget) == Run(ops + [All], budget)
  {
    var longer, shorter := ops + [Ready, All], ops + [All];
    assert longer[..|longer| - 1] == ops + [Ready] && (ops + [Ready])[..|ops|] == ops;
    assert shorter[..|shorter| - 1] == ops;
    ReadyThenAll(Run(ops, budget).session, budget);
  }

  lemma EndCompletesGreedy(ops: seq<Op>, budget: nat)
    requires Unforced(ops, budget)
    requires Run(ops + [Ready], budget).session.active == ReadyRest(Log(ops), budget)
    ensures var t := Run(ops + [Ready, All], budget);
            t.session.active == [] && Bodies(Frozen(t)) == Greedy(Log(ops), budget)
  {
    var all := ops + [Ready, All];
    assert all[..|all| - 1] == ops + [Ready];
    var t, t' := Run(ops + [Ready], budget), Run(all, budget);
    SettledRun(ops, budget);
    FreezeAllBodies(t.session, budget);
    BodiesOfAll(t, budget);
    GreedyOfRest(Log(ops), budget);
  }

  lemma GreedyOfRest(ms: seq<Message>, budget: nat)
    ensures Greedy(ms, budget) == ReadyChunks(ms, budget) + Greedy(ReadyRest(ms, budget), budget)
  {
    ReadyIsGreedyPrefix(ms, budget);
    if ReadyRest(ms, budget) != [] {
      BelowBudgetIsOneChunk(ReadyRest(ms, budget), budget);
    }
  }

  lemma BodiesOfAll(t: Trail, budget: nat)
    ensures var t' := Step(t, All, budget);
            Bodies(Frozen(t')) == Bodies(Frozen(t)) + Greedy(t.session.active, budget)
  {
    var t' := Step(t, All, budget);
    FreezeAllBodies(t.session, budget);
    assert Bodies(Frozen(t')) == Bodies(t.popped) + Bodies(t'.session.pending);
    assert Bodies(Frozen(t)) == Bodies(t.popped) + Bodies(t.session.pending);
  }

  lemma SameFront(f: seq<Message>, a: seq<Message>, b: seq<Message>)
    requires f + a == f + b
    ensures a == b
  {
    assert |a| == |b|;
    assert (f + a)[|f|..] == a && (f + b)[|f|..] == b;
  }

  /** After `Ready`, the messages still active are those no greedy chunk has claimed yet. */
  lemma SettledActive(ops: seq<Op>, budget: nat)
    requires Unforced(ops, budget)
    ensures Run(ops + [Ready], budget).session.active == ReadyRest(Log(ops), budget)
  {
    var settled := ops + [Ready];
    assert settled[..|settled| - 1] == ops;
    SettledRun(ops, budget);
    RunConserves(settled, budget);
    ReadyChunksFlatten(Log(ops), budget);
    assert Log(settled) == Log(ops);
    SameFront(Flatten(ReadyChunks(Log(ops), budget)), ReadyRest(Log(ops), budget),
              Run(settled, budget).session.active);
  }

  lemma {:induction false} ReadyChunksFlatten(ms: seq<Message>, budget: nat)
    ensures Flatten(ReadyChunks(ms, budget)) + ReadyRest(ms, budget) == ms
  {
    if ms != [] && Total(ms) >= budget {
      var k := ChunkLength(ms, budget);
      ReadyChunksFlatten(ms[k..], budget);
      var tail := ReadyChunks(ms[k..], budget);
      assert Flatten([ms[..k]] + tail) == ms[..k] + Flatten(tail);
      AppendParts(ms, k, Flatten(tail), ReadyRest(ms[k..], budget));
    }
  }

  lemma AppendParts(ms: seq<Message>, k: nat, a: seq<Message>, b: seq<Message>)
    requires k <= |ms| && a + b == ms[k..]
    ensures ms[..k] + a + b == ms
  {
    assert ms[..k] + a + b == ms[..k] + (a + b);
  }

  /** Freezing after every append gives what one freeze after the whole turn gives. */
  lemma {:induction false} FreezeBetweenAppends(s: Session, m: Message, budget: nat)
    ensures FreezeReady(Append(FreezeReady(s, budget), m), budget)
            == FreezeReady(Append(s, m), budget)
    decreases |s.active|
  {
    if s.active != [] && Total(s.active) >= budget {
      var s1 := FreezeOne(s, budget);
      FreezeBetweenAppends(s1, m, budget);
      TotalConcat(s.active, [m]);
      FirstChunkLengthStable(s.active, [m], budget);
      var k := ChunkLength(s.active, budget);
      var grown := s.active + [m];
      assert grown[..k] == s.active[..k] && grown[k..] == s.active[k..] + [m];
      assert FreezeOne(Append(s, m), budget) == Append(s1, m);
    }
  }
}
