/** Two ways to break the no-loss guarantee; `SessionLossless` has the exact condition.
    First, a merged write that lands on the URI of an earlier merged record: that takes a
    session key reused after its state was dropped, because the index restarts at zero.
    Second, message metadata that links into another message's immediate record. */
module SessionHazards {
  import opened Strings
  import opened Segmentation
  import opened Namespace
  import opened VectorStore
  import opened SessionLog
  import opened SessionBuffer
  import opened SessionPipeline
  import opened SessionFacts

  // ---- The exact condition ----

  ghost predicate NamedInEvent(s: State, u: string) {
    exists e :: 0 <= e < |s.events| && u in s.events[e]
  }

  /** The record of chunk `i` is in place and holds the message. */
  ghost predicate SafeIn(s: State, i: nat, m: Message) {
    && MergedInto(s, i, m)
    && RecordUri(s.flights[i]) in s.store
    && s.store[RecordUri(s.flights[i])] == MergedRecord(s.flights[i])
  }

  /** Held now, and no outstanding cleanup can change that. */
  ghost predicate Safe(s: State, m: Message) {
    || (m.uri in s.store && s.store[m.uri].content == m.text && !NamedInEvent(s, m.uri))
    || exists i: nat :: SafeIn(s, i, m)
  }

  ghost predicate Protected(s: State) {
    forall m :: m in s.accepted ==> Safe(s, m)
  }

  /** No earlier merged record carries the URI about to be written. */
  ghost predicate UriUnused(s: State, i: nat)
    requires i < |s.flights| && s.flights[i].chunk.messages != []
  {
    forall j :: 0 <= j < |s.flights| && s.flights[j].status.Written? && s.flights[j].chunk.messages != []
      ==> RecordUri(s.flights[j]) != RecordUri(s.flights[i])
  }

  predicate IsWrite(step: Step) {
    step.WriteOk? || step.WriteRaises?
  }

  /** A merged write whose record reaches the store, whether or not it raises afterwards. */
  predicate Lands(step: Step) {
    step.WriteOk? || (step.WriteRaises? && step.landed)
  }

  lemma WriteKeepsRecord(s: State, step: Step, j: nat, m: Message, budget: nat)
    requires IsWrite(step) && Enabled(s, step, budget) && SafeIn(s, j, m)
    requires Lands(step) ==> UriUnused(s, step.i)
    ensures SafeIn(Next(s, step, budget), j, m)
  {
    if Lands(step) {
      assert RecordUri(s.flights[j]) != RecordUri(s.flights[step.i]);
    }
  }

  lemma WriteHolds(s: State, i: nat, m: Message, budget: nat)
    requires Enabled(s, WriteOk(i), budget) && m in s.flights[i].chunk.messages
    ensures SafeIn(Next(s, WriteOk(i), budget), i, m)
  {
    SameRecord(s.flights[i], Next(s, WriteOk(i), budget).flights[i]);
  }

  lemma UnusedKeepsSafe(s: State, step: Step, m: Message, budget: nat)
    requires Named(s) && Flights(s) && IsWrite(step) && Enabled(s, step, budget)
    requires Lands(step) ==> UriUnused(s, step.i)
    requires m in s.accepted && Safe(s, m)
    ensures Safe(Next(s, step, budget), m)
  {
    var s' := Next(s, step, budget);
    var f := s.flights[step.i];
    if j: nat :| SafeIn(s, j, m) {
      WriteKeepsRecord(s, step, j, m, budget);
    } else if step.WriteOk? && m in f.chunk.messages {
      WriteHolds(s, step.i, m, budget);
    } else {
      ImmediateNotRecord(m.uri, f);
      assert f in s.flights;
      assert step.WriteOk? ==> m.uri !in Uris(f.chunk.messages)
                               && s'.events == s.events + [Uris(f.chunk.messages)];
      assert !NamedInEvent(s', m.uri);
    }
  }

  /** After an overwrite, a message of the older chunk is no longer safe anywhere. */
  lemma OverwriteExposes(s: State, step: Step, j: nat, m: Message, budget: nat)
    requires Always(s) && Lands(step) && Enabled(s, step, budget) && MergedInto(s, j, m)
    requires RecordUri(s.flights[j]) == RecordUri(s.flights[step.i])
    ensures !Safe(Next(s, step, budget), m)
    ensures !SafeIn(Next(s, step, budget), j, m)
  {
    WrittenIsNamed(s, step, j, m, budget);
    OverwriteNotSafe(s, step, j, m, budget);
  }

  lemma WrittenIsNamed(s: State, step: Step, j: nat, m: Message, budget: nat)
    requires Published(s) && IsWrite(step) && Enabled(s, step, budget) && MergedInto(s, j, m)
    ensures NamedInEvent(Next(s, step, budget), m.uri)
  {
    var s' := Next(s, step, budget);
    var ms := s.flights[j].chunk.messages;
    var e :| 0 <= e < |s.events| && s.events[e] == Uris(ms);
    var k :| 0 <= k < |ms| && ms[k] == m;
    assert Uris(ms)[k] == m.uri && s'.events[e] == s.events[e];
  }

  lemma OverwriteNotSafe(s: State, step: Step, j: nat, m: Message, budget: nat)
    requires Flights(s) && Lands(step) && Enabled(s, step, budget) && MergedInto(s, j, m)
    requires RecordUri(s.flights[j]) == RecordUri(s.flights[step.i])
    ensures forall x: nat :: !SafeIn(Next(s, step, budget), x, m)
  {
    var s' := Next(s, step, budget);
    var f, g := s.flights[step.i], s.flights[j];
    var k :| 0 <= k < |g.chunk.messages| && g.chunk.messages[k] == m;
    SameRecord(f, s'.flights[step.i]);
    assert f.chunk.messages[0] in f.chunk.messages;
    DifferentRecords(f, g, m, k);
    forall x: nat
      ensures !SafeIn(s', x, m)
    {
      if x < |s.flights| && x != j {
        assert m !in s.flights[x].chunk.messages && s'.flights[x].chunk == s.flights[x].chunk;
      }
    }
  }

  lemma DifferentRecords(f: Flight, g: Flight, m: Message, k: nat)
    requires f.chunk.messages != [] && k < |g.chunk.messages| && g.chunk.messages[k] == m
    requires forall n :: n in f.chunk.messages ==> n.uri != m.uri
    ensures MergedRecord(f) != MergedRecord(g)
  {
    assert Uris(g.chunk.messages)[k] == m.uri;
    assert m.uri in MergedRecord(g).metaSourceUris;
    assert m.uri !in MergedRecord(f).metaSourceUris;
  }

  /** In every run, reuse included: a merged write keeps every message safe if and only if it
      does not land, or no earlier merged record has its URI. The caller can look that URI up. */
  lemma WriteKeepsProtectedIff(steps: seq<Step>, step: Step, budget: nat)
    requires IsWrite(step) && Enabled(After(steps, budget), step, budget)
    requires Protected(After(steps, budget))
    ensures Protected(Next(After(steps, budget), step, budget))
            <==> (Lands(step) ==> UriUnused(After(steps, budget), step.i))
  {
    RunAlways(steps, budget);
    ProtectedIff(After(steps, budget), step, budget);
  }

  lemma ProtectedIff(s: State, step: Step, budget: nat)
    requires Always(s) && IsWrite(step) && Enabled(s, step, budget) && Protected(s)
    ensures Protected(Next(s, step, budget)) <==> (Lands(step) ==> UriUnused(s, step.i))
  {
    if Lands(step) && !UriUnused(s, step.i) {
      var j :| 0 <= j < |s.flights| && s.flights[j].status.Written? && s.flights[j].chunk.messages != []
               && RecordUri(s.flights[j]) == RecordUri(s.flights[step.i]);
      var m := s.flights[j].chunk.messages[0];
      OverwriteExposes(s, step, j, m, budget);
      assert s.flights[j] in s.flights && m in s.accepted;
    } else {
      forall m | m in s.accepted
        ensures Safe(Next(s, step, budget), m)
      {
        UnusedKeepsSafe(s, step, m, budget);
      }
    }
  }

  /** An exposed message that has no own record is not held by any merged record. */
  lemma ExposedIsNotHeld(s: State, j: nat, m: Message)
    requires Always(s) && MergedInto(s, j, m) && !SafeIn(s, j, m) && m.uri !in s.store
    ensures !Held(s.store, m)
  {
    assert s.flights[j] in s.flights && m in s.accepted;
    forall u | u in s.store && s.store[u].layer == "merged"
      ensures m.uri !in s.store[u].metaSourceUris
    {
      NotNamedElsewhere(s, j, u, m);
    }
  }

  lemma NotNamedElsewhere(s: State, j: nat, u: string, m: Message)
    requires Always(s) && MergedInto(s, j, m) && !SafeIn(s, j, m)
    requires u in s.store && s.store[u].layer == "merged"
    ensures m.uri !in s.store[u].metaSourceUris
  {
    var x: nat :| x < |s.flights| && s.flights[x].chunk.messages != []
                  && u == RecordUri(s.flights[x]) && s.store[u] == MergedRecord(s.flights[x]);
    assert x != j;
    ForeignChunk(s, x, j, m);
  }

  lemma ForeignChunk(s: State, x: nat, j: nat, m: Message)
    requires Placed(s) && Named(s) && x < |s.flights| && j < |s.flights| && x != j
    requires m in s.flights[j].chunk.messages
    ensures m.uri !in Uris(s.flights[x].chunk.messages)
  {
  }

  /** And an exposed message is really lost: deliver the older cleanup after the overwrite. */
  lemma OverwriteThenCleanupLoses(
    steps: seq<Step>, step: Step, j: nat, e: nat, k: nat, budget: nat)
    requires Lands(step)
    requires var s := After(steps, budget);
             && Enabled(s, step, budget)
             && j < |s.flights| && s.flights[j].status.Written? && k < |s.flights[j].chunk.messages|
             && RecordUri(s.flights[j]) == RecordUri(s.flights[step.i])
             && e < |s.events| && s.events[e] == Uris(s.flights[j].chunk.messages)
    ensures var s := After(steps, budget);
            var m := s.flights[j].chunk.messages[k];
            && m in s.accepted
            && !Held(After(steps + [step, Cleanup(e, k)], budget).store, m)
  {
    var s := After(steps, budget);
    var all := steps + [step, Cleanup(e, k)];
    AfterSnoc(steps, step, budget);
    AfterSnoc(steps + [step], Cleanup(e, k), budget);
    assert all == steps + [step] + [Cleanup(e, k)];
    RunAlways(steps, budget);
    RunAlways(all, budget);
    assert s.flights[j] in s.flights && s.flights[j].chunk.messages[k] in s.flights[j].chunk.messages;
    CleanupOfExposed(s, step, j, e, k, budget);
  }

  lemma CleanupOfExposed(s: State, step: Step, j: nat, e: nat, k: nat, budget: nat)
    requires Always(s) && Lands(step) && Enabled(s, step, budget)
    requires j < |s.flights| && s.flights[j].status.Written? && k < |s.flights[j].chunk.messages|
    requires RecordUri(s.flights[j]) == RecordUri(s.flights[step.i])
    requires e < |s.events| && s.events[e] == Uris(s.flights[j].chunk.messages)
    ensures var s1 := Next(s, step, budget);
            && Enabled(s1, Cleanup(e, k), budget)
            && (Always(Next(s1, Cleanup(e, k), budget)) ==>
                  !Held(Next(s1, Cleanup(e, k), budget).store, s.flights[j].chunk.messages[k]))
  {
    var m := s.flights[j].chunk.messages[k];
    var s1 := Next(s, step, budget);
    assert s1.events[e] == s.events[e] && s1.events[e][k] == m.uri;
    assert MergedInto(s, j, m);
    OverwriteExposes(s, step, j, m, budget);
    var s2 := Next(s1, Cleanup(e, k), budget);
    assert s2 == s1.(store := Remove(s1.store, m.uri));
    assert s1.flights[j] == s.flights[j];
    if Always(s2) {
      StepNamed(s, step, budget);
      RemovedIsGone(s1.store, m.uri);
      assert MergedInto(s2, j, m) && !SafeIn(s2, j, m);
      ExposedIsNotHeld(s2, j, m);
    }
  }

  lemma RemovedIsGone(store: Points, u: string)
    requires u in store ==> store[u].uri == u
    ensures u !in Remove(store, u)
  {
    if u in store {
      assert store[u].uri in LinkFields(store[u]);
    }
  }

  /** A cleanup takes a foreign record exactly when one of its metadata links leads into the
      cleaned-up record. */
  lemma CleanupTakesForeignIff(sc: Scope, hex: string, p: Payload, target: Scope, targetHex: string)
    requires sc.Valid() && IsHex(hex) && target.Valid() && IsHex(targetHex)
    requires p.uri == ImmediateUri(sc, hex) && p.parentUri == SessionEventsParent(sc) && p.sourceUri == ""
    requires p.uri != ImmediateUri(target, targetHex)
    ensures PayloadMatchesUri(p, ImmediateUri(target, targetHex))
            <==> Under(p.metaSourceUri, ImmediateUri(target, targetHex))
                 || Under(p.metaTreeUri, ImmediateUri(target, targetHex))
  {
    ImmediateDepth(sc, hex);
    ImmediateDepth(target, targetHex);
    ParentDepth(sc);
    ShallowNotUnder(p.uri, target, targetHex);
    ShallowNotUnder(p.parentUri, target, targetHex);
    ShallowNotUnder("", target, targetHex);
    assert LinkFields(p) == [p.uri, "", p.parentUri, p.metaSourceUri, p.metaTreeUri];
    assert p.metaSourceUri in LinkFields(p) && p.metaTreeUri in LinkFields(p);
  }
}
