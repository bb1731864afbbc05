/** In runs without links into immediate records no message is lost even when session keys are
    reused after a drop, exactly as long as no merged write lands on the URI of an earlier one. */
module SessionReuse {
  import opened Strings
  import opened Segmentation
  import opened Namespace
  import opened VectorStore
  import opened SessionLog
  import opened SessionBuffer
  import opened SessionPipeline
  import opened SessionFacts
  import opened SessionHazards

  /** The message's metadata does not link into any immediate record. */
  ghost predicate LinkFree(step: Step) {
    step.Store? ==> !NamesImmediate(step.metaSource) && !NamesImmediate(step.metaTree)
  }

  ghost predicate LinkFreeRun(steps: seq<Step>) {
    forall step :: step in steps ==> LinkFree(step)
  }

  /** What the caller of the write can look up: its URI is not taken. */
  ghost predicate Unused(s: State, step: Step, budget: nat) {
    Enabled(s, step, budget) && Lands(step) ==> UriUnused(s, step.i)
  }

  ghost predicate UnusedRun(steps: seq<Step>, budget: nat) {
    steps == []
    || var before := steps[..|steps| - 1];
       UnusedRun(before, budget) && Unused(After(before, budget), steps[|steps| - 1], budget)
  }

  /** After every step of the run, all messages are safe from all outstanding cleanups. */
  ghost predicate ProtectedRun(steps: seq<Step>, budget: nat) {
    && Protected(After(steps, budget))
    && (steps == [] || ProtectedRun(steps[..|steps| - 1], budget))
  }

  ghost predicate ScopesOk(s: State) {
    forall f :: f in s.flights ==> ScopeOf(f.key, f.project).Valid()
  }

  // ---- Links and scopes, in every run ----

  lemma StoreRecordOk(s: State, step: Step, budget: nat)
    requires step.Store? && Enabled(s, step, budget) && LinkFree(step)
    ensures var sc := ScopeOf(step.key, step.project);
            var p := ImmediateRecord(sc, step.hex, step.text, step.metaSource, step.metaTree);
            RecordOk(p.uri, p)
  {
    var sc := ScopeOf(step.key, step.project);
    assert IsImmediate(ImmediateUri(sc, step.hex)) && IsParent(SessionEventsParent(sc));
  }

  lemma StepStoreOk(s: State, step: Step, budget: nat)
    requires StoreOk(s.store) && ScopesOk(s) && Enabled(s, step, budget) && LinkFree(step)
    ensures StoreOk(Next(s, step, budget).store) && ScopesOk(Next(s, step, budget))
  {
    if step.Store? {
      StoreRecordOk(s, step, budget);
      PutKeepsStore(s.store, ImmediateRecord(ScopeOf(step.key, step.project), step.hex, step.text,
                                             step.metaSource, step.metaTree));
    } else if IsWrite(step) {
      var f := s.flights[step.i];
      assert f in s.flights;
      MergedRecordOk(f);
      PutKeepsStore(s.store, MergedRecord(f));
    } else if step.Cleanup? {
      CleanupKeepsStore(s.store, s.events[step.e][step.j]);
    }
  }

  lemma {:induction false} RunStoreOk(steps: seq<Step>, budget: nat)
    requires LinkFreeRun(steps)
    ensures StoreOk(After(steps, budget).store) && ScopesOk(After(steps, budget))
  {
    if steps != [] {
      var before, step := steps[..|steps| - 1], steps[|steps| - 1];
      assert step in steps && forall x :: x in before ==> x in steps;
      RunStoreOk(before, budget);
      if Enabled(After(before, budget), step, budget) {
        StepStoreOk(After(before, budget), step, budget);
      }
    }
  }

  // ---- Only writes can expose a message ----

  /** Messages stay safe while events and taken chunks stay and no needed record goes. */
  lemma SafeFrame(s: State, s': State, m: Message)
    requires Safe(s, m) && s'.events == s.events && s.flights <= s'.flights
    requires m.uri in s.store && !NamedInEvent(s, m.uri) ==>
               m.uri in s'.store && s'.store[m.uri] == s.store[m.uri]
    requires forall j: nat :: SafeIn(s, j, m) ==>
               RecordUri(s.flights[j]) in s'.store
               && s'.store[RecordUri(s.flights[j])] == s.store[RecordUri(s.flights[j])]
    ensures Safe(s', m)
  {
    if j: nat :| SafeIn(s, j, m) {
      assert SafeIn(s', j, m);
    } else {
      assert NamedInEvent(s', m.uri) ==> NamedInEvent(s, m.uri);
    }
  }

  /** Published events name accepted messages only. */
  lemma NamedIsAccepted(s: State, u: string) returns (m: Message)
    requires Flights(s) && Published(s) && NamedInEvent(s, u)
    ensures m in s.accepted && m.uri == u
  {
    var e :| 0 <= e < |s.events| && u in s.events[e];
    assert s.events[e] in s.events && FromWritten(s, s.events[e]);
    var i :| 0 <= i < |s.flights| && Uris(s.flights[i].chunk.messages) == s.events[e];
    assert s.flights[i] in s.flights;
    var ms := s.flights[i].chunk.messages;
    assert |Uris(ms)| == |ms| && u in Uris(ms);
    var k :| 0 <= k < |Uris(ms)| && Uris(ms)[k] == u;
    m := ms[k];
    assert m in ms && AllIn(ms, s.accepted);
  }

  /** The record of a message under a fresh URI touches no other record. */
  lemma StoreKeepsSafe(s: State, s': State, u: string, p: Payload, m: Message)
    requires IsImmediate(u) && m.uri != u && Safe(s, m)
    requires s'.events == s.events && s'.flights == s.flights && s'.store == s.store[u := p]
    ensures Safe(s', m)
  {
    forall j: nat | SafeIn(s, j, m) ensures RecordUri(s.flights[j]) != u {
      ImmediateNotRecord(u, s.flights[j]);
    }
    SafeFrame(s, s', m);
  }

  lemma StoredIsSafe(s: State, step: Step, m: Message, budget: nat)
    requires Flights(s) && Published(s) && step.Store? && Enabled(s, step, budget)
    requires m in Next(s, step, budget).accepted && (m in s.accepted ==> Safe(s, m))
    ensures Safe(Next(s, step, budget), m)
  {
    var s' := Next(s, step, budget);
    var u := ImmediateUri(ScopeOf(step.key, step.project), step.hex);
    assert IsImmediate(u);
    if m in s.accepted {
      StoreKeepsSafe(s, s', u, s'.store[u], m);
    } else if NamedInEvent(s, u) {
      var n := NamedIsAccepted(s, u);
      assert false;
    } else {
      assert !NamedInEvent(s', u);
    }
  }

  lemma CleanupKeepsSafe(s: State, u: string, m: Message)
    requires StoreOk(s.store) && IsImmediate(u) && NamedInEvent(s, u) && Safe(s, m)
    ensures Safe(s.(store := Remove(s.store, u)), m)
  {
    CleanupRemovesOne(s, u);
    RemovalKeepsSafe(s, s.(store := s.store - {u}), u, m);
  }

  lemma RemovalKeepsSafe(s: State, s': State, u: string, m: Message)
    requires IsImmediate(u) && NamedInEvent(s, u) && Safe(s, m) && s' == s.(store := s.store - {u})
    ensures Safe(s', m)
  {
    if j: nat :| SafeIn(s, j, m) {
      ImmediateNotRecord(u, s.flights[j]);
      assert SafeIn(s', j, m);
    } else {
      assert NamedInEvent(s', m.uri) ==> NamedInEvent(s, m.uri);
    }
  }

  lemma CleanedUpIsSafe(s: State, step: Step, m: Message, budget: nat)
    requires Always(s) && StoreOk(s.store) && step.Cleanup? && Enabled(s, step, budget) && Safe(s, m)
    ensures Safe(Next(s, step, budget), m)
  {
    var u := s.events[step.e][step.j];
    assert u in s.events[step.e];
    var n := NamedIsAccepted(s, u);
    CleanupKeepsSafe(s, u, m);
  }

  /** One step keeps every message protected if and only if it is no write that lands on the
      URI of an earlier merged record. */
  lemma StepKeepsProtectedIff(s: State, step: Step, budget: nat)
    requires Always(s) && StoreOk(s.store) && Protected(s) && Enabled(s, step, budget)
    ensures Protected(Next(s, step, budget)) <==> Unused(s, step, budget)
  {
    if IsWrite(step) {
      ProtectedIff(s, step, budget);
    } else {
      forall m | m in Next(s, step, budget).accepted ensures Safe(Next(s, step, budget), m) {
        if step.Store? {
          StoredIsSafe(s, step, m, budget);
        } else if step.Cleanup? {
          CleanedUpIsSafe(s, step, m, budget);
        } else {
          SafeFrame(s, Next(s, step, budget), m);
        }
      }
    }
  }

  // ---- Whole runs, key reuse included ----

  /** In every run without foreign links, however keys are reused: messages stay protected
      throughout if and only if no merged write lands on the URI of an earlier merged record. */
  lemma {:induction false} ProtectedRunIff(steps: seq<Step>, budget: nat)
    requires LinkFreeRun(steps)
    ensures ProtectedRun(steps, budget) <==> UnusedRun(steps, budget)
  {
    if steps != [] {
      var before, step := steps[..|steps| - 1], steps[|steps| - 1];
      assert forall x :: x in before ==> x in steps;
      ProtectedRunIff(before, budget);
      var s := After(before, budget);
      RunAlways(before, budget);
      RunStoreOk(before, budget);
      if ProtectedRun(before, budget) {
        assert Protected(s);
        if Enabled(s, step, budget) {
          StepKeepsProtectedIff(s, step, budget);
        }
      }
    }
  }

  lemma SafeIsHeld(s: State, m: Message)
    requires Safe(s, m)
    ensures Held(s.store, m)
  {
    if i: nat :| SafeIn(s, i, m) {
      var f := s.flights[i];
      var ms := f.chunk.messages;
      var k :| 0 <= k < |ms| && ms[k] == m;
      assert Uris(ms)[k] == m.uri && Texts(ms)[k] == m.text;
      JoinContains(Texts(ms), "\n\n", k);
    }
  }

  /** So no accepted message is lost in any run that meets the condition. */
  lemma NoMessageLostUnderReuse(steps: seq<Step>, budget: nat, m: Message)
    requires LinkFreeRun(steps) && UnusedRun(steps, budget)
    requires m in After(steps, budget).accepted
    ensures Held(After(steps, budget).store, m)
  {
    ProtectedRunIff(steps, budget);
    SafeIsHeld(After(steps, budget), m);
  }

  /** Where the condition fails, a message is lost by a cleanup that is already published. */
  lemma OverwriteLoses(steps: seq<Step>, step: Step, budget: nat) returns (m: Message, cleanup: Step)
    requires Enabled(After(steps, budget), step, budget) && !Unused(After(steps, budget), step, budget)
    ensures m in After(steps, budget).accepted && cleanup.Cleanup?
    ensures !Held(After(steps + [step, cleanup], budget).store, m)
  {
    var s := After(steps, budget);
    RunAlways(steps, budget);
    var j :| 0 <= j < |s.flights| && s.flights[j].status.Written? && s.flights[j].chunk.messages != []
             && RecordUri(s.flights[j]) == RecordUri(s.flights[step.i]);
    var ms := s.flights[j].chunk.messages;
    var e :| 0 <= e < |s.events| && s.events[e] == Uris(ms);
    m, cleanup := ms[0], Cleanup(e, 0);
    OverwriteThenCleanupLoses(steps, step, j, e, 0, budget);
  }

  /** Runs that never append to a dropped key meet the condition. */
  lemma {:induction false} CarefulRunsMeetIt(steps: seq<Step>, budget: nat)
    requires CarefulRun(steps, budget)
    ensures UnusedRun(steps, budget)
  {
    if steps != [] {
      var before, step := steps[..|steps| - 1], steps[|steps| - 1];
      CarefulRunsMeetIt(before, budget);
      RunKeepsInv(before, budget);
      if Enabled(After(before, budget), step, budget) && Lands(step) {
        CarefulWriteIsUnused(After(before, budget), step, budget);
      }
    }
  }

  lemma CarefulWriteIsUnused(s: State, step: Step, budget: nat)
    requires FlightsOk(s) && Lands(step) && Enabled(s, step, budget)
    ensures UriUnused(s, step.i)
  {
    forall j | 0 <= j < |s.flights| && s.flights[j].status.Written? && s.flights[j].chunk.messages != []
      ensures RecordUri(s.flights[j]) != RecordUri(s.flights[step.i]) {
      if j == step.i {
        assert false;
      }
      WriteHitsFreshUri(s, step.i, j);
    }
  }
}
