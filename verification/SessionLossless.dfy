/** Exactly which runs lose no message, whatever links messages carry, however session keys are
    reused and whichever writes fail: the condition on each step, and what a violation costs. */
module SessionLossless {
  import opened Strings
  import opened Segmentation
  import opened Namespace
  import opened VectorStore
  import opened SessionLog
  import opened SessionBuffer
  import opened SessionPipeline
  import opened SessionFacts
  import opened SessionHazards
  import opened SessionReuse

  /** The record of chunk `i` has landed, whether or not its write raised, and holds the message. */
  ghost predicate HeldIn(s: State, i: nat, m: Message) {
    && i < |s.flights| && m in s.flights[i].chunk.messages
    && RecordUri(s.flights[i]) in s.store
    && s.store[RecordUri(s.flights[i])] == MergedRecord(s.flights[i])
  }

  /** The message's own record is there, and no published URI covers it or one of its links. */
  ghost predicate OwnSafe(s: State, m: Message) {
    && m.uri in s.store && s.store[m.uri].content == m.text
    && forall u :: NamedInEvent(s, u) ==> !PayloadMatchesUri(s.store[m.uri], u)
  }

  ghost predicate Secure(s: State, m: Message) {
    OwnSafe(s, m) || exists i: nat :: HeldIn(s, i, m)
  }

  ghost predicate AllSecure(s: State) {
    forall m :: m in s.accepted ==> Secure(s, m)
  }

  // ---- The condition on a step ----

  /** No published URI covers a link of the message. */
  ghost predicate LinksClear(s: State, step: Step)
    requires step.Store?
  {
    forall u :: NamedInEvent(s, u) ==> !Under(step.metaSource, u) && !Under(step.metaTree, u)
  }

  /** The message sits in a landed record whose URI chunk `i` is about to use. */
  ghost predicate Overwritten(s: State, i: nat, m: Message)
    requires i < |s.flights| && s.flights[i].chunk.messages != []
  {
    exists j: nat :: HeldIn(s, j, m) && RecordUri(s.flights[j]) == RecordUri(s.flights[i])
  }

  ghost predicate HeldElsewhere(s: State, i: nat, m: Message)
    requires i < |s.flights| && s.flights[i].chunk.messages != []
  {
    exists j: nat :: HeldIn(s, j, m) && RecordUri(s.flights[j]) != RecordUri(s.flights[i])
  }

  /** Of the messages outside chunk `i`, the overwritten ones still have a safe own record. */
  ghost predicate OverwriteClear(s: State, i: nat)
    requires i < |s.flights| && s.flights[i].chunk.messages != []
  {
    forall m :: m in s.accepted && m !in s.flights[i].chunk.messages && Overwritten(s, i, m) ==> OwnSafe(s, m)
  }

  /** And the URIs of chunk `i` cover no own record of one that has no other record. */
  ghost predicate SourcesClear(s: State, i: nat)
    requires i < |s.flights| && s.flights[i].chunk.messages != []
  {
    forall m, u :: m in s.accepted && m !in s.flights[i].chunk.messages && !HeldElsewhere(s, i, m)
                   && m.uri in s.store && u in Uris(s.flights[i].chunk.messages)
      ==> !PayloadMatchesUri(s.store[m.uri], u)
  }

  ghost predicate Clear(s: State, step: Step, budget: nat)
    requires Enabled(s, step, budget)
  {
    && (step.Store? ==> LinksClear(s, step))
    && (IsWrite(step) && Lands(step) ==> OverwriteClear(s, step.i))
    && (step.WriteOk? ==> SourcesClear(s, step.i))
  }

  // ---- What a secure message survives ----

  ghost predicate Base(s: State) {
    Always(s) && ScopesOk(s)
  }

  lemma ScopesStep(s: State, step: Step, budget: nat)
    requires ScopesOk(s) && Enabled(s, step, budget)
    ensures ScopesOk(Next(s, step, budget))
  {
  }

  lemma {:induction false} RunScopes(steps: seq<Step>, budget: nat)
    ensures ScopesOk(After(steps, budget))
  {
    if steps != [] {
      var before, step := steps[..|steps| - 1], steps[|steps| - 1];
      RunScopes(before, budget);
      if Enabled(After(before, budget), step, budget) {
        ScopesStep(After(before, budget), step, budget);
      }
    }
  }

  lemma RunBase(steps: seq<Step>, budget: nat)
    ensures Base(After(steps, budget))
  {
    RunAlways(steps, budget);
    RunScopes(steps, budget);
  }

  /** No cleanup of a message takes a merged record. */
  lemma RecordImmune(f: Flight, u: string)
    requires ScopeOf(f.key, f.project).Valid() && f.chunk.messages != [] && IsImmediate(u)
    ensures !PayloadMatchesUri(MergedRecord(f), u)
  {
    MergedRecordOk(f);
    ImmediateNotRecord(u, f);
    var sc: Scope, hex :| sc.Valid() && IsHex(hex) && u == ImmediateUri(sc, hex);
    RecordMatchesOnlyItself(RecordUri(f), MergedRecord(f), sc, hex);
  }

  lemma PublishedIsImmediate(s: State, u: string)
    requires Base(s) && NamedInEvent(s, u)
    ensures IsImmediate(u) && exists m :: m in s.accepted && m.uri == u
  {
    var m := NamedIsAccepted(s, u);
  }

  lemma CleanupKeepsHeldIn(s: State, u: string, i: nat, m: Message)
    requires Base(s) && IsImmediate(u) && HeldIn(s, i, m)
    ensures HeldIn(s.(store := Remove(s.store, u)), i, m)
  {
    assert s.flights[i] in s.flights;
    RecordImmune(s.flights[i], u);
  }

  /** A cleanup never costs a secure message its security. */
  lemma CleanupKeepsSecure(s: State, step: Step, m: Message, budget: nat)
    requires Base(s) && step.Cleanup? && Enabled(s, step, budget) && Secure(s, m)
    ensures Secure(Next(s, step, budget), m)
  {
    var u := s.events[step.e][step.j];
    assert u in s.events[step.e] && NamedInEvent(s, u);
    PublishedIsImmediate(s, u);
    var s' := Next(s, step, budget);
    if i: nat :| HeldIn(s, i, m) {
      CleanupKeepsHeldIn(s, u, i, m);
    } else {
      assert forall v :: NamedInEvent(s', v) ==> NamedInEvent(s, v);
    }
  }

  // ---- Stores ----

  lemma LinksDecide(s: State, step: Step, u: string, budget: nat)
    requires Base(s) && step.Store? && Enabled(s, step, budget) && NamedInEvent(s, u)
    ensures var sc := ScopeOf(step.key, step.project);
            var p := ImmediateRecord(sc, step.hex, step.text, step.metaSource, step.metaTree);
            PayloadMatchesUri(p, u) <==> Under(step.metaSource, u) || Under(step.metaTree, u)
  {
    PublishedIsImmediate(s, u);
    var sc := ScopeOf(step.key, step.project);
    var target: Scope, hex :| target.Valid() && IsHex(hex) && u == ImmediateUri(target, hex);
    CleanupTakesForeignIff(sc, step.hex,
                           ImmediateRecord(sc, step.hex, step.text, step.metaSource, step.metaTree), target, hex);
  }

  lemma StoreKeepsOthers(s: State, step: Step, m: Message, budget: nat)
    requires Base(s) && step.Store? && Enabled(s, step, budget) && m in s.accepted && Secure(s, m)
    ensures Secure(Next(s, step, budget), m)
  {
    var s' := Next(s, step, budget);
    if i: nat :| HeldIn(s, i, m) {
      StoreKeepsHeldIn(s, step, i, m, budget);
    } else {
      assert forall v :: NamedInEvent(s', v) ==> NamedInEvent(s, v);
    }
  }

  lemma StoreKeepsHeldIn(s: State, step: Step, i: nat, m: Message, budget: nat)
    requires step.Store? && Enabled(s, step, budget) && HeldIn(s, i, m)
    ensures HeldIn(Next(s, step, budget), i, m)
  {
    var u := ImmediateUri(ScopeOf(step.key, step.project), step.hex);
    assert IsImmediate(u);
    ImmediateNotRecord(u, s.flights[i]);
  }

  /** A stored message is secure if and only if none of its links is covered already. */
  lemma StoredSecureIff(s: State, step: Step, m: Message, budget: nat)
    requires Base(s) && step.Store? && Enabled(s, step, budget)
    requires m == Message(step.text, ImmediateUri(ScopeOf(step.key, step.project), step.hex), step.tools)
    ensures Secure(Next(s, step, budget), m) <==> LinksClear(s, step)
  {
    var s' := Next(s, step, budget);
    forall i: nat | i < |s.flights| ensures m !in s.flights[i].chunk.messages {
      assert s.flights[i] in s.flights;
    }
    forall u ensures NamedInEvent(s', u) <==> NamedInEvent(s, u) {
    }
    forall u | NamedInEvent(s, u)
      ensures PayloadMatchesUri(s'.store[m.uri], u)
              <==> Under(step.metaSource, u) || Under(step.metaTree, u) {
      LinksDecide(s, step, u, budget);
    }
  }

  lemma StoreKeepsIff(s: State, step: Step, budget: nat)
    requires Base(s) && AllSecure(s) && step.Store? && Enabled(s, step, budget)
    ensures AllSecure(Next(s, step, budget)) <==> Clear(s, step, budget)
  {
    var s' := Next(s, step, budget);
    var n := Message(step.text, ImmediateUri(ScopeOf(step.key, step.project), step.hex), step.tools);
    StoredSecureIff(s, step, n, budget);
    assert n in s'.accepted;
    forall m | m in s'.accepted && m != n ensures Secure(s', m) {
      StoreKeepsOthers(s, step, m, budget);
    }
  }

  // ---- Merged writes ----

  lemma HeldBeforeWrite(s: State, step: Step, j: nat, m: Message, budget: nat)
    requires Base(s) && IsWrite(step) && Lands(step) && Enabled(s, step, budget)
    requires m in s.accepted && m !in s.flights[step.i].chunk.messages
    requires HeldIn(Next(s, step, budget), j, m)
    ensures HeldIn(s, j, m) && RecordUri(s.flights[j]) != RecordUri(s.flights[step.i])
  {
    assert Next(s, step, budget).flights[j] == s.flights[j] && j != step.i;
    RecordsDiffer(s, step.i, j, m);
  }

  lemma HeldThroughWrite(s: State, step: Step, j: nat, m: Message, budget: nat)
    requires IsWrite(step) && Enabled(s, step, budget) && HeldIn(s, j, m)
    requires RecordUri(s.flights[j]) != RecordUri(s.flights[step.i])
    ensures HeldIn(Next(s, step, budget), j, m)
  {
  }

  /** Where a message outside the written chunk is held after the write. */
  lemma HeldAfterWrite(s: State, step: Step, m: Message, budget: nat)
    requires Base(s) && IsWrite(step) && Lands(step) && Enabled(s, step, budget)
    requires m in s.accepted && m !in s.flights[step.i].chunk.messages
    ensures (exists j: nat :: HeldIn(Next(s, step, budget), j, m)) <==> HeldElsewhere(s, step.i, m)
  {
    if j: nat :| HeldIn(Next(s, step, budget), j, m) {
      HeldBeforeWrite(s, step, j, m, budget);
    }
    if j: nat :| HeldIn(s, j, m) && RecordUri(s.flights[j]) != RecordUri(s.flights[step.i]) {
      HeldThroughWrite(s, step, j, m, budget);
    }
  }

  lemma RecordsDiffer(s: State, i: nat, j: nat, m: Message)
    requires Base(s) && i < |s.flights| && j < |s.flights| && s.flights[i].chunk.messages != []
    requires m in s.accepted && m in s.flights[j].chunk.messages && m !in s.flights[i].chunk.messages
    ensures MergedRecord(s.flights[i]) != MergedRecord(s.flights[j])
  {
    var ms := s.flights[j].chunk.messages;
    var k :| 0 <= k < |ms| && ms[k] == m;
    assert s.flights[i] in s.flights;
    DifferentRecords(s.flights[i], s.flights[j], m, k);
  }

  lemma OwnSafeAfterWrite(s: State, step: Step, m: Message, budget: nat)
    requires Base(s) && IsWrite(step) && Enabled(s, step, budget) && m in s.accepted
    ensures OwnSafe(Next(s, step, budget), m) <==>
              && OwnSafe(s, m)
              && (step.WriteOk? ==> forall u :: u in Uris(s.flights[step.i].chunk.messages) ==>
                                      !PayloadMatchesUri(s.store[m.uri], u))
  {
    var s' := Next(s, step, budget);
    var us := Uris(s.flights[step.i].chunk.messages);
    ImmediateNotRecord(m.uri, s.flights[step.i]);
    assert m.uri in s'.store <==> m.uri in s.store;
    NamedAfterWrite(s, step, budget);
  }

  lemma NamedAfterWrite(s: State, step: Step, budget: nat)
    requires IsWrite(step) && Enabled(s, step, budget)
    ensures forall u :: NamedInEvent(Next(s, step, budget), u) <==>
              NamedInEvent(s, u) || (step.WriteOk? && u in Uris(s.flights[step.i].chunk.messages))
  {
    var s' := Next(s, step, budget);
    var us := Uris(s.flights[step.i].chunk.messages);
    forall u
      ensures NamedInEvent(s', u) <==> NamedInEvent(s, u) || (step.WriteOk? && u in us) {
      if NamedInEvent(s, u) {
        var e :| 0 <= e < |s.events| && u in s.events[e];
        assert s'.events[e] == s.events[e];
      }
      if step.WriteOk? && u in us {
        assert s'.events[|s.events|] == us;
      }
    }
  }

  lemma WrittenIsHeld(s: State, step: Step, m: Message, budget: nat)
    requires IsWrite(step) && Lands(step) && Enabled(s, step, budget)
    requires m in s.flights[step.i].chunk.messages
    ensures HeldIn(Next(s, step, budget), step.i, m)
  {
    SameRecord(s.flights[step.i], Next(s, step, budget).flights[step.i]);
  }

  /** What a landing write must leave to a message outside its chunk. */
  ghost predicate Spared(s: State, step: Step, m: Message, budget: nat)
    requires IsWrite(step) && Enabled(s, step, budget)
  {
    && (Overwritten(s, step.i, m) ==> OwnSafe(s, m))
    && (step.WriteOk? && !HeldElsewhere(s, step.i, m) && m.uri in s.store ==>
          forall u :: u in Uris(s.flights[step.i].chunk.messages) ==> !PayloadMatchesUri(s.store[m.uri], u))
  }

  lemma OneChunk(s: State, j: nat, k: nat, m: Message)
    requires Base(s) && j < |s.flights| && k < |s.flights| && m in s.flights[j].chunk.messages
    ensures m in s.flights[k].chunk.messages ==> j == k
  {
  }

  lemma OneRecord(s: State, i: nat, m: Message)
    requires Base(s) && i < |s.flights| && s.flights[i].chunk.messages != []
    requires m in s.accepted && Overwritten(s, i, m)
    ensures !HeldElsewhere(s, i, m)
  {
    var j: nat :| HeldIn(s, j, m) && RecordUri(s.flights[j]) == RecordUri(s.flights[i]);
    forall k: nat | HeldIn(s, k, m) ensures RecordUri(s.flights[k]) == RecordUri(s.flights[i]) {
      OneChunk(s, j, k, m);
    }
  }

  lemma SecureAfterWriteIff(s: State, step: Step, m: Message, budget: nat)
    requires Base(s) && IsWrite(step) && Lands(step) && Enabled(s, step, budget)
    requires m in s.accepted && m !in s.flights[step.i].chunk.messages && Secure(s, m)
    ensures Secure(Next(s, step, budget), m) <==> Spared(s, step, m, budget)
  {
    HeldAfterWrite(s, step, m, budget);
    OwnSafeAfterWrite(s, step, m, budget);
    if Overwritten(s, step.i, m) {
      OneRecord(s, step.i, m);
    }
  }

  lemma StatusKeepsSecure(s: State, step: Step, m: Message, budget: nat)
    requires IsWrite(step) && !Lands(step) && Enabled(s, step, budget) && Secure(s, m)
    ensures Secure(Next(s, step, budget), m)
  {
    var s' := Next(s, step, budget);
    if i: nat :| HeldIn(s, i, m) {
      SameRecord(s.flights[i], s'.flights[i]);
      assert HeldIn(s', i, m);
    } else {
      NamedAfterWrite(s, step, budget);
    }
  }

  lemma ClearIsSpared(s: State, step: Step, budget: nat)
    requires IsWrite(step) && Lands(step) && Enabled(s, step, budget)
    ensures Clear(s, step, budget) <==>
              forall m :: m in s.accepted && m !in s.flights[step.i].chunk.messages ==> Spared(s, step, m, budget)
  {
  }

  lemma WriteKeepsIff(s: State, step: Step, budget: nat)
    requires Base(s) && AllSecure(s) && IsWrite(step) && Enabled(s, step, budget)
    ensures AllSecure(Next(s, step, budget)) <==> Clear(s, step, budget)
  {
    var s' := Next(s, step, budget);
    forall m | m in s.accepted
      ensures Secure(s', m) <==>
                (Lands(step) && m !in s.flights[step.i].chunk.messages ==> Spared(s, step, m, budget)) {
      if !Lands(step) {
        StatusKeepsSecure(s, step, m, budget);
      } else if m in s.flights[step.i].chunk.messages {
        WrittenIsHeld(s, step, m, budget);
      } else {
        SecureAfterWriteIff(s, step, m, budget);
      }
    }
    if Lands(step) {
      ClearIsSpared(s, step, budget);
    }
  }

  // ---- Any step ----

  lemma BufferKeepsSecure(s: State, step: Step, m: Message, budget: nat)
    requires step.Freeze? || step.End? || step.Take? || step.Drop?
    requires Enabled(s, step, budget) && Secure(s, m)
    ensures Secure(Next(s, step, budget), m)
  {
    var s' := Next(s, step, budget);
    if i: nat :| HeldIn(s, i, m) {
      assert s'.flights[i] == s.flights[i];
      assert HeldIn(s', i, m);
    } else {
      assert forall v :: NamedInEvent(s', v) ==> NamedInEvent(s, v);
    }
  }

  /** Whatever the step: all messages stay secure if and only if it is clear. */
  lemma StepKeepsIff(s: State, step: Step, budget: nat)
    requires Base(s) && AllSecure(s) && Enabled(s, step, budget)
    ensures AllSecure(Next(s, step, budget)) <==> Clear(s, step, budget)
  {
    if step.Store? {
      StoreKeepsIff(s, step, budget);
    } else if IsWrite(step) {
      WriteKeepsIff(s, step, budget);
    } else {
      forall m | m in s.accepted ensures Secure(Next(s, step, budget), m) {
        if step.Cleanup? {
          CleanupKeepsSecure(s, step, m, budget);
        } else {
          BufferKeepsSecure(s, step, m, budget);
        }
      }
    }
  }

  // ---- Security is exactly survival of all cleanups ----

  lemma SecureIsHeld(s: State, m: Message)
    requires Secure(s, m)
    ensures Held(s.store, m)
  {
    if i: nat :| HeldIn(s, i, m) {
      var ms := s.flights[i].chunk.messages;
      var k :| 0 <= k < |ms| && ms[k] == m;
      assert Uris(ms)[k] == m.uri && Texts(ms)[k] == m.text;
      JoinContains(Texts(ms), "\n\n", k);
    }
  }

  lemma NamedIsIn(s: State, x: nat, m: Message)
    requires Base(s) && x < |s.flights| && m in s.accepted
    ensures m.uri in Uris(s.flights[x].chunk.messages) ==> m in s.flights[x].chunk.messages
  {
    var ms := s.flights[x].chunk.messages;
    assert s.flights[x] in s.flights;
    forall k | 0 <= k < |ms| && Uris(ms)[k] == m.uri ensures m == ms[k] {
      assert ms[k] in ms;
    }
  }

  /** A message without its own record is held only where it is held in a landed record. */
  lemma NotHeld(s: State, m: Message)
    requires Base(s) && m in s.accepted && forall i: nat :: !HeldIn(s, i, m)
    requires m.uri in s.store ==> s.store[m.uri].content != m.text
    ensures !Held(s.store, m)
  {
    forall u | u in s.store && s.store[u].layer == "merged" ensures m.uri !in s.store[u].metaSourceUris {
      NotNamedBy(s, u, m);
    }
  }

  lemma NotNamedBy(s: State, u: string, m: Message)
    requires Base(s) && m in s.accepted && forall i: nat :: !HeldIn(s, i, m)
    requires u in s.store && s.store[u].layer == "merged"
    ensures m.uri !in s.store[u].metaSourceUris
  {
    var x: nat :| x < |s.flights| && s.flights[x].chunk.messages != []
                  && u == RecordUri(s.flights[x]) && s.store[u] == MergedRecord(s.flights[x]);
    NamedIsIn(s, x, m);
    assert !HeldIn(s, x, m);
  }

  predicate Cleanups(cs: seq<Step>) {
    forall step :: step in cs ==> step.Cleanup?
  }

  ghost predicate HeldAfter(steps: seq<Step>, cs: seq<Step>, m: Message, budget: nat) {
    Held(After(steps + cs, budget).store, m)
  }

  /** Whatever cleanups are delivered next, published ones and as often as one likes, every
      message accepted so far keeps its text. */
  ghost predicate LosesNothing(steps: seq<Step>, budget: nat) {
    forall m, cs :: m in After(steps, budget).accepted && Cleanups(cs) ==> HeldAfter(steps, cs, m, budget)
  }

  lemma {:induction false} SecureUnderCleanups(steps: seq<Step>, cs: seq<Step>, m: Message, budget: nat)
    requires Cleanups(cs) && Secure(After(steps, budget), m)
    ensures Secure(After(steps + cs, budget), m)
    decreases |cs|
  {
    if cs == [] {
      assert steps + cs == steps;
    } else {
      var front, last := cs[..|cs| - 1], cs[|cs| - 1];
      assert last in cs && forall step :: step in front ==> step in cs;
      SecureUnderCleanups(steps, front, m, budget);
      RunBase(steps + front, budget);
      AfterSnoc(steps + front, last, budget);
      assert steps + cs == steps + front + [last];
      if Enabled(After(steps + front, budget), last, budget) {
        CleanupKeepsSecure(After(steps + front, budget), last, m, budget);
      }
    }
  }

  lemma RemovalExposes(s: State, s': State, u: string, m: Message)
    requires Base(s) && Base(s') && m in s.accepted && !Secure(s, m) && NamedInEvent(s, u)
    requires m.uri in s.store && PayloadMatchesUri(s.store[m.uri], u)
    requires s' == s.(store := Remove(s.store, u))
    ensures !Held(s'.store, m)
  {
    forall i: nat ensures !HeldIn(s', i, m) {
      assert !HeldIn(s, i, m);
    }
    NotHeld(s', m);
  }

  /** A message that is not secure is lost already, or by one cleanup that is published. */
  lemma InsecureIsLost(steps: seq<Step>, m: Message, budget: nat) returns (cs: seq<Step>)
    requires m in After(steps, budget).accepted && !Secure(After(steps, budget), m)
    ensures Cleanups(cs) && |cs| <= 1 && !HeldAfter(steps, cs, m, budget)
  {
    var s := After(steps, budget);
    RunBase(steps, budget);
    if m.uri in s.store && s.store[m.uri].content == m.text {
      var u :| NamedInEvent(s, u) && PayloadMatchesUri(s.store[m.uri], u);
      var e :| 0 <= e < |s.events| && u in s.events[e];
      var j :| 0 <= j < |s.events[e]| && s.events[e][j] == u;
      cs := [Cleanup(e, j)];
      RunBase(steps + cs, budget);
      AfterSnoc(steps, Cleanup(e, j), budget);
      RemovalExposes(s, After(steps + cs, budget), u, m);
    } else {
      cs := [];
      assert steps + cs == steps;
      NotHeld(s, m);
    }
  }

  /** After any run: no cleanups can cost a message its text if and only if all are secure. */
  lemma LosesNothingIff(steps: seq<Step>, budget: nat)
    ensures LosesNothing(steps, budget) <==> AllSecure(After(steps, budget))
  {
    if AllSecure(After(steps, budget)) {
      forall m, cs | m in After(steps, budget).accepted && Cleanups(cs) ensures HeldAfter(steps, cs, m, budget) {
        SecureUnderCleanups(steps, cs, m, budget);
        SecureIsHeld(After(steps + cs, budget), m);
      }
    } else {
      var m :| m in After(steps, budget).accepted && !Secure(After(steps, budget), m);
      var cs := InsecureIsLost(steps, m, budget);
    }
  }

  // ---- Whole runs ----

  ghost predicate ClearRun(steps: seq<Step>, budget: nat) {
    steps == []
    || var before, step := steps[..|steps| - 1], steps[|steps| - 1];
       && ClearRun(before, budget)
       && (Enabled(After(before, budget), step, budget) ==> Clear(After(before, budget), step, budget))
  }

  /** At no point of the run can cleanups cost a message its text. */
  ghost predicate LosslessRun(steps: seq<Step>, budget: nat) {
    LosesNothing(steps, budget) && (steps == [] || LosslessRun(steps[..|steps| - 1], budget))
  }

  /** In every run at all, whatever links messages carry, however keys are reused and whichever
      writes fail: nothing is lost at any point if and only if every step is clear. */
  lemma {:induction false} LosslessRunIff(steps: seq<Step>, budget: nat)
    ensures LosslessRun(steps, budget) <==> ClearRun(steps, budget)
  {
    LosesNothingIff(steps, budget);
    if steps != [] {
      var before, step := steps[..|steps| - 1], steps[|steps| - 1];
      LosslessRunIff(before, budget);
      LosesNothingIff(before, budget);
      RunBase(before, budget);
      if LosslessRun(before, budget) && Enabled(After(before, budget), step, budget) {
        StepKeepsIff(After(before, budget), step, budget);
      }
    }
  }

  /** And a step that is not clear loses a message, at once or by a cleanup that is published. */
  lemma UnclearLoses(steps: seq<Step>, step: Step, budget: nat) returns (m: Message, cs: seq<Step>)
    requires LosslessRun(steps, budget) && Enabled(After(steps, budget), step, budget)
    requires !Clear(After(steps, budget), step, budget)
    ensures m in After(steps + [step], budget).accepted && Cleanups(cs) && |cs| <= 1
    ensures !HeldAfter(steps + [step], cs, m, budget)
  {
    LosesNothingIff(steps, budget);
    RunBase(steps, budget);
    StepKeepsIff(After(steps, budget), step, budget);
    AfterSnoc(steps, step, budget);
    m :| m in After(steps + [step], budget).accepted && !Secure(After(steps + [step], budget), m);
    cs := InsecureIsLost(steps + [step], m, budget);
  }

  // ---- Runs without links ----

  lemma LinkFreeSafeIsSecure(s: State, m: Message)
    requires Base(s) && StoreOk(s.store) && m in s.accepted && Safe(s, m)
    ensures Secure(s, m)
  {
    if i: nat :| SafeIn(s, i, m) {
      assert HeldIn(s, i, m);
    } else {
      forall u | NamedInEvent(s, u) ensures !PayloadMatchesUri(s.store[m.uri], u) {
        PublishedIsImmediate(s, u);
        var sc: Scope, hex :| sc.Valid() && IsHex(hex) && u == ImmediateUri(sc, hex);
        RecordMatchesOnlyItself(m.uri, s.store[m.uri], sc, hex);
      }
    }
  }

  /** A clear write hits no earlier merged record whose messages are safe in it. */
  lemma ClearIsUnused(s: State, step: Step, budget: nat)
    requires Base(s) && Protected(s) && IsWrite(step) && Lands(step)
    requires Enabled(s, step, budget) && Clear(s, step, budget)
    ensures UriUnused(s, step.i)
  {
    forall j | 0 <= j < |s.flights| && s.flights[j].status.Written? && s.flights[j].chunk.messages != []
      ensures RecordUri(s.flights[j]) != RecordUri(s.flights[step.i]) {
      var m := s.flights[j].chunk.messages[0];
      assert s.flights[j] in s.flights && MergedInto(s, j, m) && j != step.i;
      if RecordUri(s.flights[j]) == RecordUri(s.flights[step.i]) {
        WrittenIsExposed(s, step.i, j, m);
      }
    }
  }

  /** The message of a written chunk is in its record, and cleanups of its own are published. */
  lemma WrittenIsExposed(s: State, i: nat, j: nat, m: Message)
    requires Base(s) && Protected(s) && i < |s.flights| && s.flights[i].chunk.messages != [] && i != j
    requires MergedInto(s, j, m) && m in s.accepted && RecordUri(s.flights[j]) == RecordUri(s.flights[i])
    ensures m !in s.flights[i].chunk.messages && Overwritten(s, i, m) && !OwnSafe(s, m)
  {
    OwnIsPublished(s, j, m);
    var x: nat :| SafeIn(s, x, m);
    OneChunk(s, x, j, m);
    OneChunk(s, j, i, m);
    assert HeldIn(s, j, m);
  }

  lemma OwnIsPublished(s: State, j: nat, m: Message)
    requires Base(s) && MergedInto(s, j, m)
    ensures NamedInEvent(s, m.uri) && !OwnSafe(s, m)
  {
    var ms := s.flights[j].chunk.messages;
    assert Uris(ms) in s.events;
    var e :| 0 <= e < |s.events| && s.events[e] == Uris(ms);
    var k :| 0 <= k < |ms| && ms[k] == m;
    assert s.events[e][k] == m.uri && m.uri in s.events[e];
    if m.uri in s.store {
      assert LinkFields(s.store[m.uri])[0] == m.uri && Under(m.uri, m.uri);
      assert PayloadMatchesUri(s.store[m.uri], m.uri);
    }
    assert NamedInEvent(s, m.uri);
  }

  /** Without foreign links the condition comes down to merged writes on unused URIs. */
  lemma {:induction false} LinkFreeClearIff(steps: seq<Step>, budget: nat)
    requires LinkFreeRun(steps)
    ensures ClearRun(steps, budget) <==> UnusedRun(steps, budget)
  {
    if steps != [] {
      var before, step := steps[..|steps| - 1], steps[|steps| - 1];
      assert step in steps && forall x :: x in before ==> x in steps;
      LinkFreeClearIff(before, budget);
      if UnusedRun(before, budget) && Enabled(After(before, budget), step, budget) {
        LinkFreeStepIff(before, step, budget);
      }
    }
  }

  lemma LinkFreeStepIff(before: seq<Step>, step: Step, budget: nat)
    requires LinkFreeRun(before) && LinkFree(step) && UnusedRun(before, budget)
    requires Enabled(After(before, budget), step, budget)
    ensures Clear(After(before, budget), step, budget) <==> Unused(After(before, budget), step, budget)
  {
    var s := After(before, budget);
    RunBase(before, budget);
    LinkFreeSecure(before, budget);
    if Unused(s, step, budget) {
      assert (before + [step])[..|before|] == before;
      LinkFreeSecure(before + [step], budget);
      AfterSnoc(before, step, budget);
      StepKeepsIff(s, step, budget);
    } else if Clear(s, step, budget) {
      ClearIsUnused(s, step, budget);
    }
  }

  lemma LinkFreeSecure(steps: seq<Step>, budget: nat)
    requires LinkFreeRun(steps) && UnusedRun(steps, budget)
    ensures Protected(After(steps, budget)) && AllSecure(After(steps, budget))
  {
    var s := After(steps, budget);
    RunBase(steps, budget);
    RunStoreOk(steps, budget);
    ProtectedRunIff(steps, budget);
    forall m | m in s.accepted ensures Secure(s, m) {
      LinkFreeSafeIsSecure(s, m);
    }
  }

  /** Careful runs lose nothing at any point. */
  lemma {:induction false} CarefulRunsAreLossless(steps: seq<Step>, budget: nat)
    requires CarefulRun(steps, budget)
    ensures LosslessRun(steps, budget)
  {
    CarefulIsLinkFree(steps, budget);
    CarefulRunsMeetIt(steps, budget);
    LinkFreeClearIff(steps, budget);
    LosslessRunIff(steps, budget);
  }

  lemma {:induction false} CarefulIsLinkFree(steps: seq<Step>, budget: nat)
    requires CarefulRun(steps, budget)
    ensures LinkFreeRun(steps)
  {
    if steps != [] {
      var before, step := steps[..|steps| - 1], steps[|steps| - 1];
      CarefulIsLinkFree(before, budget);
      assert steps == before + [step];
    }
  }
}
