/** The flows as the source runs them are runs of the pipeline, so that no sequence of turns,
    merge actions, session ends, cleanups and prunings loses a message. */
module SessionSimulation {
  import opened Strings
  import opened Segmentation
  import opened Namespace
  import opened VectorStore
  import opened SessionLog
  import opened SessionBuffer
  import F = SessionFlow
  import opened SessionPipeline
  import opened SessionFacts

  // ---- Runs that go on from a state ----

  function From(s: State, more: seq<Step>, budget: nat): State {
    if more == [] then s
    else
      var before, step := From(s, more[..|more| - 1], budget), more[|more| - 1];
      if Enabled(before, step, budget) then Next(before, step, budget) else before
  }

  lemma {:induction false} AfterFrom(steps: seq<Step>, more: seq<Step>, budget: nat)
    ensures After(steps + more, budget) == From(After(steps, budget), more, budget)
  {
    if more == [] {
      assert steps + more == steps;
    } else {
      AfterFrom(steps, more[..|more| - 1], budget);
      assert (steps + more)[..|steps + more| - 1] == steps + more[..|more| - 1];
    }
  }

  lemma {:induction false} FromJoin(s: State, a: seq<Step>, b: seq<Step>, budget: nat)
    ensures From(s, a + b, budget) == From(From(s, a, budget), b, budget)
  {
    if b == [] {
      assert a + b == a;
    } else {
      FromJoin(s, a, b[..|b| - 1], budget);
      assert (a + b)[..|a + b| - 1] == a + b[..|b| - 1];
    }
  }

  lemma FromOne(s: State, step: Step, budget: nat)
    ensures From(s, [step], budget) == if Enabled(s, step, budget) then Next(s, step, budget) else s
  {
    assert [step][..0] == [];
  }

  /** `more` leads from `s` to `s'`. */
  ghost predicate Leads(s: State, more: seq<Step>, s': State, budget: nat) {
    From(s, more, budget) == s'
  }

  lemma LeadsOn(s: State, a: seq<Step>, t: State, b: seq<Step>, u: State, budget: nat)
    requires Leads(s, a, t, budget) && Leads(t, b, u, budget)
    ensures Leads(s, a + b, u, budget)
  {
    FromJoin(s, a, b, budget);
  }

  lemma LeadsOne(s: State, step: Step, budget: nat) returns (more: seq<Step>, s': State)
    requires Enabled(s, step, budget)
    ensures more == [step] && Leads(s, more, s', budget) && s' == Next(s, step, budget)
  {
    more, s' := [step], Next(s, step, budget);
    FromOne(s, step, budget);
  }

  // ---- What a key sees ----

  function WorldOf(s: State, key: SessionKey): F.World {
    F.World(View(s, key), s.store, s.events)
  }

  /** Only this key's session may differ. */
  ghost predicate Others(s: State, s': State, key: SessionKey) {
    forall k :: k != key ==> View(s', k) == View(s, k)
  }

  /** Nothing was accepted or dropped either. */
  ghost predicate OnlySession(s: State, s': State, key: SessionKey) {
    s'.accepted == s.accepted && s'.dropped == s.dropped && Others(s, s', key)
  }

  ghost predicate NoStores(more: seq<Step>) {
    forall step :: step in more ==> !step.Store?
  }

  predicate InScope(key: SessionKey, project: string) {
    key.collection == "" && ScopeOf(key, project).Valid()
  }

  // ---- Draining ----

  /** One chunk: taken, and written with the given outcome. */
  lemma TakeAndWrite(s: State, key: SessionKey, project: string, outcome: F.Outcome, budget: nat)
    returns (more: seq<Step>, s': State)
    requires InScope(key, project) && View(s, key).pending != [] && View(s, key).pending[0].messages != []
    ensures Leads(s, more, s', budget) && NoStores(more) && OnlySession(s, s', key)
    ensures var c := View(s, key).pending[0];
            var p := F.Record(key, project, c);
            WorldOf(s', key)
            == F.World(Pop(View(s, key)),
                       if outcome == F.Raises(false) then s.store else s.store[p.uri := p],
                       s.events + if outcome.Done? then [Uris(c.messages)] else [])
  {
    var i := |s.flights|;
    var write := if outcome.Done? then WriteOk(i) else WriteRaises(i, outcome.landed);
    var a, t := LeadsOne(s, Step.Take(key, project), budget);
    var b;
    b, s' := LeadsOne(t, write, budget);
    LeadsOn(s, a, t, b, s', budget);
    more := a + b;
    var f := Flight(key, project, View(s, key).pending[0], InFlight);
    SameRecord(f, f.(status := Written));
  }

  /** The rest of a drain that started in `w` and has handled `i` chunks. */
  lemma {:induction false} DrainRun(s: State, key: SessionKey, project: string,
                                    outcomes: seq<F.Outcome>, budget: nat, w: F.World, i: nat)
    returns (more: seq<Step>, s': State)
    requires InScope(key, project) && F.Solid(w.view) && i <= |w.view.pending|
    requires F.FirstRaise(outcomes, i) == i
    requires WorldOf(s, key) == F.DrainedTo(w, key, project, i, i, i)
    ensures Leads(s, more, s', budget) && NoStores(more) && OnlySession(s, s', key)
    ensures WorldOf(s', key) == F.Drained(w, key, project, outcomes)
    decreases |w.view.pending| - i
  {
    if i == |w.view.pending| {
      more, s' := [], s;
    } else {
      F.DrainedNext(w, key, project, i, budget);
      var a, t := TakeAndWrite(s, key, project, F.At(outcomes, i), budget);
      if F.At(outcomes, i).Raises? {
        F.DrainedAt(w, key, project, outcomes, i);
        more, s' := a, t;
      } else {
        var b;
        b, s' := DrainRun(t, key, project, outcomes, budget, w, i + 1);
        LeadsOn(s, a, t, b, s', budget);
        more := a + b;
      }
    }
  }

  /** A drain is a run of takes and writes. */
  lemma DrainIsARun(s: State, key: SessionKey, project: string, outcomes: seq<F.Outcome>, budget: nat)
    returns (more: seq<Step>, s': State)
    requires InScope(key, project) && F.Solid(View(s, key))
    ensures Leads(s, more, s', budget) && NoStores(more) && OnlySession(s, s', key)
    ensures WorldOf(s', key) == F.Drained(WorldOf(s, key), key, project, outcomes)
  {
    F.NothingDrained(WorldOf(s, key), key, project);
    more, s' := DrainRun(s, key, project, outcomes, budget, WorldOf(s, key), 0);
  }

  function Frozen(v: Session, all: bool, budget: nat): Session {
    if all then FreezeAll(v, budget) else FreezeReady(v, budget)
  }

  /** Freezing, ready chunks or all of them; an unknown key has nothing to freeze. */
  lemma FreezeIsARun(s: State, key: SessionKey, all: bool, budget: nat)
    returns (more: seq<Step>, s': State)
    ensures Leads(s, more, s', budget) && NoStores(more) && OnlySession(s, s', key)
    ensures WorldOf(s', key) == WorldOf(s, key).(view := Frozen(View(s, key), all, budget))
  {
    if key in s.sessions {
      more, s' := LeadsOne(s, if all then Step.End(key) else Step.Freeze(key), budget);
    } else {
      more, s' := [], s;
    }
  }

  lemma FrozenSolid(v: Session, all: bool, budget: nat)
    requires F.Solid(v)
    ensures F.Solid(Frozen(v, all, budget))
  {
    F.FreezeAllSolid(v, budget);
    F.FreezeReadySolid(v, budget);
  }

  /** A freeze and a drain: the merge action, and all of a session end but the drop. */
  lemma FreezeAndDrainIsARun(s: State, key: SessionKey, project: string, all: bool,
                             outcomes: seq<F.Outcome>, budget: nat)
    returns (more: seq<Step>, s': State)
    requires InScope(key, project) && F.Solid(View(s, key))
    ensures Leads(s, more, s', budget) && NoStores(more) && OnlySession(s, s', key)
    ensures var v := Frozen(View(s, key), all, budget);
            F.Solid(v) && WorldOf(s', key) == F.Drained(WorldOf(s, key).(view := v), key, project, outcomes)
  {
    FrozenSolid(View(s, key), all, budget);
    var a, t := FreezeIsARun(s, key, all, budget);
    var b;
    b, s' := DrainIsARun(t, key, project, outcomes, budget);
    LeadsOn(s, a, t, b, s', budget);
    more := a + b;
  }

  lemma DropIsARun(s: State, key: SessionKey, budget: nat) returns (more: seq<Step>, s': State)
    ensures Leads(s, more, s', budget) && NoStores(more) && Others(s, s', key)
    ensures WorldOf(s', key) == WorldOf(s, key).(view := EMPTY)
    ensures s'.accepted == s.accepted && s'.dropped == s.dropped + {key}
  {
    more, s' := LeadsOne(s, Step.Drop(key), budget);
  }

  // ---- Cleaning up ----

  lemma {:induction false} CleanUpRun(s: State, e: nat, n: nat, budget: nat)
    returns (more: seq<Step>, s': State)
    requires e < |s.events| && n <= |s.events[e]|
    ensures Leads(s, more, s', budget) && NoStores(more)
    ensures s' == s.(store := F.RemoveAll(s.store, s.events[e][..n]))
  {
    var us := s.events[e];
    if n == 0 {
      more, s' := [], s;
    } else {
      more, s' := CleanUpRun(s, e, n - 1, budget);
      assert us[..n][..n - 1] == us[..n - 1] && us[..n][n - 1] == us[n - 1];
      if us[n - 1] != "" {
        var b, u := LeadsOne(s', Cleanup(e, n - 1), budget);
        LeadsOn(s, more, s', b, u, budget);
        more, s' := more + b, u;
      }
    }
  }

  // ---- Turns ----

  /** One message of a turn, with its fresh id and whatever links its metadata carries. */
  datatype Arrival = Arrival(hex: string, text: string, tools: seq<string>, source: string, tree: string)

  function IncomingOf(key: SessionKey, project: string, a: Arrival): F.Incoming {
    F.Incoming(ImmediateRecord(ScopeOf(key, project), a.hex, a.text, a.source, a.tree), a.tools)
  }

  function TurnOf(key: SessionKey, project: string, turn: seq<Arrival>): (r: seq<F.Incoming>)
    ensures |r| == |turn|
    ensures forall i :: 0 <= i < |r| ==> r[i] == IncomingOf(key, project, turn[i])
  {
    seq(|turn|, i requires 0 <= i < |turn| => IncomingOf(key, project, turn[i]))
  }

  function MessageOf(key: SessionKey, project: string, a: Arrival): Message {
    Message(a.text, ImmediateUri(ScopeOf(key, project), a.hex), a.tools)
  }

  /** The first `n` messages of a turn. */
  function Landed(key: SessionKey, project: string, turn: seq<Arrival>, n: nat): set<Message>
    requires n <= |turn|
  {
    set i | 0 <= i < n :: MessageOf(key, project, turn[i])
  }

  /** Message ids are hexadecimal and new. */
  ghost predicate Fresh(accepted: set<Message>, key: SessionKey, project: string, turn: seq<Arrival>) {
    && (forall i :: 0 <= i < |turn| ==> IsHex(turn[i].hex))
    && (forall i, m :: 0 <= i < |turn| && m in accepted ==> m.uri != MessageOf(key, project, turn[i]).uri)
    && (forall i, j :: 0 <= i < j < |turn| ==>
          MessageOf(key, project, turn[i]).uri != MessageOf(key, project, turn[j]).uri)
  }

  ghost predicate Unlinked(turn: seq<Arrival>) {
    forall a :: a in turn ==> !NamesImmediate(a.source) && !NamesImmediate(a.tree)
  }

  /** What a turn of this key does: it freezes, or stores a message that links nowhere. */
  ghost predicate TurnStep(step: Step, key: SessionKey) {
    step == Step.Freeze(key)
    || (step.Store? && step.key == key
        && !NamesImmediate(step.metaSource) && !NamesImmediate(step.metaTree))
  }

  ghost predicate TurnSteps(more: seq<Step>, key: SessionKey) {
    forall step :: step in more ==> TurnStep(step, key)
  }

  function StoreStep(key: SessionKey, project: string, a: Arrival, appended: bool): Step {
    Step.Store(key, project, a.hex, a.text, a.tools, a.source, a.tree, appended)
  }

  ghost predicate NewTo(accepted: set<Message>, key: SessionKey, project: string, a: Arrival) {
    IsHex(a.hex) && forall m :: m in accepted ==> m.uri != MessageOf(key, project, a).uri
  }

  /** One message stored and appended, and what is ready frozen. */
  ghost predicate Told(s: State, s': State, key: SessionKey, project: string, a: Arrival, budget: nat) {
    var x := IncomingOf(key, project, a);
    && View(s', key) == FreezeReady(Append(View(s, key), F.AsMessage(x)), budget)
    && s'.store == s.store[x.record.uri := x.record] && s'.events == s.events
    && s'.accepted == s.accepted + {MessageOf(key, project, a)} && s'.dropped == s.dropped
    && Others(s, s', key)
  }

  lemma StoreAndFreeze(s: State, key: SessionKey, project: string, a: Arrival, budget: nat)
    returns (more: seq<Step>, s': State)
    requires InScope(key, project) && NewTo(s.accepted, key, project, a)
    ensures more == [StoreStep(key, project, a, true)] + [Step.Freeze(key)] && Leads(s, more, s', budget)
    ensures Told(s, s', key, project, a, budget)
  {
    var a', t := LeadsOne(s, StoreStep(key, project, a, true), budget);
    var b;
    b, s' := LeadsOne(t, Step.Freeze(key), budget);
    LeadsOn(s, a', t, b, s', budget);
    more := a' + b;
  }

  lemma LandedSnoc(accepted: set<Message>, key: SessionKey, project: string, turn: seq<Arrival>, n: nat)
    requires n < |turn|
    ensures accepted + Landed(key, project, turn, n + 1)
            == accepted + Landed(key, project, turn, n) + {MessageOf(key, project, turn[n])}
  {
    assert Landed(key, project, turn, n + 1) == Landed(key, project, turn, n) + {MessageOf(key, project, turn[n])};
  }

  lemma NextIsNew(accepted: set<Message>, key: SessionKey, project: string, turn: seq<Arrival>, n: nat)
    requires Fresh(accepted, key, project, turn) && n < |turn|
    ensures NewTo(accepted + Landed(key, project, turn, n), key, project, turn[n])
  {
  }

  /** The session after `k` messages of the turn, the store and what was accepted after `n`. */
  ghost predicate TurnDone(s: State, s': State, key: SessionKey, project: string, turn: seq<Arrival>,
                           k: nat, n: nat, budget: nat)
    requires k <= |turn| && n <= |turn|
  {
    && View(s', key) == F.TurnView(View(s, key), TurnOf(key, project, turn), k, budget)
    && s'.store == F.WithTurn(s.store, TurnOf(key, project, turn), n) && s'.events == s.events
    && s'.accepted == s.accepted + Landed(key, project, turn, n) && s'.dropped == s.dropped
    && Others(s, s', key)
  }

  lemma StoresLinkNowhere(key: SessionKey, project: string, turn: seq<Arrival>, k: nat)
    requires k < |turn|
    ensures Unlinked(turn) ==>
              && TurnSteps([StoreStep(key, project, turn[k], true)] + [Step.Freeze(key)], key)
              && TurnSteps([StoreStep(key, project, turn[k], false)], key)
  {
    assert turn[k] in turn;
  }

  lemma TurnStepsJoin(a: seq<Step>, b: seq<Step>, key: SessionKey)
    ensures TurnSteps(a, key) && TurnSteps(b, key) ==> TurnSteps(a + b, key)
  {
  }

  lemma TurnViewNext(v: Session, key: SessionKey, project: string, turn: seq<Arrival>, k: nat, budget: nat)
    requires 1 <= k <= |turn|
    ensures FreezeReady(Append(F.TurnView(v, TurnOf(key, project, turn), k - 1, budget),
                               F.AsMessage(IncomingOf(key, project, turn[k - 1]))), budget)
            == F.TurnView(v, TurnOf(key, project, turn), k, budget)
  {
    F.TurnStep(v, TurnOf(key, project, turn), k - 1, budget);
  }

  lemma TurnStoreNext(points: Points, key: SessionKey, project: string, turn: seq<Arrival>, k: nat)
    requires 1 <= k <= |turn|
    ensures var p := IncomingOf(key, project, turn[k - 1]).record;
            F.WithTurn(points, TurnOf(key, project, turn), k)
            == F.WithTurn(points, TurnOf(key, project, turn), k - 1)[p.uri := p]
  {
  }

  lemma TurnNextDone(s: State, t: State, s': State, key: SessionKey, project: string, turn: seq<Arrival>,
                     k: nat, budget: nat)
    requires 1 <= k <= |turn| && TurnDone(s, t, key, project, turn, k - 1, k - 1, budget)
    requires Told(t, s', key, project, turn[k - 1], budget)
    ensures TurnDone(s, s', key, project, turn, k, k, budget)
  {
    TurnViewNext(View(s, key), key, project, turn, k, budget);
    TurnStoreNext(s.store, key, project, turn, k);
    AcceptedNext(s.accepted, t.accepted, key, project, turn, k);
  }

  lemma AcceptedNext(before: set<Message>, accepted: set<Message>, key: SessionKey, project: string,
                     turn: seq<Arrival>, k: nat)
    requires 1 <= k <= |turn| && accepted == before + Landed(key, project, turn, k - 1)
    ensures accepted + {MessageOf(key, project, turn[k - 1])} == before + Landed(key, project, turn, k)
  {
    LandedSnoc(before, key, project, turn, k - 1);
  }

  /** The k-th message of the turn. */
  lemma TurnNext(s: State, t: State, key: SessionKey, project: string, turn: seq<Arrival>, k: nat, budget: nat)
    returns (more: seq<Step>, s': State)
    requires InScope(key, project) && Fresh(s.accepted, key, project, turn) && 1 <= k <= |turn|
    requires TurnDone(s, t, key, project, turn, k - 1, k - 1, budget)
    ensures Leads(t, more, s', budget) && TurnDone(s, s', key, project, turn, k, k, budget)
    ensures Unlinked(turn) ==> TurnSteps(more, key)
  {
    StoresLinkNowhere(key, project, turn, k - 1);
    NextIsNew(s.accepted, key, project, turn, k - 1);
    more, s' := StoreAndFreeze(t, key, project, turn[k - 1], budget);
    TurnNextDone(s, t, s', key, project, turn, k, budget);
  }

  lemma NothingTold(s: State, key: SessionKey, project: string, turn: seq<Arrival>, budget: nat)
    ensures TurnDone(s, s, key, project, turn, 0, 0, budget)
  {
    assert Landed(key, project, turn, 0) == {};
  }

  /** `more` tells the first `k` messages of a turn. */
  ghost predicate Tells(s: State, more: seq<Step>, s': State, key: SessionKey, project: string,
                        turn: seq<Arrival>, k: nat, budget: nat)
    requires k <= |turn|
  {
    && Leads(s, more, s', budget) && TurnDone(s, s', key, project, turn, k, k, budget)
    && (Unlinked(turn) ==> TurnSteps(more, key))
  }

  lemma TellNext(s: State, a: seq<Step>, t: State, key: SessionKey, project: string, turn: seq<Arrival>,
                 k: nat, budget: nat)
    returns (more: seq<Step>, s': State)
    requires InScope(key, project) && Fresh(s.accepted, key, project, turn) && 1 <= k <= |turn|
    requires Tells(s, a, t, key, project, turn, k - 1, budget)
    ensures Tells(s, more, s', key, project, turn, k, budget)
  {
    var b;
    b, s' := TurnNext(s, t, key, project, turn, k, budget);
    LeadsOn(s, a, t, b, s', budget);
    TurnStepsJoin(a, b, key);
    more := a + b;
  }

  lemma {:induction false} TurnRun(s: State, key: SessionKey, project: string, turn: seq<Arrival>,
                                   k: nat, budget: nat)
    returns (more: seq<Step>, s': State)
    requires InScope(key, project) && Fresh(s.accepted, key, project, turn) && k <= |turn|
    ensures Tells(s, more, s', key, project, turn, k, budget)
  {
    if k == 0 {
      more, s' := [], s;
      NothingTold(s, key, project, turn, budget);
    } else {
      more, s' := TurnRun(s, key, project, turn, k - 1, budget);
      more, s' := TellNext(s, more, s', key, project, turn, k, budget);
    }
  }

  /** The message whose write raised after its record landed. */
  lemma TurnLanded(s: State, t: State, key: SessionKey, project: string, turn: seq<Arrival>, k: nat, budget: nat)
    returns (more: seq<Step>, s': State)
    requires InScope(key, project) && Fresh(s.accepted, key, project, turn) && k < |turn|
    requires TurnDone(s, t, key, project, turn, k, k, budget)
    ensures Leads(t, more, s', budget) && TurnDone(s, s', key, project, turn, k, k + 1, budget)
    ensures Unlinked(turn) ==> TurnSteps(more, key)
  {
    StoresLinkNowhere(key, project, turn, k);
    NextIsNew(s.accepted, key, project, turn, k);
    more, s' := LeadsOne(t, StoreStep(key, project, turn[k], false), budget);
    LandedSnoc(s.accepted, key, project, turn, k);
  }

  /** How many records of a turn reach the store. */
  function TurnLands(turn: seq<Arrival>, outcomes: seq<F.Outcome>): (n: nat)
    ensures n <= |turn|
  {
    var k := F.FirstRaise(outcomes, |turn|);
    if k < |turn| && F.At(outcomes, k).landed then k + 1 else k
  }

  lemma TurnWhole(s: State, key: SessionKey, project: string, turn: seq<Arrival>,
                   outcomes: seq<F.Outcome>, budget: nat)
    returns (more: seq<Step>, s': State)
    requires InScope(key, project) && Fresh(s.accepted, key, project, turn)
    ensures Leads(s, more, s', budget)
    ensures TurnDone(s, s', key, project, turn, F.FirstRaise(outcomes, |turn|), TurnLands(turn, outcomes), budget)
    ensures Unlinked(turn) ==> TurnSteps(more, key)
  {
    var k := F.FirstRaise(outcomes, |turn|);
    more, s' := TurnRun(s, key, project, turn, k, budget);
    if k < |turn| && F.At(outcomes, k).landed {
      var b, u := TurnLanded(s, s', key, project, turn, k, budget);
      LeadsOn(s, more, s', b, u, budget);
      TurnStepsJoin(more, b, key);
      more, s' := more + b, u;
    }
  }

  lemma ToldFields(w: F.World, turn: seq<F.Incoming>, outcomes: seq<F.Outcome>, budget: nat)
    ensures var told, k := F.Told(w, turn, outcomes, budget), F.FirstRaise(outcomes, |turn|);
            && told.events == w.events && told.view == F.TurnView(w.view, turn, k, budget)
            && told.points == F.WithTurn(w.points, turn,
                                         if k < |turn| && F.At(outcomes, k).landed then k + 1 else k)
  {
  }

  lemma WholeIsTold(s: State, s': State, key: SessionKey, project: string, turn: seq<Arrival>,
                    outcomes: seq<F.Outcome>, budget: nat)
    requires TurnDone(s, s', key, project, turn, F.FirstRaise(outcomes, |turn|), TurnLands(turn, outcomes), budget)
    ensures WorldOf(s', key) == F.Told(WorldOf(s, key), TurnOf(key, project, turn), outcomes, budget)
  {
    ToldFields(WorldOf(s, key), TurnOf(key, project, turn), outcomes, budget);
  }

  /** A turn is a run of stores and freezes. */
  lemma TurnIsARun(s: State, key: SessionKey, project: string, turn: seq<Arrival>,
                   outcomes: seq<F.Outcome>, budget: nat)
    returns (more: seq<Step>, s': State)
    requires InScope(key, project) && Fresh(s.accepted, key, project, turn)
    ensures Leads(s, more, s', budget) && Others(s, s', key) && s'.dropped == s.dropped
    ensures WorldOf(s', key) == F.Told(WorldOf(s, key), TurnOf(key, project, turn), outcomes, budget)
    ensures s'.accepted == s.accepted + Landed(key, project, turn, TurnLands(turn, outcomes))
    ensures Unlinked(turn) ==> TurnSteps(more, key)
  {
    more, s' := TurnWhole(s, key, project, turn, outcomes, budget);
    WholeIsTold(s, s', key, project, turn, outcomes, budget);
  }

  // ---- Sequences of calls ----

  /** A call of the session manager, or a cleanup event delivered: early, late or again. */
  datatype Call =
    | Turn(key: SessionKey, project: string, turn: seq<Arrival>, outcomes: seq<F.Outcome>)
    | Merge(key: SessionKey, project: string, outcomes: seq<F.Outcome>)
    | End(key: SessionKey, project: string, outcomes: seq<F.Outcome>)
    | CleanUp(e: nat)
    | Prune(key: SessionKey)

  /** What the calls act on, with the messages whose records landed and the keys dropped. */
  datatype Site = Site(
    views: map<SessionKey, Session>,
    points: Points,
    events: seq<seq<string>>,
    accepted: set<Message>,
    dropped: set<SessionKey>)

  const QUIET := Site(map[], map[], [], {}, {})

  function Seen(f: Site, key: SessionKey): F.World {
    F.World(if key in f.views then f.views[key] else EMPTY, f.points, f.events)
  }

  function With(f: Site, key: SessionKey, w: F.World): Site {
    f.(views := f.views[key := w.view], points := w.points, events := w.events)
  }

  ghost predicate SolidSite(f: Site) {
    forall key :: key in f.views ==> F.Solid(f.views[key])
  }

  /** Ids are slugs, message ids are new, only published events are cleaned up. */
  ghost predicate CallOk(f: Site, call: Call) {
    match call
    case Turn(key, project, turn, _) => InScope(key, project) && Fresh(f.accepted, key, project, turn)
    case Merge(key, project, _) => InScope(key, project)
    case End(key, project, _) => InScope(key, project)
    case CleanUp(e) => e < |f.events|
    case Prune(_) => true
  }

  /** What the contracts of the flows say of one call. */
  ghost function Perform(f: Site, call: Call, budget: nat): Site
    requires SolidSite(f) && CallOk(f, call)
  {
    match call
    case Turn(key, project, turn, outcomes) =>
      With(f, key, F.Told(Seen(f, key), TurnOf(key, project, turn), outcomes, budget))
        .(accepted := f.accepted + Landed(key, project, turn, TurnLands(turn, outcomes)))
    case Merge(key, project, outcomes) =>
      With(f, key, Merged(Seen(f, key), key, project, false, outcomes, budget))
    case End(key, project, outcomes) =>
      var w := Merged(Seen(f, key), key, project, true, outcomes, budget);
      if EndRaises(Seen(f, key), outcomes, budget) then With(f, key, w)
      else With(f, key, w.(view := EMPTY)).(dropped := f.dropped + {key})
    case CleanUp(e) => f.(points := F.RemoveAll(f.points, f.events[e]))
    case Prune(key) => With(f, key, Seen(f, key).(view := EMPTY)).(dropped := f.dropped + {key})
  }

  /** A freeze and the drain after it. */
  ghost function Merged(w: F.World, key: SessionKey, project: string, all: bool,
                        outcomes: seq<F.Outcome>, budget: nat): F.World
    requires F.Solid(w.view)
  {
    FrozenSolid(w.view, all, budget);
    F.Drained(w.(view := Frozen(w.view, all, budget)), key, project, outcomes)
  }

  /** Whether a write of the session end raises. */
  function EndRaises(w: F.World, outcomes: seq<F.Outcome>, budget: nat): bool {
    var v := FreezeAll(w.view, budget);
    F.DrainStop(v, outcomes) < |v.pending|
  }

  /** The pipeline and the site show the same. */
  ghost predicate Mirrors(s: State, f: Site) {
    && (forall key :: WorldOf(s, key) == Seen(f, key))
    && s.accepted == f.accepted && s.dropped == f.dropped
  }

  ghost predicate CarefulCall(f: Site, call: Call) {
    call.Turn? ==> call.key !in f.dropped && Unlinked(call.turn)
  }

  /** What the pipeline does for one call; all of it careful if the call is. */
  ghost predicate CarefulSteps(f: Site, call: Call, more: seq<Step>) {
    NoStores(more) || (call.Turn? && (CarefulCall(f, call) ==> TurnSteps(more, call.key)))
  }

  lemma {:induction false} TurnViewSolid(v: Session, turn: seq<F.Incoming>, k: nat, budget: nat)
    requires F.Solid(v) && k <= |turn|
    ensures F.Solid(F.TurnView(v, turn, k, budget))
  {
    if k > 0 {
      F.FreezeReadySolid(v.(active := v.active + F.AsMessages(turn[..k])), budget);
    }
  }

  lemma MergedSolid(w: F.World, key: SessionKey, project: string, all: bool,
                    outcomes: seq<F.Outcome>, budget: nat)
    requires F.Solid(w.view)
    ensures F.Solid(Merged(w, key, project, all, outcomes, budget).view)
  {
    FrozenSolid(w.view, all, budget);
  }

  lemma PerformSolid(f: Site, call: Call, budget: nat)
    requires SolidSite(f) && CallOk(f, call)
    ensures SolidSite(Perform(f, call, budget))
  {
    match call
    case Turn(key, project, turn, outcomes) =>
      var k := F.FirstRaise(outcomes, |turn|);
      TurnViewSolid(Seen(f, key).view, TurnOf(key, project, turn), k, budget);
    case Merge(key, project, outcomes) => MergedSolid(Seen(f, key), key, project, false, outcomes, budget);
    case End(key, project, outcomes) => MergedSolid(Seen(f, key), key, project, true, outcomes, budget);
    case CleanUp(_) =>
    case Prune(_) =>
  }

  /** Only one key's view changed, and it is the new one. */
  lemma MirrorsWith(s: State, f: Site, s': State, key: SessionKey, f': Site)
    requires Mirrors(s, f) && Others(s, s', key)
    requires f'.views == f.views[key := View(s', key)] && f'.points == s'.store && f'.events == s'.events
    requires f'.accepted == s'.accepted && f'.dropped == s'.dropped
    ensures Mirrors(s', f')
  {
    forall k ensures WorldOf(s', k) == Seen(f', k) {
      assert WorldOf(s, k) == Seen(f, k);
    }
  }

  lemma TurnMirrors(s: State, f: Site, call: Call, budget: nat) returns (more: seq<Step>, s': State)
    requires Mirrors(s, f) && SolidSite(f) && CallOk(f, call) && call.Turn?
    ensures Leads(s, more, s', budget) && Mirrors(s', Perform(f, call, budget)) && CarefulSteps(f, call, more)
  {
    var key := call.key;
    assert WorldOf(s, key) == Seen(f, key);
    more, s' := TurnIsARun(s, key, call.project, call.turn, call.outcomes, budget);
    MirrorsWith(s, f, s', key, Perform(f, call, budget));
  }

  lemma MergeMirrors(s: State, f: Site, call: Call, budget: nat) returns (more: seq<Step>, s': State)
    requires Mirrors(s, f) && SolidSite(f) && CallOk(f, call) && call.Merge?
    ensures Leads(s, more, s', budget) && Mirrors(s', Perform(f, call, budget)) && CarefulSteps(f, call, more)
  {
    var key := call.key;
    assert WorldOf(s, key) == Seen(f, key);
    more, s' := FreezeAndDrainIsARun(s, key, call.project, false, call.outcomes, budget);
    MirrorsWith(s, f, s', key, Perform(f, call, budget));
  }

  lemma EndMirrors(s: State, f: Site, call: Call, budget: nat) returns (more: seq<Step>, s': State)
    requires Mirrors(s, f) && SolidSite(f) && CallOk(f, call) && call.End?
    ensures Leads(s, more, s', budget) && Mirrors(s', Perform(f, call, budget)) && CarefulSteps(f, call, more)
  {
    var key := call.key;
    assert WorldOf(s, key) == Seen(f, key);
    more, s' := FreezeAndDrainIsARun(s, key, call.project, true, call.outcomes, budget);
    if !EndRaises(Seen(f, key), call.outcomes, budget) {
      var b, u := DropIsARun(s', key, budget);
      LeadsOn(s, more, s', b, u, budget);
      more, s' := more + b, u;
    }
    MirrorsWith(s, f, s', key, Perform(f, call, budget));
  }

  lemma RestMirrors(s: State, f: Site, call: Call, budget: nat) returns (more: seq<Step>, s': State)
    requires Mirrors(s, f) && SolidSite(f) && CallOk(f, call) && (call.CleanUp? || call.Prune?)
    ensures Leads(s, more, s', budget) && Mirrors(s', Perform(f, call, budget)) && CarefulSteps(f, call, more)
  {
    var f' := Perform(f, call, budget);
    assert WorldOf(s, SessionKey("", "", "", "")) == Seen(f, SessionKey("", "", "", ""));
    match call
    case CleanUp(e) =>
      more, s' := CleanUpRun(s, e, |s.events[e]|, budget);
      assert s.events[e][..|s.events[e]|] == s.events[e];
      forall k ensures WorldOf(s', k) == Seen(f', k) {
        assert WorldOf(s, k) == Seen(f, k);
      }
    case Prune(key) =>
      more, s' := DropIsARun(s, key, budget);
      MirrorsWith(s, f, s', key, f');
  }

  /** Every call is a run of the pipeline. */
  lemma CallIsARun(s: State, f: Site, call: Call, budget: nat) returns (more: seq<Step>, s': State)
    requires Mirrors(s, f) && SolidSite(f) && CallOk(f, call)
    ensures Leads(s, more, s', budget) && Mirrors(s', Perform(f, call, budget)) && CarefulSteps(f, call, more)
  {
    match call
    case Turn(_, _, _, _) => more, s' := TurnMirrors(s, f, call, budget);
    case Merge(_, _, _) => more, s' := MergeMirrors(s, f, call, budget);
    case End(_, _, _) => more, s' := EndMirrors(s, f, call, budget);
    case CleanUp(_) => more, s' := RestMirrors(s, f, call, budget);
    case Prune(_) => more, s' := RestMirrors(s, f, call, budget);
  }

  /** Where a sequence of calls leads; a call that cannot happen is skipped. */
  ghost function AfterCalls(calls: seq<Call>, budget: nat): (f: Site)
    ensures SolidSite(f)
  {
    if calls == [] then QUIET
    else
      var f, call := AfterCalls(calls[..|calls| - 1], budget), calls[|calls| - 1];
      if CallOk(f, call) then
        PerformSolid(f, call, budget);
        Perform(f, call, budget)
      else f
  }

  /** No turn on a key whose state was dropped, no links into immediate records. */
  ghost predicate CarefulCalls(calls: seq<Call>, budget: nat) {
    calls == []
    || var before := calls[..|calls| - 1];
       CarefulCalls(before, budget) && CarefulCall(AfterCalls(before, budget), calls[|calls| - 1])
  }

  lemma {:induction false} NoStoresCareful(steps: seq<Step>, more: seq<Step>, budget: nat)
    requires CarefulRun(steps, budget) && NoStores(more)
    ensures CarefulRun(steps + more, budget)
    decreases |more|
  {
    if more == [] {
      assert steps + more == steps;
    } else {
      var front := more[..|more| - 1];
      assert forall step :: step in front ==> step in more;
      NoStoresCareful(steps, front, budget);
      assert (steps + more)[..|steps + more| - 1] == steps + front;
      assert more[|more| - 1] in more;
    }
  }

  lemma {:induction false} TurnStepsCareful(steps: seq<Step>, more: seq<Step>, key: SessionKey, budget: nat)
    requires CarefulRun(steps, budget) && TurnSteps(more, key) && key !in After(steps, budget).dropped
    ensures CarefulRun(steps + more, budget) && key !in After(steps + more, budget).dropped
    decreases |more|
  {
    if more == [] {
      assert steps + more == steps;
    } else {
      var front := more[..|more| - 1];
      assert forall step :: step in front ==> step in more;
      TurnStepsCareful(steps, front, key, budget);
      assert (steps + more)[..|steps + more| - 1] == steps + front;
      assert more[|more| - 1] in more;
      TurnStepCareful(After(steps + front, budget), more[|more| - 1], key, budget);
    }
  }

  lemma TurnStepCareful(s: State, step: Step, key: SessionKey, budget: nat)
    requires TurnStep(step, key) && key !in s.dropped
    ensures Careful(s, step)
    ensures Enabled(s, step, budget) ==> key !in Next(s, step, budget).dropped
  {
  }

  /** Every sequence of calls is a run of the pipeline, a careful one if the calls are. */
  lemma {:induction false} CallsAreARun(calls: seq<Call>, budget: nat) returns (steps: seq<Step>)
    ensures Mirrors(After(steps, budget), AfterCalls(calls, budget))
    ensures CarefulCalls(calls, budget) ==> CarefulRun(steps, budget)
  {
    if calls == [] {
      steps := [];
    } else {
      var before, call := calls[..|calls| - 1], calls[|calls| - 1];
      steps := CallsAreARun(before, budget);
      var f := AfterCalls(before, budget);
      if CallOk(f, call) {
        var more, s' := CallIsARun(After(steps, budget), f, call, budget);
        AfterFrom(steps, more, budget);
        if CarefulCalls(calls, budget) {
          if NoStores(more) {
            NoStoresCareful(steps, more, budget);
          } else {
            TurnStepsCareful(steps, more, call.key, budget);
          }
        }
        steps := steps + more;
      }
    }
  }

  /** So no sequence of careful calls, with any writes failing, any keys interleaved and
      cleanups delivered at any time and repeatedly, loses a message. */
  lemma NoCallLosesAMessage(calls: seq<Call>, budget: nat, m: Message)
    requires CarefulCalls(calls, budget) && m in AfterCalls(calls, budget).accepted
    ensures Held(AfterCalls(calls, budget).points, m)
  {
    var steps := CallsAreARun(calls, budget);
    NoMessageLost(steps, budget, m);
    var key := SessionKey("", "", "", "");
    assert WorldOf(After(steps, budget), key) == Seen(AfterCalls(calls, budget), key);
  }

  // ---- The calls themselves ----

  ghost predicate Shows(flow: F.SessionFlow, f: Site)
    reads flow, flow.buffer, flow.store
  {
    flow.buffer.Valid() && forall key :: flow.Now(key) == Seen(f, key)
  }

  lemma ShowsSolid(flow: F.SessionFlow, f: Site, key: SessionKey)
    requires Shows(flow, f)
    ensures flow.Now(key) == Seen(f, key) && F.Solid(Seen(f, key).view)
    ensures forall k :: flow.buffer.View(k) == Seen(f, k).view
  {
    forall k ensures flow.buffer.View(k) == Seen(f, k).view {
      assert flow.Now(k) == Seen(f, k);
    }
    F.PendingNonEmpty(flow.buffer, key);
  }

  /** Only one key's view changed, and it is the new one. */
  lemma ShowsWith(flow: F.SessionFlow, f: Site, key: SessionKey, f': Site)
    requires flow.buffer.Valid() && forall k :: k != key ==> flow.buffer.View(k) == Seen(f, k).view
    requires f'.views == f.views[key := flow.buffer.View(key)]
    requires f'.points == flow.store.points && f'.events == flow.events
    ensures Shows(flow, f')
  {
  }

  method PlayTurn(flow: F.SessionFlow, call: Call, ghost f: Site)
    requires Shows(flow, f) && SolidSite(f) && CallOk(f, call) && call.Turn?
    modifies flow, flow.buffer, flow.store
    ensures Shows(flow, Perform(f, call, flow.buffer.mergeTokenBudget))
  {
    ShowsSolid(flow, f, call.key);
    var turn := TurnOf(call.key, call.project, call.turn);
    var stored, asked := flow.StoreTurn(call.key, turn, call.outcomes);
    ShowsWith(flow, f, call.key, Perform(f, call, flow.buffer.mergeTokenBudget));
  }

  method PlayMerge(flow: F.SessionFlow, call: Call, ghost f: Site)
    requires Shows(flow, f) && SolidSite(f) && CallOk(f, call) && call.Merge?
    modifies flow, flow.buffer, flow.store
    ensures Shows(flow, Perform(f, call, flow.buffer.mergeTokenBudget))
  {
    ShowsSolid(flow, f, call.key);
    var _ := flow.MergeAction(call.key, call.project, call.outcomes);
    ShowsWith(flow, f, call.key, Perform(f, call, flow.buffer.mergeTokenBudget));
  }

  method PlayEnd(flow: F.SessionFlow, call: Call, ghost f: Site)
    requires Shows(flow, f) && SolidSite(f) && CallOk(f, call) && call.End?
    modifies flow, flow.buffer, flow.store
    ensures Shows(flow, Perform(f, call, flow.buffer.mergeTokenBudget))
  {
    ShowsSolid(flow, f, call.key);
    var _ := flow.End(call.key, call.project, call.outcomes);
    ShowsWith(flow, f, call.key, Perform(f, call, flow.buffer.mergeTokenBudget));
  }

  method PlayPrune(flow: F.SessionFlow, call: Call, ghost f: Site)
    requires Shows(flow, f) && SolidSite(f) && CallOk(f, call) && call.Prune?
    modifies flow, flow.buffer, flow.store
    ensures Shows(flow, Perform(f, call, flow.buffer.mergeTokenBudget))
  {
    ShowsSolid(flow, f, call.key);
    flow.buffer.Drop(call.key);
    ShowsWith(flow, f, call.key, Perform(f, call, flow.buffer.mergeTokenBudget));
  }

  method PlayCleanUp(flow: F.SessionFlow, e: nat, scroll: Points -> seq<seq<string>>, ghost f: Site)
    requires Shows(flow, f) && e < |f.events|
    requires forall p: Points :: scroll(p) != [] && Listed(scroll(p), |scroll(p)|) == p.Keys
    modifies flow.store
    ensures Shows(flow, f.(points := F.RemoveAll(f.points, f.events[e])))
  {
    ShowsSolid(flow, f, SessionKey("", "", "", ""));
    flow.CleanUp(flow.events[e], scroll);
    forall key ensures flow.Now(key) == Seen(f, key).(points := F.RemoveAll(f.points, f.events[e])) {
      assert flow.buffer.View(key) == old(flow.Now(key)).view;
    }
  }

  /** Each call on the objects does to them what `Perform` says. `scroll` is how the server
      pages a listing. */
  method Play(flow: F.SessionFlow, call: Call, scroll: Points -> seq<seq<string>>, ghost f: Site)
    requires Shows(flow, f) && SolidSite(f) && CallOk(f, call)
    requires forall p: Points :: scroll(p) != [] && Listed(scroll(p), |scroll(p)|) == p.Keys
    modifies flow, flow.buffer, flow.store
    ensures Shows(flow, Perform(f, call, flow.buffer.mergeTokenBudget))
  {
    match call
    case Turn(_, _, _, _) => PlayTurn(flow, call, f);
    case Merge(_, _, _) => PlayMerge(flow, call, f);
    case End(_, _, _) => PlayEnd(flow, call, f);
    case CleanUp(e) => PlayCleanUp(flow, e, scroll, f);
    case Prune(_) => PlayPrune(flow, call, f);
  }

  /** Every call can happen when its turn comes. */
  ghost predicate CallsOk(calls: seq<Call>, budget: nat) {
    calls == []
    || var before := calls[..|calls| - 1];
       CallsOk(before, budget) && CallOk(AfterCalls(before, budget), calls[|calls| - 1])
  }

  lemma {:induction false} FirstCallsOk(calls: seq<Call>, n: nat, budget: nat)
    requires CallsOk(calls, budget) && n <= |calls|
    ensures CallsOk(calls[..n], budget)
  {
    if n == |calls| {
      assert calls[..n] == calls;
    } else {
      FirstCallsOk(calls[..|calls| - 1], n, budget);
      assert calls[..|calls| - 1][..n] == calls[..n];
    }
  }

  lemma CallComes(calls: seq<Call>, i: nat, budget: nat)
    requires CallsOk(calls, budget) && i < |calls|
    ensures CallOk(AfterCalls(calls[..i], budget), calls[i])
    ensures AfterCalls(calls[..i + 1], budget) == Perform(AfterCalls(calls[..i], budget), calls[i], budget)
  {
    FirstCallsOk(calls, i + 1, budget);
    assert calls[..i + 1][..i] == calls[..i];
  }

  lemma ShownIsHeld(flow: F.SessionFlow, calls: seq<Call>)
    requires Shows(flow, AfterCalls(calls, flow.buffer.mergeTokenBudget))
    ensures CarefulCalls(calls, flow.buffer.mergeTokenBudget) ==>
              forall m :: m in AfterCalls(calls, flow.buffer.mergeTokenBudget).accepted ==>
                Held(flow.store.points, m)
  {
    var f := AfterCalls(calls, flow.buffer.mergeTokenBudget);
    ShowsSolid(flow, f, SessionKey("", "", "", ""));
    if CarefulCalls(calls, flow.buffer.mergeTokenBudget) {
      forall m | m in f.accepted ensures Held(flow.store.points, m) {
        NoCallLosesAMessage(calls, flow.buffer.mergeTokenBudget, m);
      }
    }
  }

  /** A session manager that serves careful calls one after the other, from a quiet start,
      holds every message whose record ever landed. */
  method PlayAll(flow: F.SessionFlow, calls: seq<Call>, scroll: Points -> seq<seq<string>>)
    requires Shows(flow, QUIET) && CallsOk(calls, flow.buffer.mergeTokenBudget)
    requires forall p: Points :: scroll(p) != [] && Listed(scroll(p), |scroll(p)|) == p.Keys
    modifies flow, flow.buffer, flow.store
    ensures Shows(flow, AfterCalls(calls, flow.buffer.mergeTokenBudget))
    ensures CarefulCalls(calls, flow.buffer.mergeTokenBudget) ==>
              forall m :: m in AfterCalls(calls, flow.buffer.mergeTokenBudget).accepted ==>
                Held(flow.store.points, m)
  {
    for i := 0 to |calls|
      invariant Shows(flow, AfterCalls(calls[..i], flow.buffer.mergeTokenBudget))
    {
      CallComes(calls, i, flow.buffer.mergeTokenBudget);
      Play(flow, calls[i], scroll, AfterCalls(calls[..i], flow.buffer.mergeTokenBudget));
    }
    assert calls[..|calls|] == calls;
    ShownIsHeld(flow, calls);
  }
}
