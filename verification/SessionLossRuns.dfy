/** Two concrete runs that lose a message, one for each way to break the guarantee. */
module SessionLossRuns {
  import opened Strings
  import opened Segmentation
  import opened Namespace
  import opened VectorStore
  import opened SessionLog
  import opened SessionBuffer
  import opened SessionPipeline
  import opened SessionFacts
  import opened SessionHazards

  const KEY := SessionKey("", "t", "u", "s")

  function Hex(c: char): string
    requires c != '/'
    ensures IsHex(Hex(c))
  {
    seq(32, _ => c)
  }

  function Uri(c: char): string
    requires c != '/'
  {
    ImmediateUri(ScopeOf(KEY, "p"), Hex(c))
  }

  /** Store one message, end the session, merge it. */
  function StoreAndMerge(): seq<Step> {
    [Step.Store(KEY, "p", Hex('a'), "x", [], "", "", true), End(KEY), Step.Take(KEY, "p"), WriteOk(0)]
  }

  function FirstMessage(): Message {
    Message("x", Uri('a'), [])
  }

  lemma OneMessageChunk(m: Message, budget: nat)
    ensures var v := FreezeAll(Session([], [m], 0), budget);
            v == Session([Chunk(0, [m])], [], 1)
  {
    var v0 := Session([], [m], 0);
    assert [m][..1] == [m] && [m][1..] == [];
    assert FreezeOne(v0, budget) == Session([Chunk(0, [m])], [], 1);
  }

  /** Storing, ending and taking one message, from any state where the key is empty. */
  lemma OneMessageTaken(steps: seq<Step>, c: char, text: string, source: string, budget: nat)
    requires c != '/'
    requires View(After(steps, budget), KEY) == EMPTY
    requires forall m :: m in After(steps, budget).accepted ==> m.uri != Uri(c)
    ensures var s := After(steps, budget);
            var m := Message(text, Uri(c), []);
            var store := Step.Store(KEY, "p", Hex(c), text, [], source, "", true);
            var s' := After(steps + [store] + [End(KEY)] + [Step.Take(KEY, "p")], budget);
            && View(s', KEY) == Session([], [], 1) && KEY in s'.sessions
            && s'.flights == s.flights + [Flight(KEY, "p", Chunk(0, [m]), InFlight)]
            && s'.events == s.events && m in s'.accepted && s'.accepted == s.accepted + {m}
  {
    var s := After(steps, budget);
    var store := Step.Store(KEY, "p", Hex(c), text, [], source, "", true);
    var m := Message(text, Uri(c), []);
    AfterSnoc(steps, store, budget);
    AfterSnoc(steps + [store], End(KEY), budget);
    AfterSnoc(steps + [store] + [End(KEY)], Step.Take(KEY, "p"), budget);
    assert Append(EMPTY, m) == Session([], [m], 0);
    OneMessageChunk(m, budget);
  }

  lemma MergedOnce(budget: nat)
    ensures var s := After(StoreAndMerge(), budget);
            && s.flights == [Flight(KEY, "p", Chunk(0, [FirstMessage()]), Written)]
            && s.events == [[Uri('a')]] && s.accepted == {FirstMessage()}
            && KEY in s.sessions && s.sessions[KEY] == Session([], [], 1)
  {
    var store := Step.Store(KEY, "p", Hex('a'), "x", [], "", "", true);
    OneMessageTaken([], 'a', "x", "", budget);
    var taken := [] + [store] + [End(KEY)] + [Step.Take(KEY, "p")];
    AfterSnoc(taken, WriteOk(0), budget);
    assert StoreAndMerge() == taken + [WriteOk(0)];
    assert Uris([FirstMessage()]) == [Uri('a')];
  }

  lemma UrisDiffer()
    ensures Uri('a') != Uri('b')
  {
    assert Hex('a')[0] != Hex('b')[0];
    if Uri('a') == Uri('b') {
      ImmediateUriInjective(ScopeOf(KEY, "p"), Hex('a'), ScopeOf(KEY, "p"), Hex('b'));
    }
  }

  /** The key is dropped and used again, up to the second merge write. */
  function Reused(): seq<Step> {
    var store := Step.Store(KEY, "p", Hex('b'), "y", [], "", "", true);
    StoreAndMerge() + [Step.Drop(KEY)] + [store] + [End(KEY)] + [Step.Take(KEY, "p")]
  }

  lemma ReusedState(budget: nat)
    ensures var s := After(Reused(), budget);
            && s.flights == [Flight(KEY, "p", Chunk(0, [FirstMessage()]), Written),
                             Flight(KEY, "p", Chunk(0, [Message("y", Uri('b'), [])]), InFlight)]
            && s.events == [[Uri('a')]] && FirstMessage() in s.accepted
  {
    MergedOnce(budget);
    UrisDiffer();
    AfterSnoc(StoreAndMerge(), Step.Drop(KEY), budget);
    OneMessageTaken(StoreAndMerge() + [Step.Drop(KEY)], 'b', "y", "", budget);
  }

  /** Reuse a dropped key and the first message of its first life is lost, whether the second
      write succeeds or raises after its record landed. */
  lemma ReuseLosesAMessage(raises: bool, budget: nat)
    ensures var write := if raises then WriteRaises(1, true) else WriteOk(1);
            var s := After(Reused() + [write, Cleanup(0, 0)], budget);
            FirstMessage() in s.accepted && !Held(s.store, FirstMessage())
  {
    var write := if raises then WriteRaises(1, true) else WriteOk(1);
    ReusedState(budget);
    assert Uris([FirstMessage()]) == [Uri('a')];
    OverwriteThenCleanupLoses(Reused(), write, 0, 0, 0, budget);
    ReusedKeepsAccepted(write, budget);
  }

  lemma ReusedKeepsAccepted(write: Step, budget: nat)
    requires IsWrite(write)
    ensures After(Reused() + [write, Cleanup(0, 0)], budget).accepted == After(Reused(), budget).accepted
  {
    AfterSnoc(Reused(), write, budget);
    AfterSnoc(Reused() + [write], Cleanup(0, 0), budget);
    assert Reused() + [write, Cleanup(0, 0)] == Reused() + [write] + [Cleanup(0, 0)];
  }

  function ForgedMessage(): Message {
    Message("y", Uri('b'), [])
  }

  /** A later message of the same session whose metadata names the first one as its source. */
  function Forged(): seq<Step> {
    StoreAndMerge() + [Step.Store(KEY, "p", Hex('b'), "y", [], Uri('a'), "", true)]
  }

  lemma ForgedState(budget: nat)
    ensures var s := After(Forged(), budget);
            && ForgedMessage() in s.accepted && s.events == [[Uri('a')]]
            && Uri('b') in s.store && s.store[Uri('b')].metaSourceUri == Uri('a')
            && s.flights == [Flight(KEY, "p", Chunk(0, [FirstMessage()]), Written)]
            && s.dropped == After(StoreAndMerge(), budget).dropped
  {
    MergedOnce(budget);
    UrisDiffer();
    AfterSnoc(StoreAndMerge(), Step.Store(KEY, "p", Hex('b'), "y", [], Uri('a'), "", true), budget);
  }

  /** It goes with the cleanup of the message it names. */
  lemma ForgedLinkLosesAMessage(budget: nat)
    ensures var s := After(Forged() + [Cleanup(0, 0)], budget);
            ForgedMessage() in s.accepted && !Held(s.store, ForgedMessage())
  {
    ForgedState(budget);
    UrisDiffer();
    var steps := Forged() + [Cleanup(0, 0)];
    AfterSnoc(Forged(), Cleanup(0, 0), budget);
    RunAlways(steps, budget);
    ForgedIsRemoved(After(Forged(), budget));
    ForgedIsNotHeld(After(steps, budget));
  }

  lemma ForgedIsRemoved(s: State)
    requires Uri('b') in s.store && s.store[Uri('b')].metaSourceUri == Uri('a')
    ensures Uri('b') !in Remove(s.store, Uri('a'))
  {
    assert Uri('a') in LinkFields(s.store[Uri('b')]) && Under(Uri('a'), Uri('a'));
  }

  lemma ForgedIsNotHeld(s: State)
    requires Recorded(s) && s.flights == [Flight(KEY, "p", Chunk(0, [FirstMessage()]), Written)]
    requires Uri('a') != Uri('b') && Uri('b') !in s.store
    ensures !Held(s.store, ForgedMessage())
  {
    assert Uris([FirstMessage()]) == [Uri('a')];
    forall u | u in s.store && s.store[u].layer == "merged"
      ensures Uri('b') !in s.store[u].metaSourceUris
    {
      assert s.store[u] == MergedRecord(s.flights[0]);
    }
  }
}
