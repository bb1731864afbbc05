/** Greedy segmentation of a session log into merge chunks.

    A chunk holds as many messages as fit the token budget, and never fewer than one.
    Everything here is about message lists; `SessionBuffer` cuts its buffer with it. */
module Segmentation {

  /** One buffered message with the immediate record and tool calls that belong to it. */
  datatype Message = Message(text: string, uri: string, tools: seq<string>)

  /** The cheap token estimate; that it is at least 1 is what makes chunk borders stable. */
  function EstimateTokens(text: string): (n: nat)
    ensures n >= 1
  {
    if |text| / 4 > 1 then |text| / 4 else 1
  }

  function Total(ms: seq<Message>): nat {
    if ms == [] then 0 else EstimateTokens(ms[0].text) + Total(ms[1..])
  }

  lemma {:induction false} TotalConcat(a: seq<Message>, b: seq<Message>)
    ensures Total(a + b) == Total(a) + Total(b)
    ensures Total(a) >= |a|
  {
    if a == [] {
      assert a + b == b;
    } else {
      assert (a + b)[1..] == a[1..] + b;
      TotalConcat(a[1..], b);
    }
  }

  lemma TotalPrefix(ms: seq<Message>, i: nat, j: nat)
    requires i <= j <= |ms|
    ensures Total(ms[..i]) + (j - i) <= Total(ms[..j])
  {
    assert ms[..j] == ms[..i] + ms[i..j];
    TotalConcat(ms[..i], ms[i..j]);
    TotalConcat(ms[i..j], []);
  }

  lemma TotalSnoc(ms: seq<Message>, i: nat)
    requires i < |ms|
    ensures Total(ms[..i + 1]) == Total(ms[..i]) + EstimateTokens(ms[i].text)
  {
    assert ms[..i + 1] == ms[..i] + [ms[i]];
    TotalConcat(ms[..i], [ms[i]]);
  }

  /** A chunk obeys the budget unless it is a single oversized message. */
  predicate Bounded(chunk: seq<Message>, budget: nat) {
    |chunk| == 1 || (|chunk| > 1 && Total(chunk) <= budget)
  }

  /** `k` messages form the next greedy chunk: bounded, and one more would not be. */
  predicate IsChunkLength(ms: seq<Message>, budget: nat, k: nat) {
    && 1 <= k <= |ms|
    && Bounded(ms[..k], budget)
    && (k < |ms| ==> Total(ms[..k + 1]) > budget)
  }

  lemma ChunkLengthUnique(ms: seq<Message>, budget: nat, i: nat, j: nat)
    requires IsChunkLength(ms, budget, i) && IsChunkLength(ms, budget, j)
    ensures i == j
  {
    if i < j {
      TotalPrefix(ms, i + 1, j);
    } else if j < i {
      TotalPrefix(ms, j + 1, i);
    }
  }

  function ChunkLengthFrom(ms: seq<Message>, budget: nat, k: nat): (r: nat)
    requires 1 <= k <= |ms| && Bounded(ms[..k], budget)
    ensures IsChunkLength(ms, budget, r)
    decreases |ms| - k
  {
    if k == |ms| || Total(ms[..k + 1]) > budget then k
    else ChunkLengthFrom(ms, budget, k + 1)
  }

  function ChunkLength(ms: seq<Message>, budget: nat): (r: nat)
    requires ms != []
    ensures IsChunkLength(ms, budget, r)
  {
    ChunkLengthFrom(ms, budget, 1)
  }

  /** One greedy pass over a whole message log. */
  function Greedy(ms: seq<Message>, budget: nat): seq<seq<Message>> {
    if ms == [] then []
    else
      var k := ChunkLength(ms, budget);
      [ms[..k]] + Greedy(ms[k..], budget)
  }

  function Flatten(chunks: seq<seq<Message>>): seq<Message> {
    if chunks == [] then [] else chunks[0] + Flatten(chunks[1..])
  }

  /** An in-order split of `ms` whose chunks are all within budget or single messages. */
  predicate IsSplit(chunks: seq<seq<Message>>, ms: seq<Message>, budget: nat) {
    Flatten(chunks) == ms && forall c :: c in chunks ==> Bounded(c, budget)
  }

  lemma {:induction false} FlattenConcat(a: seq<seq<Message>>, b: seq<seq<Message>>)
    ensures Flatten(a + b) == Flatten(a) + Flatten(b)
  {
    if a == [] {
      assert a + b == b;
    } else {
      assert (a + b)[1..] == a[1..] + b;
      FlattenConcat(a[1..], b);
    }
  }

  lemma {:induction false} GreedyIsSplit(ms: seq<Message>, budget: nat)
    ensures IsSplit(Greedy(ms, budget), ms, budget)
  {
    if ms != [] {
      var k := ChunkLength(ms, budget);
      GreedyIsSplit(ms[k..], budget);
      assert ms == ms[..k] + ms[k..];
    }
  }

  /** Greedy is optimal: no in-order split into bounded chunks uses fewer chunks.
      The induction compares greedy on a suffix with an arbitrary split of the whole. */
  lemma {:induction false} GreedyFewestSuffix(
    ms: seq<Message>, k: nat, split: seq<seq<Message>>, budget: nat)
    requires k <= |ms| && IsSplit(split, ms, budget)
    ensures |Greedy(ms[k..], budget)| <= |split|
    decreases |split|
  {
    if k < |ms| {
      var c := split[0];
      var rest := split[1..];
      assert c in split && IsSplit(rest, ms[|c|..], budget);
      if |c| <= k {
        assert ms[|c|..][k - |c|..] == ms[k..];
        GreedyFewestSuffix(ms[|c|..], k - |c|, rest, budget);
      } else {
        var tail := ms[k..];
        var g := ChunkLength(tail, budget);
        ChunkReaches(ms, k, |c|, budget);
        assert tail[g..] == ms[|c|..][k + g - |c|..];
        GreedyFewestSuffix(ms[|c|..], k + g - |c|, rest, budget);
      }
    }
  }

  /** A greedy chunk that starts inside a bounded chunk reaches at least its end. */
  lemma ChunkReaches(ms: seq<Message>, k: nat, e: nat, budget: nat)
    requires k < e <= |ms| && Bounded(ms[..e], budget)
    ensures ChunkLength(ms[k..], budget) >= e - k
  {
    var tail := ms[k..];
    var g := ChunkLength(tail, budget);
    if g < e - k {
      TotalPrefix(tail, g + 1, e - k);
      assert ms[..e] == ms[..k] + tail[..e - k];
      TotalConcat(ms[..k], tail[..e - k]);
    }
  }

  lemma GreedyFewest(ms: seq<Message>, split: seq<seq<Message>>, budget: nat)
    requires IsSplit(split, ms, budget)
    ensures |Greedy(ms, budget)| <= |split|
  {
    assert ms[0..] == ms;
    GreedyFewestSuffix(ms, 0, split, budget);
  }

  /** Two neighbouring greedy chunks never fit together; even the first message of the
      right one does not fit the left one. */
  lemma {:induction false} GreedyNeighbours(ms: seq<Message>, budget: nat, i: nat)
    requires i + 1 < |Greedy(ms, budget)|
    ensures Greedy(ms, budget)[i + 1] != []
    ensures Total(Greedy(ms, budget)[i] + Greedy(ms, budget)[i + 1][..1]) > budget
    ensures Total(Greedy(ms, budget)[i] + Greedy(ms, budget)[i + 1]) > budget
  {
    var k := ChunkLength(ms, budget);
    if i > 0 {
      GreedyNeighbours(ms[k..], budget, i - 1);
    } else {
      var c := Greedy(ms, budget)[1];
      assert ms[..k] + c[..1] == ms[..k + 1];
      assert ms[..k] + c == (ms[..k] + c[..1]) + c[1..];
      TotalConcat(ms[..k] + c[..1], c[1..]);
    }
  }

  lemma ChunkLengthIs(ms: seq<Message>, budget: nat, k: nat)
    requires IsChunkLength(ms, budget, k)
    ensures ChunkLength(ms, budget) == k
  {
    ChunkLengthUnique(ms, budget, k, ChunkLength(ms, budget));
  }

  /** A full chunk at the end of the log: the next message counts at least one token. */
  lemma FullChunkStays(ms: seq<Message>, ext: seq<Message>, budget: nat)
    requires ms != [] && ext != [] && Total(ms) >= budget
    ensures Total((ms + ext)[..|ms| + 1]) > budget
  {
    assert (ms + ext)[..|ms| + 1] == ms + [ext[0]];
    TotalConcat(ms, [ext[0]]);
    assert Total([ext[0]]) >= 1;
  }

  lemma FirstChunkLengthStable(ms: seq<Message>, ext: seq<Message>, budget: nat)
    requires ms != [] && Total(ms) >= budget
    ensures ChunkLength(ms + ext, budget) == ChunkLength(ms, budget)
  {
    var k := ChunkLength(ms, budget);
    var all := ms + ext;
    assert all[..k] == ms[..k];
    if k < |all| {
      NextOverflows(ms, ext, budget, k);
    }
    ChunkLengthIs(all, budget, k);
  }

  /** One more message than the first chunk exceeds the budget, in the extended log too. */
  lemma NextOverflows(ms: seq<Message>, ext: seq<Message>, budget: nat, k: nat)
    requires ms != [] && Total(ms) >= budget && IsChunkLength(ms, budget, k) && k < |ms + ext|
    ensures Total((ms + ext)[..k + 1]) > budget
  {
    if k < |ms| {
      assert (ms + ext)[..k + 1] == ms[..k + 1];
    } else {
      FullChunkStays(ms, ext, budget);
    }
  }

  /** Once the log reaches the budget, its first greedy chunk survives any extension:
      the next message cannot join, because it counts at least one token. */
  lemma FirstChunkStable(ms: seq<Message>, ext: seq<Message>, budget: nat)
    requires ms != [] && Total(ms) >= budget
    ensures var k := ChunkLength(ms, budget);
            && Greedy(ms + ext, budget) == [ms[..k]] + Greedy(ms[k..] + ext, budget)
            && ReadyChunks(ms + ext, budget) == [ms[..k]] + ReadyChunks(ms[k..] + ext, budget)
  {
    var k := ChunkLength(ms, budget);
    FirstChunkLengthStable(ms, ext, budget);
    TotalConcat(ms, ext);
    assert (ms + ext)[..k] == ms[..k] && (ms + ext)[k..] == ms[k..] + ext;
  }

  lemma BelowBudgetIsOneChunk(ms: seq<Message>, budget: nat)
    requires ms != [] && Total(ms) <= budget
    ensures ChunkLength(ms, budget) == |ms| && Greedy(ms, budget) == [ms]
  {
    assert ms[..|ms|] == ms && Greedy(ms[|ms|..], budget) == [];
    ChunkLengthIs(ms, budget, |ms|);
  }

  const TINY := Message("", "", [])

  /** Below the budget a short next message would still join the chunk. */
  lemma OpenChunkGrows(ms: seq<Message>, budget: nat)
    requires ms != [] && Total(ms) < budget
    ensures var k := ChunkLength(ms, budget);
            Greedy(ms + [TINY], budget) != [ms[..k]] + Greedy(ms[k..] + [TINY], budget)
  {
    BelowBudgetIsOneChunk(ms, budget);
    TotalConcat(ms, [TINY]);
    assert Total([TINY]) == 1 + Total([]);
    BelowBudgetIsOneChunk(ms + [TINY], budget);
    assert ms[|ms|..] + [TINY] == [TINY];
    assert |Greedy([TINY], budget)| >= 1;
  }

  /** Freezing the first chunk now agrees with a greedy pass over every continuation of the
      log exactly when the log has reached the budget, which is the guard of the buffer. */
  lemma FirstCutStableIff(ms: seq<Message>, budget: nat)
    requires ms != []
    ensures var k := ChunkLength(ms, budget);
            (forall ext :: Greedy(ms + ext, budget) == [ms[..k]] + Greedy(ms[k..] + ext, budget))
            <==> Total(ms) >= budget
  {
    var k := ChunkLength(ms, budget);
    if Total(ms) >= budget {
      forall ext
        ensures Greedy(ms + ext, budget) == [ms[..k]] + Greedy(ms[k..] + ext, budget)
      {
        FirstChunkStable(ms, ext, budget);
      }
    } else {
      OpenChunkGrows(ms, budget);
    }
  }

  /** The chunks that are final while the log may still grow. */
  function ReadyChunks(ms: seq<Message>, budget: nat): seq<seq<Message>> {
    if ms == [] || Total(ms) < budget then []
    else
      var k := ChunkLength(ms, budget);
      [ms[..k]] + ReadyChunks(ms[k..], budget)
  }

  function ReadyRest(ms: seq<Message>, budget: nat): seq<Message> {
    if ms == [] || Total(ms) < budget then ms
    else ReadyRest(ms[ChunkLength(ms, budget)..], budget)
  }

  /** The final chunks are greedy chunks; at most one chunk, below budget, is still open. */
  lemma {:induction false} ReadyIsGreedyPrefix(ms: seq<Message>, budget: nat)
    ensures var rest := ReadyRest(ms, budget);
            && (rest == [] || Total(rest) < budget)
            && Greedy(ms, budget) == ReadyChunks(ms, budget) + if rest == [] then [] else [rest]
  {
    if ms != [] && Total(ms) >= budget {
      ReadyIsGreedyPrefix(ms[ChunkLength(ms, budget)..], budget);
    } else if ms != [] {
      BelowBudgetIsOneChunk(ms, budget);
    }
  }
}
