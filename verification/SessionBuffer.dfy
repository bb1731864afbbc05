/** The in-memory session buffer, keyed by session, as the store flows use it. */
module SessionBuffer {
  import opened Segmentation
  import Log = SessionLog

  datatype SessionKey = SessionKey(collection: string, tenantId: string, userId: string, sessionId: string)

  /** Parallel lists for the unfrozen messages of one session. */
  datatype ConversationBuffer = ConversationBuffer(
    messages: seq<string>,
    tokenCount: nat,
    startMsgIndex: nat,
    immediateUris: seq<string>,
    toolCallsPerTurn: seq<seq<string>>)
  {
    /** The lists are aligned and the counter is the sum of the estimates. */
    predicate Valid() {
      && |immediateUris| == |toolCallsPerTurn| == |messages|
      && tokenCount == Total(Zip(messages, immediateUris, toolCallsPerTurn))
    }

    function Messages(): seq<Message>
      requires Valid()
    {
      Zip(messages, immediateUris, toolCallsPerTurn)
    }
  }

  const NO_MESSAGES := ConversationBuffer([], 0, 0, [], [])

  datatype Option<T> = None | Some(value: T)

  function Zip(texts: seq<string>, uris: seq<string>, tools: seq<seq<string>>): (ms: seq<Message>)
    requires |uris| == |tools| == |texts|
    ensures |ms| == |texts|
  {
    seq(|texts|, i requires 0 <= i < |texts| => Message(texts[i], uris[i], tools[i]))
  }

  /** A snapshot of frozen messages has the same shape as a buffer. */
  type Snapshot = ConversationBuffer

  function ToChunk(b: ConversationBuffer): Log.Chunk
    requires b.Valid()
  {
    Log.Chunk(b.startMsgIndex, b.Messages())
  }

  function ToChunks(bs: seq<Snapshot>): seq<Log.Chunk>
    requires forall b :: b in bs ==> b.Valid()
  {
    seq(|bs|, i requires 0 <= i < |bs| => ToChunk(bs[i]))
  }

  lemma ToChunksSnoc(bs: seq<Snapshot>, b: Snapshot)
    requires b.Valid() && forall x :: x in bs ==> x.Valid()
    ensures ToChunks(bs + [b]) == ToChunks(bs) + [ToChunk(b)]
  {
  }

  /** How the source recomputes a token count: a sum over the texts. */
  method SumEstimates(texts: seq<string>, ghost uris: seq<string>, ghost tools: seq<seq<string>>)
    returns (total: nat)
    requires |uris| == |tools| == |texts|
    ensures total == Total(Zip(texts, uris, tools))
  {
    total := 0;
    ghost var ms := Zip(texts, uris, tools);
    for i := 0 to |texts|
      invariant total == Total(ms[..i])
    {
      TotalSnoc(ms, i);
      total := total + EstimateTokens(texts[i]);
    }
    assert ms[..|texts|] == ms;
  }

  class SessionBuffer {
    const mergeTokenBudget: nat
    const idleTtlSeconds: real
    var activity: map<SessionKey, real>
    var buffers: map<SessionKey, ConversationBuffer>
    var pendingMerges: map<SessionKey, seq<Snapshot>>

    ghost predicate Valid()
      reads this
    {
      && mergeTokenBudget >= 1
      && (forall k :: k in buffers ==> buffers[k].Valid())
      && (forall k :: k in pendingMerges ==> pendingMerges[k] != [])
      && (forall k, b :: k in pendingMerges && b in pendingMerges[k] ==> b.Valid() && b.messages != [])
    }

    /** The abstract session behind one key; a missing key is an empty session. */
    ghost function View(key: SessionKey): Log.Session
      requires Valid()
      reads this
    {
      var b := if key in buffers then buffers[key] else NO_MESSAGES;
      Log.Session(
        if key in pendingMerges then ToChunks(pendingMerges[key]) else [],
        if key in buffers then buffers[key].Messages() else [],
        b.startMsgIndex)
    }

    /** Only `key` may differ between two views. */
    twostate predicate OthersUnchanged(key: SessionKey)
      requires old(Valid()) && Valid()
      reads this
    {
      forall k :: k != key ==> View(k) == old(View(k))
    }

    constructor (budget: int, idleTtl: real)
      ensures Valid() && mergeTokenBudget == (if budget > 1 then budget else 1)
      ensures idleTtlSeconds == if idleTtl > 1.0 then idleTtl else 1.0
      ensures forall k :: View(k) == Log.EMPTY
      ensures activity == map[]
    {
      mergeTokenBudget := if budget > 1 then budget else 1;
      idleTtlSeconds := if idleTtl > 1.0 then idleTtl else 1.0;
      activity, buffers, pendingMerges := map[], map[], map[];
    }

    method Touch(key: SessionKey, now: real)
      requires Valid()
      modifies this`activity
      ensures Valid() && activity == old(activity)[key := now]
      ensures forall k :: View(k) == old(View(k))
    {
      activity := activity[key := now];
    }

    method NextMsgIndex(key: SessionKey) returns (index: nat)
      requires Valid()
      modifies this`buffers
      ensures Valid() && View(key) == old(View(key)) && OthersUnchanged(key)
      ensures index == View(key).start + |View(key).active|
    {
      if key !in buffers {
        buffers := buffers[key := NO_MESSAGES];
      }
      index := buffers[key].startMsgIndex + |buffers[key].messages|;
    }

    method Append(key: SessionKey, text: string, recordUri: string, toolCalls: seq<string>)
      requires Valid()
      modifies this`buffers
      ensures Valid() && OthersUnchanged(key)
      ensures View(key) == Log.Append(old(View(key)), Message(text, recordUri, toolCalls))
      ensures key in buffers && View(key).active == old(View(key)).active + [Message(text, recordUri, toolCalls)]
      ensures buffers[key].tokenCount == (if key in old(buffers) then old(buffers)[key].tokenCount else 0)
                                         + (if |text| < 8 then 1 else |text| / 4)
    {
      var b := if key in buffers then buffers[key] else NO_MESSAGES;
      var b' := ConversationBuffer(
        b.messages + [text],
        b.tokenCount + EstimateTokens(text),
        b.startMsgIndex,
        b.immediateUris + [recordUri],
        b.toolCallsPerTurn + [toolCalls]);
      ghost var m := Message(text, recordUri, toolCalls);
      assert Zip(b'.messages, b'.immediateUris, b'.toolCallsPerTurn) == b.Messages() + [m];
      TotalConcat(b.Messages(), [m]);
      assert Total([m]) == EstimateTokens(text) + Total([]);
      buffers := buffers[key := b'];
    }

    /** Whether the active tail has reached the budget. */
    method ShouldMerge(key: SessionKey) returns (ready: bool)
      requires Valid()
      ensures ready <==> Total(View(key).active) >= mergeTokenBudget
    {
      if key !in buffers {
        return false;
      }
      return buffers[key].tokenCount >= mergeTokenBudget;
    }

    /** Forced or not, the size is the greedy one: force decides whether, never where. */
    method MergeChunkSize(buffer: ConversationBuffer, force: bool) returns (size: nat)
      requires Valid() && buffer.Valid()
      ensures buffer.messages != [] ==> size == ChunkLength(buffer.Messages(), mergeTokenBudget)
      ensures buffer.messages == [] ==> size == if force then 0 else 1
    {
      ghost var ms := buffer.Messages();
      assert ms[..|ms|] == ms;
      if force && buffer.tokenCount < mergeTokenBudget {
        if ms != [] {
          BelowBudgetIsOneChunk(ms, mergeTokenBudget);
        }
        return |buffer.messages|;
      }
      var count, tokens := 0, 0;
      while count < |buffer.messages|
        invariant count <= |ms| && tokens == Total(ms[..count])
        invariant count > 0 ==> Bounded(ms[..count], mergeTokenBudget)
      {
        TotalSnoc(ms, count);
        var messageTokens := EstimateTokens(buffer.messages[count]);
        if count > 0 && tokens + messageTokens > mergeTokenBudget {
          break;
        }
        count, tokens := count + 1, tokens + messageTokens;
      }
      if ms != [] {
        ChunkLengthUnique(ms, mergeTokenBudget, count, ChunkLength(ms, mergeTokenBudget));
      }
      size := if count > 1 then count else 1;
    }

    method FreezeMergeChunk(key: SessionKey, force: bool) returns (frozen: bool)
      requires Valid()
      modifies this`buffers, this`pendingMerges
      ensures Valid() && OthersUnchanged(key)
      ensures frozen <==> old(View(key)).active != []
                          && (force || Total(old(View(key)).active) >= mergeTokenBudget)
      ensures View(key) == if frozen then Log.FreezeOne(old(View(key)), mergeTokenBudget)
                           else old(View(key))
    {
      if key !in buffers || buffers[key].messages == [] {
        return false;
      }
      var b := buffers[key];
      if !force && b.tokenCount < mergeTokenBudget {
        return false;
      }
      var count := MergeChunkSize(b, force);
      var head, tail := Cut(b, count);
      Replace(key, head, tail);
      return true;
    }

    /** Queue the frozen head and keep the tail as the new buffer. */
    method Replace(key: SessionKey, head: Snapshot, tail: ConversationBuffer)
      requires Valid() && head.Valid() && head.messages != [] && tail.Valid()
      modifies this`buffers, this`pendingMerges
      ensures Valid() && OthersUnchanged(key)
      ensures View(key) == Log.Session(
                old(View(key)).pending + [ToChunk(head)], tail.Messages(), tail.startMsgIndex)
    {
      var waiting := if key in pendingMerges then pendingMerges[key] else [];
      assert forall b :: b in waiting + [head] ==> b.Valid() && b.messages != [];
      ToChunksSnoc(waiting, head);
      buffers := buffers[key := tail];
      pendingMerges := pendingMerges[key := waiting + [head]];
    }

    /** Split a buffer into the snapshot to freeze and the buffer that replaces it. */
    method Cut(b: ConversationBuffer, count: nat) returns (head: Snapshot, tail: ConversationBuffer)
      requires b.Valid() && count <= |b.messages|
      ensures head.Valid() && tail.Valid()
      ensures head.startMsgIndex == b.startMsgIndex
      ensures tail.startMsgIndex == b.startMsgIndex + count
      ensures head.Messages() == b.Messages()[..count] && |head.messages| == count
      ensures tail.Messages() == b.Messages()[count..]
    {
      var headTokens := SumEstimates(
        b.messages[..count], b.immediateUris[..count], b.toolCallsPerTurn[..count]);
      var tailTokens := SumEstimates(
        b.messages[count..], b.immediateUris[count..], b.toolCallsPerTurn[count..]);
      head := ConversationBuffer(
        b.messages[..count], headTokens, b.startMsgIndex,
        b.immediateUris[..count], b.toolCallsPerTurn[..count]);
      tail := ConversationBuffer(
        b.messages[count..], tailTokens, b.startMsgIndex + count,
        b.immediateUris[count..], b.toolCallsPerTurn[count..]);
    }

    method FreezeReadyChunks(key: SessionKey) returns (frozen: nat)
      requires Valid()
      modifies this`buffers, this`pendingMerges
      ensures Valid() && OthersUnchanged(key)
      ensures View(key) == Log.FreezeReady(old(View(key)), mergeTokenBudget)
      ensures |View(key).pending| == |old(View(key)).pending| + frozen
    {
      frozen := 0;
      var more := FreezeMergeChunk(key, false);
      while more
        invariant Valid() && OthersUnchanged(key)
        invariant Log.FreezeReady(View(key), mergeTokenBudget)
                  == Log.FreezeReady(old(View(key)), mergeTokenBudget)
        invariant |View(key).pending| == |old(View(key)).pending| + frozen + if more then 1 else 0
        invariant !more ==> View(key).active == [] || Total(View(key).active) < mergeTokenBudget
        decreases |View(key).active|, more
      {
        frozen := frozen + 1;
        more := FreezeMergeChunk(key, false);
      }
    }

    method FreezeAllChunks(key: SessionKey) returns (frozen: nat)
      requires Valid()
      modifies this`buffers, this`pendingMerges
      ensures Valid() && OthersUnchanged(key)
      ensures View(key) == Log.FreezeAll(old(View(key)), mergeTokenBudget)
      ensures |View(key).pending| == |old(View(key)).pending| + frozen
    {
      frozen := 0;
      var more := FreezeMergeChunk(key, true);
      while more
        invariant Valid() && OthersUnchanged(key)
        invariant Log.FreezeAll(View(key), mergeTokenBudget)
                  == Log.FreezeAll(old(View(key)), mergeTokenBudget)
        invariant |View(key).pending| == |old(View(key)).pending| + frozen + if more then 1 else 0
        invariant !more ==> View(key).active == []
        decreases |View(key).active|, more
      {
        frozen := frozen + 1;
        more := FreezeMergeChunk(key, true);
      }
    }

    method PopMergeChunk(key: SessionKey) returns (chunk: Option<Snapshot>)
      requires Valid()
      modifies this`pendingMerges
      ensures Valid() && OthersUnchanged(key)
      ensures chunk.Some? <==> old(View(key)).pending != []
      ensures chunk.Some? ==> chunk.value.Valid() && ToChunk(chunk.value) == old(View(key)).pending[0]
      ensures View(key) == if chunk.Some? then Log.Pop(old(View(key))) else old(View(key))
    {
      if key !in pendingMerges {
        return None;
      }
      var chunks := pendingMerges[key];
      chunk := Some(chunks[0]);
      assert ToChunks(chunks[1..]) == ToChunks(chunks)[1..];
      if |chunks| == 1 {
        pendingMerges := pendingMerges - {key};
      } else {
        pendingMerges := pendingMerges[key := chunks[1..]];
      }
    }

    /** Detach the oldest frozen chunk, or cut the active tail when none waits. */
    method TakeSnapshot(key: SessionKey) returns (chunk: Option<Snapshot>)
      requires Valid()
      modifies this`buffers, this`pendingMerges
      ensures Valid() && OthersUnchanged(key)
      ensures var s := Log.BeforeTake(old(View(key)), mergeTokenBudget);
              && (chunk.Some? <==> s.pending != [])
              && (chunk.Some? ==> chunk.value.Valid() && ToChunk(chunk.value) == s.pending[0])
              && View(key) == if chunk.Some? then Log.Pop(s) else s
    {
      chunk := PopMergeChunk(key);
      if chunk.None? {
        var cut := FreezeMergeChunk(key, true);
        if cut {
          chunk := PopMergeChunk(key);
        }
      }
    }

    method HasPendingMerge(key: SessionKey) returns (waiting: bool)
      requires Valid()
      ensures waiting <==> View(key).pending != []
    {
      waiting := key in pendingMerges && pendingMerges[key] != [];
    }

    method Drop(key: SessionKey)
      requires Valid()
      modifies this
      ensures Valid() && OthersUnchanged(key) && View(key) == Log.EMPTY
      ensures activity == old(activity) - {key}
    {
      activity := activity - {key};
      buffers := buffers - {key};
      pendingMerges := pendingMerges - {key};
    }

    ghost predicate Idle(key: SessionKey, now: real)
      reads this
    {
      key in activity && now - activity[key] >= idleTtlSeconds
    }

    /** Idle sessions, and no others, lose their in-memory state. */
    method PruneIdle(now: real) returns (removed: nat)
      requires Valid()
      modifies this
      ensures Valid()
      ensures forall k :: View(k) == if old(Idle(k, now)) then Log.EMPTY else old(View(k))
      ensures forall k :: k in activity <==> k in old(activity) && !old(Idle(k, now))
      ensures removed == |set k | k in old(activity) && old(Idle(k, now))|
    {
      var staleKeys := set k | k in activity && now - activity[k] >= idleTtlSeconds;
      assert staleKeys == set k | k in old(activity) && old(Idle(k, now));
      removed := |staleKeys|;
      var left := staleKeys;
      while left != {}
        invariant Valid() && left <= staleKeys
        invariant activity == old(activity) - (staleKeys - left)
        invariant forall k :: View(k) == if k in staleKeys - left then Log.EMPTY else old(View(k))
        decreases left
      {
        var k :| k in left;
        Drop(k);
        left := left - {k};
      }
    }
  }
}
