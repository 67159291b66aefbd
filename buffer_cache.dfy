/** The client stream's cache of decoded chunk buffers (`_buffers`), read as
    the insertion-ordered map its eviction code is written for, together
    with that eviction rule and the cache as the shipped code builds it. */
module BufferCache {
  import opened Wrappers
  import opened ChunkDescriptors

  /** How many decoded buffers the client stream means to keep. */
  const MaxBufferRetainCount := 8

  /** A `ClientStreamBuffer`: `data` stands for the response of the load it
      was decoded from (the decoding is not modelled) and `chunk` is the
      descriptor stored on it right after construction. */
  datatype StreamBuffer = StreamBuffer(data: nat, chunk: Chunk)

  /** One cache entry: a chunk descriptor and its decoded buffer. */
  datatype Entry = Entry(chunk: Chunk, buffer: StreamBuffer)

  /** No chunk has two entries. */
  ghost predicate Keyed(entries: seq<Entry>) {
    forall i, j :: 0 <= i < j < |entries| ==> entries[i].chunk != entries[j].chunk
  }

  /** Every cached buffer carries the chunk it is cached under. */
  ghost predicate Labelled(entries: seq<Entry>) {
    forall e :: e in entries ==> e.buffer.chunk == e.chunk
  }

  /** Where `chunk` is stored: the index of its first entry, if any. */
  function Find(entries: seq<Entry>, chunk: Chunk): (r: Option<nat>)
    ensures r.None? <==> forall i :: 0 <= i < |entries| ==> entries[i].chunk != chunk
    ensures r.Some? ==>
      && r.value < |entries| && entries[r.value].chunk == chunk
      && forall j :: 0 <= j < r.value ==> entries[j].chunk != chunk
  {
    if entries == [] then None
    else if entries[0].chunk == chunk then Some(0)
    else
      var r := Find(entries[1..], chunk);
      assert forall i :: 1 <= i < |entries| ==> entries[i] == entries[1..][i - 1];
      if r.None? then None else Some(r.value + 1)
  }

  /** `Map.prototype.get`: the buffer stored for `chunk`, `undefined` when there is none. */
  function Get(entries: seq<Entry>, chunk: Chunk): (r: Option<StreamBuffer>)
    ensures r.None? <==> forall i :: 0 <= i < |entries| ==> entries[i].chunk != chunk
    ensures r.Some? ==> Entry(chunk, r.value) in entries
  {
    match Find(entries, chunk)
    case None => None
    case Some(i) => Some(entries[i].buffer)
  }

  /** In a keyed cache, the entry stored for a chunk is the one `Get` returns. */
  lemma GetKeyed(entries: seq<Entry>, chunk: Chunk, buffer: StreamBuffer)
    requires Keyed(entries)
    requires Entry(chunk, buffer) in entries
    ensures Get(entries, chunk) == Some(buffer)
  {
  }

  /** `Map.prototype.set`: a chunk already present keeps its place in the
      insertion order and gets the new buffer; a new chunk is appended. */
  function Set(entries: seq<Entry>, chunk: Chunk, buffer: StreamBuffer): (r: seq<Entry>)
    ensures Entry(chunk, buffer) in r
    ensures |r| == if Find(entries, chunk).Some? then |entries| else |entries| + 1
    ensures forall i :: 0 <= i < |entries| && entries[i].chunk != chunk ==> r[i] == entries[i]
  {
    match Find(entries, chunk)
    case None => entries + [Entry(chunk, buffer)]
    case Some(i) =>
      var r := entries[i := Entry(chunk, buffer)];
      assert r[i] == Entry(chunk, buffer);
      r
  }

  /** `get` after `set`: the chunk just set yields the new buffer, and every
      other chunk yields what it yielded before. */
  lemma SetThenGet(entries: seq<Entry>, chunk: Chunk, buffer: StreamBuffer, other: Chunk)
    ensures Get(Set(entries, chunk, buffer), chunk) == Some(buffer)
    ensures other != chunk ==> Get(Set(entries, chunk, buffer), other) == Get(entries, other)
  {
    var stored := Set(entries, chunk, buffer);
    match Find(entries, chunk)
    case None =>
      assert stored[|entries|] == Entry(chunk, buffer);
      assert Find(stored, chunk) == Some(|entries|);
      if other != chunk {
        match Find(entries, other)
        case None =>
        case Some(k) =>
          assert stored[k] == entries[k];
          assert Find(stored, other) == Some(k);
      }
    case Some(i) =>
      assert stored[i] == Entry(chunk, buffer);
      assert Find(stored, chunk) == Some(i);
      if other != chunk {
        match Find(entries, other)
        case None =>
        case Some(k) =>
          assert Find(stored, other) == Some(k);
      }
  }

  /** The eviction rule: while more than `MaxBufferRetainCount` buffers are
      cached, the oldest entry is deleted. What is left is the newest
      `MaxBufferRetainCount` entries (all of them when there are no more). */
  function Evict(entries: seq<Entry>): (r: seq<Entry>)
    ensures |r| == if |entries| > MaxBufferRetainCount then MaxBufferRetainCount else |entries|
    ensures r == entries[|entries| - |r|..]
    decreases |entries|
  {
    if |entries| > MaxBufferRetainCount then Evict(entries[1..]) else entries
  }

  /** The deletion loop of `_onChunkDataLoaded`: `forEach` visits the entries
      in insertion order and deletes the one it visits while the cache still
      holds more than `MaxBufferRetainCount` entries. */
  method RetainNewest(entries: seq<Entry>) returns (kept: seq<Entry>)
    ensures kept == Evict(entries)
  {
    ghost var dropped := Overflow(|entries|);
    var size := |entries|;
    kept := [];
    for i := 0 to |entries|
      invariant i <= dropped ==> kept == [] && size == |entries| - i
      invariant i >= dropped ==> kept == entries[dropped..i] && size == |entries| - dropped
    {
      if size > MaxBufferRetainCount {
        size := size - 1;
      } else {
        kept := kept + [entries[i]];
      }
    }
    EvictDropsOverflow(entries);
  }

  /** How many of `n` entries lie above `MaxBufferRetainCount`. */
  function Overflow(n: nat): nat {
    if n > MaxBufferRetainCount then n - MaxBufferRetainCount else 0
  }

  /** Eviction drops exactly the overflow from the front. */
  lemma EvictDropsOverflow(entries: seq<Entry>)
    ensures Evict(entries) == entries[Overflow(|entries|)..]
  {
    var kept := Evict(entries);
    assert |entries| - |kept| == Overflow(|entries|);
  }

  /** Storing a buffer keeps a cache keyed. */
  lemma SetKeepsKeyed(entries: seq<Entry>, chunk: Chunk, buffer: StreamBuffer)
    requires Keyed(entries)
    ensures Keyed(Set(entries, chunk, buffer))
  {
  }

  /** Eviction keeps a cache keyed. */
  lemma EvictKeepsKeyed(entries: seq<Entry>)
    requires Keyed(entries)
    ensures Keyed(Evict(entries))
  {
  }

  /** Storing the newest buffer into a keyed cache that holds at most
      `MaxBufferRetainCount` entries and then evicting keeps the cache keyed
      and within the bound, and never evicts the buffer just stored. */
  lemma StoreThenEvict(entries: seq<Entry>, chunk: Chunk, buffer: StreamBuffer)
    requires Keyed(entries)
    requires |entries| <= MaxBufferRetainCount
    ensures Keyed(Evict(Set(entries, chunk, buffer)))
    ensures |Evict(Set(entries, chunk, buffer))| <= MaxBufferRetainCount
    ensures Entry(chunk, buffer) in Evict(Set(entries, chunk, buffer))
  {
    var stored := Set(entries, chunk, buffer);
    var kept := Evict(stored);
    SetKeepsKeyed(entries, chunk, buffer);
    EvictKeepsKeyed(stored);
    if Find(entries, chunk).None? {
      assert kept[|kept| - 1] == stored[|stored| - 1];
    } else {
      assert kept == stored;
      assert stored[Find(entries, chunk).value] == Entry(chunk, buffer);
    }
  }

  /** What storing the newest buffer and evicting makes of a well-formed
      cache: keyed, within the bound, labelled, the chunk's `get` yields the
      new buffer, and every other surviving entry was cached before. */
  lemma StoreNewest(entries: seq<Entry>, chunk: Chunk, buffer: StreamBuffer)
    requires Keyed(entries) && Labelled(entries)
    requires |entries| <= MaxBufferRetainCount
    requires buffer.chunk == chunk
    ensures Keyed(Evict(Set(entries, chunk, buffer)))
    ensures |Evict(Set(entries, chunk, buffer))| <= MaxBufferRetainCount
    ensures Labelled(Evict(Set(entries, chunk, buffer)))
    ensures Get(Evict(Set(entries, chunk, buffer)), chunk) == Some(buffer)
    ensures forall e :: e in Evict(Set(entries, chunk, buffer)) && e.chunk != chunk ==> e in entries
  {
    var kept := Evict(Set(entries, chunk, buffer));
    StoreThenEvict(entries, chunk, buffer);
    StoreThenEvictKeepsLabels(entries, chunk, buffer);
    GetKeyed(kept, chunk, buffer);
    forall e | e in kept && e.chunk != chunk ensures e in entries {
      KeptIsCachedOrNew(entries, chunk, buffer, e);
    }
  }

  /** Storing a buffer labelled with its own chunk and evicting keeps every
      cached buffer labelled with the chunk it is cached under. */
  lemma StoreThenEvictKeepsLabels(entries: seq<Entry>, chunk: Chunk, buffer: StreamBuffer)
    requires Labelled(entries)
    requires buffer.chunk == chunk
    ensures Labelled(Evict(Set(entries, chunk, buffer)))
  {
    var kept := Evict(Set(entries, chunk, buffer));
    forall e | e in kept ensures e.buffer.chunk == e.chunk {
      KeptIsCachedOrNew(entries, chunk, buffer, e);
    }
  }

  /** Every entry after `set` was there before or is the one just stored. */
  lemma StoredIsCachedOrNew(entries: seq<Entry>, chunk: Chunk, buffer: StreamBuffer, e: Entry)
    requires e in Set(entries, chunk, buffer)
    ensures e in entries || e == Entry(chunk, buffer)
  {
    var stored := Set(entries, chunk, buffer);
    var n :| 0 <= n < |stored| && stored[n] == e;
    match Find(entries, chunk)
    case None =>
      if n < |entries| {
        assert entries[n] == e;
      }
    case Some(i) =>
      if n != i {
        assert entries[n] == e;
      }
  }

  /** Every entry that survives the eviction was cached before or is the one just stored. */
  lemma KeptIsCachedOrNew(entries: seq<Entry>, chunk: Chunk, buffer: StreamBuffer, e: Entry)
    requires e in Evict(Set(entries, chunk, buffer))
    ensures e in entries || e == Entry(chunk, buffer)
  {
    EvictedWasCached(Set(entries, chunk, buffer), e);
    StoredIsCachedOrNew(entries, chunk, buffer, e);
  }

  /** Eviction only deletes: every entry it keeps was cached before. */
  lemma EvictedWasCached(entries: seq<Entry>, e: Entry)
    requires e in Evict(entries)
    ensures e in entries
  {
    var kept := Evict(entries);
    var k :| 0 <= k < |kept| && kept[k] == e;
    assert entries[|entries| - |kept| + k] == e;
  }

  // The cache as the shipped code builds it. `_buffers` is a WeakMap, which
  // has no `size` property: the guard of the eviction reads `undefined > 8`,
  // which is false, so the deletion loop above is dead code and the cache is
  // never trimmed.

  /** A JavaScript number as read from a property: a value, or `undefined`. */
  datatype JsNumber = Number(value: int) | NumberUndefined

  /** The `>` operator: `undefined` converts to NaN, and NaN compares false
      with everything. */
  function GreaterThan(a: JsNumber, b: JsNumber): bool {
    a.Number? && b.Number? && a.value > b.value
  }

  /** `this._buffers.size` on a WeakMap. */
  const WeakMapSize: JsNumber := NumberUndefined

  /** The eviction step as written: guarded by `WeakMapSize > MaxBufferRetainCount`.
      It never deletes anything. */
  function EvictAsWritten(entries: seq<Entry>): (r: seq<Entry>)
    ensures r == entries
  {
    if GreaterThan(WeakMapSize, Number(MaxBufferRetainCount)) then Evict(entries) else entries
  }

  /** As written, storing a ninth buffer into a full cache leaves nine
      buffers cached: the bound `MaxBufferRetainCount` is not kept. */
  lemma AsWrittenCacheOutgrowsBound(entries: seq<Entry>, chunk: Chunk, buffer: StreamBuffer)
    requires |entries| == MaxBufferRetainCount
    requires Find(entries, chunk).None?
    ensures |EvictAsWritten(Set(entries, chunk, buffer))| == MaxBufferRetainCount + 1
    ensures |Evict(Set(entries, chunk, buffer))| == MaxBufferRetainCount
  {
  }
}
