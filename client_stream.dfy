/** The browser-side client stream: it hands out decoded chunk buffers,
    loading each chunk from the server at most once and caching the newest
    decoded buffers. Promises become request tokens and the calls of their
    resolvers become returned events. */
module ClientStreams {
  import opened Wrappers
  import opened ChunkDescriptors
  import opened BufferCache

  /** A Promise created by `requestChunk`, named by a token handed out in order. */
  type Request = nat

  /** What `requestChunk` returns: a Promise already resolved with a cached
      buffer, or the Promise of a request. */
  datatype Reply = Resolved(buffer: StreamBuffer) | Promised(request: Request)

  /** What `requestChunk` throws: a WeakMap refuses `undefined` as a key. */
  datatype Error = InvalidWeakMapKey

  /** A call of a stored resolver: `request` is resolved with `buffer`. */
  datatype Resolution = Resolution(request: Request, buffer: StreamBuffer)

  /** The audio player acting as transport; the stream only reads its chunk list. */
  class Transport {
    var chunks: seq<Chunk>

    constructor (chunks: seq<Chunk>)
      ensures this.chunks == chunks
    {
      this.chunks := chunks;
    }
  }

  class ClientStream {
    const transport: Transport
    /** `_chunkRequests`: the Promise created for each chunk ever requested. */
    var chunkRequests: map<Chunk, Request>
    /** `_resolutions`: the resolver of each request not yet resolved. */
    var resolutions: map<Chunk, Request>
    /** `_rejections`: the rejecter of each request. */
    var rejections: map<Chunk, Request>
    /** `_buffers`: decoded buffers, oldest first. */
    var buffers: seq<Entry>
    /** The token the next Promise gets. */
    var nextRequest: Request
    /** The chunk loads started so far, in order: one GET request each. */
    var loads: seq<Chunk>

    /** The stream's invariant. The cache is keyed, within its bound, and each
        buffer carries its own chunk; every pending resolver and every
        rejecter belongs to the chunk's request; request tokens are distinct
        and already handed out; and a chunk has been loaded exactly when it
        has a request, never twice. */
    ghost predicate Valid()
      reads this
    {
      && Keyed(buffers)
      && |buffers| <= MaxBufferRetainCount
      && Labelled(buffers)
      && rejections == chunkRequests
      && (forall c :: c in resolutions ==> c in chunkRequests && resolutions[c] == chunkRequests[c])
      && (forall c :: c in chunkRequests ==> chunkRequests[c] < nextRequest)
      && (forall c, d :: c in chunkRequests && d in chunkRequests && c != d ==>
            chunkRequests[c] != chunkRequests[d])
      && (forall i, j :: 0 <= i < j < |loads| ==> loads[i] != loads[j])
      && (forall c :: c in loads <==> c in chunkRequests)
    }

    constructor (transport: Transport)
      ensures Valid() && this.transport == transport
      ensures chunkRequests == map[] && resolutions == map[] && rejections == map[]
      ensures buffers == [] && loads == []
    {
      this.transport := transport;
      chunkRequests, resolutions, rejections := map[], map[], map[];
      buffers, nextRequest, loads := [], 0, [];
    }

    /** The effect of `requestChunk(chunk)` returning or throwing `r`.
        Without a chunk, the `Promise.reject()` in the guard is created and
        dropped, so control falls through: neither map holds `undefined`, and
        storing the resolver under it throws inside the Promise executor,
        then storing the request under it throws to the caller. Nothing is
        stored and nothing is loaded. With a chunk: a cached buffer is
        returned resolved; otherwise a request already made for the chunk is
        returned again; otherwise a new request is stored with its resolver
        and rejecter and exactly one load is started. */
    twostate predicate RequestedChunk(chunk: Option<Chunk>, new r: Result<Reply, Error>)
      reads this
    {
      match chunk
      case None => r == Failure(InvalidWeakMapKey) && unchanged(this)
      case Some(c) =>
        if Get(old(buffers), c).Some? then
          r == Success(Resolved(Get(old(buffers), c).value)) && unchanged(this)
        else if c in old(chunkRequests) then
          r == Success(Promised(old(chunkRequests)[c])) && unchanged(this)
        else
          && r == Success(Promised(old(nextRequest)))
          && chunkRequests == old(chunkRequests)[c := old(nextRequest)]
          && resolutions == old(resolutions)[c := old(nextRequest)]
          && rejections == old(rejections)[c := old(nextRequest)]
          && nextRequest == old(nextRequest) + 1
          && buffers == old(buffers)
          && loads == old(loads) + [c]
    }

    /** `requestChunk`. */
    method RequestChunk(chunk: Option<Chunk>) returns (r: Result<Reply, Error>)
      requires Valid()
      modifies this
      ensures Valid() && RequestedChunk(chunk, r)
    {
      match chunk
      case None =>
        r := Failure(InvalidWeakMapKey);
      case Some(c) =>
        var cached := Get(buffers, c);
        if cached.Some? {
          return Success(Resolved(cached.value));
        }
        if c in chunkRequests {
          return Success(Promised(chunkRequests[c]));
        }
        var request := nextRequest;
        nextRequest := nextRequest + 1;
        resolutions := resolutions[c := request];
        rejections := rejections[c := request];
        chunkRequests := chunkRequests[c := request];
        LoadChunkData(c);
        r := Success(Promised(request));
    }

    /** `requestChunkById`: `requestChunk` of the first chunk with that id. */
    method RequestChunkById(chunkId: real) returns (r: Result<Reply, Error>)
      requires Valid()
      modifies this
      ensures Valid() && RequestedChunk(FindChunkById(transport.chunks, chunkId), r)
    {
      r := RequestChunk(FindChunkById(transport.chunks, chunkId));
    }

    /** `requestChunkByTimestamp`: `requestChunk` of the first chunk covering the position. */
    method RequestChunkByTimestamp(positionMillis: real) returns (r: Result<Reply, Error>)
      requires Valid()
      modifies this
      ensures Valid() && RequestedChunk(FindChunkForPosition(transport.chunks, positionMillis), r)
    {
      r := RequestChunk(FindChunkForPosition(transport.chunks, positionMillis));
    }

    /** `_loadChunkData`: starts the GET request for the chunk's data. The
        request itself is not modelled; its completion is `OnChunkDataLoaded`. */
    method LoadChunkData(chunk: Chunk)
      modifies this`loads
      ensures loads == old(loads) + [chunk]
    {
      loads := loads + [chunk];
    }

    /** `_onChunkDataLoaded`: decodes the loaded `data` into a buffer for the
        chunk, caches it (`CacheBuffer`), then calls and forgets the chunk's
        resolver if one is still stored (`ResolvePending`), so that a second
        completion resolves nothing. The request stays stored. */
    method OnChunkDataLoaded(chunk: Chunk, data: nat) returns (resolved: Option<Resolution>)
      requires Valid()
      modifies this`buffers, this`resolutions
      ensures Valid()
      ensures buffers == Evict(Set(old(buffers), chunk, StreamBuffer(data, chunk)))
      ensures resolved ==
        if chunk in old(resolutions)
        then Some(Resolution(old(resolutions)[chunk], StreamBuffer(data, chunk)))
        else None
      ensures resolutions == old(resolutions) - {chunk}
    {
      var buffer := StreamBuffer(data, chunk);
      CacheBuffer(chunk, buffer);
      resolved := ResolvePending(chunk, buffer);
    }

    /** Lines 93-103 of `_onChunkDataLoaded`: the buffer becomes the chunk's
        entry and the oldest entries above `MaxBufferRetainCount` are
        deleted. The new buffer itself always stays cached. */
    method CacheBuffer(chunk: Chunk, buffer: StreamBuffer)
      requires Valid() && buffer.chunk == chunk
      modifies this`buffers
      ensures Valid()
      ensures buffers == Evict(Set(old(buffers), chunk, buffer))
      ensures GetBufferForChunk(Some(chunk)) == Some(buffer)
      ensures forall e :: e in buffers && e.chunk != chunk ==> e in old(buffers)
    {
      var stored := Set(buffers, chunk, buffer);
      var kept := stored;
      // In the shipped code `_buffers` is a WeakMap, whose `size` is
      // undefined: this guard is always false there and the eviction never
      // runs (see BufferCache.EvictAsWritten). The intended rule is modelled.
      if |stored| > MaxBufferRetainCount {
        kept := RetainNewest(stored);
      }
      StoreNewest(buffers, chunk, buffer);
      buffers := kept;
    }

    /** Lines 105-109 of `_onChunkDataLoaded`: the chunk's pending resolver,
        if any, is taken out of `_resolutions` and called with `buffer`. */
    method ResolvePending(chunk: Chunk, buffer: StreamBuffer) returns (resolved: Option<Resolution>)
      requires Valid()
      modifies this`resolutions
      ensures Valid()
      ensures resolved ==
        if chunk in old(resolutions) then Some(Resolution(old(resolutions)[chunk], buffer)) else None
      ensures resolutions == old(resolutions) - {chunk}
    {
      if chunk in resolutions {
        resolved := Some(Resolution(resolutions[chunk], buffer));
        resolutions := resolutions - {chunk};
      } else {
        resolved := None;
        assert resolutions - {chunk} == resolutions;
      }
    }

    /** `getBufferForChunk`: the cached buffer of the chunk, `undefined` when
        it is not cached or there is no chunk. */
    function GetBufferForChunk(chunk: Option<Chunk>): (r: Option<StreamBuffer>)
      reads this
      requires Valid()
      ensures r.Some? <==>
        chunk.Some? && exists i :: 0 <= i < |buffers| && buffers[i].chunk == chunk.value
      ensures r.Some? ==> r.value.chunk == chunk.value && Entry(chunk.value, r.value) in buffers
    {
      match chunk
      case None => None
      case Some(c) => Get(buffers, c)
    }
  }
}
