# Client-side audio streaming: chunk stream and buffer player

This project models the two stateful browser components of the audio player
add-on:

- **`ClientStream`** hands the player decoded audio chunk buffers. It looks chunks up
  in the transport's chunk list, by id or by playback position. It starts at most one
  load per chunk. It remembers each chunk's request, resolver and rejecter in maps
  keyed by the chunk object. On load completion it caches the decoded buffer, is meant
  to keep at most 8 entries in `_buffers` (the shipped guard never fires, see
  Findings; the model follows the intended rule), and resolves the pending request.
  The bound is on `_buffers` entries, not on memory: `_chunkRequests` keeps every
  chunk's Promise, and a resolved Promise holds its buffer.
- **`BufferPlayer`** is a reusable wrapper around one Web Audio buffer source node.
  A source node can be started only once, so the player installs a fresh node whenever
  its node is stopped, ends, or gets a new buffer. The fresh node carries over the
  playback rate, the buffer (unless it is being replaced) and the connection to the
  destination.

Modules, one per file:

- `Wrappers` (`wrappers.dfy`): `Option` and `Result`.
- `ChunkDescriptors` (`chunk_descriptors.dfy`): the chunk descriptor record and the two
  `filter(...)[0]` lookups.
- `BufferCache` (`buffer_cache.dfy`): the buffer cache read as an insertion-ordered map,
  and the eviction rule with its deletion loop. It also holds the cache as the shipped
  code builds it (see Findings).
- `ClientStreams` (`client_stream.dfy`): the `ClientStream` class.
- `BufferPlayers` (`buffer_player.dfy`): the source node operations and the
  `BufferPlayer` class.

Modelling choices:

- **Identities.** Maps keyed by objects are keyed by the descriptor's identity, the
  `ref` field of `Chunk`. A Promise is a request token handed out in order. Calling a
  stored resolver is a returned `Resolution` event. AudioBuffers and destination nodes
  are named by identities.
- **Source nodes.** A source node is a value. The player keeps every node it has
  created, oldest first. A node's position in that list is its identity; the `onended`
  handler uses it to tell the current node from a replaced one.
- **`requestChunk` without a chunk.** The `Promise.reject()` in its guard is created and
  dropped, so control falls through. Neither map holds `undefined`. Inside the Promise
  executor, `WeakMap.set(undefined, …)` throws, which only rejects that new Promise.
  The next `set` on `_chunkRequests` throws a TypeError to the caller. So the call
  fails, nothing is stored and no load starts. The model returns
  `Failure(InvalidWeakMapKey)` and leaves the state unchanged.
- **Requests are never forgotten.** A chunk's request outlives its cached buffer, so
  each chunk is loaded at most once in the stream's lifetime. A chunk whose buffer was
  evicted is answered with its old, already resolved request; it is not loaded again.
  The class invariant states this: `loads` has no duplicates, and its elements are
  exactly the chunks with a request.
- **Web Audio errors.** The Web Audio InvalidStateError conditions are preconditions of
  the node operations: a buffer is set only once, a node is started only once, and
  only a started node is stopped. Every player method meets them.

## Model

| member | source | states |
|---|---|---|
| ChunkDescriptors.Filter | src/main/resources/META-INF/resources/frontend/src/client-stream.js:117-118 | `Array.prototype.filter`: the result is no longer than the input, holds only matching elements of the input, and holds every matching element |
| ChunkDescriptors.FilterHeadIsFirstMatch | src/main/resources/META-INF/resources/frontend/src/client-stream.js:117-118 | `filter(p)[0]` is the earliest element satisfying `p`, and is `undefined` exactly when no element does |
| ChunkDescriptors.FindChunkById | src/main/resources/META-INF/resources/frontend/src/client-stream.js:116-119 | `_findChunkById` returns nothing iff no chunk has the id; otherwise it returns a chunk of the list with that id, and no earlier chunk has it |
| ChunkDescriptors.FindChunkForPosition | src/main/resources/META-INF/resources/frontend/src/client-stream.js:125-131 | `_findChunkForPosition` returns nothing iff no chunk has `start <= pos < end - leadIn`; otherwise it returns the earliest such chunk of the list |
| BufferCache.Find | src/main/resources/META-INF/resources/frontend/src/client-stream.js:35-36 | the map lookup behind `has`/`get`: nothing iff no entry has the chunk, otherwise the position of its first entry |
| BufferCache.Get | src/main/resources/META-INF/resources/frontend/src/client-stream.js:36 | `get` yields nothing iff no entry has the chunk, and otherwise a buffer stored for the chunk |
| BufferCache.Set | src/main/resources/META-INF/resources/frontend/src/client-stream.js:96 | `Map.set`: the new entry is present; the size grows by one exactly when the chunk was absent; every entry of another chunk keeps its position (an existing key keeps its place in the insertion order) |
| BufferCache.SetThenGet | src/main/resources/META-INF/resources/frontend/src/client-stream.js:96 | after `set(chunk, buffer)`, `get(chunk)` yields `buffer` and `get` of any other chunk yields what it did before |
| BufferCache.GetKeyed | src/main/resources/META-INF/resources/frontend/src/client-stream.js:36 | in a cache without duplicate keys, `get` returns the buffer stored for the chunk |
| BufferCache.SetKeepsKeyed | src/main/resources/META-INF/resources/frontend/src/client-stream.js:96 | `Map.set` (replace in place or append) never creates a second entry for a chunk |
| BufferCache.Evict | src/main/resources/META-INF/resources/frontend/src/client-stream.js:97-103 | the eviction rule keeps exactly the newest `min(n, 8)` entries, as a suffix of the insertion order |
| BufferCache.RetainNewest | src/main/resources/META-INF/resources/frontend/src/client-stream.js:98-102 | the `forEach` deletion loop, which deletes in insertion order while more than 8 remain, leaves exactly `Evict` of the cache |
| BufferCache.EvictDropsOverflow | src/main/resources/META-INF/resources/frontend/src/client-stream.js:97-103 | eviction deletes exactly the entries above 8 from the front of the insertion order |
| BufferCache.EvictedWasCached | src/main/resources/META-INF/resources/frontend/src/client-stream.js:97-103 | eviction only deletes: every entry it keeps was in the cache |
| BufferCache.EvictKeepsKeyed | src/main/resources/META-INF/resources/frontend/src/client-stream.js:97-103 | eviction never creates a duplicate key |
| BufferCache.StoreThenEvict | src/main/resources/META-INF/resources/frontend/src/client-stream.js:96-103 | starting from at most 8 distinct entries, store then evict leaves at most 8 distinct entries, and the buffer just stored survives |
| BufferCache.StoreNewest | src/main/resources/META-INF/resources/frontend/src/client-stream.js:93-103 | under the intended eviction (see Findings): from a keyed, labelled cache of at most 8, store then evict stays keyed, labelled and within 8, `get` of the chunk yields the new buffer, and every other survivor was cached before |
| BufferCache.StoreThenEvictKeepsLabels | src/main/resources/META-INF/resources/frontend/src/client-stream.js:93-103 | if every cached buffer carries its own chunk and so does the new one (line 94), that stays true after store and evict |
| BufferCache.StoredIsCachedOrNew | src/main/resources/META-INF/resources/frontend/src/client-stream.js:96 | after `set`, every entry was there before or is the new one |
| BufferCache.KeptIsCachedOrNew | src/main/resources/META-INF/resources/frontend/src/client-stream.js:96-103 | every entry surviving the eviction was cached before or is the entry just stored |
| BufferCache.EvictAsWritten | src/main/resources/META-INF/resources/frontend/src/client-stream.js:97 | with `_buffers` a WeakMap, `size` is `undefined`, the guard is false, and the eviction leaves the cache unchanged |
| BufferCache.AsWrittenCacheOutgrowsBound | src/main/resources/META-INF/resources/frontend/src/client-stream.js:96-97 | storing a new chunk into a full cache leaves 9 buffers as written, and 8 under the intended rule |
| ClientStreams.ClientStream.constructor | src/main/resources/META-INF/resources/frontend/src/client-stream.js:17-24 | a new stream has empty request, resolver, rejecter and buffer maps, and satisfies the invariant |
| ClientStreams.ClientStream.RequestChunk | src/main/resources/META-INF/resources/frontend/src/client-stream.js:30-52 | no chunk: throws and changes nothing. Cached: returns the buffer, changes nothing. Already requested: returns the same request, no new load. Otherwise: one new request, stored with its resolver and rejecter, and exactly one load. The invariant (at most one load per chunk) is kept |
| ClientStreams.ClientStream.RequestChunkById | src/main/resources/META-INF/resources/frontend/src/client-stream.js:58-60 | exactly `requestChunk` of `_findChunkById(chunkId)` |
| ClientStreams.ClientStream.RequestChunkByTimestamp | src/main/resources/META-INF/resources/frontend/src/client-stream.js:66-68 | exactly `requestChunk` of `_findChunkForPosition(position)` |
| ClientStreams.ClientStream.LoadChunkData | src/main/resources/META-INF/resources/frontend/src/client-stream.js:76-84 | one load of the chunk is started and nothing else changes |
| ClientStreams.ClientStream.OnChunkDataLoaded | src/main/resources/META-INF/resources/frontend/src/client-stream.js:92-110 | (intended eviction, see Findings) the cache becomes `Evict(Set(cache, chunk, buffer))`. A pending resolver is called with the new buffer and removed, so a second completion resolves nothing. Requests, rejecters and loads are unchanged (its `modifies` clause). The invariant is kept |
| ClientStreams.ClientStream.CacheBuffer | src/main/resources/META-INF/resources/frontend/src/client-stream.js:93-103 | (intended eviction, see Findings) after caching, `getBufferForChunk(chunk)` returns the new buffer; every other cached entry was cached before; the cache stays keyed, labelled and within 8 |
| ClientStreams.ClientStream.ResolvePending | src/main/resources/META-INF/resources/frontend/src/client-stream.js:105-109 | if the chunk has a pending resolver, it is called with the new buffer (the returned `Resolution` of that request) and removed; otherwise nothing is resolved and `_resolutions` is unchanged |
| ClientStreams.ClientStream.GetBufferForChunk | src/main/resources/META-INF/resources/frontend/src/client-stream.js:137-139 | a buffer iff there is a chunk and it is cached; the buffer is the one cached for that chunk and carries that chunk |
| BufferPlayers.Successor | src/main/resources/META-INF/resources/frontend/src/buffer-player.js:98-121 | the node `_resetSourceNode` installs is unstarted and unstopped, keeps the previous rate (1 if none), keeps the previous buffer iff not discarding, and is connected to exactly the destination if one is set |
| BufferPlayers.DiffersFrom | src/main/resources/META-INF/resources/frontend/src/buffer-player.js:73 | the setter's case-by-case test equals JavaScript strict inequality between the argument (`undefined`, `null` or an AudioBuffer) and the node's `buffer` as read (`null` when unset); when they are equal, the node already holds what assigning the argument would store |
| BufferPlayers.BufferPlayer.constructor | src/main/resources/META-INF/resources/frontend/src/buffer-player.js:13-18 | a new player is unscheduled, has no destination, and has one fresh node with rate 1 and no buffer |
| BufferPlayers.BufferPlayer.IsScheduled | src/main/resources/META-INF/resources/frontend/src/buffer-player.js:20-22 | scheduled iff the current node has been started |
| BufferPlayers.BufferPlayer.Buffer | src/main/resources/META-INF/resources/frontend/src/buffer-player.js:84-86 | the `buffer` getter returns the current node's buffer, which is what a reset that keeps the buffer (lines 102, 115-116) carries to the next node |
| BufferPlayers.BufferPlayer.PlaybackRate | src/main/resources/META-INF/resources/frontend/src/buffer-player.js:91-93 | the `playbackRate` getter's value is the current node's rate, which every reset carries to the next node (lines 103, 107), discarding or not |
| BufferPlayers.BufferPlayer.ResetSourceNode | src/main/resources/META-INF/resources/frontend/src/buffer-player.js:98-121 | clears the start time, leaves every existing node untouched, and appends `Successor` of the current node |
| BufferPlayers.BufferPlayer.Play | src/main/resources/META-INF/resources/frontend/src/buffer-player.js:30-40 | if scheduled, first stops the current node at `when` and installs its successor; then starts the current node at `when`, `offsetMillis / 1000` s into the buffer, and schedules at `when` |
| BufferPlayers.BufferPlayer.Stop | src/main/resources/META-INF/resources/frontend/src/buffer-player.js:42-50 | unscheduled: nothing changes. Scheduled: stops the current node at `when` and leaves the player unscheduled on its successor |
| BufferPlayers.BufferPlayer.Connect | src/main/resources/META-INF/resources/frontend/src/buffer-player.js:55-58 | records the destination and connects the current node to it; nothing else changes |
| BufferPlayers.BufferPlayer.Disconnect | src/main/resources/META-INF/resources/frontend/src/buffer-player.js:62-67 | without a destination nothing changes; with one, it is cleared and the current node loses every connection |
| BufferPlayers.BufferPlayer.SetBuffer | src/main/resources/META-INF/resources/frontend/src/buffer-player.js:72-86 | the getter afterwards returns the assigned buffer (`null` for `null`/`undefined`). The same value changes nothing. A different value unschedules and installs a discarding successor; every earlier node, including the replaced one, is left unchanged and in particular not stopped |
| BufferPlayers.BufferPlayer.SetPlaybackRate | src/main/resources/META-INF/resources/frontend/src/buffer-player.js:91-93 | a write through the returned AudioParam sets the current node's rate, which the getter then returns |
| BufferPlayers.BufferPlayer.OnEnded | src/main/resources/META-INF/resources/frontend/src/buffer-player.js:108-114 | an ended node that is no longer current changes nothing; the current node ending resets the player, keeping the buffer |

## Left out

- The XHR in `_loadChunkData` is not modelled; a load is recorded as started. Its completion is a call of `OnChunkDataLoaded` with the response as an opaque number.
- `ClientStreamBuffer` decoding is not modelled (client-stream-buffer.js is not part of this model). A buffer is the response plus its chunk.
- The rejecters are stored but never called: no code path in the source rejects a request. Failed loads are not modelled.
- Promise machinery and asynchrony are not modelled: Promises are tokens and resolver calls are returned events. The `AudioContext` is not modelled.
- `isPlaying` and the default `when` arguments are not modelled. They compute with `context.currentTime` and `Schedule.AUDIO_SCHEDULE_DELAY_MS`, and schedule.js is not part of this model. `when` is always passed explicitly.
- JavaScript numbers are exact `real`s. This covers the player's times, offsets and rates, and the chunk descriptors' `id`, `startTimeOffset`, `endTimeOffset` and `leadInDuration`. It also covers `chunkId` and `position_millis`, so fractional positions are modelled. Floating-point rounding (of `offsetMillis / 1000`, or of `endTimeOffset - leadInDuration`) is not modelled.
- The Web Audio RangeError for a negative `when` or offset is not modelled. The player passes these through unchecked.
- The AudioParam is modelled only by its `value`; automation events are not.
- Source nodes are values kept in a list rather than shared objects, so aliasing of a node by outside code is not modelled. `onended` takes the ended node's position, as delivered by Web Audio.
- OnChunkDataLoaded: the claims that `getBufferForChunk` returns the new buffer and that other surviving entries were cached before are stated on `CacheBuffer`, which it calls, rather than repeated on it.
- The transport (`AudioPlayer`) is modelled only by its chunk list.
- multi-channel-gain-node.js is not modelled: it only wires Web Audio nodes.
- The demo UI and the server-side streaming engine are not part of this model.

## Findings

| source | as written | input that shows it | evidently intended | confidence | as-written member | corrected member |
|---|---|---|---|---|---|---|
| src/main/resources/META-INF/resources/frontend/src/client-stream.js:97 | `_buffers` is a WeakMap (line 23), which has no `size`; `undefined > 8` is false, so the eviction never runs and the cache grows without bound | nine distinct chunks loaded one after another: nine buffers remain cached | at most `MAX_BUFFER_RETAIN_COUNT` (8) newest buffers are kept, oldest deleted first | not executed | BufferCache.AsWrittenCacheOutgrowsBound | BufferCache.StoreThenEvict |
