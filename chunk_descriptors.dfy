/** Chunk descriptors as the transport lists them, and the two searches the
    client stream runs over that list. */
module ChunkDescriptors {
  import opened Wrappers

  /** One chunk descriptor. `ref` stands for the identity of the descriptor
      object: the client's caches are keyed by the object itself, so two
      descriptors with equal fields but different `ref`s are two keys. */
  datatype Chunk = Chunk(
    ref: nat,
    id: real,
    startTimeOffset: real,
    endTimeOffset: real,
    leadInDuration: real)

  /** `Array.prototype.filter`: the elements of `s` that satisfy `p`, in order. */
  function Filter<T>(s: seq<T>, p: T -> bool): (r: seq<T>)
    ensures |r| <= |s|
    ensures forall x :: x in r ==> x in s && p(x)
    ensures forall i :: 0 <= i < |s| && p(s[i]) ==> s[i] in r
  {
    if s == [] then []
    else if p(s[0]) then [s[0]] + Filter(s[1..], p)
    else Filter(s[1..], p)
  }

  /** `a[0]`: the first element, `undefined` when the array is empty. */
  function Head<T>(s: seq<T>): Option<T> {
    if s == [] then None else Some(s[0])
  }

  /** `r` is the earliest element of `s` that satisfies `p`, or `None` when no element does. */
  ghost predicate IsFirstMatch<T>(s: seq<T>, p: T -> bool, r: Option<T>) {
    match r
    case None => forall i :: 0 <= i < |s| ==> !p(s[i])
    case Some(x) =>
      exists i :: 0 <= i < |s| && s[i] == x && p(x) && forall j :: 0 <= j < i ==> !p(s[j])
  }

  /** `filter(p)[0]` is the first match of `p`: the head of the filtered array
      is the earliest element that satisfies `p`, and it is `undefined`
      exactly when nothing does. */
  lemma {:induction false} FilterHeadIsFirstMatch<T>(s: seq<T>, p: T -> bool)
    ensures IsFirstMatch(s, p, Head(Filter(s, p)))
  {
    if s != [] && !p(s[0]) {
      FilterHeadIsFirstMatch(s[1..], p);
      match Head(Filter(s[1..], p))
      case None =>
        assert forall i :: 1 <= i < |s| ==> s[i] == s[1..][i - 1];
      case Some(x) =>
        var i :| 0 <= i < |s[1..]| && s[1..][i] == x && p(x)
          && forall j :: 0 <= j < i ==> !p(s[1..][j]);
        assert s[i + 1] == x;
        assert forall j :: 1 <= j < i + 1 ==> s[j] == s[1..][j - 1];
    }
  }

  /** The predicate `_findChunkById` filters with: strict equality of ids. */
  function HasId(chunkId: real): Chunk -> bool {
    (chunk: Chunk) => chunk.id == chunkId
  }

  /** The predicate `_findChunkForPosition` filters with: the chunk starts at or
      before the position and its end, less its lead-in, lies after it. */
  function Covers(positionMillis: real): Chunk -> bool {
    (chunk: Chunk) => chunk.startTimeOffset <= positionMillis
      && chunk.endTimeOffset - chunk.leadInDuration > positionMillis
  }

  /** `_findChunkById`: the first chunk of the transport's list whose id is
      `chunkId`, or `undefined` when there is none. */
  function FindChunkById(chunks: seq<Chunk>, chunkId: real): (r: Option<Chunk>)
    ensures r.None? <==> forall i :: 0 <= i < |chunks| ==> chunks[i].id != chunkId
    ensures r.Some? ==>
      exists i :: 0 <= i < |chunks| && chunks[i] == r.value && r.value.id == chunkId
        && forall j :: 0 <= j < i ==> chunks[j].id != chunkId
  {
    FilterHeadIsFirstMatch(chunks, HasId(chunkId));
    Head(Filter(chunks, HasId(chunkId)))
  }

  /** `_findChunkForPosition`: the first chunk of the transport's list with
      `startTimeOffset <= pos < endTimeOffset - leadInDuration`, or `undefined`
      when no chunk covers the position. */
  function FindChunkForPosition(chunks: seq<Chunk>, positionMillis: real): (r: Option<Chunk>)
    ensures r.None? <==>
      forall i :: 0 <= i < |chunks| ==>
        !(chunks[i].startTimeOffset <= positionMillis
          && positionMillis < chunks[i].endTimeOffset - chunks[i].leadInDuration)
    ensures r.Some? ==>
      exists i :: 0 <= i < |chunks| && chunks[i] == r.value
        && r.value.startTimeOffset <= positionMillis
        && positionMillis < r.value.endTimeOffset - r.value.leadInDuration
        && forall j :: 0 <= j < i ==>
          !(chunks[j].startTimeOffset <= positionMillis
            && positionMillis < chunks[j].endTimeOffset - chunks[j].leadInDuration)
  {
    FilterHeadIsFirstMatch(chunks, Covers(positionMillis));
    Head(Filter(chunks, Covers(positionMillis)))
  }
}
