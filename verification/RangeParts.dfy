/** The parts of a range result, and the bytes written when they are sent. */
module RangeParts {
  import opened Text
  import opened ByteRange
  import opened BlobStore
  import opened RangeModel

  datatype RangePart = RangePart(body: seq<Byte>, path: BodyPath, offset: int, length: int, cleanupPath: bool)

  predicate Sendable(part: RangePart) {
    0 <= part.offset && 0 <= part.length && (part.body != [] ==> part.offset <= |part.body|)
  }

  // A body shorter than announced is copied up to its end.
  function Sent(files: Files, part: RangePart): seq<Byte>
    requires Sendable(part) && OnDisk(files, part)
  {
    var body := if part.body != [] then part.body else files[part.path];
    body[Min(part.offset, |body|)..Min(part.offset + part.length, |body|)]
  }

  // The bytes of the parts in order. A body that cannot be opened ends the response.
  function WriteParts(files: Files, parts: seq<RangePart>): (r: (seq<Byte>, bool))
    requires forall i :: 0 <= i < |parts| ==> Sendable(parts[i])
  {
    if parts == [] then ([], true)
    else if !OnDisk(files, parts[0]) then ([], false)
    else
      var rest := WriteParts(files, parts[1..]);
      (Sent(files, parts[0]) + rest.0, rest.1)
  }

  // The part names non-empty content that its body had when it was fetched, and only
  // a temporary file is to be removed after sending.
  ghost predicate Readable(history: Files, part: RangePart) {
    0 <= part.offset && 1 <= part.length && (part.cleanupPath ==> part.path.Temp?) &&
    if part.body != [] then part.offset + part.length <= |part.body|
    else part.path in history && part.offset + part.length <= |history[part.path]|
  }

  ghost predicate AllReadable(history: Files, parts: seq<RangePart>) {
    forall i :: 0 <= i < |parts| ==> Readable(history, parts[i])
  }

  ghost function Content(history: Files, part: RangePart): seq<Byte>
    requires Readable(history, part)
  {
    (if part.body != [] then part.body else history[part.path])[part.offset..part.offset + part.length]
  }

  ghost function Contents(history: Files, parts: seq<RangePart>): seq<Byte>
    requires AllReadable(history, parts)
  {
    if parts == [] then [] else Content(history, parts[0]) + Contents(history, parts[1..])
  }

  predicate OnDisk(files: Files, part: RangePart) {
    part.body != [] || part.path in files
  }

  // A part in memory is always there, any other while its file is.
  lemma OnDiskIff(files: Files, part: RangePart)
    ensures OnDisk(files, part) <==> !(part.body == [] && part.path !in files)
  {
  }

  // The response is complete exactly when every body file is still there; and then,
  // and only then, it is the content the parts stand for.
  lemma {:induction false} WriteExact(history: Files, files: Files, parts: seq<RangePart>)
    requires AllReadable(history, parts) && Grows(files, history)
    ensures var (written, complete) := WriteParts(files, parts);
            (complete <==> forall i :: 0 <= i < |parts| ==> OnDisk(files, parts[i])) &&
            (complete <==> written == Contents(history, parts)) && written <= Contents(history, parts)
  {
    if parts != [] {
      WriteExact(history, files, parts[1..]);
      var all, tail := Contents(history, parts), Contents(history, parts[1..]);
      var head := Content(history, parts[0]);
      assert all == head + tail && |head| >= 1;
      assert forall i :: 1 <= i < |parts| ==> parts[1..][i - 1] == parts[i];
      if OnDisk(files, parts[0]) {
        var (written, complete) := WriteParts(files, parts);
        var rest := WriteParts(files, parts[1..]);
        assert written == head + rest.0;
        assert written[|head|..] == rest.0 && all[|head|..] == tail;
        assert tail[..|rest.0|] == rest.0;
        assert all[..|written|] == written;
      }
    }
  }

  // A part that was read or fetched for the given chunk.
  ghost predicate ForChunk(u: Url, history: Files, fetches: Fetches, part: RangePart, index: int) {
    part.body == [] && (part.cleanupPath ==> part.path.Temp?) && index >= 0 && u.chunkSize > 0 &&
    0 <= index * u.chunkSize < |u.body| &&
    Holds(history, part.path, Chunk(u.body, index, u.chunkSize)) &&
    part.path in fetches.bodies && fetches.bodies[part.path].index == index
  }

  function Sliced(part: RangePart, r: Resolved, index: int, chunkSize: int): RangePart {
    part.(offset := ChunkSliceOffset(r, index, chunkSize), length := ChunkSliceLength(r, index, chunkSize))
  }

  ghost predicate SlicedAt(u: Url, history: Files, fetches: Fetches, part: RangePart, r: Resolved, index: int) {
    ForChunk(u, history, fetches, part, index) && part == Sliced(part, r, index, u.chunkSize)
  }

  ghost predicate SlicedParts(u: Url, history: Files, fetches: Fetches, parts: seq<RangePart>, r: Resolved,
                              first: int) {
    forall i :: 0 <= i < |parts| ==> SlicedAt(u, history, fetches, parts[i], r, first + i)
  }

  lemma PartIsSlice(u: Url, history: Files, fetches: Fetches, part: RangePart, r: Resolved, index: int)
    requires u.chunkSize > 0 && InBody(u.body, r) && r.start / u.chunkSize <= index <= r.end / u.chunkSize
    requires SlicedAt(u, history, fetches, part, r, index)
    ensures Readable(history, part) && Content(history, part) == Slice(u.body, r, index, u.chunkSize)
  {
    SliceInsideChunk(u.body, r, index, u.chunkSize);
  }

  // Parts for consecutive chunks, sliced, are the bytes of the range from there on.
  lemma {:induction false} PartsTile(u: Url, history: Files, fetches: Fetches, parts: seq<RangePart>, r: Resolved,
                                     first: int)
    requires u.chunkSize > 0 && InBody(u.body, r) && SlicedParts(u, history, fetches, parts, r, first)
    requires r.start / u.chunkSize <= first && first + |parts| == r.end / u.chunkSize + 1
    ensures AllReadable(history, parts) && Contents(history, parts) == Slices(u.body, r, first, u.chunkSize)
    decreases |parts|
  {
    if parts != [] {
      assert SlicedAt(u, history, fetches, parts[0], r, first + 0);
      PartIsSlice(u, history, fetches, parts[0], r, first);
      var rest := parts[1..];
      forall i | 0 <= i < |rest|
        ensures SlicedAt(u, history, fetches, rest[i], r, first + 1 + i)
      {
        assert SlicedAt(u, history, fetches, parts[i + 1], r, first + (i + 1));
      }
      PartsTile(u, history, fetches, rest, r, first + 1);
    }
  }

  // One part for every requested chunk makes up exactly the resolved range.
  lemma PartsCoverRange(u: Url, history: Files, fetches: Fetches, parts: seq<RangePart>, r: Resolved)
    requires u.chunkSize > 0 && InBody(u.body, r)
    requires |parts| == |ChunkIndexes(r, u.chunkSize)|
    requires SlicedParts(u, history, fetches, parts, r, r.start / u.chunkSize)
    ensures AllReadable(history, parts) && Contents(history, parts) == u.body[r.start..r.end + 1]
  {
    DivMonotone(r.start, r.end, u.chunkSize);
    PartsTile(u, history, fetches, parts, r, r.start / u.chunkSize);
    SlicesTile(u.body, r, u.chunkSize);
  }

  // The temporary files among the parts.
  function CleanupPaths(parts: seq<RangePart>): set<BodyPath> {
    if parts == [] then {}
    else (if parts[0].cleanupPath && parts[0].path != NoPath then {parts[0].path} else {}) + CleanupPaths(parts[1..])
  }

  // The parts up to and including the first one whose body cannot be opened.
  function Visited(files: Files, parts: seq<RangePart>): seq<RangePart> {
    if parts == [] then []
    else if !OnDisk(files, parts[0]) then [parts[0]]
    else [parts[0]] + Visited(files, parts[1..])
  }

  lemma {:induction false} CleanupOnlyTemps(history: Files, files: Files, parts: seq<RangePart>)
    requires AllReadable(history, parts)
    ensures forall path :: path in CleanupPaths(Visited(files, parts)) ==> path.Temp?
  {
    if parts != [] {
      CleanupOnlyTemps(history, files, parts[1..]);
      assert Readable(history, parts[0]);
      if OnDisk(files, parts[0]) {
        assert Visited(files, parts)[1..] == Visited(files, parts[1..]);
      }
    }
  }

  // Sends the parts in order, stopping at a body that cannot be opened, and then removes
  // the temporary files among the parts it came to.
  method WriteRangeParts(store: BadgerStore, parts: seq<RangePart>) returns (written: seq<Byte>, complete: bool)
    requires forall i :: 0 <= i < |parts| ==> Sendable(parts[i])
    modifies store
    ensures written == WriteParts(old(store.files), parts).0 && complete == WriteParts(old(store.files), parts).1
    ensures store.State() == old(store.State()).(files :=
                                                 old(store.files) - CleanupPaths(Visited(old(store.files), parts)))
  {
    written, complete := [], true;
    var cleanup, rest := {}, parts;
    while rest != [] && complete
      invariant store.State() == old(store.State()) && NoPath !in cleanup
      invariant forall i :: 0 <= i < |rest| ==> Sendable(rest[i])
      invariant complete ==>
                  WriteParts(store.files, parts).0 == written + WriteParts(store.files, rest).0 &&
                  WriteParts(store.files, parts).1 == WriteParts(store.files, rest).1 &&
                  CleanupPaths(Visited(store.files, parts)) == cleanup + CleanupPaths(Visited(store.files, rest))
      invariant !complete ==>
                  WriteParts(store.files, parts).0 == written && !WriteParts(store.files, parts).1 &&
                  CleanupPaths(Visited(store.files, parts)) == cleanup
      decreases complete, |rest|
    {
      var part := rest[0];
      VisitedStep(store.files, rest);
      if part.cleanupPath && part.path != NoPath {
        cleanup := cleanup + {part.path};
      }
      if !OnDisk(store.files, part) {
        complete := false;
      } else {
        written := written + Sent(store.files, part);
        rest := rest[1..];
      }
    }
    store.RemoveBodies(cleanup);
  }

  lemma VisitedStep(files: Files, parts: seq<RangePart>)
    requires parts != []
    ensures CleanupPaths(Visited(files, parts)) ==
            (if parts[0].cleanupPath && parts[0].path != NoPath then {parts[0].path} else {}) +
            (if OnDisk(files, parts[0]) then CleanupPaths(Visited(files, parts[1..])) else {})
  {
    if OnDisk(files, parts[0]) {
      assert Visited(files, parts)[1..] == Visited(files, parts[1..]);
    }
  }
}
