/** Byte ranges (section 14.1.2 of RFC 9110): parsing, resolution against a
    length, and the aligned chunks a resolved range is stitched from. */
module ByteRange {
  import opened Text

  datatype RangeSpec = RangeSpec(start: int, end: int, hasEnd: bool, suffix: bool, suffixN: int)

  datatype Resolved = Resolved(start: int, end: int)

  datatype ContentRange = ContentRange(start: int, end: int, total: int)

  predicate WellFormed(spec: RangeSpec) {
    if spec.suffix then 0 < spec.suffixN <= MAX_INT64
    else 0 <= spec.start <= MAX_INT64 && (spec.hasEnd ==> spec.start <= spec.end <= MAX_INT64)
  }

  predicate StartsWith(s: string, p: string) {
    p <= s
  }

  // What the range does not use is zero.
  predicate Canonical(spec: RangeSpec) {
    if spec.suffix then spec.start == 0 && spec.end == 0 && !spec.hasEnd
    else spec.suffixN == 0 && (!spec.hasEnd ==> spec.end == 0)
  }

  function ParseSingleByteRange(raw: string): (r: Option<RangeSpec>)
    ensures r.Some? ==> WellFormed(r.value) && Canonical(r.value)
  {
    var value := TrimSpace(raw);
    if value == "" || !StartsWith(value, "bytes=") then None
    else
      var specs := Split(value[6..], ',');
      if |specs| != 1 then None
      else
        match Cut(TrimSpace(specs[0]), '-')
        case None => None
        case Some((startRaw, endRaw)) =>
          if startRaw == "" then
            match ParseInt64(TrimSpace(endRaw))
            case Some(n) => if n <= 0 then None else Some(RangeSpec(0, 0, false, true, n))
            case None => None
          else
            match ParseInt64(TrimSpace(startRaw))
            case None => None
            case Some(start) =>
              if start < 0 then None
              else if TrimSpace(endRaw) == "" then Some(RangeSpec(start, 0, false, false, 0))
              else
                match ParseInt64(TrimSpace(endRaw))
                case None => None
                case Some(end) => if end < start then None else Some(RangeSpec(start, end, true, false, 0))
  }

  function ParseContentRange(raw: string): (r: Option<ContentRange>)
    ensures r.Some? ==> 0 <= r.value.start <= r.value.end < r.value.total
  {
    var value := TrimSpace(raw);
    if !StartsWith(value, "bytes ") then None
    else
      match Cut(value[6..], '/')
      case None => None
      case Some((rangePart, totalPart)) =>
        match Cut(rangePart, '-')
        case None => None
        case Some((startRaw, endRaw)) =>
          var start, end, total := ParseInt64(TrimSpace(startRaw)), ParseInt64(TrimSpace(endRaw)),
              ParseInt64(TrimSpace(totalPart));
          if start.None? || start.value < 0 || end.None? || end.value < start.value then None
          else if total.None? || total.value <= end.value then None
          else Some(ContentRange(start.value, end.value, total.value))
  }

  function RangeHeader(start: nat, end: nat): string {
    "bytes=" + FormatInt(start) + "-" + FormatInt(end)
  }

  function ContentRangeHeader(start: nat, end: nat, total: nat): string {
    "bytes " + FormatInt(start) + "-" + FormatInt(end) + "/" + FormatInt(total)
  }

  lemma TrimFixed(s: string)
    requires s != "" && !IsSpace(s[0]) && !IsSpace(s[|s| - 1])
    ensures TrimSpace(s) == s
  {
  }

  // The three forms of a single range: from a start to an end, from a start on, and the
  // last bytes.
  function RangeText(spec: RangeSpec): string
    requires WellFormed(spec)
  {
    "bytes=" + RangeStart(spec) + "-" + RangeEnd(spec)
  }

  function RangeStart(spec: RangeSpec): string
    requires WellFormed(spec)
  {
    if spec.suffix then "" else FormatInt(spec.start)
  }

  function RangeEnd(spec: RangeSpec): string
    requires WellFormed(spec)
  {
    if spec.suffix then FormatInt(spec.suffixN) else if spec.hasEnd then FormatInt(spec.end) else ""
  }

  // Every range there is parses back from its text; and parsing yields no others.
  lemma RangeTextParses(spec: RangeSpec)
    requires WellFormed(spec) && Canonical(spec)
    ensures ParseSingleByteRange(RangeText(spec)) == Some(spec)
  {
    hide FormatInt, TrimSpace, Split, Cut, ParseInt64;
    var a, b, value := RangeStart(spec), RangeEnd(spec), RangeText(spec);
    if spec.suffix { PlainNumber(spec.suffixN); } else { PlainNumber(spec.start); }
    if spec.hasEnd { PlainNumber(spec.end); }
    var part := a + "-" + b;
    assert value == "bytes=" + part && value[6..] == part;
    assert part[0] in a + "-" && part[|part| - 1] in ['-'] + b && value[|value| - 1] == part[|part| - 1];
    TrimFixed(value);
    assert ',' !in part by { assert ',' !in a && ',' !in b; }
    SplitOne(part, ',');
    TrimFixed(part);
    assert '-' !in a && part == a + ['-'] + b;
    CutAtFirst(a, '-', b);
    TrimNothing();
  }

  lemma PlainNumber(n: nat)
    requires n <= MAX_INT64
    ensures TrimSpace(FormatInt(n)) == FormatInt(n) && FormatInt(n) != "" && ParseInt64(FormatInt(n)) == Some(n)
    ensures forall c :: c in FormatInt(n) ==> IsDigit(c)
  {
    FormatIntPlain(n);
    FormatIntValue(n);
    ParseFormatted(n);
  }

  lemma TrimNothing()
    ensures TrimSpace("") == ""
  {
  }

  // The Range header sent to the origin for one chunk asks for exactly that chunk.
  lemma RangeHeaderParses(start: nat, end: nat)
    requires start <= end <= MAX_INT64
    ensures ParseSingleByteRange(RangeHeader(start, end)) == Some(RangeSpec(start, end, true, false, 0))
  {
    hide ParseSingleByteRange, FormatInt;
    var spec := RangeSpec(start, end, true, false, 0);
    RangeTextParses(spec);
    assert RangeText(spec) == RangeHeader(start, end);
  }

  // The Content-Range a client or the cache reads back is the one that was written,
  // and the header is accepted exactly when it is consistent and fits int64.
  lemma ContentRangeParses(start: nat, end: nat, total: nat)
    requires start <= MAX_INT64 && end <= MAX_INT64 && total <= MAX_INT64
    ensures ParseContentRange(ContentRangeHeader(start, end, total)) ==
            if start <= end < total then Some(ContentRange(start, end, total)) else None
  {
    hide FormatInt, TrimSpace, Cut, ParseInt64;
    var a, b, t := FormatInt(start), FormatInt(end), FormatInt(total);
    FormatIntPlain(start);
    FormatIntPlain(end);
    FormatIntPlain(total);
    FormatIntValue(total);
    var value := ContentRangeHeader(start, end, total);
    assert value[|value| - 1] == t[|t| - 1] && t[|t| - 1] in t;
    TrimFixed(value);
    var rangePart := a + ['-'] + b;
    assert value[6..] == rangePart + ['/'] + t;
    assert '/' !in rangePart by { assert '/' !in a && '/' !in b; }
    CutAtFirst(rangePart, '/', t);
    assert '-' !in a;
    CutAtFirst(a, '-', b);
    ParseFormatted(start);
    ParseFormatted(end);
    ParseFormatted(total);
  }

  // The text asks for the range: a dash cuts it at its first place, a number behind the
  // dash alone is a suffix, and one before it a start, which an end may follow.
  ghost predicate AsksFor(text: string, spec: RangeSpec) {
    exists a: string, b: string :: text == a + ['-'] + b && '-' !in a &&
      if a == "" then spec == RangeSpec(0, 0, false, true, spec.suffixN) && spec.suffixN > 0 &&
                      ParseInt64(TrimSpace(b)) == Some(spec.suffixN)
      else ParseInt64(TrimSpace(a)) == Some(spec.start) && 0 <= spec.start && !spec.suffix && spec.suffixN == 0 &&
           if TrimSpace(b) == "" then !spec.hasEnd && spec.end == 0
           else spec.hasEnd && spec.start <= spec.end && ParseInt64(TrimSpace(b)) == Some(spec.end)
  }

  // Which fields are accepted, and as what: those of the unit bytes with a single range.
  lemma RangeParsesIff(raw: string, spec: RangeSpec)
    ensures ParseSingleByteRange(raw) == Some(spec) <==>
            exists text: string :: TrimSpace(raw) == "bytes=" + text && ',' !in text && AsksFor(TrimSpace(text), spec)
  {
    hide TrimSpace, Split, Cut, ParseInt64;
    var value := TrimSpace(raw);
    forall text: string | value == "bytes=" + text
      ensures StartsWith(value, "bytes=") && value[6..] == text && value != ""
    {
      assert value[..6] == "bytes=";
    }
    if StartsWith(value, "bytes=") {
      var text := value[6..];
      assert value == "bytes=" + text;
      SplitJoins(text, ',');
      if ',' !in text { SplitOne(text, ','); }
      if |Split(text, ',')| == 1 {
        assert Split(text, ',')[0] == text;
        SplitOne(text, ',');
        CutsOnce(TrimSpace(text), '-');
        if AsksFor(TrimSpace(text), spec) {
          assert ParseSingleByteRange(raw) == Some(spec);
        }
      }
    }
  }

  // A string is cut around a character in one way.
  lemma CutsOnce(s: string, c: char)
    ensures forall a: string, b: string :: s == a + [c] + b && c !in a <==> Cut(s, c) == Some((a, b))
  {
    hide Cut;
    NothingToCut(s, c);
    forall a: string, b: string
      ensures s == a + [c] + b && c !in a <==> Cut(s, c) == Some((a, b))
    {
      if s == a + [c] + b && c !in a { CutAtFirst(a, c, b); }
    }
  }

  // The places a reply may say it is for, and the length of the whole.
  ghost predicate Places(text: string, place: ContentRange) {
    exists a: string, b: string, total: string :: text == a + ['-'] + b + ['/'] + total && '-' !in a && '/' !in a + b &&
      ParseInt64(TrimSpace(a)) == Some(place.start) && ParseInt64(TrimSpace(b)) == Some(place.end) &&
      ParseInt64(TrimSpace(total)) == Some(place.total) && 0 <= place.start <= place.end < place.total
  }

  lemma PlaceParsesIff(raw: string, place: ContentRange)
    ensures ParseContentRange(raw) == Some(place) <==>
            exists text: string :: TrimSpace(raw) == "bytes " + text && Places(text, place)
  {
    hide TrimSpace, Places, ParseContentRange;
    var value := TrimSpace(raw);
    forall text: string | value == "bytes " + text
      ensures ParseContentRange(raw) == Some(place) <==> Places(text, place)
    {
      if Places(text, place) { PlaceParses(raw, text, place); }
      if ParseContentRange(raw) == Some(place) { ParsesPlace(raw, text, place); }
    }
    if ParseContentRange(raw) == Some(place) {
      NeedsUnit(raw);
      assert value == "bytes " + value[6..];
    }
  }

  lemma NeedsUnit(raw: string)
    ensures ParseContentRange(raw).Some? ==> StartsWith(TrimSpace(raw), "bytes ")
  {
  }

  lemma PlaceParses(raw: string, text: string, place: ContentRange)
    requires TrimSpace(raw) == "bytes " + text && Places(text, place)
    ensures ParseContentRange(raw) == Some(place)
  {
    hide TrimSpace, Cut, ParseInt64;
    assert ("bytes " + text)[6..] == text && ("bytes " + text)[..6] == "bytes ";
    var a: string, b: string, total: string :| text == a + ['-'] + b + ['/'] + total && '-' !in a && '/' !in a + b &&
      ParseInt64(TrimSpace(a)) == Some(place.start) && ParseInt64(TrimSpace(b)) == Some(place.end) &&
      ParseInt64(TrimSpace(total)) == Some(place.total) && 0 <= place.start <= place.end < place.total;
    assert '/' !in a + ['-'] + b;
    CutAtFirst(a + ['-'] + b, '/', total);
    CutAtFirst(a, '-', b);
  }

  lemma ParsesPlace(raw: string, text: string, place: ContentRange)
    requires TrimSpace(raw) == "bytes " + text && ParseContentRange(raw) == Some(place)
    ensures Places(text, place)
  {
    hide TrimSpace, Cut, ParseInt64;
    assert ("bytes " + text)[6..] == text;
    NothingToCut(text, '/');
    var (part, total) := Cut(text, '/').value;
    NothingToCut(part, '-');
    var (a, b) := Cut(part, '-').value;
    assert text == a + ['-'] + b + ['/'] + total;
    assert '/' !in a + b by {
      assert forall c :: c in a + b ==> c in part;
    }
  }

  function Resolve(spec: RangeSpec, totalLength: int): Option<Resolved> {
    if totalLength <= 0 then
      if spec.suffix then None
      else if spec.hasEnd then Some(Resolved(spec.start, spec.end))
      else Some(Resolved(spec.start, spec.start))
    else if spec.suffix then
      var n := if spec.suffixN > totalLength then totalLength else spec.suffixN;
      Some(Resolved(totalLength - n, totalLength - 1))
    else if spec.start >= totalLength then None
    else
      var last := totalLength - 1;
      Some(Resolved(spec.start, if spec.hasEnd && spec.end < last then spec.end else last))
  }

  // While the length is unknown a range is taken at its word, an open-ended one as its
  // first position, and a suffix cannot be.
  lemma ResolveUnknown(spec: RangeSpec, total: int)
    requires total <= 0
    ensures Resolve(spec, total).None? <==> spec.suffix
    ensures !spec.suffix && spec.hasEnd ==> Resolve(spec, total) == Some(Resolved(spec.start, spec.end))
    ensures !spec.suffix && !spec.hasEnd ==> Resolve(spec, total) == Some(Resolved(spec.start, spec.start))
  {
  }

  // RFC 9110, section 14.1.2: does the range select position p of a
  // representation of the given length?
  predicate Selects(spec: RangeSpec, total: int, p: int) {
    0 <= p < total &&
    if spec.suffix then total - spec.suffixN <= p
    else spec.start <= p && (spec.hasEnd ==> p <= spec.end)
  }

  // Resolution fails exactly on the unsatisfiable ranges, and otherwise yields
  // exactly the selected positions.
  lemma ResolveMeetsRfc(spec: RangeSpec, total: int)
    requires WellFormed(spec) && total > 0
    ensures Resolve(spec, total).None? <==> (!spec.suffix && spec.start >= total)
    ensures Resolve(spec, total).None? <==> forall p :: !Selects(spec, total, p)
    ensures Resolve(spec, total).Some? ==>
              var r := Resolve(spec, total).value;
              0 <= r.start <= r.end < total &&
              forall p :: Selects(spec, total, p) <==> r.start <= p <= r.end
  {
    match Resolve(spec, total)
    case Some(r) =>
      assert Selects(spec, total, r.start);
    case None =>
  }

  function IndexRange(first: int, last: int): (r: seq<int>)
    ensures |r| == if first <= last then last - first + 1 else 0
    ensures forall k :: 0 <= k < |r| ==> r[k] == first + k
    decreases last - first
  {
    if first > last then [] else [first] + IndexRange(first + 1, last)
  }

  function ChunkIndexes(r: Resolved, chunkSize: int): seq<int>
    requires chunkSize > 0
  {
    IndexRange(r.start / chunkSize, r.end / chunkSize)
  }

  method RequestedChunkIndexes(r: Resolved, chunkSize: int) returns (indexes: seq<int>)
    requires chunkSize > 0
    ensures indexes == ChunkIndexes(r, chunkSize)
  {
    var first, last := r.start / chunkSize, r.end / chunkSize;
    indexes := [];
    var i := first;
    while i <= last
      invariant first <= i && i == (if first <= last then Min(i, last + 1) else first)
      invariant |indexes| == i - first && forall k :: 0 <= k < |indexes| ==> indexes[k] == first + k
    {
      indexes := indexes + [i];
      i := i + 1;
    }
    assert |indexes| == |IndexRange(first, last)|;
  }

  // While the length is unknown, an open-ended range asks for its first chunk only.
  method RequestedChunkIndexesKnown(spec: RangeSpec, r: Option<Resolved>, totalLength: int, chunkSize: int)
    returns (indexes: seq<int>)
    requires WellFormed(spec) && chunkSize > 0
    requires totalLength > 0 ==> r.Some?
    ensures indexes ==
            if totalLength > 0 then ChunkIndexes(r.value, chunkSize)
            else if spec.suffix then []
            else ChunkIndexes(Resolved(spec.start, if spec.hasEnd then spec.end else spec.start), chunkSize)
  {
    if totalLength > 0 {
      indexes := RequestedChunkIndexes(r.value, chunkSize);
    } else if spec.suffix {
      indexes := [];
    } else {
      indexes := RequestedChunkIndexes(Resolved(spec.start, if spec.hasEnd then spec.end else spec.start), chunkSize);
    }
  }

  function Min(a: int, b: int): int {
    if a < b then a else b
  }

  function Max(a: int, b: int): int {
    if a > b then a else b
  }

  function ChunkSliceOffset(r: Resolved, index: int, chunkSize: int): int {
    var chunkStart := index * chunkSize;
    if r.start > chunkStart then r.start - chunkStart else 0
  }

  function ChunkSliceLength(r: Resolved, index: int, chunkSize: int): int {
    var chunkStart := index * chunkSize;
    var chunkEnd := chunkStart + chunkSize - 1;
    Min(r.end, chunkEnd) - Max(r.start, chunkStart) + 1
  }

  // The bytes of the index-th aligned chunk of a body; the last chunk may be short.
  function Chunk<T>(body: seq<T>, index: int, chunkSize: int): seq<T>
    requires 0 <= index * chunkSize < |body| && chunkSize > 0
  {
    body[index * chunkSize..Min(index * chunkSize + chunkSize, |body|)]
  }

  ghost predicate InBody<T>(body: seq<T>, r: Resolved) {
    0 <= r.start <= r.end < |body|
  }

  lemma MulMonotone(a: int, b: int, size: int)
    requires a <= b && size >= 0
    ensures a * size <= b * size
  {
    assert (b - a) * size >= 0;
  }

  lemma MulSuccessor(a: int, size: int)
    ensures (a + 1) * size == a * size + size
  {
  }

  lemma DivBounds(p: int, size: int)
    requires size > 0
    ensures (p / size) * size <= p < (p / size) * size + size
  {
    assert p == (p / size) * size + p % size;
  }

  lemma DivMonotone(a: int, b: int, size: int)
    requires 0 <= a <= b && size > 0
    ensures 0 <= a / size <= b / size
  {
    DivBounds(a, size);
    DivBounds(b, size);
    MulSuccessor(b / size, size);
    if b / size < a / size {
      MulMonotone(b / size + 1, a / size, size);
    }
  }

  lemma IndexBounds(r: Resolved, index: int, chunkSize: int)
    requires chunkSize > 0 && 0 <= r.start <= r.end
    requires r.start / chunkSize <= index <= r.end / chunkSize
    ensures 0 <= index * chunkSize <= r.end
    ensures r.start < index * chunkSize + chunkSize
    ensures index == r.start / chunkSize ==> index * chunkSize <= r.start
    ensures index > r.start / chunkSize ==> r.start < index * chunkSize
    ensures index == r.end / chunkSize ==> r.end < index * chunkSize + chunkSize
    ensures index < r.end / chunkSize ==> index * chunkSize + chunkSize <= r.end
  {
    var first, last := r.start / chunkSize, r.end / chunkSize;
    DivBounds(r.start, chunkSize);
    DivBounds(r.end, chunkSize);
    MulMonotone(0, first, chunkSize);
    MulMonotone(first, index, chunkSize);
    MulMonotone(index, last, chunkSize);
    MulSuccessor(first, chunkSize);
    MulSuccessor(index, chunkSize);
    if index > first { MulMonotone(first + 1, index, chunkSize); }
    if index < last { MulMonotone(index + 1, last, chunkSize); }
  }

  // A requested slice is non-empty and lies inside the real bytes of its chunk.
  lemma SliceInsideChunk<T>(body: seq<T>, r: Resolved, index: int, chunkSize: int)
    requires chunkSize > 0 && InBody(body, r)
    requires r.start / chunkSize <= index <= r.end / chunkSize
    ensures 0 <= index * chunkSize < |body|
    ensures 0 <= ChunkSliceOffset(r, index, chunkSize)
    ensures 1 <= ChunkSliceLength(r, index, chunkSize)
    ensures ChunkSliceOffset(r, index, chunkSize) +
              ChunkSliceLength(r, index, chunkSize) <= |Chunk(body, index, chunkSize)|
  {
    IndexBounds(r, index, chunkSize);
  }

  ghost function Slice<T>(body: seq<T>, r: Resolved, index: int, chunkSize: int): seq<T>
    requires chunkSize > 0 && InBody(body, r)
    requires r.start / chunkSize <= index <= r.end / chunkSize
  {
    SliceInsideChunk(body, r, index, chunkSize);
    var offset := ChunkSliceOffset(r, index, chunkSize);
    Chunk(body, index, chunkSize)[offset..offset + ChunkSliceLength(r, index, chunkSize)]
  }

  // The slices from the given index on, in order.
  ghost function Slices<T>(body: seq<T>, r: Resolved, index: int, chunkSize: int): seq<T>
    requires chunkSize > 0 && InBody(body, r)
    requires r.start / chunkSize <= index
    decreases r.end / chunkSize + 1 - index
  {
    if index > r.end / chunkSize then []
    else Slice(body, r, index, chunkSize) + Slices(body, r, index + 1, chunkSize)
  }

  // One slice, seen from the body.
  lemma SliceOfBody<T>(body: seq<T>, r: Resolved, index: int, chunkSize: int)
    requires chunkSize > 0 && InBody(body, r)
    requires r.start / chunkSize <= index <= r.end / chunkSize
    ensures var from, next := Max(r.start, index * chunkSize), Min(r.end + 1, index * chunkSize + chunkSize);
            0 <= from < next <= |body| && Slice(body, r, index, chunkSize) == body[from..next]
  {
    IndexBounds(r, index, chunkSize);
    SliceInsideChunk(body, r, index, chunkSize);
    var lo := index * chunkSize;
    var offset, length := ChunkSliceOffset(r, index, chunkSize), ChunkSliceLength(r, index, chunkSize);
    SubSlice(body, lo, Min(lo + chunkSize, |body|), offset, offset + length);
  }

  lemma SubSlice<T>(body: seq<T>, lo: int, hi: int, a: int, b: int)
    requires 0 <= lo <= lo + a <= lo + b <= hi <= |body|
    ensures body[lo..hi][a..b] == body[lo + a..lo + b]
  {
    var x, y := body[lo..hi][a..b], body[lo + a..lo + b];
    assert forall k :: 0 <= k < b - a ==> x[k] == body[lo..hi][a + k] == body[lo + a + k] == y[k];
  }

  lemma {:induction false} SlicesTileFrom<T>(body: seq<T>, r: Resolved, index: int, chunkSize: int)
    requires chunkSize > 0 && InBody(body, r)
    requires r.start / chunkSize <= index <= r.end / chunkSize
    ensures 0 <= Max(r.start, index * chunkSize) <= r.end + 1
    ensures Slices(body, r, index, chunkSize) == body[Max(r.start, index * chunkSize)..r.end + 1]
    decreases r.end / chunkSize - index
  {
    IndexBounds(r, index, chunkSize);
    SliceOfBody(body, r, index, chunkSize);
    if index < r.end / chunkSize {
      MulSuccessor(index, chunkSize);
      SlicesTileFrom(body, r, index + 1, chunkSize);
    }
  }

  // The slices of the requested chunks tile the resolved range in order, with
  // neither gap nor overlap. (Taking the body to be its own positions shows that
  // every position appears once.)
  lemma SlicesTile<T>(body: seq<T>, r: Resolved, chunkSize: int)
    requires chunkSize > 0 && InBody(body, r)
    ensures Slices(body, r, r.start / chunkSize, chunkSize) == body[r.start..r.end + 1]
  {
    assert r.start / chunkSize <= r.end / chunkSize by { DivMonotone(r.start, r.end, chunkSize); }
    SlicesTileFrom(body, r, r.start / chunkSize, chunkSize);
    IndexBounds(r, r.start / chunkSize, chunkSize);
  }

  function SumLengths(r: Resolved, index: int, chunkSize: int): int
    requires chunkSize > 0
    decreases r.end / chunkSize + 1 - index
  {
    if index > r.end / chunkSize then 0
    else ChunkSliceLength(r, index, chunkSize) + SumLengths(r, index + 1, chunkSize)
  }

  // The slice lengths add up to the Content-Length that is announced.
  lemma {:induction false} LengthsSum<T>(body: seq<T>, r: Resolved, index: int, chunkSize: int)
    requires chunkSize > 0 && InBody(body, r)
    requires r.start / chunkSize <= index
    ensures SumLengths(r, index, chunkSize) == |Slices(body, r, index, chunkSize)|
    decreases r.end / chunkSize + 1 - index
  {
    if index <= r.end / chunkSize {
      SliceInsideChunk(body, r, index, chunkSize);
      LengthsSum(body, r, index + 1, chunkSize);
    }
  }

  // No int64 computation of the tiling overflows when the chunk size divides 2^63,
  // as the default size does, even for positions up to the largest int64.
  lemma TilingFitsInt64(p: int, chunkSize: int)
    requires chunkSize > 0 && 0 <= p <= MAX_INT64 && (MAX_INT64 + 1) % chunkSize == 0
    ensures 0 <= (p / chunkSize) * chunkSize <= p
    ensures p <= (p / chunkSize) * chunkSize + chunkSize - 1 <= MAX_INT64
  {
    var q, n := p / chunkSize, (MAX_INT64 + 1) / chunkSize;
    DivBounds(p, chunkSize);
    assert MAX_INT64 + 1 == n * chunkSize + (MAX_INT64 + 1) % chunkSize;
    DivMonotone(0, p, chunkSize);
    MulMonotone(0, q, chunkSize);
    MulSuccessor(q, chunkSize);
    if q >= n {
      MulMonotone(n, q, chunkSize);
    } else {
      MulMonotone(q + 1, n, chunkSize);
    }
  }
}
