/** Splitting of safe text into stored chunks, the manifest rules it must meet, and the quota
    that always leaves room for one more limit marker (runtime/safe_text.go,
    contracts/transcript-view/types.go). */
module SafeText {
  import opened Wrappers
  import opened Utf8

  const MAX_PREVIEW := 64 * 1024
  const MAX_CHUNK := 16 * 1024 * 1024
  const MAX_TEXT := 512 * 1024 * 1024
  const MAX_CHUNKS := 64

  // ---- boundaries -----------------------------------------------------------------------

  /** The last scalar boundary at or before `n`, in well-formed bytes from `i` to `j`. */
  function FloorAt(b: Bytes, i: nat, j: nat, n: nat): (k: nat)
    requires i <= j <= |b| && i <= n && ValidRange(b, i, j)
    ensures i <= k <= j && k <= n
    decreases j - i
  {
    if i == j || i + WidthAt(b, i, j) > n then i else FloorAt(b, i + WidthAt(b, i, j), j, n)
  }

  lemma PrefixWidth(b: Bytes, i: nat, k: nat, j: nat)
    requires i <= k <= j <= |b|
    ensures WidthAt(b, i, j) > 0 && i + WidthAt(b, i, j) <= k ==> WidthAt(b, i, k) == WidthAt(b, i, j)
    ensures WidthAt(b, i, k) > 0 ==> WidthAt(b, i, j) == WidthAt(b, i, k)
  {
  }

  /** Backing off to a boundary leaves both sides well-formed and costs at most three bytes. */
  lemma {:induction false} FloorSplits(b: Bytes, i: nat, j: nat, n: nat)
    requires i <= n <= j <= |b| && ValidRange(b, i, j)
    ensures ValidRange(b, i, FloorAt(b, i, j, n)) && ValidRange(b, FloorAt(b, i, j, n), j) && n - FloorAt(b, i, j, n) <= 3
    decreases j - i
  {
    var w := WidthAt(b, i, j);
    if i < j && i + w <= n {
      FloorSplits(b, i + w, j, n);
      PrefixWidth(b, i, FloorAt(b, i, j, n), j);
    }
  }

  /** A well-formed prefix of a well-formed text ends at a boundary. */
  lemma {:induction false} FloorIsLast(b: Bytes, i: nat, j: nat, n: nat, k: nat)
    requires i <= k <= j <= |b| && k <= n && ValidRange(b, i, j) && ValidRange(b, i, k)
    ensures k <= FloorAt(b, i, j, n)
    decreases j - i
  {
    if i < k {
      PrefixWidth(b, i, k, j);
      FloorIsLast(b, i + WidthAt(b, i, j), j, n, k);
    }
  }

  lemma {:induction false} WholeIsFloor(b: Bytes, i: nat, j: nat)
    requires i <= j <= |b| && ValidRange(b, i, j)
    ensures FloorAt(b, i, j, j) == j
    decreases j - i
  {
    if i < j {
      WholeIsFloor(b, i + WidthAt(b, i, j), j);
    }
  }

  /** The text is well-formed from `start` on. */
  predicate ValidFrom(value: Bytes, start: nat)
    requires start <= |value|
  {
    ValidRange(value, start, |value|)
  }

  /** Shrinks a candidate end until the bytes up to it are well-formed: the last boundary at or before it. */
  method BackOff(value: Bytes, start: nat, limit: nat) returns (end: nat)
    requires start <= limit <= |value|
    ensures start <= end <= limit && ValidRange(value, start, end)
    ensures ValidFrom(value, start) ==> end == FloorAt(value, start, |value|, limit)
  {
    end := limit;
    while end > start && !ValidRange(value, start, end)
      invariant start <= end <= limit
      invariant ValidFrom(value, start) ==> FloorAt(value, start, |value|, limit) <= end
    {
      if ValidFrom(value, start) {
        FloorSplits(value, start, |value|, limit);
      }
      end := end - 1;
    }
    if ValidFrom(value, start) {
      FloorIsLast(value, start, |value|, limit, end);
    }
  }

  /** At most 64 KiB of the text, cut at a boundary. */
  method Preview(value: Bytes) returns (preview: Bytes)
    ensures |preview| <= MAX_PREVIEW && preview <= value
    ensures |value| <= MAX_PREVIEW ==> preview == value
    ensures |value| > MAX_PREVIEW ==> ValidBytes(preview)
    ensures ValidBytes(value) && |value| > MAX_PREVIEW ==> |preview| == FloorAt(value, 0, |value|, MAX_PREVIEW) >= MAX_PREVIEW - 3
  {
    if |value| <= MAX_PREVIEW {
      return value;
    }
    var end := BackOff(value, 0, MAX_PREVIEW);
    SliceIsRange(value, 0, end);
    assert value[0..end] == value[..end];
    if ValidBytes(value) {
      FloorSplits(value, 0, |value|, MAX_PREVIEW);
    }
    return value[..end];
  }

  // ---- chunks -------------------------------------------------------------------------------

  /** A chunk of a text: its place, its size, and the identifier derived from the text and its index. */
  datatype Chunk = Chunk(index: nat, offset: nat, size: nat, artifact: (nat, nat))

  /** Where the last chunk ends. */
  function End(chunks: seq<Chunk>): nat {
    if chunks == [] then 0 else chunks[|chunks| - 1].offset + chunks[|chunks| - 1].size
  }

  /** The chunks lie end to end from the start of the text, none empty and none too large. */
  ghost predicate Tiles(chunks: seq<Chunk>) {
    && (forall i :: 0 <= i < |chunks| ==> chunks[i].index == i && 1 <= chunks[i].size <= MAX_CHUNK)
    && (chunks != [] ==> chunks[0].offset == 0)
    && (forall i :: 0 < i < |chunks| ==> chunks[i].offset == chunks[i - 1].offset + chunks[i - 1].size)
  }

  lemma {:induction false} TilesInside(chunks: seq<Chunk>, i: nat)
    requires Tiles(chunks) && i < |chunks|
    ensures chunks[i].offset + chunks[i].size <= End(chunks)
    decreases |chunks| - i
  {
    if i < |chunks| - 1 {
      TilesInside(chunks, i + 1);
    }
  }

  function Part(value: Bytes, chunk: Chunk): Bytes
    requires chunk.offset + chunk.size <= |value|
  {
    value[chunk.offset..chunk.offset + chunk.size]
  }

  function Joined(value: Bytes, chunks: seq<Chunk>): Bytes
    requires forall i :: 0 <= i < |chunks| ==> chunks[i].offset + chunks[i].size <= |value|
  {
    if chunks == [] then [] else Joined(value, chunks[..|chunks| - 1]) + Part(value, chunks[|chunks| - 1])
  }

  ghost predicate WellFormed(value: Bytes, chunk: Chunk) {
    chunk.offset + chunk.size <= |value| && ValidBytes(Part(value, chunk))
  }

  ghost predicate AllWellFormed(value: Bytes, chunks: seq<Chunk>) {
    forall i :: 0 <= i < |chunks| ==> WellFormed(value, chunks[i])
  }

  /** A chunk is more than three bytes short of the maximum only at the end of the text. */
  ghost predicate NearlyFull(length: nat, chunks: seq<Chunk>) {
    forall i :: 0 <= i < |chunks| ==> chunks[i].offset + chunks[i].size < length ==> chunks[i].size >= MAX_CHUNK - 3
  }

  /** All but the last chunk are nearly full, so there are few of them. */
  lemma {:induction false} FewChunks(length: nat, chunks: seq<Chunk>, i: nat)
    requires Tiles(chunks) && End(chunks) == length && i < |chunks| && NearlyFull(length, chunks)
    ensures chunks[i].offset >= i * (MAX_CHUNK - 3)
  {
    if i > 0 {
      FewChunks(length, chunks, i - 1);
      TilesInside(chunks, i);
    }
  }

  lemma {:induction false} JoinedIsPrefix(value: Bytes, chunks: seq<Chunk>)
    requires Tiles(chunks) && forall i :: 0 <= i < |chunks| ==> chunks[i].offset + chunks[i].size <= |value|
    ensures End(chunks) <= |value| && Joined(value, chunks) == value[..End(chunks)]
  {
    if chunks != [] {
      var init, last := chunks[..|chunks| - 1], chunks[|chunks| - 1];
      assert forall i :: 0 <= i < |init| ==> init[i] == chunks[i];
      assert Tiles(init);
      JoinedIsPrefix(value, init);
      assert value[..End(init)] + Part(value, last) == value[..End(chunks)];
    }
  }

  /** Where the splitter ends the chunk at `offset`: as far on as fits, back to the last scalar boundary. */
  function CutAt(value: Bytes, offset: nat): nat
    requires offset <= |value| && ValidFrom(value, offset)
  {
    FloorAt(value, offset, |value|, if offset + MAX_CHUNK > |value| then |value| else offset + MAX_CHUNK)
  }

  ghost predicate AllCut(value: Bytes, chunks: seq<Chunk>) {
    forall i :: 0 <= i < |chunks| ==>
      chunks[i].offset <= |value| && ValidFrom(value, chunks[i].offset) && chunks[i].offset + chunks[i].size == CutAt(value, chunks[i].offset)
  }

  /** The chunking loop. On well-formed text it never meets an invalid boundary: the chunks join to the text, each is
      well-formed and of legal size, and there are at most 33 of them. */
  method Chunked(value: Bytes, text: nat) returns (r: Option<seq<Chunk>>)
    ensures ValidBytes(value) ==> r.Some?
    ensures r.Some? ==> Tiles(r.value) && End(r.value) == |value|
    ensures r.Some? ==> (forall i :: 0 <= i < |r.value| ==> r.value[i].offset + r.value[i].size <= |value|) && Joined(value, r.value) == value
    ensures r.Some? && ValidBytes(value) ==> AllWellFormed(value, r.value) && NearlyFull(|value|, r.value) && AllCut(value, r.value)
    ensures r.Some? && ValidBytes(value) && |value| <= MAX_TEXT ==> |r.value| <= 33
    ensures r.Some? ==> forall i :: 0 <= i < |r.value| ==> r.value[i].artifact == (text, i)
  {
    var chunks: seq<Chunk> := [];
    var start := 0;
    while start < |value|
      invariant 0 <= start <= |value| && CutUpTo(value, text, chunks, start)
      invariant ValidBytes(value) ==> ValidFrom(value, start) && AllWellFormed(value, chunks) && NearlyFull(|value|, chunks)
      invariant ValidBytes(value) ==> AllCut(value, chunks)
      decreases |value| - start
    {
      var end := NextEnd(value, start);
      if end == start {
        return None;
      }
      SliceIsRange(value, start, end);
      OneMore(value, text, chunks, start, end);
      chunks := chunks + [Chunk(|chunks|, start, end - start, (text, |chunks|))];
      start := end;
    }
    JoinedIsPrefix(value, chunks);
    assert value[..|value|] == value;
    AtMost33(|value|, chunks);
    return Some(chunks);
  }

  lemma AtMost33(length: nat, chunks: seq<Chunk>)
    requires Tiles(chunks) && End(chunks) == length
    ensures NearlyFull(length, chunks) && length <= MAX_TEXT ==> |chunks| <= 33
  {
    if NearlyFull(length, chunks) && chunks != [] {
      FewChunks(length, chunks, |chunks| - 1);
    }
  }

  ghost predicate CutUpTo(value: Bytes, text: nat, chunks: seq<Chunk>, start: nat) {
    && Tiles(chunks) && End(chunks) == start
    && forall i :: 0 <= i < |chunks| ==> chunks[i].artifact == (text, i) && chunks[i].offset + chunks[i].size <= start
  }

  lemma OneMore(value: Bytes, text: nat, chunks: seq<Chunk>, start: nat, end: nat)
    requires CutUpTo(value, text, chunks, start) && start < end <= |value| && end - start <= MAX_CHUNK
    ensures CutUpTo(value, text, chunks + [Chunk(|chunks|, start, end - start, (text, |chunks|))], end)
    ensures AllWellFormed(value, chunks) && ValidBytes(value[start..end]) ==>
      AllWellFormed(value, chunks + [Chunk(|chunks|, start, end - start, (text, |chunks|))])
    ensures NearlyFull(|value|, chunks) && (end < |value| ==> end - start >= MAX_CHUNK - 3) ==>
      NearlyFull(|value|, chunks + [Chunk(|chunks|, start, end - start, (text, |chunks|))])
  {
  }

  /** The end of the next chunk; from a boundary it makes progress and is at most three bytes short of the maximum. */
  method NextEnd(value: Bytes, start: nat) returns (end: nat)
    requires start < |value|
    ensures start <= end <= |value| && end - start <= MAX_CHUNK && ValidRange(value, start, end)
    ensures ValidFrom(value, start) ==>
      && start < end && ValidFrom(value, end) && end == CutAt(value, start)
      && (end < |value| ==> end - start >= MAX_CHUNK - 3)
  {
    var limit := if start + MAX_CHUNK > |value| then |value| else start + MAX_CHUNK;
    end := BackOff(value, start, limit);
    if ValidFrom(value, start) {
      FloorSplits(value, start, |value|, limit);
      WholeIsFloor(value, start, |value|);
    }
  }

  // ---- a text that is cut short --------------------------------------------------------------

  const MEBIBYTE := 1024 * 1024

  function Letters(n: nat): Bytes {
    seq(n, _ => 0x61)
  }

  /** One scalar of two bytes across the end of the first 16 MiB, and 17 MiB in all. */
  function Straddling(): (t: Bytes)
    ensures |t| == 17 * MEBIBYTE
  {
    Letters(MAX_CHUNK - 1) + [0xC3, 0xA9] + Letters(MEBIBYTE - 1)
  }

  /** A run of letters is well-formed and has a boundary after each. */
  lemma {:induction false} LettersRun(b: Bytes, i: nat, j: nat, m: nat, n: nat)
    requires i <= i + m <= j <= |b| && i + m <= n && forall k :: i <= k < i + m ==> b[k] == 0x61
    ensures ValidRange(b, i, j) <==> ValidRange(b, i + m, j)
    ensures ValidRange(b, i, j) ==> FloorAt(b, i, j, n) == FloorAt(b, i + m, j, n)
    decreases m
  {
    if m > 0 {
      assert b[i] == 0x61;
      LettersRun(b, i + 1, j, m - 1, n);
    }
  }

  lemma StraddlingCuts()
    ensures var t := Straddling();
      && ValidBytes(t) && CutAt(t, 0) == MAX_CHUNK - 1
      && ValidFrom(t, MAX_CHUNK - 1) && CutAt(t, MAX_CHUNK - 1) == |t|
  {
    var t, i, j := Straddling(), MAX_CHUNK - 1, 17 * MEBIBYTE;
    assert t[i] == 0xC3 && t[i + 1] == 0xA9;
    assert WidthAt(t, i, j) == 2;
    LettersRun(t, i + 2, j, MEBIBYTE - 1, j);
    LettersRun(t, 0, j, i, MAX_CHUNK);
    WholeIsFloor(t, i, j);
  }

  /** The splitter cuts it into a chunk one byte short and a chunk one byte over a mebibyte. */
  lemma StraddlingChunks(chunks: seq<Chunk>)
    requires Tiles(chunks) && End(chunks) == |Straddling()| && AllCut(Straddling(), chunks)
    ensures |chunks| == 2 && chunks[0].offset == 0 && chunks[0].size == MAX_CHUNK - 1
    ensures chunks[1].offset == MAX_CHUNK - 1 && chunks[1].size == MEBIBYTE + 1
  {
    StraddlingCuts();
    var first := chunks[0];
    assert first.offset == 0 && first.size == MAX_CHUNK - 1;
    assert |chunks| == 1 ==> End(chunks) == first.size;
    var i, second := 1, chunks[1];
    assert chunks[i].offset == chunks[i - 1].offset + chunks[i - 1].size;
    assert second.offset == MAX_CHUNK - 1 && second.offset + second.size == 17 * MEBIBYTE;
    if |chunks| > 2 {
      TilesInside(chunks, 2);
    }
  }

  // ---- the manifest rules --------------------------------------------------------------------

  datatype Manifest = Manifest(complete: bool, limitReason: bool, size: nat, preview: Bytes, chunks: seq<Chunk>)

  ghost predicate Distinct(chunks: seq<Chunk>) {
    forall i, j :: 0 <= i < j < |chunks| ==> chunks[i].artifact != chunks[j].artifact
  }

  /** What a reader requires of a manifest's sizes, indexes, offsets and identifiers. */
  ghost predicate Acceptable(m: Manifest) {
    && ValidBytes(m.preview) && |m.preview| <= MAX_PREVIEW
    && (!m.complete ==> m.limitReason && m.chunks == [])
    && (m.complete ==> !m.limitReason && m.size <= MAX_TEXT && |m.chunks| <= MAX_CHUNKS
                       && Tiles(m.chunks) && End(m.chunks) == m.size && Distinct(m.chunks))
  }

  method Validate(m: Manifest) returns (ok: bool)
    ensures ok <==> Acceptable(m)
  {
    if !ValidBytes(m.preview) || |m.preview| > MAX_PREVIEW {
      return false;
    }
    if !m.complete {
      return m.limitReason && m.chunks == [];
    }
    if m.limitReason || m.size > MAX_TEXT || |m.chunks| > MAX_CHUNKS {
      return false;
    }
    if m.size == 0 {
      return m.chunks == [];
    }
    ok := ValidateChunks(m.chunks, m.size);
  }

  method ValidateChunks(chunks: seq<Chunk>, size: nat) returns (ok: bool)
    requires size > 0
    ensures ok <==> Tiles(chunks) && End(chunks) == size && Distinct(chunks)
  {
    if chunks == [] {
      return false;
    }
    var offset := 0;
    var seen: set<(nat, nat)> := {};
    for i := 0 to |chunks|
      invariant offset == End(chunks[..i]) && Tiles(chunks[..i]) && Distinct(chunks[..i])
      invariant forall k :: 0 <= k < i ==> chunks[k].artifact in seen
      invariant forall a :: a in seen ==> exists k :: 0 <= k < i && chunks[k].artifact == a
    {
      var chunk := chunks[i];
      TilesFit(chunks, i);
      DistinctNext(chunks, i);
      if chunk.index != i || chunk.offset != offset || chunk.size < 1 || chunk.size > MAX_CHUNK || chunk.artifact in seen {
        return false;
      }
      seen := seen + {chunk.artifact};
      offset := offset + chunk.size;
    }
    assert chunks[..|chunks|] == chunks;
    return offset == size;
  }

  /** The chunk at `i` goes on where the ones before it end. */
  predicate Fits(chunks: seq<Chunk>, i: nat)
    requires i < |chunks|
  {
    chunks[i].index == i && chunks[i].offset == End(chunks[..i]) && 1 <= chunks[i].size <= MAX_CHUNK
  }

  lemma TilesFit(chunks: seq<Chunk>, i: nat)
    requires i < |chunks| && Tiles(chunks[..i])
    ensures End(chunks[..i + 1]) == chunks[i].offset + chunks[i].size
    ensures Tiles(chunks[..i + 1]) <==> Fits(chunks, i)
    ensures Tiles(chunks) ==> Fits(chunks, i)
  {
    var front, next := chunks[..i], chunks[..i + 1];
    assert forall k :: 0 <= k < i ==> next[k] == front[k] == chunks[k];
    assert next[i] == chunks[i];
    assert i > 0 ==> End(front) == chunks[i - 1].offset + chunks[i - 1].size;
  }

  lemma DistinctNext(chunks: seq<Chunk>, i: nat)
    requires i < |chunks| && Distinct(chunks[..i])
    ensures Distinct(chunks[..i + 1]) <==> forall k :: 0 <= k < i ==> chunks[k].artifact != chunks[i].artifact
  {
    var front, next := chunks[..i], chunks[..i + 1];
    assert forall k :: 0 <= k < i ==> next[k] == front[k] == chunks[k];
    assert next[i] == chunks[i];
  }

  /** What the splitter produces, the reader accepts. */
  lemma ChunkedIsAcceptable(value: Bytes, text: nat, chunks: seq<Chunk>, preview: Bytes)
    requires ValidBytes(value) && |value| <= MAX_TEXT && Tiles(chunks) && End(chunks) == |value| && |chunks| <= 33
    requires forall i :: 0 <= i < |chunks| ==> chunks[i].artifact == (text, i)
    requires ValidBytes(preview) && |preview| <= MAX_PREVIEW
    ensures Acceptable(Manifest(true, false, |value|, preview, chunks))
    ensures Acceptable(Manifest(false, true, |value|, preview, []))
  {
  }
}
