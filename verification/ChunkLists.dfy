/** The ordered chunk list of a file, and the loop that decides whether it is complete. */
module ChunkLists {
  import opened Metadata
  import opened Sorting
  import opened Listing
  import opened Upload
  import opened UploadInvariants

  predicate ByIndex(a: Chunk, b: Chunk) {
    a.index < b.index
  }

  /** `l` lists the chunks of the file, each once, in index order. */
  ghost predicate IsChunkList(chunks: Chunks, f: FileId, l: seq<Chunk>) {
    && (forall j :: 0 <= j < |l| ==> Of(chunks, l[j].id, f) && chunks[l[j].id] == l[j])
    && (forall c :: Of(chunks, c, f) ==> chunks[c] in l)
    && Sorted(ByIndex, l)
  }

  lemma ChunkListUnique(chunks: Chunks, f: FileId, l: seq<Chunk>, m: seq<Chunk>)
    requires ChunksOk(chunks) && IsChunkList(chunks, f, l) && IsChunkList(chunks, f, m)
    ensures l == m
  {
    forall x ensures x in Elements(l) <==> x in Elements(m) {
    }
    IndexOrder(chunks, f, Elements(l));
    SortedUnique(ByIndex, l, m);
  }

  lemma IndexOrder(chunks: Chunks, f: FileId, xs: set<Chunk>)
    requires ChunksOk(chunks) && forall x :: x in xs ==> Of(chunks, x.id, f) && chunks[x.id] == x
    ensures StrictTotalOn(ByIndex, xs)
  {
    forall x, y | x in xs && y in xs ensures x == y || ByIndex(x, y) || ByIndex(y, x) {
      if x.index == y.index {
        assert SameSlot(chunks[x.id], chunks[y.id]);
      }
    }
  }

  /** listChunksByFile: collect, then sort. */
  method ListChunksByFile(s: State, f: FileId) returns (l: seq<Chunk>)
    requires ChunksOk(s.chunks)
    ensures IsChunkList(s.chunks, f, l)
  {
    assert Injective(s.chunks);
    var ofFile := (c: Chunk) => c.fileId == f;
    l := ListWhere(s.chunks, ofFile, ByIndex);
    IndexOrder(s.chunks, f, Matching(s.chunks, ofFile));
    assert forall x :: x in l <==> x in Elements(l);
  }

  /** currentStoredSize: the largest end seen. */
  method CurrentStoredSize(ghost chunks: Chunks, ghost f: FileId, l: seq<Chunk>) returns (stored: int)
    requires IsChunkList(chunks, f, l)
    ensures stored == StoredSize(chunks, f)
  {
    stored := 0;
    for i := 0 to |l|
      invariant stored >= 0
      invariant forall j :: 0 <= j < i ==> End(l[j]) <= stored
      invariant stored == 0 || exists j :: 0 <= j < i && End(l[j]) == stored
    {
      if End(l[i]) > stored {
        stored := End(l[i]);
      }
    }
    assert IsMaxEnd(chunks, f, stored) by {
      if stored != 0 {
        var j :| 0 <= j < |l| && End(l[j]) == stored;
        assert Of(chunks, l[j].id, f) && End(chunks[l[j].id]) == stored;
      }
    }
    MaxEndUnique(chunks, f, stored, StoredSize(chunks, f));
  }

  // ---------------------------------------------------------------- completeness

  /** What the loop establishes about the list. */
  predicate ListTiles(l: seq<Chunk>, size: int) {
    && l != []
    && (forall j :: 0 <= j < |l| ==> l[j].offset == j * CHUNK_SIZE)
    && (forall j :: 0 <= j < |l| - 1 ==> l[j].size == CHUNK_SIZE)
    && End(l[|l| - 1]) == size
  }

  lemma ListTilesCovers(chunks: Chunks, f: FileId, l: seq<Chunk>, size: int)
    requires ChunksOk(chunks) && IsChunkList(chunks, f, l) && ListTiles(l, size)
    ensures Tiles(chunks, f, size)
  {
    assert Of(chunks, l[0].id, f);
    forall c | Of(chunks, c, f) ensures End(chunks[c]) <= size {
      var j :| 0 <= j < |l| && l[j] == chunks[c];
    }
    forall p | 0 <= p < size ensures CoveredAt(chunks, f, p) {
      var k := p / CHUNK_SIZE;
      var last := |l| - 1;
      var j := if k < last then k else last;
      assert l[j].offset == j * CHUNK_SIZE;
      assert Of(chunks, l[j].id, f) && Covers(chunks[l[j].id], p);
    }
  }

  predicate ListHasIndex(l: seq<Chunk>, k: int) {
    exists m :: 0 <= m < |l| && l[m].index == k
  }

  /** A sorted list whose indices leave no gap has index j at position j. */
  lemma {:induction false} GaplessPositions(l: seq<Chunk>, j: nat)
    requires Sorted(ByIndex, l) && j < |l|
    requires forall i :: 0 <= i < |l| ==> l[i].index >= 0
    requires forall i, k :: 0 <= i < |l| && 0 <= k < l[i].index ==> ListHasIndex(l, k)
    ensures forall i :: 0 <= i <= j ==> l[i].index == i
  {
    if j > 0 {
      GaplessPositions(l, j - 1);
    }
    SkippedIndex(l, j);
  }

  lemma SkippedIndex(l: seq<Chunk>, j: nat)
    requires Sorted(ByIndex, l) && j < |l| && l[0].index >= 0
    requires forall i :: 0 <= i < j ==> l[i].index == i
    ensures l[j].index >= j
    ensures l[j].index > j ==> !ListHasIndex(l, j)
  {
    assert j > 0 ==> ByIndex(l[j - 1], l[j]);
    if l[j].index > j {
      forall m | 0 <= m < |l| ensures l[m].index != j {
        assert m > j ==> ByIndex(l[j], l[m]);
      }
    }
  }

  /** In a tiled file the j-th chunk has index j. */
  lemma PositionIsIndex(chunks: Chunks, f: FileId, l: seq<Chunk>, size: int)
    requires ChunksOk(chunks) && IsChunkList(chunks, f, l) && Tiles(chunks, f, size)
    ensures forall i :: 0 <= i < |l| ==> l[i].index == i
  {
    TilingHasNoGap(chunks, f, size);
    forall i, k | 0 <= i < |l| && 0 <= k < l[i].index ensures ListHasIndex(l, k) {
      assert Of(chunks, l[i].id, f);
      assert HasIndex(chunks, f, k);
      var c :| c in chunks && Of(chunks, c, f) && chunks[c].index == k;
      assert chunks[c] in l;
    }
    if |l| > 0 {
      assert forall i :: 0 <= i < |l| ==> Of(chunks, l[i].id, f);
      GaplessPositions(l, |l| - 1);
    }
  }

  lemma CoversListTiles(chunks: Chunks, f: FileId, l: seq<Chunk>, size: int)
    requires ChunksOk(chunks) && IsChunkList(chunks, f, l) && Tiles(chunks, f, size)
    ensures ListTiles(l, size)
  {
    var c0 :| Of(chunks, c0, f);
    assert chunks[c0] in l;
    PositionIsIndex(chunks, f, l, size);
    assert forall j :: 0 <= j < |l| ==> Of(chunks, l[j].id, f);
    forall j | 0 <= j < |l| - 1 ensures l[j].size == CHUNK_SIZE {
      FullBefore(chunks, f, l, size, j);
    }
    LastReaches(chunks, f, l, size);
  }

  lemma LastReaches(chunks: Chunks, f: FileId, l: seq<Chunk>, size: int)
    requires ChunksOk(chunks) && IsChunkList(chunks, f, l) && Tiles(chunks, f, size) && l != []
    ensures End(l[|l| - 1]) == size
  {
    var last := |l| - 1;
    assert Of(chunks, l[last].id, f);
    TilingHasNoGap(chunks, f, size);
    if size != 0 {
      var c :| Of(chunks, c, f) && End(chunks[c]) == size;
      var j :| 0 <= j < |l| && l[j] == chunks[c];
      assert j < last ==> ByIndex(l[j], l[last]);
    }
  }

  /** A chunk with a successor is full: the byte before the successor must be covered by it. */
  lemma FullBefore(chunks: Chunks, f: FileId, l: seq<Chunk>, size: int, j: nat)
    requires ChunksOk(chunks) && IsChunkList(chunks, f, l) && Tiles(chunks, f, size) && j + 1 < |l|
    requires l[j].index == j && l[j + 1].index == j + 1
    ensures l[j].size == CHUNK_SIZE
  {
    assert Of(chunks, l[j].id, f) && Of(chunks, l[j + 1].id, f);
    var p := (j + 1) * CHUNK_SIZE - 1;
    assert End(l[j + 1]) <= size;
    assert CoveredAt(chunks, f, p);
    var c :| Of(chunks, c, f) && Covers(chunks[c], p);
    SlotOf(chunks[c], p);
    assert SameSlot(chunks[c], chunks[l[j].id]);
  }

  predicate ListReadable(l: seq<Chunk>) {
    forall j :: 0 <= j < |l| ==> l[j].status != ChunkCorrupted && l[j].status != ChunkFailed
  }

  lemma ReadyIff(chunks: Chunks, f: FileId, l: seq<Chunk>, expected: int)
    requires ChunksOk(chunks) && IsChunkList(chunks, f, l)
    ensures Tiles(chunks, f, expected) <==> ListTiles(l, expected)
    ensures Readable(chunks, f) <==> ListReadable(l)
    ensures Tiles(chunks, f, expected) ==> StoredSize(chunks, f) == expected
  {
    if Tiles(chunks, f, expected) {
      CoversListTiles(chunks, f, l, expected);
      TilingHasNoGap(chunks, f, expected);
      MaxEndUnique(chunks, f, expected, StoredSize(chunks, f));
    }
    if ListTiles(l, expected) {
      ListTilesCovers(chunks, f, l, expected);
    }
    assert forall j :: 0 <= j < |l| ==> Of(chunks, l[j].id, f);
    if ListReadable(l) {
      forall c | Of(chunks, c, f) ensures chunks[c].status != ChunkCorrupted && chunks[c].status != ChunkFailed {
        var j :| 0 <= j < |l| && l[j] == chunks[c];
      }
    }
  }

  /** ensureFileReadyForVerification: the loop accepts exactly the lists whose chunks cover every
      byte of the expected size, reach no further, and are all readable. */
  method EnsureReadyForVerification(ghost chunks: Chunks, ghost f: FileId, l: seq<Chunk>, stored: int, expected: int)
    returns (ok: bool)
    requires ChunksOk(chunks) && IsChunkList(chunks, f, l) && stored == StoredSize(chunks, f)
    ensures ok <==> Tiles(chunks, f, expected) && Readable(chunks, f)
  {
    ReadyIff(chunks, f, l, expected);
    if |l| == 0 || stored != expected {
      return false;
    }
    ok := ScanList(l, expected);
  }

  /** The scanning loop itself. */
  method ScanList(l: seq<Chunk>, expected: int) returns (ok: bool)
    requires l != []
    ensures ok <==> ListTiles(l, expected) && ListReadable(l)
  {
    var nextOffset := 0;
    for i := 0 to |l|
      invariant forall j :: 0 <= j < i ==> l[j].offset == j * CHUNK_SIZE
      invariant forall j :: 0 <= j < i && j < |l| - 1 ==> l[j].size == CHUNK_SIZE
      invariant ListReadable(l[..i])
      invariant nextOffset == if i == 0 then 0 else End(l[i - 1])
    {
      if l[i].offset != nextOffset {
        assert i > 0 ==> nextOffset == i * CHUNK_SIZE;
        return false;
      }
      if i < |l| - 1 && l[i].size != CHUNK_SIZE {
        return false;
      }
      if l[i].status == ChunkCorrupted || l[i].status == ChunkFailed {
        return false;
      }
      assert l[..i + 1] == l[..i] + [l[i]];
      nextOffset := nextOffset + l[i].size;
    }
    assert l[..|l|] == l;
    ok := nextOffset == expected;
  }
}
