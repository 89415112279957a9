/** How the gateway cuts a file into chunks (internal/gateway/http.go): one part per CHUNK_SIZE
    bytes, each stored under its own chunk id. */
module Parts {
  import opened Metadata
  import opened Strings
  import opened Upload

  function ChunkCount(size: int): int {
    if size <= 0 then 0
    else if size % CHUNK_SIZE != 0 then size / CHUNK_SIZE + 1 else size / CHUNK_SIZE
  }

  /** The id of part `i`: the base id alone if there is only one part. */
  function PartId(base: ChunkId, i: nat, total: int): ChunkId {
    if total <= 1 then base else base + "-" + Decimal(i)
  }

  lemma PartIdInjective(base: ChunkId, i: nat, j: nat, total: int)
    requires i < total && j < total && PartId(base, i, total) == PartId(base, j, total)
    ensures i == j
  {
    if total > 1 {
      assert PartId(base, i, total)[|base| + 1..] == Decimal(i) && PartId(base, j, total)[|base| + 1..] == Decimal(j);
      DecimalInjective(i, j);
    }
  }

  /** Where part `i` starts, capped at the end of the content. */
  function Start(content: Bytes, i: nat): nat {
    if i * CHUNK_SIZE < |content| then i * CHUNK_SIZE else |content|
  }

  function Part(content: Bytes, i: nat): Bytes {
    content[Start(content, i)..Start(content, i + 1)]
  }

  /** The parts before the last are full; the parts in order make up the content. */
  lemma PartSize(content: Bytes, i: nat)
    ensures |Part(content, i)| <= CHUNK_SIZE
    ensures i < ChunkCount(|content|) <==> i * CHUNK_SIZE < |content|
    ensures i < ChunkCount(|content|) ==> |Part(content, i)| > 0 && Start(content, i) == i * CHUNK_SIZE
  {
  }

  /** A file of at most 4 MiB has one part, stored under the base id; otherwise part `i` is the bytes
      from `i` times 4 MiB on, at most 4 MiB of them, under the base id, a dash and its number. */
  lemma PartIs(base: ChunkId, content: Bytes, i: nat)
    requires i * 4194304 < |content|
    ensures Part(content, i) ==
            content[i * 4194304..if (i + 1) * 4194304 < |content| then (i + 1) * 4194304 else |content|]
    ensures var id := PartId(base, i, ChunkCount(|content|));
            if |content| <= 4194304 then id == base
            else base + "-" <= id && NumberOf(id[|base| + 1..]) == i
                 && forall k :: |base| < k < |id| ==> '0' <= id[k] <= '9'
  {
    PartSize(content, i);
    DecimalSpells(i);
    if |content| > 4194304 {
      assert PartId(base, i, ChunkCount(|content|))[|base| + 1..] == Decimal(i);
    }
  }

  lemma PartsMakeUp(content: Bytes, i: nat)
    ensures content[..Start(content, i)] + Part(content, i) == content[..Start(content, i + 1)]
    ensures i >= ChunkCount(|content|) ==> content[..Start(content, i)] == content
  {
    PartSize(content, i);
  }

  /** Part `i` is recorded for the file. */
  predicate IsPart(chunks: Chunks, f: FileId, base: ChunkId, content: Bytes, i: nat) {
    var id := PartId(base, i, ChunkCount(|content|));
    && Of(chunks, id, f)
    && chunks[id].id == id && chunks[id].index == i && chunks[id].offset == i * CHUNK_SIZE
    && chunks[id].size == |Part(content, i)|
  }

  /** The chunks of the file are its first `k` parts. */
  ghost predicate HasParts(chunks: Chunks, f: FileId, base: ChunkId, content: Bytes, k: nat) {
    && (forall i :: 0 <= i < k ==> IsPart(chunks, f, base, content, i))
    && (forall c :: Of(chunks, c, f) ==> exists i :: 0 <= i < k && c == PartId(base, i, ChunkCount(|content|)))
  }

  /** Chunks that differ in nothing but status, checksum, replicas and policy. */
  ghost predicate SameCut(a: Chunks, b: Chunks, f: FileId) {
    && (forall c :: Of(a, c, f) <==> Of(b, c, f))
    && (forall c :: Of(a, c, f) ==>
          b[c].id == a[c].id && b[c].index == a[c].index && b[c].offset == a[c].offset && b[c].size == a[c].size)
  }

  lemma SameCutKeepsParts(a: Chunks, b: Chunks, f: FileId, base: ChunkId, content: Bytes, k: nat)
    requires SameCut(a, b, f) && HasParts(a, f, base, content, k)
    ensures HasParts(b, f, base, content, k)
  {
    forall i | 0 <= i < k ensures IsPart(b, f, base, content, i) {
      assert IsPart(a, f, base, content, i);
    }
  }

  lemma OneMorePart(chunks: Chunks, f: FileId, base: ChunkId, content: Bytes, k: nat, chunk: Chunk)
    requires HasParts(chunks, f, base, content, k) && k < ChunkCount(|content|)
    requires chunk.id == PartId(base, k, ChunkCount(|content|)) && chunk.fileId == f
    requires chunk.index == k && chunk.offset == k * CHUNK_SIZE && chunk.size == |Part(content, k)|
    ensures HasParts(chunks[chunk.id := chunk], f, base, content, k + 1)
  {
    var total := ChunkCount(|content|);
    var more := chunks[chunk.id := chunk];
    forall i | 0 <= i < k + 1 ensures IsPart(more, f, base, content, i) {
      if i < k {
        assert IsPart(chunks, f, base, content, i);
        if PartId(base, i, total) == chunk.id {
          PartIdInjective(base, i, k, total);
        }
      }
    }
    forall c | Of(more, c, f) ensures exists i :: 0 <= i < k + 1 && c == PartId(base, i, total) {
      if c != chunk.id {
        assert Of(chunks, c, f);
        var i :| 0 <= i < k && c == PartId(base, i, total);
      }
    }
  }
}
