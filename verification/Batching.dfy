/** Cutting the three parallel lists into aligned batches of at most
    `BatchSize` items, one `collection.add` call each
    (free_rag_pipeline.py, `_populate_database`, second loop). */
module Batching {
  import opened Records

  const BatchSize: nat := 100

  /** An embedding: the vector the embedding model gives for one text. */
  type Vector = seq<real>

  /** The arguments of one `collection.add` call. */
  datatype Batch = Batch(documents: seq<string>, metadatas: seq<Metadata>, ids: seq<string>, embeddings: seq<Vector>)

  function Min(a: int, b: int): int
  {
    if a <= b then a else b
  }

  /** How many values `range(0, n, BatchSize)` takes. */
  function NumBatches(n: nat): nat
  {
    (n + BatchSize - 1) / BatchSize
  }

  /** Batch `k` starts inside the list exactly when `k` is below the number of batches. */
  lemma BatchStartBelow(n: nat, k: nat)
    ensures k < NumBatches(n) <==> k * BatchSize < n
  {
  }

  /** `s[i:i+BatchSize]` for `i = k * BatchSize`; the slice stops at the end of `s`. */
  function Chunk<T>(s: seq<T>, k: nat): seq<T>
    requires k * BatchSize <= |s|
  {
    s[k * BatchSize..Min(k * BatchSize + BatchSize, |s|)]
  }

  /** All the chunks of `s`, in order. */
  function Chunks<T>(s: seq<T>): seq<seq<T>>
  {
    seq(NumBatches(|s|), k requires 0 <= k < NumBatches(|s|) => Chunk(s, k))
  }

  /** The concatenation of a list of lists. */
  function Flatten<T>(ss: seq<seq<T>>): seq<T>
  {
    if |ss| == 0 then [] else Flatten(ss[..|ss| - 1]) + ss[|ss| - 1]
  }

  /** `encode(batch_docs)`: one embedding per document, computed by the embedding model `encode`. */
  function Embed(docs: seq<string>, encode: string -> Vector): (r: seq<Vector>)
    ensures |r| == |docs|
  {
    seq(|docs|, j requires 0 <= j < |docs| => encode(docs[j]))
  }

  /** The arguments of the `k`-th `add` call. */
  function BatchOf(ls: Lists, k: nat, encode: string -> Vector): Batch
    requires ls.Aligned() && k * BatchSize <= ls.Length()
  {
    var docs := Chunk(ls.documents, k);
    Batch(docs, Chunk(ls.metadatas, k), Chunk(ls.ids, k), Embed(docs, encode))
  }

  /** Every `add` call the batching loop makes, in order. */
  function MakeBatches(ls: Lists, encode: string -> Vector): (r: seq<Batch>)
    requires ls.Aligned()
    ensures |r| == NumBatches(ls.Length())
  {
    seq(NumBatches(ls.Length()), k requires 0 <= k < NumBatches(ls.Length()) => BatchOf(ls, k, encode))
  }

  /** The progress count printed after batch `k`: `min(i + BatchSize, n)`. */
  function ProgressCounts(n: nat): (r: seq<nat>)
    ensures |r| == NumBatches(n)
  {
    seq(NumBatches(n), k requires 0 <= k < NumBatches(n) => Min(k * BatchSize + BatchSize, n))
  }

  /** Every chunk holds between 1 and `BatchSize` items, and item `j` of chunk `k` is item `k * BatchSize + j` of `s`. */
  lemma ChunkShape<T>(s: seq<T>, k: nat)
    requires k < NumBatches(|s|)
    ensures k * BatchSize < |s|
    ensures 1 <= |Chunk(s, k)| <= BatchSize
    ensures forall j :: 0 <= j < |Chunk(s, k)| ==> Chunk(s, k)[j] == s[k * BatchSize + j]
  {
    BatchStartBelow(|s|, k);
  }

  lemma {:induction false} FlattenSnoc<T>(ss: seq<seq<T>>, s: seq<T>)
    ensures Flatten(ss + [s]) == Flatten(ss) + s
  {
    assert (ss + [s])[..|ss|] == ss;
  }

  /** The first `k` chunks concatenate to the first `k * BatchSize` items (or all of them). */
  lemma {:induction false} FlattenChunksPrefix<T>(s: seq<T>, k: nat)
    requires k <= NumBatches(|s|)
    ensures Flatten(Chunks(s)[..k]) == s[..Min(k * BatchSize, |s|)]
  {
    if k == 0 {
      assert Chunks(s)[..0] == [];
    } else {
      BatchStartBelow(|s|, k - 1);
      FlattenChunksPrefix(s, k - 1);
      assert Chunks(s)[..k] == Chunks(s)[..k - 1] + [Chunk(s, k - 1)];
      FlattenSnoc(Chunks(s)[..k - 1], Chunk(s, k - 1));
      assert s[..(k - 1) * BatchSize] + s[(k - 1) * BatchSize..Min(k * BatchSize, |s|)] == s[..Min(k * BatchSize, |s|)];
    }
  }

  /** The chunks concatenate back to the whole list: no item lost, none duplicated, order kept. */
  lemma FlattenChunks<T>(s: seq<T>)
    ensures Flatten(Chunks(s)) == s
  {
    FlattenChunksPrefix(s, NumBatches(|s|));
    assert Chunks(s)[..NumBatches(|s|)] == Chunks(s);
  }

  function DocumentColumn(bs: seq<Batch>): seq<seq<string>>
  {
    seq(|bs|, k requires 0 <= k < |bs| => bs[k].documents)
  }

  function MetadataColumn(bs: seq<Batch>): seq<seq<Metadata>>
  {
    seq(|bs|, k requires 0 <= k < |bs| => bs[k].metadatas)
  }

  function IdColumn(bs: seq<Batch>): seq<seq<string>>
  {
    seq(|bs|, k requires 0 <= k < |bs| => bs[k].ids)
  }

  /** The document, metadata and id batches handed to `add`, concatenated, are
      exactly the three lists: every record reaches the store once, in order. */
  lemma BatchesRoundTrip(ls: Lists, encode: string -> Vector)
    requires ls.Aligned()
    ensures Flatten(DocumentColumn(MakeBatches(ls, encode))) == ls.documents
    ensures Flatten(MetadataColumn(MakeBatches(ls, encode))) == ls.metadatas
    ensures Flatten(IdColumn(MakeBatches(ls, encode))) == ls.ids
  {
    var bs := MakeBatches(ls, encode);
    assert DocumentColumn(bs) == Chunks(ls.documents);
    assert MetadataColumn(bs) == Chunks(ls.metadatas);
    assert IdColumn(bs) == Chunks(ls.ids);
    FlattenChunks(ls.documents);
    FlattenChunks(ls.metadatas);
    FlattenChunks(ls.ids);
  }

  /** Every batch holds between 1 and `BatchSize` items, its four columns have
      the same length, and position `j` of batch `k` in each column comes from
      record `k * BatchSize + j`. */
  lemma BatchesAligned(ls: Lists, encode: string -> Vector, k: nat)
    requires ls.Aligned()
    requires k < |MakeBatches(ls, encode)|
    ensures var b := MakeBatches(ls, encode)[k];
      && 1 <= |b.documents| <= BatchSize
      && |b.metadatas| == |b.documents| && |b.ids| == |b.documents| && |b.embeddings| == |b.documents|
      && forall j :: 0 <= j < |b.documents| ==>
           && b.documents[j] == ls.documents[k * BatchSize + j]
           && b.metadatas[j] == ls.metadatas[k * BatchSize + j]
           && b.ids[j] == ls.ids[k * BatchSize + j]
           && b.embeddings[j] == encode(ls.documents[k * BatchSize + j])
  {
    ChunkShape(ls.documents, k);
    ChunkShape(ls.metadatas, k);
    ChunkShape(ls.ids, k);
  }

  /** An empty dataset makes no `add` call, and a non-empty one makes at least one. */
  lemma NoBatchesIffEmpty(ls: Lists, encode: string -> Vector)
    requires ls.Aligned()
    ensures MakeBatches(ls, encode) == [] <==> ls.Length() == 0
  {
    BatchStartBelow(ls.Length(), 0);
  }

  /** The progress count after batch `k` is the number of records handed to
      `add` so far; it never exceeds `n`, grows with every batch and ends at `n`. */
  lemma ProgressCountsCorrect<T>(s: seq<T>, k: nat)
    requires k < NumBatches(|s|)
    ensures |ProgressCounts(|s|)| == NumBatches(|s|)
    ensures ProgressCounts(|s|)[k] == |Flatten(Chunks(s)[..k + 1])|
    ensures ProgressCounts(|s|)[k] <= |s|
    ensures k > 0 ==> ProgressCounts(|s|)[k - 1] < ProgressCounts(|s|)[k]
    ensures k == NumBatches(|s|) - 1 ==> ProgressCounts(|s|)[k] == |s|
  {
    FlattenChunksPrefix(s, k + 1);
    BatchStartBelow(|s|, k);
    BatchStartBelow(|s|, k + 1);
  }

  /** Batch `k` is the slice `[k * BatchSize, min(k * BatchSize + BatchSize, n))`
      of each list with the embeddings of its documents, and the progress
      count after it is the end of that slice. */
  lemma NextBatch(ls: Lists, encode: string -> Vector, k: nat)
    requires ls.Aligned() && k < NumBatches(ls.Length())
    ensures var i, end := k * BatchSize, Min(k * BatchSize + BatchSize, ls.Length());
      && i < end
      && MakeBatches(ls, encode)[..k + 1] == MakeBatches(ls, encode)[..k]
           + [Batch(ls.documents[i..end], ls.metadatas[i..end], ls.ids[i..end], Embed(ls.documents[i..end], encode))]
      && ProgressCounts(ls.Length())[..k + 1] == ProgressCounts(ls.Length())[..k] + [end]
  {
    BatchStartBelow(ls.Length(), k);
    assert MakeBatches(ls, encode)[..k + 1] == MakeBatches(ls, encode)[..k] + [MakeBatches(ls, encode)[k]];
    assert ProgressCounts(ls.Length())[..k + 1] == ProgressCounts(ls.Length())[..k] + [ProgressCounts(ls.Length())[k]];
  }
}
