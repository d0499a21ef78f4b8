/** Chunking of loaded documents (document_processor.py). The splitter itself
    is an opaque collaborator; what this module models is the pass that stamps
    every chunk it emits with a global `chunk_id` and, when the chunk carries a
    `source`, with that source's `file_name`. */
module DocumentProcessor {
  import opened Paths
  import opened Collections
  import opened Documents

  const DefaultChunkSize := 1000
  const DefaultChunkOverlap := 200

  /** The separators handed to the splitter, coarsest first. */
  const Separators := ["\n\n", "\n", ".", " ", ""]

  /** The text splitter: documents, chunk size, chunk overlap and separators
      in, chunks out. Its algorithm is not part of this model. */
  type Splitter = (seq<Document>, int, int, seq<string>) -> seq<Document>

  /** A chunk object whose metadata dictionary the stamping pass updates in
      place. */
  class Chunk {
    var pageContent: string
    var metadata: Metadata

    constructor (d: Document)
      ensures Snapshot() == d
    {
      pageContent := d.pageContent;
      metadata := d.metadata;
    }

    function Snapshot(): Document
      reads this
    {
      Document(pageContent, metadata)
    }
  }

  /** The chunk objects as values. */
  function Snapshots(chunks: seq<Chunk>): seq<Document>
    reads chunks
  {
    seq(|chunks|, i reads chunks requires 0 <= i < |chunks| => chunks[i].Snapshot())
  }

  /** The metadata of the chunk at position `i` after stamping. */
  function Stamp(m: Metadata, i: nat): Metadata
    requires SourceIsText(m)
  {
    var named := if SourceKey in m then m[FileNameKey := Text(Basename(m[SourceKey].s))] else m;
    named[ChunkIdKey := Number(i)]
  }

  /** The splitter output after the stamping pass. */
  function StampAll(docs: seq<Document>): seq<Document>
    requires AllSourcesText(docs)
  {
    seq(|docs|, i requires 0 <= i < |docs| => Document(docs[i].pageContent, Stamp(docs[i].metadata, i)))
  }

  /** The loop over the splitter output: chunk `i` gets `chunk_id` `i` and, if
      it has a `source`, the `file_name` of that source. */
  method StampChunks(chunks: seq<Chunk>)
    requires NoDuplicates(chunks)
    requires AllSourcesText(Snapshots(chunks))
    modifies chunks
    ensures AllSourcesText(old(Snapshots(chunks)))
    ensures Snapshots(chunks) == StampAll(old(Snapshots(chunks)))
  {
    ghost var before := Snapshots(chunks);
    for i := 0 to |chunks|
      invariant forall k :: 0 <= k < i ==> chunks[k].Snapshot() == StampAll(before)[k]
      invariant forall k :: i <= k < |chunks| ==> chunks[k].Snapshot() == before[k]
    {
      var chunk := chunks[i];
      if SourceKey in chunk.metadata {
        var fileName := Basename(chunk.metadata[SourceKey].s);
        chunk.metadata := chunk.metadata[FileNameKey := Text(fileName)];
      }
      chunk.metadata := chunk.metadata[ChunkIdKey := Number(i)];
    }
  }

  /** One fresh chunk object per piece of splitter output: how the splitter
      hands its chunks over. */
  method NewChunks(pieces: seq<Document>) returns (chunks: seq<Chunk>)
    ensures Snapshots(chunks) == pieces
    ensures NoDuplicates(chunks)
    ensures forall i :: 0 <= i < |chunks| ==> fresh(chunks[i])
  {
    chunks := [];
    for i := 0 to |pieces|
      invariant |chunks| == i
      invariant forall k :: 0 <= k < i ==> chunks[k].Snapshot() == pieces[k]
      invariant NoDuplicates(chunks)
      invariant forall k :: 0 <= k < i ==> fresh(chunks[k])
    {
      var c := new Chunk(pieces[i]);
      chunks := chunks + [c];
    }
  }

  /** `split_documents`: split with the configured separators, then stamp. */
  method SplitDocuments(splitter: Splitter, documents: seq<Document>,
                        chunkSize: int := DefaultChunkSize, chunkOverlap: int := DefaultChunkOverlap)
    returns (chunks: seq<Chunk>)
    requires AllSourcesText(splitter(documents, chunkSize, chunkOverlap, Separators))
    ensures NoDuplicates(chunks)
    ensures forall i :: 0 <= i < |chunks| ==> fresh(chunks[i])
    ensures Snapshots(chunks) == StampAll(splitter(documents, chunkSize, chunkOverlap, Separators))
  {
    var pieces := splitter(documents, chunkSize, chunkOverlap, Separators);
    chunks := NewChunks(pieces);
    StampChunks(chunks);
  }

  // Properties of the stamping pass

  /** Stamping neither adds, removes nor reorders chunks, and leaves every
      chunk's text as it was. */
  lemma StampAllKeepsChunks(docs: seq<Document>)
    requires AllSourcesText(docs)
    ensures |StampAll(docs)| == |docs|
    ensures forall i :: 0 <= i < |docs| ==> StampAll(docs)[i].pageContent == docs[i].pageContent
  {
  }

  /** The chunk at position `i` gets `chunk_id` `i`. */
  lemma ChunkIdIsPosition(docs: seq<Document>, i: nat)
    requires AllSourcesText(docs)
    requires i < |docs|
    ensures ChunkIdKey in StampAll(docs)[i].metadata
    ensures StampAll(docs)[i].metadata[ChunkIdKey] == Number(i)
  {
  }

  /** Ids are unique and strictly increasing along the whole splitter output. */
  lemma ChunkIdsIncrease(docs: seq<Document>, i: nat, j: nat)
    requires AllSourcesText(docs)
    requires i < j < |docs|
    ensures StampAll(docs)[i].metadata[ChunkIdKey].n < StampAll(docs)[j].metadata[ChunkIdKey].n
  {
  }

  /** Ids are not reset per document: whenever the splitter output is read
      as one run of chunks followed by another (for instance the chunks of one
      document, then those of the next), the chunks of the second run are
      numbered after all chunks of the first. The lemma holds for every such
      split point, so it does not depend on which chunks came from which
      document. */
  lemma ChunkIdsContinueAcrossDocuments(first: seq<Document>, second: seq<Document>, k: nat)
    requires AllSourcesText(first + second)
    requires k < |second|
    ensures StampAll(first + second)[|first| + k].metadata[ChunkIdKey] == Number(|first| + k)
    ensures StampAll(first + second)[|first| + k].pageContent == second[k].pageContent
  {
  }

  /** A chunk with a `source` gets `file_name` = basename of that source; a
      chunk without one gains only `chunk_id`: its keys are its old keys plus
      `chunk_id`, and whatever `file_name` it had stays. */
  lemma StampFileName(m: Metadata, i: nat)
    requires SourceIsText(m)
    ensures SourceKey in m ==>
      && FileNameKey in Stamp(m, i)
      && Stamp(m, i)[FileNameKey] == Text(Basename(m[SourceKey].s))
      && Stamp(m, i).Keys == m.Keys + {FileNameKey, ChunkIdKey}
    ensures SourceKey !in m ==>
      && Stamp(m, i).Keys == m.Keys + {ChunkIdKey}
      && (FileNameKey in m ==> Stamp(m, i)[FileNameKey] == m[FileNameKey])
  {
  }

  /** Nothing else changes: every key other than `file_name` and `chunk_id`
      keeps its value, `source` included. */
  lemma StampKeepsOtherKeys(m: Metadata, i: nat, key: string)
    requires SourceIsText(m)
    requires key in m && key != FileNameKey && key != ChunkIdKey
    ensures key in Stamp(m, i) && Stamp(m, i)[key] == m[key]
  {
  }

  /** The stamped `file_name` holds no '/' and ends its source path. */
  lemma StampedFileNameIsLastComponent(m: Metadata, i: nat)
    requires SourceIsText(m) && SourceKey in m
    ensures FileNameKey in Stamp(m, i) && Stamp(m, i)[FileNameKey].Text?
    ensures var f, p := Stamp(m, i)[FileNameKey].s, m[SourceKey].s;
      && (forall k :: 0 <= k < |f| ==> f[k] != '/')
      && |f| <= |p| && p[|p| - |f|..] == f
  {
  }

  /** Running the pass again on its own output changes nothing. */
  lemma {:induction false} StampAllIdempotent(docs: seq<Document>)
    requires AllSourcesText(docs)
    ensures AllSourcesText(StampAll(docs))
    ensures StampAll(StampAll(docs)) == StampAll(docs)
  {
    var once := StampAll(docs);
    forall i | 0 <= i < |once|
      ensures SourceIsText(once[i].metadata)
      ensures Stamp(once[i].metadata, i) == once[i].metadata
    {
      if SourceKey in docs[i].metadata {
        StampKeepsOtherKeys(docs[i].metadata, i, SourceKey);
      }
    }
  }
}
