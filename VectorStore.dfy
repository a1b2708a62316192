/**
 * The part of the search-store gateway that is plain logic: the document
 * record the store hands back, and the chunker that cuts a document into
 * fixed windows of words at indexing time. Every other member of the store
 * is a call into the search engine and is represented by its results.
 */
module VectorStore {
  import opened Text

  /** Words per chunk (the `chunkSize` constant of CreateChunks). */
  const CHUNK_SIZE := 1000

  /** A stored document; `uploadedAt` stands for the DateTime as ticks. */
  datatype DocumentInfo = DocumentInfo(id: string, filename: string, uploadedAt: int, content: string)

  /** One retrievable unit of a document. */
  datatype DocumentChunk = DocumentChunk(documentId: string, content: string, chunkNumber: int)

  function Min(a: int, b: int): int {
    if a <= b then a else b
  }

  /** words.Skip(start).Take(CHUNK_SIZE). */
  function Window(words: seq<string>, start: nat): seq<string> {
    if start >= |words| then [] else words[start..Min(start + CHUNK_SIZE, |words|)]
  }

  /** The words of all chunks, chunk after chunk. */
  function ChunkWords(chunks: seq<DocumentChunk>): seq<string> {
    if chunks == [] then []
    else ChunkWords(chunks[..|chunks| - 1]) + Words(chunks[|chunks| - 1].content)
  }

  /** Chunk `k` of a document whose words are `words`. */
  ghost predicate IsChunk(chunk: DocumentChunk, k: nat, words: seq<string>, documentId: string) {
    && chunk.documentId == documentId
    && chunk.chunkNumber == k
    && WellSpaced(chunk.content)
    && Words(chunk.content) == Window(words, k * CHUNK_SIZE)
  }

  /** Joining a window with single spaces gives back, on splitting, that
      window, and extends the prefix of words covered so far. */
  lemma JoinWindow(words: seq<string>, i: nat)
    requires forall k :: 0 <= k < |words| ==> IsWord(words[k])
    requires i < |words|
    ensures WellSpaced(Join(" ", Window(words, i)))
    ensures Words(Join(" ", Window(words, i))) == Window(words, i)
    ensures words[..Min(i + CHUNK_SIZE, |words|)] == words[..i] + Window(words, i)
  {
    var w := Window(words, i);
    assert forall k :: 0 <= k < |w| ==> w[k] == words[i + k];
    WordsOfJoin(w);
    JoinWellSpaced(w);
  }

  /** The chunk cut at word `i` is the next chunk in order, and extends the
      words covered so far by its window. */
  lemma NextChunk(chunks: seq<DocumentChunk>, words: seq<string>, i: nat, documentId: string)
    requires forall k :: 0 <= k < |words| ==> IsWord(words[k])
    requires i == |chunks| * CHUNK_SIZE && i < |words|
    requires forall k :: 0 <= k < |chunks| ==> IsChunk(chunks[k], k, words, documentId)
    requires ChunkWords(chunks) == words[..i]
    ensures var next := chunks + [DocumentChunk(documentId, Join(" ", Window(words, i)), i / CHUNK_SIZE)];
            && (forall k :: 0 <= k < |next| ==> IsChunk(next[k], k, words, documentId))
            && ChunkWords(next) == words[..Min(i + CHUNK_SIZE, |words|)]
  {
    var chunk := DocumentChunk(documentId, Join(" ", Window(words, i)), i / CHUNK_SIZE);
    var next := chunks + [chunk];
    JoinWindow(words, i);
    assert next[..|chunks|] == chunks;
    assert IsChunk(chunk, |chunks|, words, documentId);
  }

  /** Window sizes once `n` windows cover all the words. */
  lemma WindowSizes(words: seq<string>, n: nat)
    requires |words| <= n * CHUNK_SIZE
    requires n == 0 || (n - 1) * CHUNK_SIZE < |words|
    ensures n == (|words| + CHUNK_SIZE - 1) / CHUNK_SIZE
    ensures forall k :: 0 <= k < n - 1 ==> |Window(words, k * CHUNK_SIZE)| == CHUNK_SIZE
    ensures n > 0 ==> 0 < |Window(words, (n - 1) * CHUNK_SIZE)| <= CHUNK_SIZE
  {
    forall k | 0 <= k < n - 1 ensures |Window(words, k * CHUNK_SIZE)| == CHUNK_SIZE {
      assert (k + 1) * CHUNK_SIZE <= (n - 1) * CHUNK_SIZE;
    }
  }

  /** Chunks that cover all the words, one window each, are what
      CreateChunks promises. */
  lemma AllChunks(chunks: seq<DocumentChunk>, words: seq<string>, documentId: string)
    requires |words| <= |chunks| * CHUNK_SIZE
    requires chunks == [] || (|chunks| - 1) * CHUNK_SIZE < |words|
    requires forall k :: 0 <= k < |chunks| ==> IsChunk(chunks[k], k, words, documentId)
    ensures |chunks| == (|words| + CHUNK_SIZE - 1) / CHUNK_SIZE
    ensures forall k :: 0 <= k < |chunks| ==>
              && chunks[k].documentId == documentId
              && chunks[k].chunkNumber == k
              && WellSpaced(chunks[k].content)
              && Words(chunks[k].content) == Window(words, k * CHUNK_SIZE)
    ensures forall k :: 0 <= k < |chunks| - 1 ==> |Words(chunks[k].content)| == CHUNK_SIZE
    ensures chunks != [] ==> 0 < |Words(chunks[|chunks| - 1].content)| <= CHUNK_SIZE
  {
    WindowSizes(words, |chunks|);
  }

  /**
   * CreateChunks: split the content on ' ' dropping empty entries, and emit
   * one chunk per window of CHUNK_SIZE words, numbered from 0, its content
   * the window joined with single spaces. The windows partition the words:
   * all chunks but the last hold exactly CHUNK_SIZE words, the last holds
   * between 1 and CHUNK_SIZE, and the chunks' words in order are the
   * document's words.
   */
  method CreateChunks(content: string, documentId: string) returns (chunks: seq<DocumentChunk>)
    ensures |chunks| == (|Words(content)| + CHUNK_SIZE - 1) / CHUNK_SIZE
    ensures forall k :: 0 <= k < |chunks| ==>
              && chunks[k].documentId == documentId
              && chunks[k].chunkNumber == k
              && WellSpaced(chunks[k].content)
              && Words(chunks[k].content) == Window(Words(content), k * CHUNK_SIZE)
    ensures forall k :: 0 <= k < |chunks| - 1 ==> |Words(chunks[k].content)| == CHUNK_SIZE
    ensures chunks != [] ==> 0 < |Words(chunks[|chunks| - 1].content)| <= CHUNK_SIZE
    ensures ChunkWords(chunks) == Words(content)
  {
    chunks := [];
    var words := Words(content);
    var i := 0;
    while i < |words|
      invariant i == |chunks| * CHUNK_SIZE
      invariant i == 0 || i - CHUNK_SIZE < |words|
      invariant forall k :: 0 <= k < |chunks| ==> IsChunk(chunks[k], k, words, documentId)
      invariant ChunkWords(chunks) == words[..Min(i, |words|)]
    {
      var chunkWords := Window(words, i);
      var chunkContent := Join(" ", chunkWords);
      var chunk := DocumentChunk(documentId, chunkContent, i / CHUNK_SIZE);
      NextChunk(chunks, words, i, documentId);
      chunks := chunks + [chunk];
      i := i + CHUNK_SIZE;
    }
    assert words[..Min(i, |words|)] == words;
    AllChunks(chunks, words, documentId);
  }
}
