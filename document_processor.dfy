/**
 * The document processor's chunker: a document's text is cut into windows of
 * `chunk_size` characters starting at 0, `chunk_size`, `2 * chunk_size`, ...; a
 * window that would split a word is cut back to its last space when that space lies
 * beyond the middle of the window; each piece is stripped and becomes a numbered
 * text chunk of the document.
 */
module DocumentProcessing {
  import opened Wrappers
  import opened Text
  import opened Exceptions
  import opened Models
  import opened Processing

  function Min(a: int, b: int): int
  {
    if a <= b then a else b
  }

  // ----- the windows, as written -----

  /** `text[i : i + size]`: the slice stops at the end of the text. */
  function Window(text: string, size: nat, i: nat): (w: string)
    requires i <= |text|
    ensures |w| <= size && i + |w| <= |text| && w == text[i..i + |w|]
    ensures i + size >= |text| ==> w == text[i..]
    ensures i + size < |text| ==> |w| == size
  {
    text[i..Min(i + size, |text|)]
  }

  /**
   * The window is cut back to its last space: it is not the final window, the
   * character after it is not whitespace, and the last space lies strictly beyond
   * half the window (`last_space > chunk_size * 0.5`).
   */
  predicate Trims(text: string, size: nat, i: nat)
    requires i <= |text|
  {
    i + size < |text| && !IsSpace(text[i + size]) && 2 * RFind(Window(text, size, i), ' ') > size
  }

  /** The text of the chunk at window `i` before stripping. */
  function Piece(text: string, size: nat, i: nat): string
    requires i <= |text|
  {
    var w := Window(text, size, i);
    if Trims(text, size, i) then w[..RFind(w, ' ')] else w
  }

  /** The number of window starts `i`, `i + size`, `i + 2 * size`, ... below `n`. */
  function Starts(n: nat, size: nat, i: nat): nat
    requires size > 0
    decreases n - i
  {
    if i >= n then 0 else 1 + Starts(n, size, i + size)
  }

  /** The number of chunks of a text: the length of `range(0, len(text), size)`. */
  function ChunkCount(text: string, size: nat): nat
    requires size > 0
  {
    Starts(|text|, size, 0)
  }

  /** `k * size`, spelled out as repeated addition. */
  function Offset(k: nat, size: nat): nat
  {
    if k == 0 then 0 else size + Offset(k - 1, size)
  }

  /** The `k`-th start counted from `i` lies below `n`. */
  lemma {:induction false} StartBelow(n: nat, size: nat, i: nat, k: nat)
    requires size > 0 && k < Starts(n, size, i)
    ensures i + Offset(k, size) < n
    decreases k
  {
    if k > 0 {
      StartBelow(n, size, i + size, k - 1);
    }
  }

  /** The text of the `k`-th chunk: the stripped piece of the window at `k * size`. */
  function ChunkText(text: string, size: nat, k: nat): string
  {
    var i := Offset(k, size);
    if i < |text| then Strip(Piece(text, size, i)) else []
  }

  /** `f"{document.id}_chunk_{k}"`. */
  function ChunkId(documentId: string, k: nat): string
  {
    documentId + "_chunk_" + NatToString(k)
  }

  // ----- what the windows promise -----

  /**
   * A piece is a prefix of its window, no longer than `size`; it differs from the
   * window exactly when the window is trimmed, and then it is the text up to the
   * window's last space.
   */
  lemma PieceFacts(text: string, size: nat, i: nat)
    requires i < |text| && size > 0
    ensures var p, w := Piece(text, size, i), Window(text, size, i);
      && |p| <= size && p == w[..|p|] && p == text[i..i + |p|]
      && (p != w <==> Trims(text, size, i))
      && (Trims(text, size, i) ==> p == text[i..i + RFind(w, ' ')])
      && 1 <= |p|
  {
    var w := Window(text, size, i);
    if Trims(text, size, i) {
      var ls := RFind(w, ' ');
      assert 1 <= ls < |w|;
      assert w[..ls] == text[i..i + ls];
    }
  }

  /** The final window (`i + size >= len(text)`) is never trimmed: it keeps the rest of the text. */
  lemma FinalWindowKept(text: string, size: nat, i: nat)
    requires i < |text| && size > 0 && i + size >= |text|
    ensures Piece(text, size, i) == text[i..]
  {
  }

  /** `strip` never lengthens a string. */
  lemma StripShorter(s: string)
    ensures |Strip(s)| <= |s|
  {
    StripLeftFacts(s);
    StripRightFacts(StripLeft(s));
  }

  lemma {:induction false} OffsetIsProduct(k: nat, size: nat)
    ensures Offset(k, size) == k * size
  {
    if k > 0 {
      OffsetIsProduct(k - 1, size);
      assert k * size == size + (k - 1) * size;
    }
  }

  /** The starts from `i` are those `i + k * size` below `n`: the last lies below `n`, the next one does not. */
  lemma {:induction false} StartsCount(n: nat, size: nat, i: nat)
    requires size > 0
    ensures var c := Starts(n, size, i);
      && (i >= n <==> c == 0)
      && (i < n ==> Offset(c - 1, size) < n - i <= Offset(c, size))
    decreases n - i
  {
    if i < n {
      var c := Starts(n, size, i);
      var rest := Starts(n, size, i + size);
      StartsCount(n, size, i + size);
      assert Offset(c, size) == size + Offset(rest, size);
      if rest != 0 {
        assert Offset(rest, size) == size + Offset(rest - 1, size);
      }
    }
  }

  /** A non-empty text gives ceil(len(text) / size) chunks, an empty one none. */
  lemma ChunkCountBounds(text: string, size: nat)
    requires size > 0
    ensures var c := ChunkCount(text, size);
      && (text == [] <==> c == 0)
      && (text != [] ==> (c - 1) * size < |text| <= c * size)
  {
    var c := ChunkCount(text, size);
    StartsCount(|text|, size, 0);
    if c != 0 {
      OffsetIsProduct(c, size);
      OffsetIsProduct(c - 1, size);
    }
  }

  /** The k-th chunk text is the stripped piece of the window at `k * size`, at most `size` long. */
  lemma ChunkTextAt(text: string, size: nat, k: nat)
    requires size > 0 && k < ChunkCount(text, size)
    ensures k * size < |text|
    ensures ChunkText(text, size, k) == Strip(Piece(text, size, k * size))
    ensures |ChunkText(text, size, k)| <= size
  {
    StartBelow(|text|, size, 0, k);
    OffsetIsProduct(k, size);
    PieceFacts(text, size, k * size);
    StripShorter(Piece(text, size, k * size));
  }

  /** The chunk text at the window start `i` of the loop. */
  lemma ChunkTextAtStart(text: string, size: nat, k: nat, i: nat, piece: string)
    requires size > 0 && k < ChunkCount(text, size) && i == Offset(k, size) && i < |text|
    requires piece == Piece(text, size, i)
    ensures ChunkText(text, size, k) == Strip(piece)
  {
  }

  /** Chunk ids of one document differ from chunk to chunk. */
  lemma ChunkIdInjective(documentId: string, k1: nat, k2: nat)
    requires ChunkId(documentId, k1) == ChunkId(documentId, k2)
    ensures k1 == k2
  {
    var p := documentId + "_chunk_";
    assert ChunkId(documentId, k1)[|p|..] == NatToString(k1);
    assert ChunkId(documentId, k2)[|p|..] == NatToString(k2);
    NatToStringInjective(k1, k2);
  }

  // ----- the dropped text -----

  lemma StripsNothing(s: string)
    requires s != [] && !IsSpace(s[0]) && !IsSpace(s[|s| - 1])
    ensures Strip(s) == s
  {
  }

  lemma LastSpaceAt3()
    ensures RFind("abc d", ' ') == 3
  {
    var w := "abc d";
    assert w[4] == 'd' && w[3] == ' ';
    assert w[..4][3] == ' ';
  }

  /**
   * The text "abc defgh" in windows of 5: the first window "abc d" is cut back to
   * "abc", the next one starts at "efgh", and the "d" is in no chunk.
   */
  lemma TrimmedTextIsDropped()
    ensures ChunkCount("abc defgh", 5) == 2
      && ChunkText("abc defgh", 5, 0) == "abc" && ChunkText("abc defgh", 5, 1) == "efgh"
    ensures 'd' in "abc defgh" && 'd' !in "abc" && 'd' !in "efgh"
  {
    var text := "abc defgh";
    assert Window(text, 5, 0) == "abc d";
    LastSpaceAt3();
    assert text[5] == 'e';
    assert Piece(text, 5, 0) == "abc";
    StripsNothing("abc");
    assert Window(text, 5, 5) == "efgh";
    StripsNothing("efgh");
    assert Starts(9, 5, 10) == 0;
    assert Starts(9, 5, 0) == 2;
    assert Offset(1, 5) == 5;
  }

  // ----- the windows with the cut text carried over -----

  /**
   * The pieces when the next window starts where the previous piece ended: a trimmed
   * window hands the rest of its text on instead of dropping it.
   */
  function CarryPieces(text: string, size: nat, i: nat): seq<string>
    requires size > 0 && i <= |text|
    decreases |text| - i
  {
    if i == |text| then []
    else
      var j := PieceEnd(text, size, i);
      [text[i..j]] + CarryPieces(text, size, j)
  }

  /** Where the piece of the window at `i` ends: after at least one and at most `size` characters. */
  function PieceEnd(text: string, size: nat, i: nat): (j: nat)
    requires size > 0 && i < |text|
    ensures i < j <= |text| && j - i <= size
  {
    PieceFacts(text, size, i);
    i + |Piece(text, size, i)|
  }

  /** The text up to the piece's end is the piece itself. */
  lemma PieceEndCut(text: string, size: nat, i: nat)
    requires size > 0 && i < |text|
    ensures text[i..PieceEnd(text, size, i)] == Piece(text, size, i)
  {
    PieceFacts(text, size, i);
  }

  function Concat(ps: seq<string>): string
  {
    if ps == [] then [] else ps[0] + Concat(ps[1..])
  }

  lemma SliceSplit(t: string, i: nat, j: nat)
    requires i <= j <= |t|
    ensures t[i..] == t[i..j] + t[j..]
  {
  }

  lemma ConcatCons(p: string, rest: seq<string>)
    ensures Concat([p] + rest) == p + Concat(rest)
  {
    assert ([p] + rest)[1..] == rest;
  }

  /** With the cut text carried over, the pieces put back together are the text itself. */
  lemma {:induction false} CarryPiecesCover(text: string, size: nat, i: nat)
    requires size > 0 && i <= |text|
    ensures Concat(CarryPieces(text, size, i)) == text[i..]
    decreases |text| - i
  {
    if i < |text| {
      var j := PieceEnd(text, size, i);
      var rest := CarryPieces(text, size, j);
      assert Concat(CarryPieces(text, size, i)) == text[i..j] + Concat(rest) by {
        assert CarryPieces(text, size, i) == [text[i..j]] + rest;
        ConcatCons(text[i..j], rest);
      }
      assert text[i..j] + Concat(rest) == text[i..] by {
        CarryPiecesCover(text, size, j);
        SliceSplit(text, i, j);
      }
    }
  }

  /** Each carried-over piece is a non-empty run of at most `size` characters. */
  lemma {:induction false} CarryPiecesSizes(text: string, size: nat, i: nat)
    requires size > 0 && i <= |text|
    ensures forall k :: 0 <= k < |CarryPieces(text, size, i)| ==> 1 <= |CarryPieces(text, size, i)[k]| <= size
    decreases |text| - i
  {
    if i < |text| {
      var j := PieceEnd(text, size, i);
      CarryPiecesSizes(text, size, j);
      assert CarryPieces(text, size, i) == [text[i..j]] + CarryPieces(text, size, j);
    }
  }

  // ----- the chunker -----

  /** What `range(0, len(text), 0)` raises. */
  function RangeStepZero(): (e: Exc)
    ensures e.kind == ValueError && Str(e) == "range() arg 3 must not be zero"
  {
    BuiltinStr(ValueError, "range() arg 3 must not be zero");
    Builtin(ValueError, "range() arg 3 must not be zero")
  }

  /** `c` is the k-th text chunk of the document, holding `text`. */
  predicate NumberedChunk(c: ProcessedChunk, document: Document, text: string, k: nat, sha: Hasher)
    reads c
  {
    && c.id == ChunkId(document.id, k)
    && c.text == text
    && c.chunkType == TextChunk
    && c.chunkIndex == k
    && c.documentId == document.id
    && c.sourceMetadata == document.metadata
    && c.startLine.None? && c.endLine.None? && c.nodeType.None?
    && c.contentHash == Some(ChunkHash(sha, text, document.id, k))
  }

  /** The chunks are the first numbered text chunks of the document's windows of `size`. */
  predicate NumberedChunks(chunks: seq<ProcessedChunk>, document: Document, size: nat, sha: Hasher)
    requires size > 0
    reads chunks
  {
    && |chunks| <= ChunkCount(document.text, size)
    && forall k :: 0 <= k < |chunks| ==> NumberedChunk(chunks[k], document, ChunkText(document.text, size, k), k, sha)
  }

  lemma NumberedSnoc(chunks: seq<ProcessedChunk>, c: ProcessedChunk, document: Document, size: nat, sha: Hasher)
    requires size > 0 && NumberedChunks(chunks, document, size, sha) && |chunks| < ChunkCount(document.text, size)
    requires NumberedChunk(c, document, ChunkText(document.text, size, |chunks|), |chunks|, sha)
    ensures NumberedChunks(chunks + [c], document, size, sha)
  {
  }

  /**
   * The text of the window at `i`, cut back to its last space when the window ends
   * inside a word and that space lies beyond the middle of the window.
   */
  method WindowText(text: string, chunkSize: nat, i: nat) returns (chunkText: string)
    requires chunkSize > 0 && i < |text|
    ensures chunkText == Piece(text, chunkSize, i)
  {
    chunkText := text[i..Min(i + chunkSize, |text|)];
    if i + chunkSize < |text| && !IsSpace(text[i + chunkSize]) {
      var lastSpace := RFind(chunkText, ' ');
      if 2 * lastSpace > chunkSize {
        chunkText := chunkText[..lastSpace];
      }
    }
  }

  /**
   * `chunk_document(document, chunk_size)`: an empty text gives no chunks; otherwise
   * one chunk per window start, in order (a zero size makes `range` raise, a negative
   * one gives no starts).
   */
  method ChunkDocument(document: Document, chunkSize: int, sha: Hasher)
    returns (r: Result<seq<ProcessedChunk>, Exc>)
    ensures document.text == [] ==> r == Ok([])
    ensures document.text != [] && chunkSize == 0 ==> r == Err(RangeStepZero())
    ensures document.text != [] && chunkSize < 0 ==> r == Ok([])
    ensures document.text != [] && chunkSize > 0 ==>
      && r.Ok? && |r.value| == ChunkCount(document.text, chunkSize)
      && NumberedChunks(r.value, document, chunkSize, sha)
    ensures r.Ok? ==> forall k :: 0 <= k < |r.value| ==> fresh(r.value[k])
  {
    var text := document.text;
    if |text| == 0 {
      return Ok([]);
    }
    if chunkSize == 0 {
      return Err(RangeStepZero());
    }
    if chunkSize < 0 {
      return Ok([]);
    }
    var chunks := ChunkWindows(document, chunkSize, sha);
    return Ok(chunks);
  }

  /** The `chunk_size` `chunk_document` uses when the caller gives none. */
  const DefaultChunkSize: nat := 500

  /**
   * `chunk_document(document)`: windows of 500 characters, so every chunk is at
   * most 500 long and there are ceil(len(text) / 500) of them.
   */
  method ChunkDocumentDefault(document: Document, sha: Hasher) returns (chunks: seq<ProcessedChunk>)
    ensures |chunks| == ChunkCount(document.text, DefaultChunkSize)
    ensures NumberedChunks(chunks, document, DefaultChunkSize, sha)
    ensures forall k :: 0 <= k < |chunks| ==> |chunks[k].text| <= DefaultChunkSize
    ensures forall k :: 0 <= k < |chunks| ==> fresh(chunks[k])
  {
    var r := ChunkDocument(document, DefaultChunkSize, sha);
    chunks := r.value;
    forall k | 0 <= k < |chunks|
      ensures |chunks[k].text| <= DefaultChunkSize
    {
      ChunkTextAt(document.text, DefaultChunkSize, k);
    }
  }

  /** The body of the loop: the chunks so far extended by the chunk of the window at `i`. */
  method NextChunk(document: Document, chunkSize: nat, i: nat, chunks: seq<ProcessedChunk>, sha: Hasher)
    returns (chunk: ProcessedChunk)
    requires chunkSize > 0 && |chunks| < ChunkCount(document.text, chunkSize)
    requires i == Offset(|chunks|, chunkSize) && i < |document.text|
    requires NumberedChunks(chunks, document, chunkSize, sha)
    ensures fresh(chunk) && NumberedChunks(chunks + [chunk], document, chunkSize, sha)
  {
    var k := |chunks|;
    var chunkText := WindowText(document.text, chunkSize, i);
    ChunkTextAtStart(document.text, chunkSize, k, i, chunkText);
    chunk := new ProcessedChunk(ChunkId(document.id, k), Strip(chunkText), TextChunk, k,
      document.id, document.metadata, None, None, None, None, sha);
    NumberedSnoc(chunks, chunk, document, chunkSize, sha);
  }

  /** The loop over the window starts of a non-empty text, for a positive size. */
  method ChunkWindows(document: Document, chunkSize: nat, sha: Hasher) returns (chunks: seq<ProcessedChunk>)
    requires chunkSize > 0
    ensures |chunks| == ChunkCount(document.text, chunkSize)
    ensures NumberedChunks(chunks, document, chunkSize, sha)
    ensures forall k :: 0 <= k < |chunks| ==> fresh(chunks[k])
  {
    var text := document.text;
    chunks := [];
    var i: nat := 0;
    for k := 0 to ChunkCount(text, chunkSize)
      invariant |chunks| == k && i == Offset(k, chunkSize)
      invariant NumberedChunks(chunks, document, chunkSize, sha)
      invariant forall j :: 0 <= j < |chunks| ==> fresh(chunks[j])
    {
      StartBelow(|text|, chunkSize, 0, k);
      var chunk := NextChunk(document, chunkSize, i, chunks, sha);
      chunks := chunks + [chunk];
      assert Offset(k + 1, chunkSize) == i + chunkSize;
      i := i + chunkSize;
    }
  }
}
