/**
 * A chunk of a document ready for embedding: its content hash, filled in on
 * construction when none is given, and its vector-database payload.
 */
module Processing {
  import opened Wrappers
  import opened Dicts
  import opened Text
  import opened Values
  import opened Models

  /** The keys a payload starts with, in order. */
  const PayloadBaseKeys: seq<string> :=
    ["chunk_id", "text", "chunk_type", "chunk_index", "document_id", "content_hash"]

  /** The keys added last, for code chunks. */
  const CodeKeys: seq<string> := ["start_line", "end_line", "node_type"]

  /** The text a chunk's generated hash digests: text, document id and index joined by bars. */
  function ChunkHashContent(text: string, documentId: string, chunkIndex: int): string
  {
    text + "|" + documentId + "|" + IntToString(chunkIndex)
  }

  /** `_generate_content_hash()`: 16 hex characters of the SHA-256 of the hash content. */
  function ChunkHash(sha: Hasher, text: string, documentId: string, chunkIndex: int): (h: string)
    ensures |h| == 16
  {
    ShortHash(sha, ChunkHashContent(text, documentId, chunkIndex))
  }

  /** A single-entry dict when `o` is set, else an empty one. */
  function IntEntry(key: string, o: Option<int>): (d: Dict<Value>)
  {
    if o.Some? then [(key, VInt(o.value))] else []
  }

  class ProcessedChunk {
    const id: string
    const text: string
    const chunkType: ChunkType
    const chunkIndex: int
    const documentId: string
    const sourceMetadata: DocumentMetadata
    const startLine: Option<int>
    const endLine: Option<int>
    const nodeType: Option<string>
    var contentHash: Option<string>

    /** The dataclass constructor, which ends by running `__post_init__`. */
    constructor (id: string, text: string, chunkType: ChunkType, chunkIndex: int, documentId: string,
                 sourceMetadata: DocumentMetadata, startLine: Option<int>, endLine: Option<int>,
                 nodeType: Option<string>, contentHash: Option<string>, sha: Hasher)
      ensures this.id == id && this.text == text && this.chunkType == chunkType
      ensures this.chunkIndex == chunkIndex && this.documentId == documentId
      ensures this.sourceMetadata == sourceMetadata
      ensures this.startLine == startLine && this.endLine == endLine && this.nodeType == nodeType
      ensures Truthy(contentHash) ==> this.contentHash == contentHash
      ensures !Truthy(contentHash) ==> this.contentHash == Some(ChunkHash(sha, text, documentId, chunkIndex))
    {
      this.id := id;
      this.text := text;
      this.chunkType := chunkType;
      this.chunkIndex := chunkIndex;
      this.documentId := documentId;
      this.sourceMetadata := sourceMetadata;
      this.startLine := startLine;
      this.endLine := endLine;
      this.nodeType := nodeType;
      this.contentHash := contentHash;
      new;
      PostInit(sha);
    }

    /** `__post_init__`: a missing or empty content hash is replaced by the generated one. */
    method PostInit(sha: Hasher)
      modifies this
      ensures Truthy(old(contentHash)) ==> contentHash == old(contentHash)
      ensures !Truthy(old(contentHash)) ==> contentHash == Some(ChunkHash(sha, text, documentId, chunkIndex))
    {
      if !Truthy(contentHash) {
        contentHash := Some(ChunkHash(sha, text, documentId, chunkIndex));
      }
    }

    /** The six entries a payload starts from. */
    function Base(): (d: Dict<Value>)
      reads this
    {
      [("chunk_id", VStr(id)), ("text", VStr(text)), ("chunk_type", VStr(ChunkTypeValue(chunkType))),
       ("chunk_index", VInt(chunkIndex)), ("document_id", VStr(documentId)),
       ("content_hash", OptStr(contentHash))]
    }

    /** The code fields: each line number when it is not None, the node type when truthy. */
    function CodeEntries(): (d: Dict<Value>)
    {
      IntEntry("start_line", startLine) + IntEntry("end_line", endLine)
        + (if Truthy(nodeType) then [("node_type", VStr(nodeType.value))] else [])
    }

    /**
     * The payload as a composition of merges: the base entries, the metadata's
     * `to_dict()` merged over them, then the code fields merged over that.
     */
    function Payload(): (p: Dict<Value>)
      reads this, sourceMetadata
      requires sourceMetadata.Valid()
    {
      Update(Update(Base(), sourceMetadata.ToDict()), CodeEntries())
    }

    /** `to_vector_payload()`, built by successive assignments. */
    method ToVectorPayload() returns (payload: Dict<Value>)
      requires sourceMetadata.Valid()
      ensures payload == Payload()
    {
      payload := [("chunk_id", VStr(id)), ("text", VStr(text)), ("chunk_type", VStr(ChunkTypeValue(chunkType))),
                  ("chunk_index", VInt(chunkIndex)), ("document_id", VStr(documentId)),
                  ("content_hash", OptStr(contentHash))];
      payload := Update(payload, sourceMetadata.ToDict());
      ghost var merged := payload;
      if startLine.Some? {
        payload := Set(payload, "start_line", VInt(startLine.value));
      }
      assert payload == Update(merged, IntEntry("start_line", startLine));
      if endLine.Some? {
        payload := Set(payload, "end_line", VInt(endLine.value));
      }
      assert payload == Update(merged, IntEntry("start_line", startLine) + IntEntry("end_line", endLine)) by {
        UpdateAppend(merged, IntEntry("start_line", startLine), IntEntry("end_line", endLine));
      }
      if Truthy(nodeType) {
        payload := Set(payload, "node_type", VStr(nodeType.value));
      }
      UpdateAppend(merged, IntEntry("start_line", startLine) + IntEntry("end_line", endLine),
        if Truthy(nodeType) then [("node_type", VStr(nodeType.value))] else []);
    }
  }

  /** The base keys are pairwise distinct. */
  lemma PayloadBaseKeysDistinct()
    ensures Distinct(PayloadBaseKeys)
  {
  }

  /** The base entries carry the base keys, in order. */
  lemma BaseKeys(c: ProcessedChunk)
    ensures Keys(c.Base()) == PayloadBaseKeys
  {
    var b := c.Base();
    KeysAre(b, PayloadBaseKeys);
  }

  /** The code fields form a dict whose keys are code keys. */
  lemma {:induction false} CodeEntriesWellFormed(c: ProcessedChunk)
    ensures WellFormed(c.CodeEntries())
    ensures forall k :: HasKey(c.CodeEntries(), k) ==> k in CodeKeys
  {
    var s := IntEntry("start_line", c.startLine);
    var e := IntEntry("end_line", c.endLine);
    var n: Dict<Value> := if Truthy(c.nodeType) then [("node_type", VStr(c.nodeType.value))] else [];
    AppendWellFormed(s, e);
    AppendWellFormed(s + e, n);
  }

  /** The code fields hold exactly the fields that are set. */
  lemma {:induction false} CodeEntriesGet(c: ProcessedChunk)
    ensures Get(c.CodeEntries(), "start_line") == if c.startLine.Some? then Some(VInt(c.startLine.value)) else None
    ensures Get(c.CodeEntries(), "end_line") == if c.endLine.Some? then Some(VInt(c.endLine.value)) else None
    ensures Get(c.CodeEntries(), "node_type") == if Truthy(c.nodeType) then Some(VStr(c.nodeType.value)) else None
  {
    var s := IntEntry("start_line", c.startLine);
    var e := IntEntry("end_line", c.endLine);
    var n: Dict<Value> := if Truthy(c.nodeType) then [("node_type", VStr(c.nodeType.value))] else [];
    AppendWellFormed(s, e);
    AppendGet(s + e, n, "start_line");
    AppendGet(s + e, n, "end_line");
    AppendGet(s + e, n, "node_type");
    AppendGet(s, e, "start_line");
    AppendGet(s, e, "end_line");
    AppendGet(s, e, "node_type");
  }

  /** The payload is a dict whose keys start with the six base keys, in order. */
  lemma {:induction false} PayloadKeys(c: ProcessedChunk)
    requires c.sourceMetadata.Valid()
    ensures WellFormed(c.Payload())
    ensures |Keys(c.Payload())| >= 6 && Keys(c.Payload())[..6] == PayloadBaseKeys
  {
    var b := c.Base();
    var m := c.sourceMetadata.ToDict();
    PayloadBaseKeysDistinct();
    BaseKeys(c);
    CodeEntriesWellFormed(c);
    KeysUpdate(b, m);
    KeysUpdate(Update(b, m), c.CodeEntries());
    GetUpdate(b, m, "");
    GetUpdate(Update(b, m), c.CodeEntries(), "");
  }

  /** Each key of the payload: the code field if set, else the metadata's entry, else the base entry. */
  lemma {:induction false} PayloadGet(c: ProcessedChunk, k: string)
    requires c.sourceMetadata.Valid()
    ensures Get(c.Payload(), k) ==
      if HasKey(c.CodeEntries(), k) then Get(c.CodeEntries(), k)
      else if HasKey(c.sourceMetadata.ToDict(), k) then Get(c.sourceMetadata.ToDict(), k)
      else Get(c.Base(), k)
  {
    var b := c.Base();
    var m := c.sourceMetadata.ToDict();
    BaseKeys(c);
    PayloadBaseKeysDistinct();
    CodeEntriesWellFormed(c);
    GetUpdate(b, m, k);
    GetUpdate(Update(b, m), c.CodeEntries(), k);
  }

  /**
   * Outside the code fields a payload key holds the metadata's entry when the
   * metadata has it, so metadata overrides the base entries, and the base entry otherwise.
   */
  lemma {:induction false} PayloadMetadataOverrides(c: ProcessedChunk)
    requires c.sourceMetadata.Valid()
    ensures forall k :: k !in CodeKeys ==>
      Get(c.Payload(), k) == if HasKey(c.sourceMetadata.ToDict(), k) then Get(c.sourceMetadata.ToDict(), k) else Get(c.Base(), k)
  {
    CodeEntriesWellFormed(c);
    forall k | k !in CodeKeys
      ensures Get(c.Payload(), k) ==
        if HasKey(c.sourceMetadata.ToDict(), k) then Get(c.sourceMetadata.ToDict(), k) else Get(c.Base(), k)
    {
      PayloadGet(c, k);
    }
  }

  /**
   * The code fields come last: a line number is present when it is not None (zero
   * included), the node type when it is non-empty; an unset one leaves whatever the
   * metadata gave that key.
   */
  lemma {:induction false} PayloadCodeFields(c: ProcessedChunk)
    requires c.sourceMetadata.Valid()
    ensures c.startLine.Some? ==> Get(c.Payload(), "start_line") == Some(VInt(c.startLine.value))
    ensures c.startLine.None? ==> Get(c.Payload(), "start_line") == Get(c.sourceMetadata.ToDict(), "start_line")
    ensures c.endLine.Some? ==> Get(c.Payload(), "end_line") == Some(VInt(c.endLine.value))
    ensures c.endLine.None? ==> Get(c.Payload(), "end_line") == Get(c.sourceMetadata.ToDict(), "end_line")
    ensures Truthy(c.nodeType) ==> Get(c.Payload(), "node_type") == Some(VStr(c.nodeType.value))
    ensures !Truthy(c.nodeType) ==> Get(c.Payload(), "node_type") == Get(c.sourceMetadata.ToDict(), "node_type")
  {
    CodeEntriesGet(c);
    PayloadCodeField(c, "start_line");
    PayloadCodeField(c, "end_line");
    PayloadCodeField(c, "node_type");
  }

  /** A code key of the payload holds the code field when it is set, else the metadata's entry. */
  lemma PayloadCodeField(c: ProcessedChunk, k: string)
    requires c.sourceMetadata.Valid() && k in CodeKeys
    ensures Get(c.Payload(), k) ==
      if HasKey(c.CodeEntries(), k) then Get(c.CodeEntries(), k) else Get(c.sourceMetadata.ToDict(), k)
  {
    PayloadGet(c, k);
    CodeKeysNotBase();
    BaseKeys(c);
    assert !HasKey(c.Base(), k);
  }

  /** No code key is a base key. */
  lemma CodeKeysNotBase()
    ensures forall k :: k in CodeKeys ==> k !in PayloadBaseKeys
  {
  }

  /** The generated hash depends on the text, the document id and the index only. */
  lemma ChunkHashDeterminedByTriple(a: ProcessedChunk, b: ProcessedChunk, sha: Hasher)
    requires a.text == b.text && a.documentId == b.documentId && a.chunkIndex == b.chunkIndex
    ensures ChunkHash(sha, a.text, a.documentId, a.chunkIndex) == ChunkHash(sha, b.text, b.documentId, b.chunkIndex)
  {
  }

  /** The hash content tells triples apart when texts and document ids hold no bar. */
  lemma {:induction false} ChunkHashContentInjective(t1: string, d1: string, i1: int, t2: string, d2: string, i2: int)
    requires '|' !in t1 && '|' !in t2 && '|' !in d1 && '|' !in d2
    requires ChunkHashContent(t1, d1, i1) == ChunkHashContent(t2, d2, i2)
    ensures t1 == t2 && d1 == d2 && i1 == i2
  {
    BarJoin3Injective(t1, d1, IntToString(i1), t2, d2, IntToString(i2));
    IntToStringInjective(i1, i2);
  }
}
