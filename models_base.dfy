/**
 * The shared data models: the source, content and chunk enums, a document's
 * metadata, the document itself and a configured loader source, with the
 * timestamp back-fill, the content hash and the dict serialisations.
 */
module Models {
  import opened Wrappers
  import opened Dicts
  import opened Text
  import opened Values

  datatype SourceType = Slack | GitHub | Confluence

  /** The enum member's `.value`. */
  function SourceTypeValue(t: SourceType): (v: string)
    ensures v != [] && ':' !in v
  {
    match t
    case Slack => "slack"
    case GitHub => "github"
    case Confluence => "confluence"
  }

  lemma SourceTypeValueInjective(a: SourceType, b: SourceType)
    requires SourceTypeValue(a) == SourceTypeValue(b)
    ensures a == b
  {
  }

  datatype ContentType = SourceCode | Documentation | Conversation | MixedContent

  function ContentTypeValue(t: ContentType): string
  {
    match t
    case SourceCode => "source_code"
    case Documentation => "documentation"
    case Conversation => "conversation"
    case MixedContent => "mixed_content"
  }

  datatype ChunkType = TextChunk | CodeChunk | SummaryChunk

  function ChunkTypeValue(t: ChunkType): string
  {
    match t
    case TextChunk => "text"
    case CodeChunk => "code"
    case SummaryChunk => "summary"
  }

  /** A SHA-256 digest in hexadecimal: 64 characters. */
  type HexDigest = s: string | |s| == 64 witness seq(64, _ => '0')

  /** `hashlib.sha256(content.encode()).hexdigest()`, a parameter of the model. */
  type Hasher = string -> HexDigest

  /** The first 16 hex characters of the digest of `content`. */
  function ShortHash(sha: Hasher, content: string): (h: string)
    ensures |h| == 16
  {
    sha(content)[..16]
  }

  /** Two `a|b` joins agree only when their parts do, if neither left part holds a bar. */
  lemma {:induction false} BarJoinInjective(a1: string, b1: string, a2: string, b2: string)
    requires '|' !in a1 && '|' !in a2
    requires a1 + "|" + b1 == a2 + "|" + b2
    ensures a1 == a2 && b1 == b2
  {
    var s := a1 + "|" + b1;
    FirstBar(a1, b1);
    FirstBar(a2, b2);
    assert a1 == s[..|a1|] == a2;
    assert b1 == s[|a1| + 1..] == b2;
  }

  /** Two `a|b|c` joins agree only when their parts do, if no `a` or `b` holds a bar. */
  lemma {:induction false} BarJoin3Injective(a1: string, b1: string, c1: string, a2: string, b2: string, c2: string)
    requires '|' !in a1 && '|' !in a2 && '|' !in b1 && '|' !in b2
    requires a1 + "|" + b1 + "|" + c1 == a2 + "|" + b2 + "|" + c2
    ensures a1 == a2 && b1 == b2 && c1 == c2
  {
    assert a1 + "|" + b1 + "|" + c1 == a1 + "|" + (b1 + "|" + c1);
    assert a2 + "|" + b2 + "|" + c2 == a2 + "|" + (b2 + "|" + c2);
    BarJoinInjective(a1, b1 + "|" + c1, a2, b2 + "|" + c2);
    BarJoinInjective(b1, c1, b2, c2);
  }

  /** The first bar of `a|b` is the joining one when `a` holds none. */
  lemma FirstBar(a: string, b: string)
    requires '|' !in a
    ensures Find(a + "|" + b, '|') == |a|
  {
    var s := a + "|" + b;
    assert s[|a|] == '|';
    assert s[..|a|] == a;
    var r := Find(s, '|');
    NotInPrefix(s, r, '|');
  }

  lemma NotInPrefix(s: string, r: int, c: char)
    requires 0 <= r <= |s| && c !in s[..r]
    ensures forall k :: 0 <= k < r ==> s[k] != c
  {
    forall k | 0 <= k < r
      ensures s[k] != c
    {
      assert s[..r][k] == s[k];
    }
  }

  /** The keys `DocumentMetadata.to_dict` always writes, in order. */
  const StandardKeys: seq<string> :=
    ["source_type", "source_id", "source_url", "content_type", "created_at", "updated_at"]

  /**
   * Where a document came from. The standard fields never change after
   * construction; `extra` is a dict the source-specific documents add to in place,
   * so it is shared with whoever holds the same metadata object.
   */
  class DocumentMetadata {
    const sourceType: SourceType
    const sourceId: string
    const sourceUrl: Option<string>
    const contentType: Option<ContentType>
    const createdAt: Option<Timestamp>
    const updatedAt: Option<Timestamp>
    var extra: Dict<Value>

    /** `extra` is a dict: its keys are distinct. */
    predicate Valid()
      reads this
    {
      WellFormed(extra)
    }

    constructor (sourceType: SourceType, sourceId: string, sourceUrl: Option<string>,
                 contentType: Option<ContentType>, createdAt: Option<Timestamp>,
                 updatedAt: Option<Timestamp>, extra: Dict<Value>)
      requires WellFormed(extra)
      ensures Valid()
      ensures this.sourceType == sourceType && this.sourceId == sourceId
      ensures this.sourceUrl == sourceUrl && this.contentType == contentType
      ensures this.createdAt == createdAt && this.updatedAt == updatedAt
      ensures this.extra == extra
    {
      this.sourceType := sourceType;
      this.sourceId := sourceId;
      this.sourceUrl := sourceUrl;
      this.contentType := contentType;
      this.createdAt := createdAt;
      this.updatedAt := updatedAt;
      this.extra := extra;
    }

    /**
     * The six standard entries of `to_dict`: enums by value, an unset
     * `source_url`, `content_type` or timestamp as None.
     */
    function Standard(): (d: Dict<Value>)
      ensures WellFormed(d) && Keys(d) == StandardKeys
    {
      [("source_type", VStr(SourceTypeValue(sourceType))),
       ("source_id", VStr(sourceId)),
       ("source_url", OptStr(sourceUrl)),
       ("content_type", if contentType.Some? then VStr(ContentTypeValue(contentType.value)) else VNone),
       ("created_at", OptTime(createdAt)),
       ("updated_at", OptTime(updatedAt))]
    }

    /** `to_dict()`: the standard entries, then `extra` merged over them. */
    function ToDict(): (r: Dict<Value>)
      reads this
      requires Valid()
      ensures WellFormed(r)
      ensures Keys(r) == StandardKeys + NewKeys(StandardKeys, Keys(extra))
    {
      KeysUpdate(Standard(), extra);
      GetUpdate(Standard(), extra, "");
      Update(Standard(), extra)
    }
  }

  /**
   * A key of `to_dict()` holds the `extra` entry when `extra` has that key (so
   * `extra` overrides a standard key), and the standard entry otherwise.
   */
  lemma MetadataToDictGet(m: DocumentMetadata, k: string)
    requires m.Valid()
    ensures Get(m.ToDict(), k) == if HasKey(m.extra, k) then Get(m.extra, k) else Get(m.Standard(), k)
  {
    GetUpdate(m.Standard(), m.extra, k);
  }

  /**
   * Without an `extra` entry of the same name, an unset content type and unset
   * timestamps serialise to None, and set ones to their values.
   */
  lemma {:induction false} MetadataToDictDefaults(m: DocumentMetadata)
    requires m.Valid()
    requires !HasKey(m.extra, "content_type") && !HasKey(m.extra, "created_at") && !HasKey(m.extra, "updated_at")
    ensures Get(m.ToDict(), "content_type") ==
      Some(if m.contentType.Some? then VStr(ContentTypeValue(m.contentType.value)) else VNone)
    ensures Get(m.ToDict(), "created_at") == Some(if m.createdAt.Some? then VTime(m.createdAt.value) else VNone)
    ensures Get(m.ToDict(), "updated_at") == Some(if m.updatedAt.Some? then VTime(m.updatedAt.value) else VNone)
  {
    var s := m.Standard();
    MetadataToDictGet(m, "content_type");
    MetadataToDictGet(m, "created_at");
    MetadataToDictGet(m, "updated_at");
    GetIn(s, "content_type", 3);
    GetIn(s, "created_at", 4);
    GetIn(s, "updated_at", 5);
  }

  /**
   * One timestamp of `__post_init__`: a document's own timestamp is kept when set,
   * and an unset one takes the metadata's.
   */
  function BackFill(own: Option<Timestamp>, meta: Option<Timestamp>): (r: Option<Timestamp>)
    ensures own.Some? ==> r == own
    ensures own.None? ==> r == meta
    ensures r.Some? <==> own.Some? || meta.Some?
  {
    if own.None? && meta.Some? then meta else own
  }

  /** The keys `Document.to_dict` writes, in order. */
  const DocumentKeys: seq<string> :=
    ["id", "title", "text", "url", "created_at", "updated_at", "metadata", "content_hash"]

  lemma DocumentKeysDistinct()
    ensures Distinct(DocumentKeys)
  {
  }

  /** A loaded document. Its timestamps are filled in from the metadata on construction. */
  class Document {
    const id: string
    const title: string
    const text: string
    const metadata: DocumentMetadata
    const url: Option<string>
    var createdAt: Option<Timestamp>
    var updatedAt: Option<Timestamp>

    /** The dataclass constructor, which ends by running `__post_init__`. */
    constructor (id: string, title: string, text: string, metadata: DocumentMetadata,
                 url: Option<string>, createdAt: Option<Timestamp>, updatedAt: Option<Timestamp>)
      ensures this.id == id && this.title == title && this.text == text
      ensures this.metadata == metadata && this.url == url
      ensures this.createdAt == BackFill(createdAt, metadata.createdAt)
      ensures this.updatedAt == BackFill(updatedAt, metadata.updatedAt)
    {
      this.id := id;
      this.title := title;
      this.text := text;
      this.metadata := metadata;
      this.url := url;
      this.createdAt := createdAt;
      this.updatedAt := updatedAt;
      new;
      PostInit();
    }

    /** `__post_init__`: copy each metadata timestamp into an unset document timestamp. */
    method PostInit()
      modifies this
      ensures createdAt == BackFill(old(createdAt), metadata.createdAt)
      ensures updatedAt == BackFill(old(updatedAt), metadata.updatedAt)
    {
      if createdAt.None? && metadata.createdAt.Some? {
        createdAt := metadata.createdAt;
      }
      if updatedAt.None? && metadata.updatedAt.Some? {
        updatedAt := metadata.updatedAt;
      }
    }

    /** The text `generate_hash` digests: title, text and source id joined by bars. */
    function HashContent(): string
    {
      title + "|" + text + "|" + metadata.sourceId
    }

    /** `generate_hash()`: 16 hex characters of the SHA-256 of the hash content. */
    function GenerateHash(sha: Hasher): (h: string)
      ensures |h| == 16
    {
      ShortHash(sha, HashContent())
    }

    /** `to_dict()`: exactly the eight document keys, in order. */
    function ToDict(sha: Hasher): (r: Dict<Value>)
      reads this, metadata
      requires metadata.Valid()
      ensures WellFormed(r) && Keys(r) == DocumentKeys
    {
      var r := [("id", VStr(id)), ("title", VStr(title)), ("text", VStr(text)), ("url", OptStr(url)),
                ("created_at", OptTime(createdAt)), ("updated_at", OptTime(updatedAt)),
                ("metadata", VDict(metadata.ToDict())), ("content_hash", VStr(GenerateHash(sha)))];
      KeysAre(r, DocumentKeys);
      DocumentKeysDistinct();
      r
    }
  }

  /**
   * `to_dict()` serialises the metadata by its own `to_dict`, stores the content hash
   * of `generate_hash`, and the timestamps as they are after `__post_init__`.
   */
  lemma DocumentToDictValues(d: Document, sha: Hasher)
    requires d.metadata.Valid()
    ensures Get(d.ToDict(sha), "metadata") == Some(VDict(d.metadata.ToDict()))
    ensures Get(d.ToDict(sha), "content_hash") == Some(VStr(d.GenerateHash(sha)))
    ensures Get(d.ToDict(sha), "created_at") == Some(OptTime(d.createdAt))
    ensures Get(d.ToDict(sha), "updated_at") == Some(OptTime(d.updatedAt))
  {
    var r := d.ToDict(sha);
    GetIn(r, "created_at", 4);
    GetIn(r, "updated_at", 5);
    GetIn(r, "metadata", 6);
    GetIn(r, "content_hash", 7);
  }

  /** The hash depends on the title, the text and the source id only. */
  lemma GenerateHashDeterminedByTriple(a: Document, b: Document, sha: Hasher)
    requires a.title == b.title && a.text == b.text && a.metadata.sourceId == b.metadata.sourceId
    ensures a.GenerateHash(sha) == b.GenerateHash(sha)
  {
  }

  /**
   * The hash content tells the triple apart: documents whose titles and texts hold
   * no bar have the same hash content only when their triples agree.
   */
  lemma {:induction false} HashContentInjective(a: Document, b: Document)
    requires '|' !in a.title && '|' !in b.title && '|' !in a.text && '|' !in b.text
    requires a.HashContent() == b.HashContent()
    ensures a.title == b.title && a.text == b.text && a.metadata.sourceId == b.metadata.sourceId
  {
    BarJoin3Injective(a.title, a.text, a.metadata.sourceId, b.title, b.text, b.metadata.sourceId);
  }

  /** The keys `LoaderSource.to_dict` writes, in order. */
  const LoaderSourceKeys: seq<string> := ["source_type", "source_key", "name", "enabled", "config"]

  lemma LoaderSourceKeysDistinct()
    ensures Distinct(LoaderSourceKeys)
  {
  }

  /** A configured source for one loader. */
  datatype LoaderSource = LoaderSource(
    sourceType: SourceType, sourceKey: string, name: string, enabled: bool, config: Dict<Value>)
  {
    /** `to_dict()`: the five fields, the source type by value. */
    function ToDict(): (r: Dict<Value>)
      ensures WellFormed(r) && Keys(r) == LoaderSourceKeys
      ensures Get(r, "source_type") == Some(VStr(SourceTypeValue(sourceType)))
      ensures Get(r, "source_key") == Some(VStr(sourceKey))
      ensures Get(r, "name") == Some(VStr(name))
      ensures Get(r, "enabled") == Some(VBool(enabled))
      ensures Get(r, "config") == Some(VDict(config))
    {
      var r := [("source_type", VStr(SourceTypeValue(sourceType))), ("source_key", VStr(sourceKey)),
                ("name", VStr(name)), ("enabled", VBool(enabled)), ("config", VDict(config))];
      KeysAre(r, LoaderSourceKeys);
      LoaderSourceKeysDistinct();
      GetIn(r, "source_type", 0);
      GetIn(r, "source_key", 1);
      GetIn(r, "name", 2);
      GetIn(r, "enabled", 3);
      GetIn(r, "config", 4);
      r
    }
  }

  /**
   * The dataclass constructor; `None` stands for an omitted argument, so an
   * omitted `enabled` is True and an omitted `config` an empty dict.
   */
  function NewLoaderSource(sourceType: SourceType, sourceKey: string, name: string,
                           enabled: Option<bool>, config: Option<Dict<Value>>): (s: LoaderSource)
    ensures s.sourceType == sourceType && s.sourceKey == sourceKey && s.name == name
    ensures s.enabled <==> enabled != Some(false)
    ensures config.None? ==> s.config == []
    ensures config.Some? ==> s.config == config.value
  {
    LoaderSource(sourceType, sourceKey, name,
      if enabled.Some? then enabled.value else true,
      if config.Some? then config.value else [])
  }

  /** Different sources serialise differently. */
  lemma {:induction false} LoaderSourceToDictInjective(a: LoaderSource, b: LoaderSource)
    requires a.ToDict() == b.ToDict()
    ensures a == b
  {
    assert Some(VStr(SourceTypeValue(a.sourceType))) == Get(a.ToDict(), "source_type");
    SourceTypeValueInjective(a.sourceType, b.sourceType);
  }
}
