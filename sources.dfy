/**
 * The source-specific documents: each is built as a plain document and then adds
 * its own fields to the `extra` dict of the metadata object it was given, in place.
 */
module Sources {
  import opened Wrappers
  import opened Dicts
  import opened Values
  import opened Models

  /** `dict.update` with entries of distinct keys: what each key holds afterwards. */
  lemma Enrich(extra: Dict<Value>, e: Dict<Value>)
    requires WellFormed(extra) && WellFormed(e)
    ensures WellFormed(Update(extra, e))
    ensures Keys(Update(extra, e)) == Keys(extra) + NewKeys(Keys(extra), Keys(e))
    ensures forall k :: Get(Update(extra, e), k) == if HasKey(e, k) then Get(e, k) else Get(extra, k)
  {
    KeysUpdate(extra, e);
    forall k
      ensures Get(Update(extra, e), k) == if HasKey(e, k) then Get(e, k) else Get(extra, k)
    {
      GetUpdate(extra, e, k);
    }
    GetUpdate(extra, e, "");
  }

  /** After `extra.update(e)`, the `i`-th key of `e` holds the `i`-th value of `e`. */
  lemma EnrichAt(extra: Dict<Value>, e: Dict<Value>, i: nat)
    requires WellFormed(extra) && WellFormed(e) && i < |e|
    ensures Get(Update(extra, e), e[i].0) == Some(e[i].1)
  {
    GetUpdate(extra, e, e[i].0);
    GetIn(e, e[i].0, i);
  }

  /** After `extra.update(e)`, a key `e` lacks keeps its entry. */
  lemma EnrichOther(extra: Dict<Value>, e: Dict<Value>)
    requires WellFormed(extra) && WellFormed(e)
    ensures forall k :: k !in Keys(e) ==> Get(Update(extra, e), k) == Get(extra, k)
  {
    forall k | k !in Keys(e)
      ensures Get(Update(extra, e), k) == Get(extra, k)
    {
      GetUpdate(extra, e, k);
    }
  }

  /** A four-entry dict whose keys differ pairwise is well formed, and these are its keys. */
  lemma DistinctKeys4(e: Dict<Value>)
    requires |e| == 4
    requires e[0].0 != e[1].0 && e[0].0 != e[2].0 && e[0].0 != e[3].0
    requires e[1].0 != e[2].0 && e[1].0 != e[3].0 && e[2].0 != e[3].0
    ensures WellFormed(e) && Keys(e) == [e[0].0, e[1].0, e[2].0, e[3].0]
  {
    DistinctKeys3(e[1..]);
    assert Keys(e) == [e[0].0] + Keys(e[1..]);
    DistinctCons(e[0].0, Keys(e[1..]));
  }

  /** A three-entry dict whose keys differ pairwise is well formed, and these are its keys. */
  lemma DistinctKeys3(e: Dict<Value>)
    requires |e| == 3
    requires e[0].0 != e[1].0 && e[0].0 != e[2].0 && e[1].0 != e[2].0
    ensures WellFormed(e) && Keys(e) == [e[0].0, e[1].0, e[2].0]
  {
    var ks := Keys(e);
    forall i, j | 0 <= i < j < 3
      ensures Differ(ks, i, j)
    {
    }
  }

  /** The keys a Slack message adds to `extra`, in order. */
  const SlackKeys: seq<string> := ["channel_id", "user_id", "thread_ts", "is_thread_reply"]

  /** The fields a Slack message adds to `extra`. */
  function SlackExtra(channelId: string, userId: string, threadTs: Option<string>): Dict<Value>
  {
    [("channel_id", VStr(channelId)), ("user_id", VStr(userId)), ("thread_ts", OptStr(threadTs)),
     ("is_thread_reply", VBool(threadTs.Some?))]
  }

  /** `SlackMessage(...)`: a document whose metadata gains the channel, user and thread fields. */
  method NewSlackMessage(id: string, title: string, text: string, metadata: DocumentMetadata,
                         channelId: string, userId: string, threadTs: Option<string>,
                         url: Option<string>, createdAt: Option<Timestamp>, updatedAt: Option<Timestamp>)
    returns (doc: Document)
    requires metadata.Valid()
    modifies metadata
    ensures fresh(doc)
    ensures doc.id == id && doc.title == title && doc.text == text && doc.url == url
    ensures doc.metadata == metadata && metadata.Valid()
    ensures doc.createdAt == BackFill(createdAt, metadata.createdAt)
    ensures doc.updatedAt == BackFill(updatedAt, metadata.updatedAt)
    ensures metadata.extra == Update(old(metadata.extra), SlackExtra(channelId, userId, threadTs))
  {
    doc := new Document(id, title, text, metadata, url, createdAt, updatedAt);
    Enrich(doc.metadata.extra, SlackExtra(channelId, userId, threadTs));
    doc.metadata.extra := Update(doc.metadata.extra, SlackExtra(channelId, userId, threadTs));
  }

  /**
   * After a Slack message is built, `extra` holds the channel id, the user id and
   * the thread timestamp as given, `is_thread_reply` is true exactly when a
   * thread timestamp was given, and every other key keeps its entry.
   */
  lemma {:induction false} SlackExtraFacts(extra: Dict<Value>, channelId: string, userId: string, threadTs: Option<string>)
    requires WellFormed(extra)
    ensures WellFormed(Update(extra, SlackExtra(channelId, userId, threadTs)))
    ensures Get(Update(extra, SlackExtra(channelId, userId, threadTs)), "channel_id") == Some(VStr(channelId))
    ensures Get(Update(extra, SlackExtra(channelId, userId, threadTs)), "user_id") == Some(VStr(userId))
    ensures Get(Update(extra, SlackExtra(channelId, userId, threadTs)), "thread_ts") == Some(OptStr(threadTs))
    ensures Get(Update(extra, SlackExtra(channelId, userId, threadTs)), "is_thread_reply") == Some(VBool(threadTs.Some?))
    ensures forall k :: k !in SlackKeys ==>
      Get(Update(extra, SlackExtra(channelId, userId, threadTs)), k) == Get(extra, k)
  {
    var e := SlackExtra(channelId, userId, threadTs);
    DistinctKeys4(e);
    GetUpdate(extra, e, "");
    EnrichAt(extra, e, 0);
    EnrichAt(extra, e, 1);
    EnrichAt(extra, e, 2);
    EnrichAt(extra, e, 3);
    EnrichOther(extra, e);
  }

  /** `labels or []`: missing or empty labels become an empty list. */
  function Labels(labels: Option<seq<string>>): (v: Value)
    ensures v == StrList(if labels.Some? then labels.value else [])
  {
    if labels.Some? && labels.value != [] then StrList(labels.value) else VList([])
  }

  /** The keys a GitHub issue adds to `extra`, in order. */
  const IssueKeys: seq<string> := ["repository", "issue_number", "state", "labels"]

  /** The fields a GitHub issue adds to `extra`. */
  function IssueExtra(repository: string, issueNumber: int, state: string, labels: Option<seq<string>>): Dict<Value>
  {
    [("repository", VStr(repository)), ("issue_number", VInt(issueNumber)), ("state", VStr(state)),
     ("labels", Labels(labels))]
  }

  /** `GitHubIssue(...)`: a document whose metadata gains the repository, number, state and labels. */
  method NewGitHubIssue(id: string, title: string, text: string, metadata: DocumentMetadata,
                        repository: string, issueNumber: int, state: string, labels: Option<seq<string>>,
                        url: Option<string>, createdAt: Option<Timestamp>, updatedAt: Option<Timestamp>)
    returns (doc: Document)
    requires metadata.Valid()
    modifies metadata
    ensures fresh(doc)
    ensures doc.id == id && doc.title == title && doc.text == text && doc.url == url
    ensures doc.metadata == metadata && metadata.Valid()
    ensures doc.createdAt == BackFill(createdAt, metadata.createdAt)
    ensures doc.updatedAt == BackFill(updatedAt, metadata.updatedAt)
    ensures metadata.extra == Update(old(metadata.extra), IssueExtra(repository, issueNumber, state, labels))
  {
    doc := new Document(id, title, text, metadata, url, createdAt, updatedAt);
    Enrich(doc.metadata.extra, IssueExtra(repository, issueNumber, state, labels));
    doc.metadata.extra := Update(doc.metadata.extra, IssueExtra(repository, issueNumber, state, labels));
  }

  /**
   * After a GitHub issue is built, `extra` holds the issue fields as given, the
   * labels as a list (empty when none were given), and every other key keeps its entry.
   */
  lemma {:induction false} IssueExtraFacts(extra: Dict<Value>, repository: string, issueNumber: int, state: string,
                                           labels: Option<seq<string>>)
    requires WellFormed(extra)
    ensures WellFormed(Update(extra, IssueExtra(repository, issueNumber, state, labels)))
    ensures Get(Update(extra, IssueExtra(repository, issueNumber, state, labels)), "repository") == Some(VStr(repository))
    ensures Get(Update(extra, IssueExtra(repository, issueNumber, state, labels)), "issue_number") == Some(VInt(issueNumber))
    ensures Get(Update(extra, IssueExtra(repository, issueNumber, state, labels)), "state") == Some(VStr(state))
    ensures Get(Update(extra, IssueExtra(repository, issueNumber, state, labels)), "labels") ==
      Some(StrList(if labels.Some? then labels.value else []))
    ensures forall k :: k !in IssueKeys ==>
      Get(Update(extra, IssueExtra(repository, issueNumber, state, labels)), k) == Get(extra, k)
  {
    var e := IssueExtra(repository, issueNumber, state, labels);
    DistinctKeys4(e);
    GetUpdate(extra, e, "");
    EnrichAt(extra, e, 0);
    EnrichAt(extra, e, 1);
    EnrichAt(extra, e, 2);
    EnrichAt(extra, e, 3);
    EnrichOther(extra, e);
  }

  /** The branch a file is recorded under when the caller names none. */
  const DefaultBranch := "main"

  /** The keys a GitHub file adds to `extra`, in order. */
  const FileKeys: seq<string> := ["repository", "file_path", "branch", "file_size"]

  /** The fields a GitHub file adds to `extra`; `None` for `branch` is an omitted argument. */
  function FileExtra(repository: string, filePath: string, branch: Option<string>, fileSize: Option<int>): Dict<Value>
  {
    [("repository", VStr(repository)), ("file_path", VStr(filePath)),
     ("branch", VStr(if branch.Some? then branch.value else DefaultBranch)), ("file_size", OptInt(fileSize))]
  }

  /** `GitHubFile(...)`: a document whose metadata gains the repository, path, branch and size. */
  method NewGitHubFile(id: string, title: string, text: string, metadata: DocumentMetadata,
                       repository: string, filePath: string, branch: Option<string>, fileSize: Option<int>,
                       url: Option<string>, createdAt: Option<Timestamp>, updatedAt: Option<Timestamp>)
    returns (doc: Document)
    requires metadata.Valid()
    modifies metadata
    ensures fresh(doc)
    ensures doc.id == id && doc.title == title && doc.text == text && doc.url == url
    ensures doc.metadata == metadata && metadata.Valid()
    ensures doc.createdAt == BackFill(createdAt, metadata.createdAt)
    ensures doc.updatedAt == BackFill(updatedAt, metadata.updatedAt)
    ensures metadata.extra == Update(old(metadata.extra), FileExtra(repository, filePath, branch, fileSize))
  {
    doc := new Document(id, title, text, metadata, url, createdAt, updatedAt);
    Enrich(doc.metadata.extra, FileExtra(repository, filePath, branch, fileSize));
    doc.metadata.extra := Update(doc.metadata.extra, FileExtra(repository, filePath, branch, fileSize));
  }

  /**
   * After a GitHub file is built, `extra` holds the repository and path, the
   * branch ("main" when omitted) and the size, None included; every other key
   * keeps its entry.
   */
  lemma {:induction false} FileExtraFacts(extra: Dict<Value>, repository: string, filePath: string,
                                          branch: Option<string>, fileSize: Option<int>)
    requires WellFormed(extra)
    ensures WellFormed(Update(extra, FileExtra(repository, filePath, branch, fileSize)))
    ensures Get(Update(extra, FileExtra(repository, filePath, branch, fileSize)), "repository") == Some(VStr(repository))
    ensures Get(Update(extra, FileExtra(repository, filePath, branch, fileSize)), "file_path") == Some(VStr(filePath))
    ensures branch.None? ==> Get(Update(extra, FileExtra(repository, filePath, branch, fileSize)), "branch") == Some(VStr("main"))
    ensures branch.Some? ==> Get(Update(extra, FileExtra(repository, filePath, branch, fileSize)), "branch") == Some(VStr(branch.value))
    ensures HasKey(Update(extra, FileExtra(repository, filePath, branch, fileSize)), "file_size")
    ensures Get(Update(extra, FileExtra(repository, filePath, branch, fileSize)), "file_size") == Some(OptInt(fileSize))
    ensures forall k :: k !in FileKeys ==>
      Get(Update(extra, FileExtra(repository, filePath, branch, fileSize)), k) == Get(extra, k)
  {
    var e := FileExtra(repository, filePath, branch, fileSize);
    DistinctKeys4(e);
    GetUpdate(extra, e, "");
    EnrichAt(extra, e, 0);
    EnrichAt(extra, e, 1);
    EnrichAt(extra, e, 2);
    EnrichAt(extra, e, 3);
    EnrichOther(extra, e);
  }

  /** The keys a Confluence page adds to `extra`, in order. */
  const PageKeys: seq<string> := ["space_key", "page_id", "version"]

  /** The fields a Confluence page adds to `extra`. */
  function PageExtra(spaceKey: string, pageId: string, version: Option<int>): Dict<Value>
  {
    [("space_key", VStr(spaceKey)), ("page_id", VStr(pageId)), ("version", OptInt(version))]
  }

  /** `ConfluencePage(...)`: a document whose metadata gains the space key, page id and version. */
  method NewConfluencePage(id: string, title: string, text: string, metadata: DocumentMetadata,
                           spaceKey: string, pageId: string, version: Option<int>,
                           url: Option<string>, createdAt: Option<Timestamp>, updatedAt: Option<Timestamp>)
    returns (doc: Document)
    requires metadata.Valid()
    modifies metadata
    ensures fresh(doc)
    ensures doc.id == id && doc.title == title && doc.text == text && doc.url == url
    ensures doc.metadata == metadata && metadata.Valid()
    ensures doc.createdAt == BackFill(createdAt, metadata.createdAt)
    ensures doc.updatedAt == BackFill(updatedAt, metadata.updatedAt)
    ensures metadata.extra == Update(old(metadata.extra), PageExtra(spaceKey, pageId, version))
  {
    doc := new Document(id, title, text, metadata, url, createdAt, updatedAt);
    Enrich(doc.metadata.extra, PageExtra(spaceKey, pageId, version));
    doc.metadata.extra := Update(doc.metadata.extra, PageExtra(spaceKey, pageId, version));
  }

  /**
   * After a Confluence page is built, `extra` holds the space key, the page id and
   * the version (None allowed); every other key keeps its entry.
   */
  lemma {:induction false} PageExtraFacts(extra: Dict<Value>, spaceKey: string, pageId: string, version: Option<int>)
    requires WellFormed(extra)
    ensures WellFormed(Update(extra, PageExtra(spaceKey, pageId, version)))
    ensures Get(Update(extra, PageExtra(spaceKey, pageId, version)), "space_key") == Some(VStr(spaceKey))
    ensures Get(Update(extra, PageExtra(spaceKey, pageId, version)), "page_id") == Some(VStr(pageId))
    ensures Get(Update(extra, PageExtra(spaceKey, pageId, version)), "version") == Some(OptInt(version))
    ensures forall k :: k !in PageKeys ==>
      Get(Update(extra, PageExtra(spaceKey, pageId, version)), k) == Get(extra, k)
  {
    var e := PageExtra(spaceKey, pageId, version);
    DistinctKeys3(e);
    GetUpdate(extra, e, "");
    EnrichAt(extra, e, 0);
    EnrichAt(extra, e, 1);
    EnrichAt(extra, e, 2);
    EnrichOther(extra, e);
  }
}
