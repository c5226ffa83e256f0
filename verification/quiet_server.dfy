/** The store behind a network that loses nothing, while nobody else acts: what each request
    does to the tables and is answered with. */
module QuietServer {
  import opened Common
  import opened Paths
  import opened StoreModel
  import opened StoreInvariant
  import opened StoreAnswers
  import opened Replication

  /** What the store makes of a request and answers, a commit drawing an unused revision id. */
  ghost predicate Answered(c: Config, db: Db, db': Db, request: Request, reply: Reply) {
    exists revision :: revision !in db.versions && (db', reply) == Serve(c, db, request, revision)
  }

  /** Projects, declarations, versions and heads are as they were. */
  predicate SameContents(db: Db, db': Db) {
    && db'.projects == db.projects && db'.manifests == db.manifests
    && db'.versions == db.versions && db'.heads == db.heads
  }

  /** The tables after a transfer is closed. */
  ghost function Closed(db: Db, k: TransferKey): Db { AbortUpload(db, k.project, k.transfer).db }

  lemma ClosedIs(db: Db, k: TransferKey)
    requires k.project in db.projects
    ensures SameContents(db, Closed(db, k)) && SameElsewhere(db, Closed(db, k), k)
    ensures k in Closed(db, k).uploads && Closed(db, k).uploads[k].state != Receiving
    ensures k in db.uploads && db.uploads[k].state != Receiving ==> Closed(db, k) == db
    ensures !(k in db.uploads && db.uploads[k].state == Committed) ==> Closed(db, k).uploads[k].state == Aborted
  {
    AbortExact(db, k.project, k.transfer);
  }

  lemma ClosedTwice(db: Db, k: TransferKey)
    requires k.project in db.projects
    ensures Closed(Closed(db, k), k) == Closed(db, k)
  {
    ClosedIs(db, k);
    ClosedIs(Closed(db, k), k);
  }

  lemma QueryAnswered(c: Config, db: Db, db': Db, t: Id, reply: Reply)
    requires Answered(c, db, db', Query(t), reply) && c.project in db.projects
    ensures db' == db
    ensures var k := TransferKey(c.project, t);
            reply == if k in db.uploads then Progress(StatusOf(t, db.uploads[k])) else Failure(NotFound)
  {
  }

  lemma AbortAnswered(c: Config, db: Db, db': Db, t: Id, reply: Reply)
    requires Answered(c, db, db', Abort(t), reply) && c.project in db.projects
    ensures var k := TransferKey(c.project, t);
            && db' == Closed(db, k) && k in db'.uploads && reply == Progress(StatusOf(t, db'.uploads[k]))
  {
  }

  lemma FetchAnswered(c: Config, db: Db, db': Db, r: Id, reply: Reply)
    requires Answered(c, db, db', Fetch(r), reply) && c.project in db.projects
    requires r in db.versions && db.versions[r].project == c.project && Verified(db.versions[r])
    ensures db' == db && reply == Content(db.versions[r].body)
  {
  }

  lemma ListAnswered(c: Config, db: Db, db': Db, reply: Reply)
    requires Answered(c, db, db', List, reply) && c.project in db.projects
    ensures db' == db && reply == Listing(HeadInfos(c, db))
  {
    hide StartUpload, AppendChunk, FinishUpload, AbortUpload, ReadRevision;
  }

  /** What a listing holds. */
  function HeadInfos(c: Config, db: Db): set<HeadInfo> {
    set h | h in LiveHeads(db, c.project) :: InfoOf(db.versions, h)
  }

  lemma InfosAre(c: Config, db: Db, h: HeadInfo)
    ensures h in HeadInfos(c, db) <==>
              && h.revision in db.versions && Head(c.project, h.path, h.revision) in db.heads
              && h.sha256 == db.versions[h.revision].sha256 && h.size == db.versions[h.revision].size
  {
    if h in HeadInfos(c, db) {
      var g :| g in LiveHeads(db, c.project) && h == InfoOf(db.versions, g);
      assert g == Head(c.project, h.path, h.revision);
    }
    if h.revision in db.versions && Head(c.project, h.path, h.revision) in db.heads {
      assert Head(c.project, h.path, h.revision) in LiveHeads(db, c.project);
    }
  }

  lemma SameInfos(c: Config, db: Db, db': Db)
    requires SameContents(db, db')
    ensures HeadInfos(c, db') == HeadInfos(c, db)
  {
  }

  // ------------------------------------------------------------------ upload

  /** The transfer is open for these bytes, of which the first `n` were received. */
  ghost predicate Sending(db: Db, k: TransferKey, data: Bytes, n: nat) {
    && n <= |data| <= MAX_FILE_BYTES && k.project in db.projects && db.projects[k.project].offline
    && k in db.uploads && db.uploads[k].state == Receiving
    && db.uploads[k].size == |data| && db.uploads[k].sha256 == Sha256(data)
    && Received(db, k, data[..n])
  }

  /** Nothing but this transfer differs. */
  ghost predicate OnlyTransfer(db: Db, db': Db, k: TransferKey) {
    SameContents(db, db') && SameElsewhere(db, db', k)
  }

  lemma OnlyTransitive(a: Db, b: Db, c: Db, k: TransferKey)
    requires OnlyTransfer(a, b, k) && OnlyTransfer(b, c, k)
    ensures OnlyTransfer(a, c, k)
  {
  }

  predicate SameFile(u: Upload, v: Upload) {
    v.path == u.path && v.size == u.size && v.sha256 == u.sha256 && v.base == u.base
  }

  lemma ChunkAnswered(c: Config, db: Db, db': Db, t: Id, data: Bytes, n: nat, end: nat, reply: Reply)
    requires Valid(c.fold, db) && Sending(db, TransferKey(c.project, t), data, n)
    requires n < end <= |data| && end - n <= MAX_CHUNK_BYTES
    requires Answered(c, db, db', Chunk(t, n, data[n..end]), reply)
    ensures var k := TransferKey(c.project, t);
            && reply == Progress(UploadStatus(t, Receiving, end, None))
            && Sending(db', k, data, end) && OnlyTransfer(db, db', k) && SameFile(db.uploads[k], db'.uploads[k])
  {
    hide Valid;
    var k := TransferKey(c.project, t);
    var tx := AppendChunk(db, c.project, t, n, data[n..end]);
    AppendWrites(c.fold, db, c.project, t, data[n..end], data[..n]);
    assert data[..n] + data[n..end] == data[..end];
    assert |data[..n]| == n;
    assert (db', reply) == ProgressOf(tx);
  }

  lemma CommitAnswered(c: Config, db: Db, db': Db, t: Id, data: Bytes, reply: Reply)
    requires Valid(c.fold, db) && Sending(db, TransferKey(c.project, t), data, |data|)
    requires Answered(c, db, db', Commit(t), reply)
    ensures var k := TransferKey(c.project, t);
            reply.Committal? && reply.receipt.revision !in db.versions
            && PublishedAs(db, db', k, data, reply.receipt.revision)
            && reply.receipt == Receipt(reply.receipt.revision, db.uploads[k].path, Sha256(data), |data|, c.project, t)
  {
    hide Valid;
    var k := TransferKey(c.project, t);
    assert data[..|data|] == data;
    var revision :| revision !in db.versions && (db', reply) == Serve(c, db, Commit(t), revision);
    CommitExact(c.fold, db, c.project, t, data, revision);
    hide FinishUpload;
    assert Committable(db, k, data, revision);
  }

  lemma RecommitAnswered(c: Config, db: Db, db': Db, t: Id, reply: Reply)
    requires Valid(c.fold, db) && c.project in db.projects && TransferKey(c.project, t) in db.uploads
    requires db.uploads[TransferKey(c.project, t)].state == Committed
    requires Answered(c, db, db', Commit(t), reply)
    ensures db' == db && reply.Committal? && Some(reply.receipt) == db.uploads[TransferKey(c.project, t)].receipt
  {
    hide Valid;
    var revision :| revision !in db.versions && (db', reply) == Serve(c, db, Commit(t), revision);
    CommitAgainExact(c.fold, db, c.project, t, revision);
  }

  lemma BeginAnswered(c: Config, db: Db, db': Db, t: Id, path: Path, size: int, sha: Digest, base: Option<Id>,
                      reply: Reply)
    requires Answered(c, db, db', Begin(t, path, size, sha, base), reply)
    requires TransferKey(c.project, t) !in db.uploads
    ensures var k := TransferKey(c.project, t);
            if Admitted(c.fold, db, c.project, path, size, base) then
              && db' == Opened(db, k, Upload(path, size, sha, base, Receiving, 0, None))
              && reply == Progress(UploadStatus(t, Receiving, 0, None))
            else db' == db && reply.Failure?
  {
    BeginExact(c.fold, db, c.project, t, path, size, sha, base);
    hide StartUpload, Admitted;
    assert (db', reply) == ProgressOf(StartUpload(c.fold, db, c.project, t, path, size, sha, base));
  }

  lemma RebeginAnswered(c: Config, db: Db, db': Db, t: Id, path: Path, size: int, sha: Digest, base: Option<Id>,
                        reply: Reply)
    requires Answered(c, db, db', Begin(t, path, size, sha, base), reply)
    requires TransferKey(c.project, t) in db.uploads && c.project in db.projects && 0 <= size <= MAX_FILE_BYTES
    ensures var u := db.uploads[TransferKey(c.project, t)];
            && db' == db
            && reply == if u.state == Aborted || (u.path == path && u.size == size && u.sha256 == sha && u.base == base)
                        then Progress(StatusOf(t, u)) else Failure(TransferConflict)
  {
    BeginAgainExact(c.fold, db, c.project, t, path, size, sha, base);
    hide StartUpload;
    assert (db', reply) == ProgressOf(StartUpload(c.fold, db, c.project, t, path, size, sha, base));
  }

  lemma TooLargeAnswered(c: Config, db: Db, db': Db, begin: Request, reply: Reply)
    requires begin.Begin? && begin.size > MAX_FILE_BYTES && Answered(c, db, db', begin, reply)
    ensures db' == db && reply == Failure(Invalid)
  {
  }

  /** A transfer just opened. */
  lemma OpenedIs(db: Db, k: TransferKey, row: Upload, data: Bytes)
    requires k.project in db.projects && db.projects[k.project].offline && k !in db.chunks
    requires |data| <= MAX_FILE_BYTES
    requires row.state == Receiving && row.offset == 0 && row.size == |data| && row.sha256 == Sha256(data)
    ensures Sending(Opened(db, k, row), k, data, 0) && OnlyTransfer(db, Opened(db, k, row), k)
  {
    assert data[..0] == [];
    assert Blocks(Opened(db, k, row).chunks, k) == map[];
  }
}
