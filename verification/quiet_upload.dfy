/** Uploads where nothing interferes: when bytes can be sent, what their publication changes,
    and which files can be sent one after the other. */
module QuietUpload {
  import opened Common
  import opened Paths
  import opened StoreModel
  import opened StoreInvariant
  import opened Replication
  import opened StoreAnswers
  import opened PendingRows
  import opened QuietServer
  import opened SyncWorld
  import opened QuietPaths

  /** A value, a `ClientError` (reported, the run goes on), or an HTTP failure or
      timeout (the run ends, nothing is concluded). */
  datatype Result<+T> = Ok(value: T) | ClientError | HttpError

  function BeginOf(path: Path, size: nat, row: PendingRow): Request {
    Begin(row.transfer, path, size, row.sha256, row.base)
  }

  /** The first `n` bytes are received, and nothing but the transfer changed since. */
  ghost predicate AllSent(db: Db, db': Db, k: TransferKey, data: Bytes, n: nat) {
    && k in db.uploads && Sending(db', k, data, n) && OnlyTransfer(db, db', k)
    && k in db'.uploads && SameFile(db.uploads[k], db'.uploads[k])
  }

  lemma SentSoFar(db: Db, k: TransferKey, data: Bytes, n: nat)
    requires Sending(db, k, data, n)
    ensures AllSent(db, db, k, data, n)
  {
  }

  lemma MoreSent(c: Config, a: Db, b: Db, b': Db, t: Id, data: Bytes, n: nat, end: nat, reply: Reply)
    requires Valid(c.fold, b) && AllSent(a, b, TransferKey(c.project, t), data, n)
    requires n < end <= |data| && end - n <= MAX_CHUNK_BYTES
    requires Answered(c, b, b', Chunk(t, n, data[n..end]), reply)
    ensures AllSent(a, b', TransferKey(c.project, t), data, end)
    ensures reply.Progress? && reply.status.nextOffset == end
  {
    hide Valid, Answered;
    ChunkAnswered(c, b, b', t, data, n, end, reply);
  }

  // ----------------------------------------------------------------- a begin

  function NewUpload(path: Path, size: nat, row: PendingRow): Upload {
    Upload(path, size, row.sha256, row.base, Receiving, 0, None)
  }

  /** What a begin does and is answered with: a new transfer is opened if it is admitted; a
      known one is reported if it was canceled or is for this very file, else refused. */
  ghost predicate Begins(c: Config, db: Db, db': Db, path: Path, size: nat, row: PendingRow, r: Result<UploadStatus>) {
    var k := TransferKey(c.project, row.transfer);
    if k !in db.uploads then
      if Admitted(c.fold, db, c.project, path, size, row.base) then
        db' == Opened(db, k, NewUpload(path, size, row)) && r == Ok(UploadStatus(row.transfer, Receiving, 0, None))
      else db' == db && r.HttpError?
    else
      && db' == db
      && if size <= MAX_FILE_BYTES
            && (db.uploads[k].state == Aborted || (RowMatches(db.uploads[k], path, row) && db.uploads[k].size == size))
         then r == Ok(StatusOf(row.transfer, db.uploads[k])) else r.HttpError?
  }

  lemma BeginIs(c: Config, db: Db, db': Db, path: Path, size: nat, row: PendingRow, reply: Reply)
    requires c.project in db.projects && Answered(c, db, db', BeginOf(path, size, row), reply)
    ensures Begins(c, db, db', path, size, row, if reply.Progress? then Ok(reply.status) else HttpError)
  {
    hide Answered, Admitted;
    if TransferKey(c.project, row.transfer) !in db.uploads {
      BeginAnswered(c, db, db', row.transfer, path, size, row.sha256, row.base, reply);
    } else if size <= MAX_FILE_BYTES {
      RebeginAnswered(c, db, db', row.transfer, path, size, row.sha256, row.base, reply);
    } else {
      TooLargeAnswered(c, db, db', BeginOf(path, size, row), reply);
    }
  }

  /** The transfer of a row can be opened: it is known, not canceled and of this size, or it
      is admitted as a new one. */
  ghost predicate Opens(c: Config, db: Db, path: Path, size: nat, row: PendingRow) {
    var k := TransferKey(c.project, row.transfer);
    if k in db.uploads && db.uploads[k].state != Aborted then
      size <= MAX_FILE_BYTES && db.uploads[k].size == size && RowMatches(db.uploads[k], path, row)
    else Admitted(c.fold, db, c.project, path, size, row.base)
  }

  /** How it is opened: as it is, or as a new transfer. */
  ghost predicate OpenedAs(c: Config, db: Db, db': Db, path: Path, size: nat, row: PendingRow, row': PendingRow,
                           status: UploadStatus) {
    var k, k' := TransferKey(c.project, row.transfer), TransferKey(c.project, row'.transfer);
    if k in db.uploads && db.uploads[k].state != Aborted then
      db' == db && row' == row && status == StatusOf(row.transfer, db.uploads[k])
    else
      && k' !in db.uploads && db' == Opened(db, k', NewUpload(path, size, row'))
      && status == UploadStatus(row'.transfer, Receiving, 0, None)
  }

  lemma FirstBegin(c: Config, db: Db, db': Db, path: Path, size: nat, row: PendingRow, r: Result<UploadStatus>)
    requires Begins(c, db, db', path, size, row, r)
    ensures r.Ok? && r.value.state != Aborted ==>
              Opens(c, db, path, size, row) && OpenedAs(c, db, db', path, size, row, row, r.value)
    ensures !r.Ok? ==> db' == db && !Opens(c, db, path, size, row)
    ensures r.Ok? && r.value.state == Aborted ==>
              && db' == db && TransferKey(c.project, row.transfer) in db.uploads
              && db.uploads[TransferKey(c.project, row.transfer)].state == Aborted
  {
  }

  lemma SecondBegin(c: Config, db: Db, db': Db, path: Path, size: nat, row: PendingRow, row': PendingRow,
                    r: Result<UploadStatus>)
    requires Begins(c, db, db', path, size, row', r) && TransferKey(c.project, row'.transfer) !in db.uploads
    requires row'.sha256 == row.sha256 && row'.base == row.base
    requires TransferKey(c.project, row.transfer) in db.uploads
    requires db.uploads[TransferKey(c.project, row.transfer)].state == Aborted
    ensures r.Ok? <==> Opens(c, db, path, size, row)
    ensures if r.Ok? then r.value.state != Aborted && OpenedAs(c, db, db', path, size, row, row', r.value)
            else db' == db
  {
    hide Admitted;
  }

  // --------------------------------------------------------------- an upload

  /** The server knows the transfer, and it was not canceled. */
  predicate Active(c: Config, db: Db, row: PendingRow) {
    var k := TransferKey(c.project, row.transfer);
    k in db.uploads && db.uploads[k].state != Aborted
  }

  /** The path's row is of a transfer that can go on. */
  predicate Resumes(c: Config, db: Db, r: Replica, path: Path) { path in r.uploads && Active(c, db, r.uploads[path]) }

  /** These bytes can be sent: what the server received under the path's row is the beginning
      of them, or a transfer of them is admitted as a new one. */
  ghost predicate Ready(c: Config, me: ReplicaId, s: Sys, path: Path, data: Bytes) {
    && me in s.replicas
    && var r := s.replicas[me];
       && (path in r.uploads ==> r.uploads[path].sha256 == Sha256(data))
       && if Resumes(c, s.db, r, path) then
            var k := TransferKey(c.project, r.uploads[path].transfer);
            Sending(s.db, k, data, s.db.uploads[k].offset)
          else Admitted(c.fold, s.db, c.project, path, |data|, BaseOf(r, path))
  }

  /** One version of these bytes was published at the path, in place of its base among the
      heads, under a transfer that is over; nothing else changed. */
  ghost predicate SentAs(c: Config, db: Db, db': Db, k: TransferKey, path: Path, data: Bytes, base: Option<Id>,
                         revision: Id)
  {
    && revision !in db.versions
    && db'.versions == db.versions[revision := Version(c.project, path, Sha256(data), |data|, data)]
    && (forall h :: h in db'.heads <==>
          || h == Head(c.project, path, revision)
          || (h in db.heads && (base.Some? ==> h != Head(c.project, path, base.value))))
    && SameElsewhere(db, db', k)
    && k in db'.uploads && db'.uploads[k].state == Committed && db'.uploads[k].path == path
    && (k in db.uploads ==> db.uploads[k].state == Receiving && db.uploads[k].size == |data|)
  }

  /** What is known of an upload published as this revision: files and bases are as they were,
      the path has a row for the bytes, the one resumed if one was. */
  ghost predicate Finished(c: Config, me: ReplicaId, s: Sys, s': Sys, path: Path, data: Bytes, revision: Id) {
    && me in s.replicas && me in s'.replicas
    && var r, r' := s.replicas[me], s'.replicas[me];
       && r'.files == r.files && r'.base == r.base
       && path in r'.uploads && r'.uploads[path].sha256 == Sha256(data)
       && (forall p :: p != path ==> Got(r'.uploads, p) == Got(r.uploads, p))
       && (Resumes(c, s.db, r, path) ==> r'.uploads[path] == r.uploads[path])
       && SentAs(c, s.db, s'.db, TransferKey(c.project, r'.uploads[path].transfer), path, data, BaseOf(r, path),
                 revision)
  }

  ghost predicate Uploaded(c: Config, me: ReplicaId, s: Sys, s': Sys, path: Path, data: Bytes) {
    exists revision :: Finished(c, me, s, s', path, data, revision)
  }

  /** An opened transfer is one that is sending. */
  lemma OpenedSends(c: Config, db: Db, db': Db, path: Path, data: Bytes, row: PendingRow, row': PendingRow,
                    status: UploadStatus)
    requires Valid(c.fold, db) && c.project in db.projects && db.projects[c.project].offline && |data| <= MAX_FILE_BYTES
    requires row.sha256 == row'.sha256 == Sha256(data) && row'.base == row.base
    requires OpenedAs(c, db, db', path, |data|, row, row', status)
    requires Active(c, db, row) ==>
               var k := TransferKey(c.project, row.transfer);
               Sending(db, k, data, db.uploads[k].offset) && RowMatches(db.uploads[k], path, row)
    ensures var k := TransferKey(c.project, row'.transfer);
            && Sending(db', k, data, status.nextOffset) && OnlyTransfer(db, db', k)
            && RowMatches(db'.uploads[k], path, row')
            && (k in db.uploads ==> db.uploads[k].state == Receiving && db.uploads[k].size == |data|)
  {
    var k := TransferKey(c.project, row'.transfer);
    if k !in db.uploads { JournalsKnown(c, db, k); }
    hide Valid, Admitted, PairwiseClear, Received;
    if !Active(c, db, row) { OpenedIs(db, k, NewUpload(path, |data|, row'), data); }
  }

  lemma JournalsKnown(c: Config, db: Db, k: TransferKey)
    requires Valid(c.fold, db) && k !in db.uploads
    ensures k !in db.chunks
  {
  }

  /** All bytes were sent, and then committed. */
  ghost predicate Delivered(db: Db, db': Db, k: TransferKey, data: Bytes, revision: Id) {
    exists m :: AllSent(db, m, k, data, |data|) && revision !in m.versions && PublishedAs(m, db', k, data, revision)
  }

  lemma DeliveredIs(a: Db, m: Db, z: Db, k: TransferKey, data: Bytes, revision: Id)
    requires AllSent(a, m, k, data, |data|) && revision !in m.versions && PublishedAs(m, z, k, data, revision)
    ensures Delivered(a, z, k, data, revision)
  {
  }

  lemma PublishedProjects(m: Db, z: Db, k: TransferKey, data: Bytes, revision: Id)
    requires k in m.uploads && PublishedAs(m, z, k, data, revision)
    ensures z.projects == m.projects
  {
  }

  /** Opened, sent and committed, the bytes are uploaded. */
  lemma CommittedAs(c: Config, a: Db, b: Db, z: Db, k: TransferKey, path: Path, data: Bytes, row: PendingRow,
                    n: nat, revision: Id)
    requires StartsSending(a, b, path, data, row, k, n) && Delivered(b, z, k, data, revision)
    requires k == TransferKey(c.project, row.transfer) && row.sha256 == Sha256(data)
    ensures SentAs(c, a, z, k, path, data, row.base, revision)
  {
    var m :| AllSent(b, m, k, data, |data|) && revision !in m.versions && PublishedAs(m, z, k, data, revision);
    OnlyTransitive(a, b, m, k);
    ElsewhereOn(a, m, z, k);
    hide Sending, SameElsewhere;
  }

  lemma UploadedIs(c: Config, me: ReplicaId, s: Sys, s': Sys, path: Path, data: Bytes, revision: Id)
    requires me in s.replicas && me in s'.replicas
    requires var r, r' := s.replicas[me], s'.replicas[me];
             && r'.files == r.files && r'.base == r.base
             && (forall p :: p != path ==> (p in r'.uploads <==> p in r.uploads)
                                           && (p in r'.uploads ==> r'.uploads[p] == r.uploads[p]))
             && path in r'.uploads && r'.uploads[path].sha256 == Sha256(data)
             && (Resumes(c, s.db, r, path) ==> r'.uploads[path] == r.uploads[path])
             && SentAs(c, s.db, s'.db, TransferKey(c.project, r'.uploads[path].transfer), path, data, BaseOf(r, path),
                       revision)
    ensures Uploaded(c, me, s, s', path, data)
  {
    assert Finished(c, me, s, s', path, data, revision);
  }

  lemma ElsewhereOn(a: Db, m: Db, z: Db, k: TransferKey)
    requires OnlyTransfer(a, m, k) && SameElsewhere(m, z, k)
    ensures SameElsewhere(a, z, k)
  {
  }

  /** The row claimed for the path: the one there was, or a new one. */
  ghost predicate ClaimedRow(c: Config, me: ReplicaId, s: Sys, path: Path, data: Bytes, row: PendingRow) {
    && me in s.replicas && row.sha256 == Sha256(data) && row.base == BaseOf(s.replicas[me], path)
    && (if path in s.replicas[me].uploads then row == s.replicas[me].uploads[path]
        else TransferKey(c.project, row.transfer) !in s.db.uploads)
    && (Active(c, s.db, row) ==> RowMatches(s.db.uploads[TransferKey(c.project, row.transfer)], path, row))
  }

  lemma ReadyRow(c: Config, me: ReplicaId, s: Sys, path: Path, data: Bytes)
    requires Ready(c, me, s, path, data)
    ensures path in s.replicas[me].uploads ==> s.replicas[me].uploads[path].sha256 == Sha256(data)
  {
  }

  lemma ReadyOpens(c: Config, me: ReplicaId, s: Sys, path: Path, data: Bytes, row: PendingRow)
    requires ClaimedRow(c, me, s, path, data, row)
    ensures Ready(c, me, s, path, data) ==> Opens(c, s.db, path, |data|, row)
    ensures path !in s.replicas[me].uploads ==> (Ready(c, me, s, path, data) <==> Opens(c, s.db, path, |data|, row))
  {
    hide Admitted, Received;
  }

  /** The transfer of the row is open for these bytes, from the offset on, and nothing else
      changed. */
  ghost predicate StartsSending(db: Db, db': Db, path: Path, data: Bytes, row: PendingRow, k: TransferKey, n: nat) {
    && Sending(db', k, data, n) && OnlyTransfer(db, db', k) && RowMatches(db'.uploads[k], path, row)
    && (k in db.uploads ==> db.uploads[k].state == Receiving && db.uploads[k].size == |data|)
  }

  lemma StartsIs(db: Db, db': Db, path: Path, data: Bytes, row: PendingRow, k: TransferKey, n: nat)
    requires StartsSending(db, db', path, data, row, k, n)
    ensures Sending(db', k, data, n)
  {
  }

  lemma ReadySends(c: Config, me: ReplicaId, s: Sys, db': Db, path: Path, data: Bytes, row: PendingRow,
                   row': PendingRow,
                   status: UploadStatus)
    requires Valid(c.fold, s.db) && ClaimedRow(c, me, s, path, data, row) && Ready(c, me, s, path, data)
    requires row'.sha256 == row.sha256 && row'.base == row.base
    requires OpenedAs(c, s.db, db', path, |data|, row, row', status)
    ensures StartsSending(s.db, db', path, data, row', TransferKey(c.project, row'.transfer), status.nextOffset)
    ensures Active(c, s.db, row) ==> row' == row
    ensures status.nextOffset <= |data|
  {
    hide Valid, Unclaimed, HasRoom;
    OpenedSends(c, s.db, db', path, data, row, row', status);
  }

  // -------------------------------------------------------------- all uploads

  /** An inventoried file that is not sent: a head of its path has its content, or it is the
      common version and the path has some head. */
  ghost predicate SkipsUpload(item: FileEntry, heads: set<HeadInfo>, base: Option<BaseRow>) {
    || (exists h :: h in heads && h.sha256 == item.sha256 && h.size == item.size)
    || (base.Some? && base.value.sha256 == item.sha256 && heads != {})
  }

  /** All a new transfer needs but room. */
  ghost predicate Startable(c: Config, db: Db, path: Path, size: int, base: Option<Id>) {
    && 0 <= size <= MAX_FILE_BYTES && c.project in db.projects && db.projects[c.project].offline
    && (base.Some? ==>
          && base.value in db.versions && db.versions[base.value].project == c.project
          && db.versions[base.value].path == path)
    && Unclaimed(c.fold, db, c.project, path)
  }

  /** The file can be sent as far as it is alone concerned, room aside. */
  ghost predicate Prepared(c: Config, me: ReplicaId, s: Sys, path: Path)
    requires me in s.replicas && path in s.replicas[me].files
  {
    var r := s.replicas[me];
    var data := r.files[path];
    && (path in r.uploads ==> r.uploads[path].sha256 == Sha256(data))
    && if Resumes(c, s.db, r, path) then
         var k := TransferKey(c.project, r.uploads[path].transfer);
         Sending(s.db, k, data, s.db.uploads[k].offset)
       else Startable(c, s.db, path, |data|, BaseOf(r, path))
  }

  /** The sizes of those among the files that need a new transfer. */
  function NewSizes(c: Config, db: Db, r: Replica, paths: set<Path>): map<Path, nat> {
    map p | p in paths && p in r.files && !Resumes(c, db, r, p) :: |r.files[p]|
  }

  /** There is a free transfer, room to receive each of them, and to keep all of them. */
  ghost predicate Affordable(db: Db, sizes: map<Path, nat>) {
    && (sizes != map[] ==> ActiveTransfers(db.uploads) < MAX_ACTIVE_TRANSFERS)
    && (forall p :: p in sizes ==> ReservedBytes(db.uploads) + sizes[p] <= MAX_RESERVED_BYTES)
    && StoredBytes(db.versions) + ReservedBytes(db.uploads) + Total(sizes) <= MAX_TENANT_BYTES
  }

  /** These files can be sent one after the other, in any order. */
  ghost predicate Sendable(c: Config, me: ReplicaId, s: Sys, paths: set<Path>) {
    && me in s.replicas
    && (forall p :: p in paths ==> p in s.replicas[me].files && Prepared(c, me, s, p))
    && (forall p, q :: p in paths && q in paths && p != q ==> !Collides(c.fold, p, q))
    && Affordable(s.db, NewSizes(c, s.db, s.replicas[me], paths))
  }

  lemma SendableReady(c: Config, me: ReplicaId, s: Sys, paths: set<Path>, p: Path)
    requires Sendable(c, me, s, paths) && p in paths
    ensures Ready(c, me, s, p, s.replicas[me].files[p])
  {
    var r := s.replicas[me];
    var sizes := NewSizes(c, s.db, r, paths);
    if !Resumes(c, s.db, r, p) {
      assert p in sizes;
      TotalRemove(sizes, p);
      HasRoomIs(s.db, |r.files[p]|);
      hide Unclaimed, HasRoom, Total;
      assert Startable(c, s.db, p, |r.files[p]|, BaseOf(r, p));
    }
  }

  lemma SameElsewhereSends(db: Db, db': Db, k: TransferKey, l: TransferKey, data: Bytes)
    requires SameElsewhere(db, db', k) && l != k && l in db.uploads
    requires Sending(db, l, data, db.uploads[l].offset)
    ensures l in db'.uploads && db'.uploads[l] == db.uploads[l] && Sending(db', l, data, db'.uploads[l].offset)
  {
  }

  lemma UnclaimedStays(c: Config, db: Db, db': Db, k: TransferKey, path: Path, data: Bytes, base: Option<Id>,
                       revision: Id, p: Path)
    requires SentAs(c, db, db', k, path, data, base, revision) && !Collides(c.fold, p, path)
    requires Unclaimed(c.fold, db, c.project, p)
    ensures Unclaimed(c.fold, db', c.project, p)
  {
    forall l | l in db'.uploads && l.project == c.project && !db'.uploads[l].state.Aborted?
      ensures !Collides(c.fold, p, db'.uploads[l].path)
    {
      if l != k { assert db'.uploads[l] == db.uploads[l]; }
    }
  }

  /** Another file stays prepared. */
  lemma PreparedStays(c: Config, me: ReplicaId, s: Sys, s': Sys, path: Path, data: Bytes, revision: Id, p: Path)
    requires me in s.replicas && me in s'.replicas && p in s.replicas[me].files && Prepared(c, me, s, p) && p != path
    requires var r, r' := s.replicas[me], s'.replicas[me];
             && r'.files == r.files && r'.base == r.base && path in r'.uploads
             && Got(r'.uploads, p) == Got(r.uploads, p)
             && (p in r.uploads ==> r.uploads[p].transfer != r'.uploads[path].transfer)
    requires SentAs(c, s.db, s'.db, TransferKey(c.project, s'.replicas[me].uploads[path].transfer), path, data,
                    BaseOf(s.replicas[me], path), revision)
    requires !Collides(c.fold, p, path)
    ensures Prepared(c, me, s', p)
    ensures Resumes(c, s'.db, s'.replicas[me], p) <==> Resumes(c, s.db, s.replicas[me], p)
  {
    var r, k := s.replicas[me], TransferKey(c.project, s'.replicas[me].uploads[path].transfer);
    hide Sending, Unclaimed;
    if Resumes(c, s.db, r, p) {
      SameElsewhereSends(s.db, s'.db, k, TransferKey(c.project, r.uploads[p].transfer), r.files[p]);
    } else {
      UnclaimedStays(c, s.db, s'.db, k, path, data, BaseOf(r, path), revision, p);
    }
  }

  lemma StoredAfter(before: Versions, after: Versions, revision: Id, v: Version)
    requires revision !in before && after == before[revision := v]
    ensures StoredBytes(after) == StoredBytes(before) + v.size
  {
    assert StoredSizes(after) == StoredSizes(before)[revision := v.size];
    TotalInsert(StoredSizes(before), revision, v.size);
  }

  lemma ReservedAfter(before: Uploads, after: Uploads, k: TransferKey, n: nat)
    requires forall l :: l != k ==> (l in after <==> l in before) && (l in before ==> after[l] == before[l])
    requires k in after && after[k].state == Committed
    requires k in before ==> before[k].state == Receiving && before[k].size == n
    ensures ReservedBytes(after) == ReservedBytes(before) - if k in before then n else 0
    ensures ActiveTransfers(after) <= ActiveTransfers(before)
  {
    var open := ReservedSizes(before);
    if k in before {
      assert ReservedSizes(after) == open - {k};
      TotalRemove(open, k);
      Fewer(open, k);
    } else {
      assert ReservedSizes(after) == open;
    }
  }

  /** What a published upload does to the totals: its bytes are stored, and no longer
      reserved if they were. */
  lemma SentTotals(c: Config, db: Db, db': Db, k: TransferKey, path: Path, data: Bytes, base: Option<Id>, revision: Id)
    requires SentAs(c, db, db', k, path, data, base, revision)
    ensures StoredBytes(db'.versions) == StoredBytes(db.versions) + |data|
    ensures ReservedBytes(db'.uploads) == ReservedBytes(db.uploads) - if k in db.uploads then |data| else 0
    ensures ActiveTransfers(db'.uploads) <= ActiveTransfers(db.uploads)
  {
    StoredAfter(db.versions, db'.versions, revision, Version(c.project, path, Sha256(data), |data|, data));
    ReservedAfter(db.uploads, db'.uploads, k, |data|);
  }

  lemma SizesAfter(c: Config, db: Db, db': Db, r: Replica, r': Replica, paths: set<Path>, path: Path)
    requires r'.files == r.files && path in paths && path in r.files
    requires forall p :: p in paths && p != path ==> (Resumes(c, db', r', p) <==> Resumes(c, db, r, p))
    ensures var sizes, sizes' := NewSizes(c, db, r, paths), NewSizes(c, db', r', paths - {path});
            && sizes' == sizes - {path}
            && Total(sizes') == Total(sizes) - if Resumes(c, db, r, path) then 0 else |r.files[path]|
  {
    var sizes := NewSizes(c, db, r, paths);
    assert NewSizes(c, db', r', paths - {path}) == sizes - {path};
    if path in sizes { TotalRemove(sizes, path); } else { assert sizes - {path} == sizes; }
  }

  lemma OtherPrepared(c: Config, me: ReplicaId, s: Sys, s': Sys, path: Path, data: Bytes, revision: Id, p: Path)
    requires Finished(c, me, s, s', path, data, revision) && OneRowEach(s'.replicas)
    requires p in s.replicas[me].files && Prepared(c, me, s, p) && p != path && !Collides(c.fold, p, path)
    ensures Prepared(c, me, s', p)
    ensures Resumes(c, s'.db, s'.replicas[me], p) <==> Resumes(c, s.db, s.replicas[me], p)
  {
    hide SentAs, Prepared, Resumes;
    assert Got(s'.replicas[me].uploads, p) == Got(s.replicas[me].uploads, p);
    PreparedStays(c, me, s, s', path, data, revision, p);
  }

  lemma OthersPrepared(c: Config, me: ReplicaId, s: Sys, s': Sys, paths: set<Path>, path: Path, data: Bytes,
                       revision: Id)
    requires Sendable(c, me, s, paths) && path in paths && OneRowEach(s'.replicas)
    requires Finished(c, me, s, s', path, data, revision)
    ensures forall p :: p in paths && p != path ==>
              && p in s'.replicas[me].files && Prepared(c, me, s', p)
              && (Resumes(c, s'.db, s'.replicas[me], p) <==> Resumes(c, s.db, s.replicas[me], p))
  {
    assert s'.replicas[me].files == s.replicas[me].files;
    hide SentAs, Prepared, Affordable, Finished, Resumes, OneRowEach;
    forall p | p in paths && p != path
      ensures Prepared(c, me, s', p)
      ensures Resumes(c, s'.db, s'.replicas[me], p) <==> Resumes(c, s.db, s.replicas[me], p)
    {
      OtherPrepared(c, me, s, s', path, data, revision, p);
    }
  }

  lemma StaysAffordable(c: Config, me: ReplicaId, s: Sys, s': Sys, paths: set<Path>, path: Path, revision: Id)
    requires Sendable(c, me, s, paths) && path in paths && path in s.replicas[me].files
    requires Finished(c, me, s, s', path, s.replicas[me].files[path], revision)
    requires forall p :: p in paths && p != path ==>
               (Resumes(c, s'.db, s'.replicas[me], p) <==> Resumes(c, s.db, s.replicas[me], p))
    ensures Affordable(s'.db, NewSizes(c, s'.db, s'.replicas[me], paths - {path}))
  {
    var r, r' := s.replicas[me], s'.replicas[me];
    hide SentAs, Prepared, Affordable;
    SizesAfter(c, s.db, s'.db, r, r', paths, path);
    SentTotals(c, s.db, s'.db, TransferKey(c.project, r'.uploads[path].transfer), path, r.files[path], BaseOf(r, path),
               revision);
    StillAffordable(c, s, s', me, paths, path, revision);
  }

  lemma FinishedHere(c: Config, me: ReplicaId, s: Sys, s': Sys, path: Path, data: Bytes, revision: Id)
    requires Finished(c, me, s, s', path, data, revision)
    ensures me in s'.replicas
  {
  }

  /** After one of them was sent, the others can still be. */
  lemma SendableStays(c: Config, me: ReplicaId, s: Sys, s': Sys, paths: set<Path>, path: Path)
    requires Sendable(c, me, s, paths) && path in paths && OneRowEach(s'.replicas)
    requires Uploaded(c, me, s, s', path, s.replicas[me].files[path])
    ensures Sendable(c, me, s', paths - {path})
  {
    hide Finished, Prepared, Affordable, Resumes, OneRowEach, Collides;
    var revision :| Finished(c, me, s, s', path, s.replicas[me].files[path], revision);
    FinishedHere(c, me, s, s', path, s.replicas[me].files[path], revision);
    OthersPrepared(c, me, s, s', paths, path, s.replicas[me].files[path], revision);
    StaysAffordable(c, me, s, s', paths, path, revision);
  }

  lemma StillAffordable(c: Config, s: Sys, s': Sys, me: ReplicaId, paths: set<Path>, path: Path, revision: Id)
    requires me in s.replicas && me in s'.replicas && path in s.replicas[me].files && path in s'.replicas[me].uploads
    requires var r, r' := s.replicas[me], s'.replicas[me];
             var k, n := TransferKey(c.project, r'.uploads[path].transfer), |r.files[path]|;
             var sizes, sizes' := NewSizes(c, s.db, r, paths), NewSizes(c, s'.db, r', paths - {path});
             && Affordable(s.db, sizes)
             && sizes' == sizes - {path} && Total(sizes') == Total(sizes) - (if Resumes(c, s.db, r, path) then 0 else n)
             && StoredBytes(s'.db.versions) == StoredBytes(s.db.versions) + n
             && ReservedBytes(s'.db.uploads) == ReservedBytes(s.db.uploads) - (if k in s.db.uploads then n else 0)
             && ActiveTransfers(s'.db.uploads) <= ActiveTransfers(s.db.uploads)
             && (Resumes(c, s.db, r, path) ==> k in s.db.uploads)
    ensures Affordable(s'.db, NewSizes(c, s'.db, s'.replicas[me], paths - {path}))
  {
    hide NewSizes, Resumes;
  }

  /** The inventoried files that are sent. */
  ghost function ToSend(r: Replica, files: map<Path, FileEntry>, heads: set<HeadInfo>): set<Path> {
    set p | p in files && !SkipsUpload(files[p], HeadsAt(heads, p), Got(r.base, p))
  }

  /** The heads of the path are those it had but its base, and one new version of the bytes. */
  ghost predicate PathSent(c: Config, db: Db, db': Db, path: Path, data: Bytes, base: Option<Id>) {
    exists revision ::
      && revision !in db.versions && revision in db'.versions
      && db'.versions[revision] == Version(c.project, path, Sha256(data), |data|, data)
      && forall q :: Head(c.project, path, q) in db'.heads <==>
           q == revision || (Head(c.project, path, q) in db.heads && base != Some(q))
  }

  ghost predicate HeadsKept(c: Config, db: Db, db': Db, path: Path) {
    forall h: Head :: h.project == c.project && h.path == path ==> (h in db'.heads <==> h in db.heads)
  }

  /** These files were sent and nothing else changed: not the folder, no base, no head of
      another path, no retained version. */
  ghost predicate SentAll(c: Config, me: ReplicaId, s: Sys, s': Sys, paths: set<Path>) {
    && me in s.replicas && me in s'.replicas
    && var r, r' := s.replicas[me], s'.replicas[me];
       && r'.files == r.files && r'.base == r.base && Grew(s.db.versions, s'.db.versions)
       && s'.db.projects == s.db.projects
       && (forall p :: p in paths ==>
             p in r.files && PathSent(c, s.db, s'.db, p, r.files[p], BaseOf(r, p)))
       && (forall p :: p !in paths ==>
             HeadsKept(c, s.db, s'.db, p) && Got(r'.uploads, p) == Got(r.uploads, p))
  }

  lemma NoneSent(c: Config, me: ReplicaId, s: Sys)
    requires me in s.replicas
    ensures SentAll(c, me, s, s, {})
  {
  }

  lemma SentStays(c: Config, a: Db, m: Db, z: Db, k: TransferKey, path: Path, data: Bytes, base: Option<Id>,
                  revision: Id, p: Path, sent: Bytes, was: Option<Id>)
    requires SentAs(c, m, z, k, path, data, base, revision) && p != path && PathSent(c, a, m, p, sent, was)
    ensures PathSent(c, a, z, p, sent, was)
  {
    hide SameElsewhere;
    var q :| q !in a.versions && q in m.versions
             && m.versions[q] == Version(c.project, p, Sha256(sent), |sent|, sent)
             && forall q' :: Head(c.project, p, q') in m.heads <==>
                  q' == q || (Head(c.project, p, q') in a.heads && was != Some(q'));
    assert z.versions[q] == m.versions[q];
  }

  lemma SentNow(c: Config, a: Db, m: Db, z: Db, k: TransferKey, path: Path, data: Bytes, base: Option<Id>, revision: Id)
    requires SentAs(c, m, z, k, path, data, base, revision) && HeadsKept(c, a, m, path) && Grew(a.versions, m.versions)
    ensures PathSent(c, a, z, path, data, base)
    ensures forall p :: p != path ==> HeadsKept(c, m, z, p)
    ensures Grew(m.versions, z.versions) && z.projects == m.projects
  {
  }

  lemma OneMoreSent(c: Config, me: ReplicaId, s: Sys, m: Sys, s': Sys, done: set<Path>, path: Path, data: Bytes,
                    revision: Id)
    requires SentAll(c, me, s, m, done) && path !in done && Finished(c, me, m, s', path, data, revision)
    requires path in s.replicas[me].files && data == s.replicas[me].files[path]
    ensures SentAll(c, me, s, s', done + {path})
  {
    var r, r' := s.replicas[me], s'.replicas[me];
    var k := TransferKey(c.project, r'.uploads[path].transfer);
    assert SentAs(c, m.db, s'.db, k, path, data, BaseOf(r, path), revision);
    hide SentAs, Resumes, PathSent, HeadsKept;
    SentNow(c, s.db, m.db, s'.db, k, path, data, BaseOf(r, path), revision);
    forall p | p in done ensures PathSent(c, s.db, s'.db, p, r.files[p], BaseOf(r, p)) {
      SentStays(c, s.db, m.db, s'.db, k, path, data, BaseOf(r, path), revision, p, r.files[p], BaseOf(r, p));
    }
    forall p | p !in done && p != path
      ensures HeadsKept(c, s.db, s'.db, p) && Got(r'.uploads, p) == Got(r.uploads, p)
    {
      HeadsKeptOn(c, s.db, m.db, s'.db, p);
    }
    assert Grew(s.db.versions, s'.db.versions);
  }

  lemma HeadsKeptOn(c: Config, a: Db, m: Db, z: Db, path: Path)
    requires HeadsKept(c, a, m, path) && HeadsKept(c, m, z, path)
    ensures HeadsKept(c, a, z, path)
  {
  }

  /** Midway through the files to send: those outside `rest` were sent, those in it can be. */
  ghost predicate Sent(c: Config, me: ReplicaId, s: Sys, m: Sys, sending: set<Path>, rest: set<Path>) {
    SentAll(c, me, s, m, sending - rest) && Sendable(c, me, m, sending * rest)
  }

  lemma SendStart(c: Config, me: ReplicaId, s: Sys, sending: set<Path>, rest: set<Path>)
    requires Sendable(c, me, s, sending) && sending <= rest
    ensures Sent(c, me, s, s, sending, rest)
  {
    hide SentAll, Sendable;
    SendableHere(c, me, s, sending);
    NoneSent(c, me, s);
    assert sending - rest == {} && sending * rest == sending;
  }

  lemma SendableHere(c: Config, me: ReplicaId, s: Sys, sending: set<Path>)
    requires Sendable(c, me, s, sending)
    ensures me in s.replicas
  {
  }

  lemma SendNext(c: Config, me: ReplicaId, s: Sys, m: Sys, s': Sys, sending: set<Path>, rest: set<Path>, path: Path)
    requires Sent(c, me, s, m, sending, rest) && path in rest && path in sending && OneRowEach(s'.replicas)
    requires me in m.replicas && path in m.replicas[me].files
    requires Uploaded(c, me, m, s', path, m.replicas[me].files[path])
    ensures Sent(c, me, s, s', sending, rest - {path})
  {
    hide Finished, OneRowEach, Sendable, SentAll, Collides;
    OthersSendable(c, me, m, s', sending, rest, path);
    MoreSentOf(c, me, s, m, s', sending, rest, path);
  }

  lemma OthersSendable(c: Config, me: ReplicaId, m: Sys, s': Sys, sending: set<Path>, rest: set<Path>, path: Path)
    requires Sendable(c, me, m, sending * rest) && path in rest && path in sending && OneRowEach(s'.replicas)
    requires me in m.replicas && path in m.replicas[me].files
    requires Uploaded(c, me, m, s', path, m.replicas[me].files[path])
    ensures Sendable(c, me, s', sending * (rest - {path}))
  {
    hide Sendable, Uploaded, OneRowEach;
    SendableStays(c, me, m, s', sending * rest, path);
    assert (sending * rest) - {path} == sending * (rest - {path});
  }

  lemma MoreSentOf(c: Config, me: ReplicaId, s: Sys, m: Sys, s': Sys, sending: set<Path>, rest: set<Path>, path: Path)
    requires SentAll(c, me, s, m, sending - rest) && path in rest && path in sending
    requires me in m.replicas && path in m.replicas[me].files
    requires Uploaded(c, me, m, s', path, m.replicas[me].files[path])
    ensures SentAll(c, me, s, s', sending - (rest - {path}))
  {
    var data := m.replicas[me].files[path];
    SameFolder(c, me, s, m, sending - rest);
    hide SentAll, Finished;
    var revision :| Finished(c, me, m, s', path, data, revision);
    OneMoreSent(c, me, s, m, s', sending - rest, path, data, revision);
    assert (sending - rest) + {path} == sending - (rest - {path});
  }

  lemma SameFolder(c: Config, me: ReplicaId, s: Sys, m: Sys, paths: set<Path>)
    requires SentAll(c, me, s, m, paths)
    ensures me in s.replicas && me in m.replicas
    ensures m.replicas[me].files == s.replicas[me].files && m.replicas[me].base == s.replicas[me].base
  {
  }

  lemma SkipNext(c: Config, me: ReplicaId, s: Sys, m: Sys, sending: set<Path>, rest: set<Path>, path: Path)
    requires Sent(c, me, s, m, sending, rest) && path !in sending
    ensures Sent(c, me, s, m, sending, rest - {path})
  {
    hide SentAll, Sendable;
    assert sending - rest == sending - (rest - {path}) && sending * rest == sending * (rest - {path});
  }

  lemma NextReady(c: Config, me: ReplicaId, s: Sys, m: Sys, sending: set<Path>, rest: set<Path>, path: Path)
    requires Sent(c, me, s, m, sending, rest) && path in sending && path in rest
    ensures me in m.replicas && me in s.replicas && path in m.replicas[me].files
    ensures m.replicas[me].files == s.replicas[me].files
    ensures Ready(c, me, m, path, m.replicas[me].files[path])
  {
    SameFolder(c, me, s, m, sending - rest);
    hide Ready, SentAll;
    SendableReady(c, me, m, sending * rest, path);
  }

  /** All files to be sent have the inventoried content and can be sent. */
  ghost predicate CanSend(c: Config, me: ReplicaId, s: Sys, files: map<Path, FileEntry>, heads: set<HeadInfo>) {
    && me in s.replicas
    && var sending := ToSend(s.replicas[me], files, heads);
       && Sendable(c, me, s, sending)
       && forall p :: p in sending ==> Digested(Got(s.replicas[me].files, p)) == Some(files[p].sha256)
  }
}
