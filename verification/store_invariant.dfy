/** What every transaction keeps, and hence what holds of every reachable store:
    verified versions, live heads, chunk journals, quota, unambiguous paths, one
    version per transfer. */
module StoreInvariant {
  import opened Common
  import opened Paths
  import opened StoreModel

  // ------------------------------------------------------------------- sums

  lemma {:induction false} TotalRemove<K>(m: map<K, nat>, k: K)
    requires k in m
    ensures Total(m) == m[k] + Total(m - {k})
    decreases |m|
  {
    var k0 :| k0 in m && Total(m) == m[k0] + Total(m - {k0});
    if k0 != k {
      Fewer(m, k0);
      Fewer(m, k);
      TotalRemove(m - {k0}, k);
      TotalRemove(m - {k}, k0);
      assert m - {k0} - {k} == m - {k} - {k0};
    }
  }

  lemma TotalInsert<K>(m: map<K, nat>, k: K, v: nat)
    requires k !in m
    ensures Total(m[k := v]) == Total(m) + v && |m[k := v]| == |m| + 1
  {
    TotalRemove(m[k := v], k);
    assert m[k := v] - {k} == m;
    assert m[k := v].Keys == m.Keys + {k};
  }

  // ----------------------------------------------------------- chunk journals

  ghost predicate BlockSizesOk(blocks: map<nat, Bytes>) {
    forall k :: k in blocks ==> 1 <= |blocks[k]| <= MAX_CHUNK_BYTES
  }

  /** The chunks of a transfer tile [0, offset) without gap or overlap. */
  ghost predicate Journal(blocks: map<nat, Bytes>, offset: nat) {
    && BlockSizesOk(blocks)
    && Assemble(blocks, 0).Some? && |Assemble(blocks, 0).value| == offset
  }

  lemma {:induction false} AssembleKeys(blocks: map<nat, Bytes>, start: nat, k: nat)
    requires BlockSizesOk(blocks) && Assemble(blocks, start).Some? && k in blocks
    ensures start <= k && k + |blocks[k]| <= start + |Assemble(blocks, start).value|
    decreases |blocks|
  {
    if k != start {
      Fewer2(blocks, start);
      AssembleKeys(blocks - {start}, start + |blocks[start]|, k);
    }
  }

  lemma Fewer2(blocks: map<nat, Bytes>, k: nat)
    requires k in blocks
    ensures |blocks - {k}| < |blocks|
  {
    assert (blocks - {k}).Keys == blocks.Keys - {k};
    assert |blocks.Keys - {k}| < |blocks.Keys|;
  }

  lemma NoneBefore(blocks: map<nat, Bytes>, start: nat, end: nat, data: Bytes)
    requires BlockSizesOk(blocks) && Assemble(blocks, start).Some? && end == start + |Assemble(blocks, start).value|
    requires blocks != map[]
    ensures start < end && start in blocks && forall k :: k in blocks ==> k >= start
  {
    AssembleKeys(blocks, start, start);
    forall k | k in blocks ensures k >= start { AssembleKeys(blocks, start, k); }
  }

  lemma FirstRow(blocks: map<nat, Bytes>, start: nat)
    requires start in blocks && forall k :: k in blocks ==> k >= start
    ensures var rest := Assemble(blocks - {start}, start + |blocks[start]|);
            Assemble(blocks, start) == if rest.None? then None else Some(blocks[start] + rest.value)
  {
  }

  lemma AssembleOne(start: nat, data: Bytes)
    ensures Assemble(map[start := data], start) == Some(data)
  {
    FirstRow(map[start := data], start);
    assert map[start := data] - {start} == map[];
    assert data + [] == data;
  }

  lemma AppendBehind(blocks: map<nat, Bytes>, start: nat, end: nat, data: Bytes)
    requires start in blocks && start < end && forall k :: k in blocks ==> k >= start
    requires var (rest, next) := (blocks - {start}, start + |blocks[start]|);
             Assemble(rest, next).Some? && Assemble(rest[end := data], next) == Some(Assemble(rest, next).value + data)
    ensures Assemble(blocks, start).Some?
            && Assemble(blocks[end := data], start) == Some(Assemble(blocks, start).value + data)
  {
    var more, first := blocks[end := data], blocks[start];
    FirstRow(blocks, start);
    FirstRow(more, start);
    assert more - {start} == (blocks - {start})[end := data];
    var tail := Assemble(blocks - {start}, start + |first|).value;
    assert first + (tail + data) == (first + tail) + data;
  }

  lemma {:induction false} AssembleAppend(blocks: map<nat, Bytes>, start: nat, end: nat, data: Bytes)
    requires BlockSizesOk(blocks) && Assemble(blocks, start).Some? && end == start + |Assemble(blocks, start).value|
    requires data != []
    ensures Assemble(blocks[end := data], start) == Some(Assemble(blocks, start).value + data)
    decreases |blocks|
  {
    if blocks == map[] {
      AssembleOne(end, data);
      assert end == start && blocks[end := data] == map[end := data];
      assert [] + data == data;
    } else {
      NoneBefore(blocks, start, end, data);
      FirstRow(blocks, start);
      Fewer2(blocks, start);
      AssembleAppend(blocks - {start}, start + |blocks[start]|, end, data);
      AppendBehind(blocks, start, end, data);
    }
  }

  // ---------------------------------------------------------------- invariant

  type Versions = map<Id, Version>
  type Uploads = map<TransferKey, Upload>
  type Chunks = map<TransferKey, map<nat, Bytes>>

  ghost predicate VersionsOk(versions: Versions) {
    forall r :: r in versions ==> Verified(versions[r]) && versions[r].size <= MAX_FILE_BYTES
  }

  ghost predicate HeadsOk(versions: Versions, heads: set<Head>) {
    forall h :: h in heads ==> IsVersionOf(versions, h.project, h.path, h.revision)
  }

  ghost predicate HasHead(heads: set<Head>, project: Id, path: Path) {
    exists h :: h in heads && h.project == project && h.path == path
  }

  ghost predicate EveryPathHasHead(versions: Versions, heads: set<Head>) {
    forall r :: r in versions ==> HasHead(heads, versions[r].project, versions[r].path)
  }

  ghost predicate ReceiptOk(versions: Versions, k: TransferKey, u: Upload) {
    && u.receipt.Some?
    && (var r := u.receipt.value;
        && r == Receipt(r.revision, u.path, u.sha256, u.size, k.project, k.transfer)
        && r.revision in versions
        && versions[r.revision] == Version(k.project, u.path, u.sha256, u.size, versions[r.revision].body))
  }

  ghost predicate UploadOk(versions: Versions, chunks: Chunks, k: TransferKey, u: Upload) {
    && u.size <= MAX_FILE_BYTES && u.offset <= u.size
    && (if u.state.Receiving? then Journal(Blocks(chunks, k), u.offset) else k !in chunks)
    && (if u.state.Committed? then ReceiptOk(versions, k, u) else u.receipt.None?)
    && (u.base.Some? && !u.state.Aborted? ==> IsVersionOf(versions, k.project, u.path, u.base.value))
  }

  ghost predicate UploadsOk(versions: Versions, uploads: Uploads, chunks: Chunks) {
    && (forall k :: k in uploads ==> UploadOk(versions, chunks, k, uploads[k]))
    && chunks.Keys <= uploads.Keys
  }

  /** `k` is the transfer that published revision `r`. */
  ghost predicate Published(uploads: Uploads, k: TransferKey, r: Id) {
    && k in uploads && uploads[k].state.Committed?
    && uploads[k].receipt.Some? && uploads[k].receipt.value.revision == r
  }

  /** Each version was published by exactly one transfer. */
  ghost predicate OneTransferPerVersion(versions: Versions, uploads: Uploads) {
    && (forall r :: r in versions ==> exists k :: Published(uploads, k, r))
    && (forall r, k, l :: Published(uploads, k, r) && Published(uploads, l, r) ==> k == l)
  }

  ghost predicate PathsUnambiguous(fold: Folding, uploads: Uploads) {
    forall k, l :: k in uploads && l in uploads && k.project == l.project
      && !uploads[k].state.Aborted? && !uploads[l].state.Aborted?
      ==> !Collides(fold, uploads[k].path, uploads[l].path)
  }

  ghost predicate WithinLimits(versions: Versions, uploads: Uploads) {
    && StoredBytes(versions) + ReservedBytes(uploads) <= MAX_TENANT_BYTES
    && ReservedBytes(uploads) <= MAX_RESERVED_BYTES
    && ActiveTransfers(uploads) <= MAX_ACTIVE_TRANSFERS
  }

  ghost predicate Valid(fold: Folding, db: Db) {
    && VersionsOk(db.versions) && HeadsOk(db.versions, db.heads) && EveryPathHasHead(db.versions, db.heads)
    && UploadsOk(db.versions, db.uploads, db.chunks) && OneTransferPerVersion(db.versions, db.uploads)
    && PathsUnambiguous(fold, db.uploads) && WithinLimits(db.versions, db.uploads)
  }

  lemma EmptyIsValid(fold: Folding)
    ensures Valid(fold, EMPTY_DB)
  {
    assert StoredSizes(EMPTY_DB.versions) == map[] && ReservedSizes(EMPTY_DB.uploads) == map[];
  }

  // ------------------------------------------------------------ start_upload

  /** Replacing a row by one with the same receipt moves no publication. */
  lemma SameOrigins(versions: Versions, uploads: Uploads, key: TransferKey, row: Upload)
    requires OneTransferPerVersion(versions, uploads)
    requires !row.state.Committed? && (key in uploads ==> !uploads[key].state.Committed?)
    ensures OneTransferPerVersion(versions, uploads[key := row])
  {
    var after := uploads[key := row];
    forall k, r ensures Published(after, k, r) <==> Published(uploads, k, r) {}
    forall r | r in versions ensures exists k :: Published(after, k, r) {
      var k :| Published(uploads, k, r);
      assert Published(after, k, r);
    }
  }

  lemma OneRowChanged(versions: Versions, uploads: Uploads, chunks: Chunks, key: TransferKey, row: Upload,
                      chunks': Chunks)
    requires UploadsOk(versions, uploads, chunks) && UploadOk(versions, chunks', key, row)
    requires chunks'.Keys <= chunks.Keys + {key}
    requires forall k :: k != key ==> (k in chunks <==> k in chunks') && (k in chunks ==> chunks[k] == chunks'[k])
    ensures UploadsOk(versions, uploads[key := row], chunks')
  {
    var after := uploads[key := row];
    forall k | k in after ensures UploadOk(versions, chunks', k, after[k]) {
      if k != key { assert UploadOk(versions, chunks, k, uploads[k]); }
    }
  }

  lemma NewPathUnambiguous(fold: Folding, db: Db, key: TransferKey, row: Upload)
    requires PathsUnambiguous(fold, db.uploads)
    requires forall q :: q in KnownPaths(db, key.project) ==> !Collides(fold, row.path, q)
    ensures PathsUnambiguous(fold, db.uploads[key := row])
  {
    forall k | k in db.uploads && k.project == key.project && !db.uploads[k].state.Aborted?
      ensures !Collides(fold, row.path, db.uploads[k].path) && !Collides(fold, db.uploads[k].path, row.path)
    {
      assert db.uploads[k].path in KnownPaths(db, key.project);
      CollisionSymmetric(fold, row.path, db.uploads[k].path);
    }
  }

  lemma PathKept(fold: Folding, uploads: Uploads, key: TransferKey, row: Upload)
    requires PathsUnambiguous(fold, uploads)
    requires row.state.Aborted? || (key in uploads && !uploads[key].state.Aborted? && uploads[key].path == row.path)
    ensures PathsUnambiguous(fold, uploads[key := row])
  {}

  lemma NewReservation(uploads: Uploads, key: TransferKey, row: Upload)
    requires key !in uploads && row.state.Receiving?
    ensures ReservedBytes(uploads[key := row]) == ReservedBytes(uploads) + row.size
    ensures ActiveTransfers(uploads[key := row]) == ActiveTransfers(uploads) + 1
  {
    assert ReservedSizes(uploads[key := row]) == ReservedSizes(uploads)[key := row.size];
    TotalInsert(ReservedSizes(uploads), key, row.size);
  }

  lemma StartKeeps(fold: Folding, db: Db, project: Id, transfer: Id, path: Path, size: int, sha256: Digest,
                   base: Option<Id>)
    requires Valid(fold, db)
    ensures Valid(fold, StartUpload(fold, db, project, transfer, path, size, sha256, base).db)
  {
    var after := StartUpload(fold, db, project, transfer, path, size, sha256, base).db;
    if after != db {
      var key := TransferKey(project, transfer);
      Reserve(fold, db, key, Upload(path, size, sha256, base, Receiving, 0, None));
    }
  }

  lemma Reserve(fold: Folding, db: Db, key: TransferKey, row: Upload)
    requires Valid(fold, db) && key !in db.uploads
    requires row == Upload(row.path, row.size, row.sha256, row.base, Receiving, 0, None) && row.size <= MAX_FILE_BYTES
    requires row.base.Some? ==> IsVersionOf(db.versions, key.project, row.path, row.base.value)
    requires forall q :: q in KnownPaths(db, key.project) ==> !Collides(fold, row.path, q)
    requires WithinQuota(db.versions, db.uploads, row.size)
    ensures Valid(fold, db.(uploads := db.uploads[key := row]))
  {
    assert UploadOk(db.versions, db.chunks, key, row);
    OneRowChanged(db.versions, db.uploads, db.chunks, key, row, db.chunks);
    SameOrigins(db.versions, db.uploads, key, row);
    NewPathUnambiguous(fold, db, key, row);
    NewReservation(db.uploads, key, row);
  }

  // ------------------------------------------------------------ append_chunk

  lemma JournalGrows(versions: Versions, chunks: Chunks, key: TransferKey, row: Upload, data: Bytes)
    requires UploadOk(versions, chunks, key, row) && row.state.Receiving?
    requires 1 <= |data| <= MAX_CHUNK_BYTES && row.offset + |data| <= row.size
    ensures UploadOk(versions, chunks[key := Blocks(chunks, key)[row.offset := data]], key, Longer(row, |data|))
  {
    AssembleAppend(Blocks(chunks, key), 0, row.offset, data);
  }

  lemma SameReservations(versions: Versions, uploads: Uploads, key: TransferKey, row: Upload)
    requires WithinLimits(versions, uploads)
    requires key in uploads && uploads[key].state.Receiving? && row.state.Receiving? && uploads[key].size == row.size
    ensures WithinLimits(versions, uploads[key := row])
  {
    assert ReservedSizes(uploads[key := row]) == ReservedSizes(uploads);
  }

  lemma ExtendUploads(versions: Versions, uploads: Uploads, chunks: Chunks, key: TransferKey, row: Upload, data: Bytes)
    requires UploadsOk(versions, uploads, chunks) && key in uploads && uploads[key] == row && row.state.Receiving?
    requires 1 <= |data| <= MAX_CHUNK_BYTES && row.offset + |data| <= row.size
    ensures UploadsOk(versions, uploads[key := Longer(row, |data|)],
                      chunks[key := Blocks(chunks, key)[row.offset := data]])
  {
    JournalGrows(versions, chunks, key, row, data);
    var grown := chunks[key := Blocks(chunks, key)[row.offset := data]];
    OneRowChanged(versions, uploads, chunks, key, Longer(row, |data|), grown);
  }

  lemma ExtendOthers(fold: Folding, db: Db, key: TransferKey, next: Upload)
    requires OneTransferPerVersion(db.versions, db.uploads)
    requires PathsUnambiguous(fold, db.uploads) && WithinLimits(db.versions, db.uploads)
    requires key in db.uploads && db.uploads[key].state.Receiving? && next.state.Receiving?
    requires next.path == db.uploads[key].path && next.size == db.uploads[key].size
    ensures var uploads := db.uploads[key := next];
            OneTransferPerVersion(db.versions, uploads) && PathsUnambiguous(fold, uploads)
                && WithinLimits(db.versions, uploads)
  {
    SameOrigins(db.versions, db.uploads, key, next);
    PathKept(fold, db.uploads, key, next);
    SameReservations(db.versions, db.uploads, key, next);
  }

  lemma Extend(fold: Folding, db: Db, key: TransferKey, row: Upload, data: Bytes)
    requires Valid(fold, db) && key in db.uploads && db.uploads[key] == row && row.state.Receiving?
    requires 1 <= |data| <= MAX_CHUNK_BYTES && row.offset + |data| <= row.size
    ensures Valid(fold, Extended(db, key, row, data))
  {
    var next := Longer(row, |data|);
    ExtendUploads(db.versions, db.uploads, db.chunks, key, row, data);
    ExtendOthers(fold, db, key, next);
  }

  lemma AppendKeeps(fold: Folding, db: Db, project: Id, transfer: Id, offset: int, data: Bytes)
    requires Valid(fold, db)
    ensures Valid(fold, AppendChunk(db, project, transfer, offset, data).db)
  {
    var after := AppendChunk(db, project, transfer, offset, data).db;
    if after != db {
      var key := TransferKey(project, transfer);
      Extend(fold, db, key, db.uploads[key], data);
    }
  }

  // ------------------------------------------------------------ abort_upload

  /** Aborting frees exactly the transfer's own reservation, and closes it. */
  lemma AbortFrees(db: Db, project: Id, transfer: Id)
    requires project in db.projects
    ensures var key := TransferKey(project, transfer);
            var after := AbortUpload(db, project, transfer).db;
            var freed := if key in db.uploads && db.uploads[key].state.Receiving? then db.uploads[key].size else 0;
            && ReservedBytes(db.uploads) == ReservedBytes(after.uploads) + freed
            && StoredBytes(after.versions) == StoredBytes(db.versions)
            && ActiveTransfers(after.uploads) <= ActiveTransfers(db.uploads)
            && key in after.uploads && !after.uploads[key].state.Receiving?
  {
    var key := TransferKey(project, transfer);
    var after := AbortUpload(db, project, transfer).db;
    if key in db.uploads && db.uploads[key].state.Receiving? {
      Release(db.uploads, key, after.uploads[key]);
    } else {
      assert ReservedSizes(after.uploads) == ReservedSizes(db.uploads);
    }
  }

  lemma Release(uploads: Uploads, key: TransferKey, row: Upload)
    requires key in uploads && uploads[key].state.Receiving? && !row.state.Receiving?
    ensures ReservedBytes(uploads) == ReservedBytes(uploads[key := row]) + uploads[key].size
    ensures ActiveTransfers(uploads) == ActiveTransfers(uploads[key := row]) + 1
  {
    var rest := ReservedSizes(uploads[key := row]);
    assert ReservedSizes(uploads) == rest[key := uploads[key].size];
    TotalInsert(rest, key, uploads[key].size);
  }

  lemma Cancel(fold: Folding, db: Db, key: TransferKey, row: Upload)
    requires Valid(fold, db) && (key in db.uploads ==> !db.uploads[key].state.Committed?)
    requires row.state.Aborted? && row.receipt.None? && row.offset <= row.size <= MAX_FILE_BYTES
    requires ReservedBytes(db.uploads[key := row]) <= ReservedBytes(db.uploads)
    requires ActiveTransfers(db.uploads[key := row]) <= ActiveTransfers(db.uploads)
    ensures Valid(fold, Cancelled(db, key, row))
  {
    assert UploadOk(db.versions, db.chunks - {key}, key, row);
    OneRowChanged(db.versions, db.uploads, db.chunks, key, row, db.chunks - {key});
    SameOrigins(db.versions, db.uploads, key, row);
    PathKept(fold, db.uploads, key, row);
  }

  lemma AbortKeeps(fold: Folding, db: Db, project: Id, transfer: Id)
    requires Valid(fold, db)
    ensures Valid(fold, AbortUpload(db, project, transfer).db)
  {
    var key := TransferKey(project, transfer);
    var after := AbortUpload(db, project, transfer).db;
    if project in db.projects {
      AbortFrees(db, project, transfer);
      if key !in db.uploads {
        assert db.chunks - {key} == db.chunks;
        Cancel(fold, db, key, after.uploads[key]);
      } else if db.uploads[key].state.Receiving? {
        assert UploadOk(db.versions, db.chunks, key, db.uploads[key]);
        Cancel(fold, db, key, after.uploads[key]);
      }
    }
  }

  // ----------------------------------------------------------- finish_upload

  /** A commit moves the transfer's size from reserved to stored; the sum stays. */
  lemma CommitMovesBytes(db: Db, key: TransferKey, row: Upload, revision: Id, v: Version)
    requires key in db.uploads && db.uploads[key] == row && row.state.Receiving?
    requires revision !in db.versions && v.size == row.size
    ensures var after := Publish(db, key, row, revision, v).db;
            && StoredBytes(after.versions) == StoredBytes(db.versions) + row.size
            && ReservedBytes(after.uploads) + row.size == ReservedBytes(db.uploads)
            && ActiveTransfers(after.uploads) + 1 == ActiveTransfers(db.uploads)
  {
    assert StoredSizes(db.versions[revision := v]) == StoredSizes(db.versions)[revision := v.size];
    TotalInsert(StoredSizes(db.versions), revision, v.size);
    var after := Publish(db, key, row, revision, v).db;
    Release(db.uploads, key, after.uploads[key]);
  }

  /** A new version disturbs no row that was in order. */
  lemma OneMoreVersion(versions: Versions, uploads: Uploads, chunks: Chunks, revision: Id, v: Version)
    requires UploadsOk(versions, uploads, chunks) && revision !in versions
    ensures UploadsOk(versions[revision := v], uploads, chunks)
  {
    forall k | k in uploads ensures UploadOk(versions[revision := v], chunks, k, uploads[k]) {
      assert UploadOk(versions, chunks, k, uploads[k]);
    }
  }

  lemma PublishUploads(db: Db, key: TransferKey, row: Upload, revision: Id, v: Version)
    requires UploadsOk(db.versions, db.uploads, db.chunks) && revision !in db.versions
    requires key in db.uploads && db.uploads[key] == row && row.state.Receiving?
    requires v == Version(key.project, row.path, row.sha256, row.size, v.body)
    ensures var after := Publish(db, key, row, revision, v).db;
            UploadsOk(after.versions, after.uploads, after.chunks)
  {
    var after := Publish(db, key, row, revision, v).db;
    assert UploadOk(db.versions, db.chunks, key, row);
    OneMoreVersion(db.versions, db.uploads, db.chunks, revision, v);
    assert UploadOk(after.versions, after.chunks, key, after.uploads[key]);
    OneRowChanged(after.versions, db.uploads, db.chunks, key, after.uploads[key], after.chunks);
  }

  lemma PublishOrigins(versions: Versions, uploads: Uploads, chunks: Chunks, key: TransferKey, row: Upload,
                       revision: Id, v: Version)
    requires OneTransferPerVersion(versions, uploads) && UploadsOk(versions, uploads, chunks)
    requires revision !in versions && key in uploads && !uploads[key].state.Committed?
    requires row.state.Committed? && row.receipt.Some? && row.receipt.value.revision == revision
    ensures OneTransferPerVersion(versions[revision := v], uploads[key := row])
  {
    var after := uploads[key := row];
    assert Published(after, key, revision);
    forall k, r ensures Published(after, k, r) <==> if k == key then r == revision else Published(uploads, k, r) {}
    forall k ensures !Published(uploads, k, revision) {
      if k in uploads { assert UploadOk(versions, chunks, k, uploads[k]); }
    }
    forall r | r in versions ensures exists k :: Published(after, k, r) {
      var k :| Published(uploads, k, r);
      assert Published(after, k, r);
    }
  }

  lemma PublishHeads(db: Db, key: TransferKey, row: Upload, revision: Id, v: Version)
    requires HeadsOk(db.versions, db.heads) && EveryPathHasHead(db.versions, db.heads) && revision !in db.versions
    requires v.project == key.project && v.path == row.path
    ensures var after := Publish(db, key, row, revision, v).db;
            HeadsOk(after.versions, after.heads) && EveryPathHasHead(after.versions, after.heads)
  {
    var after := Publish(db, key, row, revision, v).db;
    var added := Head(key.project, row.path, revision);
    assert added in after.heads;
    forall r | r in db.versions ensures HasHead(after.heads, db.versions[r].project, db.versions[r].path) {
      assert HasHead(db.heads, db.versions[r].project, db.versions[r].path);
      var h :| h in db.heads && h.project == db.versions[r].project && h.path == db.versions[r].path;
      assert h in after.heads || (added.project == h.project && added.path == h.path);
    }
  }

  lemma CommitRows(fold: Folding, db: Db, key: TransferKey, row: Upload, revision: Id, v: Version)
    requires UploadsOk(db.versions, db.uploads, db.chunks) && OneTransferPerVersion(db.versions, db.uploads)
    requires PathsUnambiguous(fold, db.uploads) && revision !in db.versions
    requires key in db.uploads && db.uploads[key] == row && row.state.Receiving?
    requires v == Version(key.project, row.path, row.sha256, row.size, v.body)
    ensures var after := Publish(db, key, row, revision, v).db;
            UploadsOk(after.versions, after.uploads, after.chunks)
                && OneTransferPerVersion(after.versions, after.uploads)
            && PathsUnambiguous(fold, after.uploads)
  {
    var after := Publish(db, key, row, revision, v).db;
    PublishUploads(db, key, row, revision, v);
    PublishOrigins(db.versions, db.uploads, db.chunks, key, after.uploads[key], revision, v);
    PathKept(fold, db.uploads, key, after.uploads[key]);
  }

  lemma CommitBytes(db: Db, key: TransferKey, row: Upload, revision: Id, v: Version)
    requires VersionsOk(db.versions) && WithinLimits(db.versions, db.uploads) && revision !in db.versions
    requires key in db.uploads && db.uploads[key] == row && row.state.Receiving? && row.size <= MAX_FILE_BYTES
    requires v.size == row.size && Verified(v)
    ensures var after := Publish(db, key, row, revision, v).db;
            VersionsOk(after.versions) && WithinLimits(after.versions, after.uploads)
  {
    CommitMovesBytes(db, key, row, revision, v);
  }

  lemma Commit(fold: Folding, db: Db, key: TransferKey, row: Upload, revision: Id, v: Version)
    requires Valid(fold, db) && revision !in db.versions
    requires key in db.uploads && db.uploads[key] == row && row.state.Receiving?
    requires v == Version(key.project, row.path, row.sha256, row.size, v.body) && Verified(v)
    ensures Valid(fold, Publish(db, key, row, revision, v).db)
  {
    var after := Publish(db, key, row, revision, v).db;
    assert UploadOk(db.versions, db.chunks, key, row);
    CommitRows(fold, db, key, row, revision, v);
    PublishHeads(db, key, row, revision, v);
    CommitBytes(db, key, row, revision, v);
  }

  lemma FinishKeeps(fold: Folding, db: Db, project: Id, transfer: Id, revision: Id)
    requires Valid(fold, db)
    ensures Valid(fold, FinishUpload(db, project, transfer, revision).db)
  {
    var after := FinishUpload(db, project, transfer, revision).db;
    if after != db {
      var key := TransferKey(project, transfer);
      var row := db.uploads[key];
      var v := Version(project, row.path, row.sha256, row.size, Assemble(Blocks(db.chunks, key), 0).value);
      Commit(fold, db, key, row, revision, v);
    }
  }

  /** In a reachable store a complete transfer's commit never meets a corrupt
      journal: only a wrong digest, or a reused revision id, can refuse it. What is
      stored is the concatenation of the acknowledged chunks. */
  lemma CommitOutcome(fold: Folding, db: Db, project: Id, transfer: Id, revision: Id)
    requires Valid(fold, db) && project in db.projects && db.projects[project].offline
    requires var key := TransferKey(project, transfer);
             key in db.uploads && db.uploads[key].state.Receiving? && db.uploads[key].offset == db.uploads[key].size
    ensures var key := TransferKey(project, transfer);
            var journal := Assemble(Blocks(db.chunks, key), 0);
            var tx := FinishUpload(db, project, transfer, revision);
            && journal.Some? && |journal.value| == db.uploads[key].size
            && (tx.out.Done? <==> Sha256(journal.value) == db.uploads[key].sha256 && revision !in db.versions)
            && (tx.out.Done? ==> revision in tx.db.versions && tx.db.versions[revision].body == journal.value)
  {
    var key := TransferKey(project, transfer);
    assert UploadOk(db.versions, db.chunks, key, db.uploads[key]);
  }

  // ----------------------------------------------------------------- resolve

  lemma Choose(versions: Versions, heads: set<Head>, winner: Head)
    requires HeadsOk(versions, heads) && EveryPathHasHead(versions, heads) && winner in heads
    ensures var after := KeepOnly(heads, winner);
            HeadsOk(versions, after) && EveryPathHasHead(versions, after)
  {
    var after := KeepOnly(heads, winner);
    assert winner in after;
    forall r | r in versions ensures HasHead(after, versions[r].project, versions[r].path) {
      assert HasHead(heads, versions[r].project, versions[r].path);
      var h :| h in heads && h.project == versions[r].project && h.path == versions[r].path;
      assert h in after || (winner.project == h.project && winner.path == h.path);
    }
  }

  lemma ResolveKeeps(fold: Folding, db: Db, project: Id, path: Path, expected: seq<Id>, chosen: Id)
    requires Valid(fold, db)
    ensures Valid(fold, Resolve(db, project, path, expected, chosen).db)
  {
    var after := Resolve(db, project, path, expected, chosen).db;
    if after != db {
      Choose(db.versions, db.heads, Head(project, path, chosen));
    }
  }

  // -------------------------------------------------------------------- runs

  predicate SameRows(a: Db, b: Db) {
    b.versions == a.versions && b.heads == a.heads && b.uploads == a.uploads && b.chunks == a.chunks
  }

  /** Projects, switches and declarations are in tables of their own. */
  lemma DeclaresElsewhere(fold: Folding, db: Db, op: Op)
    requires op.OpCreate? || op.OpOffline? || op.OpDeclare?
    ensures SameRows(db, Apply(fold, db, op))
  {
  }

  lemma SameRowsValid(fold: Folding, a: Db, b: Db)
    requires Valid(fold, a) && SameRows(a, b)
    ensures Valid(fold, b)
  {
  }

  lemma DeclareKeeps(fold: Folding, db: Db, op: Op)
    requires Valid(fold, db) && (op.OpCreate? || op.OpOffline? || op.OpDeclare?)
    ensures Valid(fold, Apply(fold, db, op))
  {
    DeclaresElsewhere(fold, db, op);
    SameRowsValid(fold, db, Apply(fold, db, op));
  }

  lemma ApplyKeeps(fold: Folding, db: Db, op: Op)
    requires Valid(fold, db)
    ensures Valid(fold, Apply(fold, db, op))
  {
    match op
    case OpStart(p, t, path, size, sha, base) => StartKeeps(fold, db, p, t, path, size, sha, base);
    case OpAppend(p, t, offset, data) => AppendKeeps(fold, db, p, t, offset, data);
    case OpFinish(p, t, r) => FinishKeeps(fold, db, p, t, r);
    case OpAbort(p, t) => AbortKeeps(fold, db, p, t);
    case OpResolve(p, path, expected, chosen) => ResolveKeeps(fold, db, p, path, expected, chosen);
    case _ => DeclareKeeps(fold, db, op);
  }

  lemma {:induction false} RunKeeps(fold: Folding, db: Db, ops: seq<Op>)
    requires Valid(fold, db)
    ensures Valid(fold, Run(fold, db, ops))
    decreases |ops|
  {
    if ops != [] {
      ApplyKeeps(fold, db, ops[0]);
      RunKeeps(fold, Apply(fold, db, ops[0]), ops[1..]);
    }
  }

  /** Every store built by transactions from the empty one. */
  lemma ReachableIsValid(fold: Folding, ops: seq<Op>)
    ensures Valid(fold, Run(fold, EMPTY_DB, ops))
  {
    EmptyIsValid(fold);
    RunKeeps(fold, EMPTY_DB, ops);
  }

  lemma PublisherPath(fold: Folding, db: Db, r: Id) returns (k: TransferKey)
    requires Valid(fold, db) && r in db.versions
    ensures k in db.uploads && !db.uploads[k].state.Aborted?
    ensures k.project == db.versions[r].project && db.uploads[k].path == db.versions[r].path
  {
    k :| Published(db.uploads, k, r);
    assert UploadOk(db.versions, db.chunks, k, db.uploads[k]);
  }

  /** The paths of a project's versions, and of the files it is receiving, can lie side by
      side on every portable file system: no two of them collide. */
  lemma VersionPathsApart(fold: Folding, ops: seq<Op>)
    ensures var db := Run(fold, EMPTY_DB, ops);
            && (forall r, s :: r in db.versions && s in db.versions ==>
                  (db.versions[r].project == db.versions[s].project
                   ==> !Collides(fold, db.versions[r].path, db.versions[s].path)))
            && (forall r, k :: r in db.versions && k in db.uploads ==>
                  (db.versions[r].project == k.project && !db.uploads[k].state.Aborted?
                   ==> !Collides(fold, db.versions[r].path, db.uploads[k].path)))
  {
    ReachableIsValid(fold, ops);
    var db := Run(fold, EMPTY_DB, ops);
    forall r, k | r in db.versions && k in db.uploads && db.versions[r].project == k.project
        && !db.uploads[k].state.Aborted?
      ensures !Collides(fold, db.versions[r].path, db.uploads[k].path)
    {
      var l := PublisherPath(fold, db, r);
    }
    forall r, s | r in db.versions && s in db.versions && db.versions[r].project == db.versions[s].project
      ensures !Collides(fold, db.versions[r].path, db.versions[s].path)
    {
      var l := PublisherPath(fold, db, s);
      assert !Collides(fold, db.versions[r].path, db.uploads[l].path);
    }
  }
}
