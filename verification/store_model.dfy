/** The tables of one tenant's store and the meaning of every transaction on them,
    as functions. `SyncStore` is proved to perform exactly these; `StoreInvariant`
    proves what they keep. */
module StoreModel {
  import opened Common
  import opened Paths

  const MAX_TENANT_BYTES: nat := 1024 * 1024 * 1024
  const MAX_ACTIVE_TRANSFERS: nat := 32
  const MAX_RESERVED_BYTES: nat := 512 * 1024 * 1024
  const MAX_MANIFEST_FILES: nat := 20000
  const MAX_ISSUES: nat := 2000
  const BROWSER: Id := "browser-server"

  datatype Project = Project(title: string, offline: bool)
  datatype Manifest = Manifest(files: set<FileEntry>, issues: seq<string>)
  datatype DeviceKey = DeviceKey(project: Id, device: Id)
  datatype Version = Version(project: Id, path: Path, sha256: Digest, size: nat, body: Bytes)
  datatype Head = Head(project: Id, path: Path, revision: Id)
  datatype Receipt = Receipt(revision: Id, path: Path, sha256: Digest, size: nat, project: Id, transfer: Id)
  datatype UploadState = Receiving | Committed | Aborted
  datatype Upload = Upload(path: Path, size: nat, sha256: Digest, base: Option<Id>,
                           state: UploadState, offset: nat, receipt: Option<Receipt>)
  datatype TransferKey = TransferKey(project: Id, transfer: Id)

  datatype Db = Db(projects: map<Id, Project>, manifests: map<DeviceKey, Manifest>,
                   versions: map<Id, Version>, heads: set<Head>,
                   uploads: map<TransferKey, Upload>, chunks: map<TransferKey, map<nat, Bytes>>)

  const EMPTY_DB := Db(map[], map[], map[], {}, map[], map[])

  datatype Refusal =
    | Invalid | NotFound | ProjectExists | TransferConflict | OfflineDisabled | InvalidBase
    | UnsafePath | Quota | TransferClosed | ChunkConflict | OffsetConflict | Incomplete
    | Integrity | HeadsChanged

  datatype Outcome<+T> = Done(value: T) | Refused(reason: Refusal)

  /** A transaction: the committed tables and the answer. A refusal rolls back. */
  datatype Tx<+T> = Tx(db: Db, out: Outcome<T>)

  datatype UploadStatus = UploadStatus(transfer: Id, state: UploadState, nextOffset: nat, receipt: Option<Receipt>)

  function StatusOf(transfer: Id, u: Upload): UploadStatus {
    UploadStatus(transfer, u.state, u.offset, u.receipt)
  }

  // -------------------------------------------------------------- aggregates

  /** SQL `SUM` over a table column. */
  ghost function Total<K>(column: map<K, nat>): nat
    decreases |column|
  {
    if column == map[] then 0
    else
      var k :| k in column;
      Fewer(column, k);
      column[k] + Total(column - {k})
  }

  lemma Fewer<K>(column: map<K, nat>, k: K)
    requires k in column
    ensures |column - {k}| < |column|
  {
    assert (column - {k}).Keys == column.Keys - {k};
    assert |column.Keys - {k}| < |column.Keys|;
  }

  ghost function StoredSizes(versions: map<Id, Version>): map<Id, nat> {
    map r | r in versions :: versions[r].size
  }

  ghost function ReservedSizes(uploads: map<TransferKey, Upload>): map<TransferKey, nat> {
    map k | k in uploads && uploads[k].state.Receiving? :: uploads[k].size
  }

  ghost function StoredBytes(versions: map<Id, Version>): nat { Total(StoredSizes(versions)) }
  ghost function ReservedBytes(uploads: map<TransferKey, Upload>): nat { Total(ReservedSizes(uploads)) }
  ghost function ActiveTransfers(uploads: map<TransferKey, Upload>): nat { |ReservedSizes(uploads)| }

  // ---------------------------------------------------------- derived tables

  ghost function KnownPaths(db: Db, project: Id): set<Path> {
    (set r | r in db.versions && db.versions[r].project == project :: db.versions[r].path)
    + (set k | k in db.uploads && k.project == project && !db.uploads[k].state.Aborted? :: db.uploads[k].path)
    + (set d, f | d in db.manifests && d.project == project && f in db.manifests[d].files :: f.path)
  }

  function HeadsOf(heads: set<Head>, project: Id, path: Path): set<Head> {
    set h | h in heads && h.project == project && h.path == path
  }

  function Blocks(chunks: map<TransferKey, map<nat, Bytes>>, key: TransferKey): map<nat, Bytes> {
    if key in chunks then chunks[key] else map[]
  }

  predicate Verified(v: Version) {
    |v.body| == v.size && Sha256(v.body) == v.sha256
  }

  /** The chunk rows in offset order, concatenated, unless a row is missing,
      overlapping or out of place. */
  ghost function Assemble(blocks: map<nat, Bytes>, offset: nat): (body: Option<Bytes>)
    decreases |blocks|
  {
    if blocks == map[] then Some([])
    else if offset !in blocks || (exists k :: k in blocks && k < offset) then None
    else
      assert |blocks - {offset}| < |blocks| by { assert (blocks - {offset}).Keys == blocks.Keys - {offset}; }
      var rest := Assemble(blocks - {offset}, offset + |blocks[offset]|);
      if rest.None? then None else Some(blocks[offset] + rest.value)
  }

  /** `heads JOIN versions`, restricted to one project. */
  function LiveHeads(db: Db, project: Id): set<Head> {
    set h | h in db.heads && h.project == project && h.revision in db.versions
  }

  function EntryOf(versions: map<Id, Version>, h: Head): FileEntry requires h.revision in versions {
    FileEntry(h.path, versions[h.revision].sha256, versions[h.revision].size)
  }

  /** The files with exactly one head: what the browser's declaration stands for. */
  ghost function ServerView(db: Db, project: Id): set<FileEntry> {
    set h | h in LiveHeads(db, project) && HeadsOf(LiveHeads(db, project), project, h.path) == {h}
      :: EntryOf(db.versions, h)
  }

  // ------------------------------------------------------------ transactions

  /** `not title.strip()`, for the ASCII whitespace characters. */
  predicate Blank(title: string) { forall c | c in title :: c in {' ', '\t', '\n', '\r'} }

  ghost function CreateProject(db: Db, project: Id, title: string): Tx<Project> {
    if Blank(title) || |title| > 500 then Tx(db, Refused(Invalid))
    else if project in db.projects then Tx(db, Refused(ProjectExists))
    else
      var row := Project(title, false);
      Tx(db.(projects := db.projects[project := row]), Done(row))
  }

  ghost function SetOffline(db: Db, project: Id, enabled: bool): Tx<Project> {
    if project !in db.projects then Tx(db, Refused(NotFound))
    else
      var row := db.projects[project].(offline := enabled);
      Tx(db.(projects := db.projects[project := row]), Done(row))
  }

  predicate IssuesOk(issues: seq<string>) {
    |issues| <= MAX_ISSUES && forall i | i in issues :: 0 < |i| <= 2000
  }

  ghost predicate ManifestOk(fold: Folding, files: seq<FileEntry>, issues: seq<string>) {
    var paths := seq(|files|, i requires 0 <= i < |files| => files[i].path);
    && |files| <= MAX_MANIFEST_FILES && IssuesOk(issues)
    && (forall f :: f in files ==> f.size <= MAX_FILE_BYTES)
    && Distinct(paths) && PairwiseClear(fold, Elements(paths))
  }

  ghost function DeclareManifest(fold: Folding, db: Db, project: Id, device: Id,
                                 files: seq<FileEntry>, issues: seq<string>): Tx<()> {
    if !ManifestOk(fold, files, issues) then Tx(db, Refused(Invalid))
    else if project !in db.projects then Tx(db, Refused(NotFound))
    else
      var clean := if device == BROWSER then ServerView(db, project) else set f | f in files;
      Tx(db.(manifests := db.manifests[DeviceKey(project, device) := Manifest(clean, issues)]), Done(()))
  }

  ghost function StartUpload(fold: Folding, db: Db, project: Id, transfer: Id, path: Path, size: int,
                             sha256: Digest, base: Option<Id>): Tx<UploadStatus> {
    var key := TransferKey(project, transfer);
    if !(0 <= size <= MAX_FILE_BYTES) then Tx(db, Refused(Invalid))
    else if project !in db.projects then Tx(db, Refused(NotFound))
    else if key in db.uploads then
      var row := db.uploads[key];
      if row.state.Aborted? then Tx(db, Done(StatusOf(transfer, row)))
      else if row.path != path || row.size != size || row.sha256 != sha256 || row.base != base
      then Tx(db, Refused(TransferConflict))
      else Tx(db, Done(StatusOf(transfer, row)))
    else if !db.projects[project].offline then Tx(db, Refused(OfflineDisabled))
    else if base.Some? && !IsVersionOf(db.versions, project, path, base.value) then Tx(db, Refused(InvalidBase))
    else if exists q :: q in KnownPaths(db, project) && Collides(fold, path, q) then Tx(db, Refused(UnsafePath))
    else if !WithinQuota(db.versions, db.uploads, size) then Tx(db, Refused(Quota))
    else
      var row := Upload(path, size, sha256, base, Receiving, 0, None);
      Tx(db.(uploads := db.uploads[key := row]), Done(StatusOf(transfer, row)))
  }

  predicate IsVersionOf(versions: map<Id, Version>, project: Id, path: Path, revision: Id) {
    revision in versions && versions[revision].project == project && versions[revision].path == path
  }

  ghost predicate WithinQuota(versions: map<Id, Version>, uploads: map<TransferKey, Upload>, size: nat) {
    && ActiveTransfers(uploads) < MAX_ACTIVE_TRANSFERS
    && ReservedBytes(uploads) + size <= MAX_RESERVED_BYTES
    && StoredBytes(versions) + ReservedBytes(uploads) + size <= MAX_TENANT_BYTES
  }

  ghost function AbortUpload(db: Db, project: Id, transfer: Id): Tx<UploadStatus> {
    var key := TransferKey(project, transfer);
    if project !in db.projects then Tx(db, Refused(NotFound))
    else if key !in db.uploads then
      var row := Upload([""], 0, Sha256([]), None, Aborted, 0, None);
      Tx(db.(uploads := db.uploads[key := row]), Done(StatusOf(transfer, row)))
    else if db.uploads[key].state.Receiving? then
      var row := db.uploads[key].(state := Aborted);
      Tx(Cancelled(db, key, row), Done(StatusOf(transfer, row)))
    else Tx(db, Done(StatusOf(transfer, db.uploads[key])))
  }

  /** The writes of a cancelled transfer. */
  ghost function Cancelled(db: Db, key: TransferKey, row: Upload): Db {
    db.(uploads := db.uploads[key := row], chunks := db.chunks - {key})
  }

  ghost function UploadStatusOf(db: Db, project: Id, transfer: Id): Outcome<UploadStatus> {
    var key := TransferKey(project, transfer);
    if project !in db.projects || key !in db.uploads then Refused(NotFound)
    else Done(StatusOf(transfer, db.uploads[key]))
  }

  ghost function AppendChunk(db: Db, project: Id, transfer: Id, offset: int, data: Bytes): Tx<UploadStatus> {
    var key := TransferKey(project, transfer);
    if !(0 <= offset <= MAX_FILE_BYTES && 1 <= |data| <= MAX_CHUNK_BYTES) then Tx(db, Refused(Invalid))
    else if project !in db.projects || key !in db.uploads then Tx(db, Refused(NotFound))
    else
      var row := db.uploads[key];
      if !row.state.Receiving? then Tx(db, Refused(TransferClosed))
      else if offset in Blocks(db.chunks, key) then
        if Blocks(db.chunks, key)[offset] == data then Tx(db, Done(StatusOf(transfer, row)))
        else Tx(db, Refused(ChunkConflict))
      else if !db.projects[project].offline then Tx(db, Refused(OfflineDisabled))
      else if offset != row.offset || offset + |data| > row.size then Tx(db, Refused(OffsetConflict))
      else Tx(Extended(db, key, row, data), Done(StatusOf(transfer, Longer(row, |data|))))
  }

  function Longer(row: Upload, n: nat): Upload { row.(offset := row.offset + n) }

  /** The writes of an accepted chunk. */
  ghost function Extended(db: Db, key: TransferKey, row: Upload, data: Bytes): Db {
    db.(uploads := db.uploads[key := Longer(row, |data|)],
        chunks := db.chunks[key := Blocks(db.chunks, key)[row.offset := data]])
  }

  ghost function FinishUpload(db: Db, project: Id, transfer: Id, revision: Id): Tx<Receipt> {
    var key := TransferKey(project, transfer);
    if project !in db.projects || key !in db.uploads then Tx(db, Refused(NotFound))
    else
      var row := db.uploads[key];
      match row.state
      case Committed =>
        if row.receipt.Some? then Tx(db, Done(row.receipt.value)) else Tx(db, Refused(Integrity))
      case Aborted => Tx(db, Refused(TransferClosed))
      case Receiving =>
        if !db.projects[project].offline then Tx(db, Refused(OfflineDisabled))
        else if row.offset != row.size then Tx(db, Refused(Incomplete))
        else
          var body := Assemble(Blocks(db.chunks, key), 0);
          if body.None? then Tx(db, Refused(Integrity))
          else
            var v := Version(project, row.path, row.sha256, row.size, body.value);
            if !Verified(v) || revision in db.versions then Tx(db, Refused(Integrity))
            else Publish(db, key, row, revision, v)
  }

  /** The writes of a successful commit. */
  ghost function Publish(db: Db, key: TransferKey, row: Upload, revision: Id, v: Version): Tx<Receipt> {
    var receipt := Receipt(revision, row.path, row.sha256, row.size, key.project, key.transfer);
    var kept := if row.base.None? then db.heads else db.heads - {Head(key.project, row.path, row.base.value)};
    Tx(db.(versions := db.versions[revision := v],
           heads := kept + {Head(key.project, row.path, revision)},
           uploads := db.uploads[key := row.(state := Committed, receipt := Some(receipt))],
           chunks := db.chunks - {key}),
       Done(receipt))
  }

  ghost function ReadRevision(db: Db, project: Id, revision: Id): Outcome<Bytes> {
    if project !in db.projects then Refused(NotFound)
    else if revision !in db.versions || db.versions[revision].project != project then Refused(NotFound)
    else if !Verified(db.versions[revision]) then Refused(Integrity)
    else Done(db.versions[revision].body)
  }

  predicate Repeats(revisions: seq<Id>) {
    exists i, j :: 0 <= i < j < |revisions| && revisions[i] == revisions[j]
  }

  /** The caller's list is exactly the current heads, and the choice is one of them. */
  ghost predicate HeadsMatch(heads: set<Head>, project: Id, path: Path, expected: seq<Id>, chosen: Id) {
    && (forall h :: h in HeadsOf(heads, project, path) ==> h.revision in expected)
    && (forall r :: r in expected ==> Head(project, path, r) in heads)
    && chosen in expected
  }

  /** The heads after all but one head of a path were dropped. */
  function KeepOnly(heads: set<Head>, winner: Head): set<Head> {
    heads - (HeadsOf(heads, winner.project, winner.path) - {winner})
  }

  ghost function Resolve(db: Db, project: Id, path: Path, expected: seq<Id>, chosen: Id): Tx<Head> {
    if expected == [] || Repeats(expected) then Tx(db, Refused(Invalid))
    else if project !in db.projects then Tx(db, Refused(NotFound))
    else if !HeadsMatch(db.heads, project, path, expected, chosen) then Tx(db, Refused(HeadsChanged))
    else if chosen !in db.versions || db.versions[chosen].project != project || !Verified(db.versions[chosen])
    then Tx(db, Refused(Integrity))
    else Tx(db.(heads := KeepOnly(db.heads, Head(project, path, chosen))), Done(Head(project, path, chosen)))
  }

  // -------------------------------------------------------------------- runs

  datatype Op =
    | OpCreate(project: Id, title: string)
    | OpOffline(project: Id, enabled: bool)
    | OpDeclare(project: Id, device: Id, files: seq<FileEntry>, issues: seq<string>)
    | OpStart(project: Id, transfer: Id, path: Path, size: int, sha256: Digest, base: Option<Id>)
    | OpAppend(project: Id, transfer: Id, offset: int, data: Bytes)
    | OpFinish(project: Id, transfer: Id, revision: Id)
    | OpAbort(project: Id, transfer: Id)
    | OpResolve(project: Id, path: Path, expected: seq<Id>, chosen: Id)

  ghost function Apply(fold: Folding, db: Db, op: Op): Db {
    match op
    case OpCreate(p, t) => CreateProject(db, p, t).db
    case OpOffline(p, e) => SetOffline(db, p, e).db
    case OpDeclare(p, d, f, i) => DeclareManifest(fold, db, p, d, f, i).db
    case OpStart(p, t, path, size, sha, base) => StartUpload(fold, db, p, t, path, size, sha, base).db
    case OpAppend(p, t, offset, data) => AppendChunk(db, p, t, offset, data).db
    case OpFinish(p, t, r) => FinishUpload(db, p, t, r).db
    case OpAbort(p, t) => AbortUpload(db, p, t).db
    case OpResolve(p, path, expected, chosen) => Resolve(db, p, path, expected, chosen).db
  }

  /** The tables after a whole run of transactions, in order. */
  ghost function Run(fold: Folding, db: Db, ops: seq<Op>): Db
    decreases |ops|
  {
    if ops == [] then db else Run(fold, Apply(fold, db, ops[0]), ops[1..])
  }
}
