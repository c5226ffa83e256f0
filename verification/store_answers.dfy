/** When each transaction of the store succeeds, what it then writes and what it refuses,
    said of the tables themselves. */
module StoreAnswers {
  import opened Common
  import opened Paths
  import opened StoreModel
  import opened StoreInvariant

  // ---------------------------------------------------------------- projects

  lemma CreateExact(db: Db, project: Id, title: string)
    ensures var tx := CreateProject(db, project, title);
            && (tx.out.Done? <==>
                  |title| <= 500 && project !in db.projects && exists c :: c in title && c !in {' ', '\t', '\n', '\r'})
            && (tx.out.Done? ==> tx.db == db.(projects := db.projects[project := Project(title, false)]))
            && (!tx.out.Done? ==> tx.db == db)
            && (tx.out == Refused(ProjectExists) ==> project in db.projects)
            && (tx.out.Done? || tx.out == Refused(Invalid) || tx.out == Refused(ProjectExists))
  {
  }

  lemma SwitchExact(db: Db, project: Id, enabled: bool)
    ensures var tx := SetOffline(db, project, enabled);
            && (tx.out.Done? <==> project in db.projects) && (!tx.out.Done? ==> tx == Tx(db, Refused(NotFound)))
            && tx.db.projects.Keys == db.projects.Keys
            && (tx.out.Done? ==>
                  tx.db.projects[project].offline == enabled
                      && tx.db.projects[project].title == db.projects[project].title)
            && (forall p :: p in db.projects && p != project ==> tx.db.projects[p] == db.projects[p])
            && tx.db.(projects := db.projects) == db
  {
  }

  // ------------------------------------------------------------- declarations

  /** The single-headed files of a project. */
  ghost predicate SoleFile(db: Db, project: Id, f: FileEntry) {
    exists r :: r in db.versions && Head(project, f.path, r) in db.heads
      && f == FileEntry(f.path, db.versions[r].sha256, db.versions[r].size)
      && forall q :: q in db.versions && Head(project, f.path, q) in db.heads ==> q == r
  }

  lemma ServerViewIs(db: Db, project: Id, f: FileEntry)
    ensures f in ServerView(db, project) <==> SoleFile(db, project, f)
  {
    var live := LiveHeads(db, project);
    if f in ServerView(db, project) {
      var h :| h in live && HeadsOf(live, project, h.path) == {h} && EntryOf(db.versions, h) == f;
      forall q | q in db.versions && Head(project, f.path, q) in db.heads ensures q == h.revision {
        assert Head(project, f.path, q) in HeadsOf(live, project, h.path);
      }
      assert h == Head(project, f.path, h.revision);
    }
    if SoleFile(db, project, f) {
      var r :| r in db.versions && Head(project, f.path, r) in db.heads
               && f == FileEntry(f.path, db.versions[r].sha256, db.versions[r].size)
               && forall q :: q in db.versions && Head(project, f.path, q) in db.heads ==> q == r;
      var h := Head(project, f.path, r);
      forall g | g in HeadsOf(live, project, f.path) ensures g == h {
        assert g == Head(project, f.path, g.revision);
      }
      assert HeadsOf(live, project, h.path) == {h};
      assert EntryOf(db.versions, h) == f;
    }
  }

  /** The bounds on a declaration: sizes of the lists and of their entries, distinct paths,
      no two of which collide. */
  ghost predicate Declarable(fold: Folding, files: seq<FileEntry>, issues: seq<string>) {
    && |files| <= 20000 && |issues| <= 2000
    && (forall i :: 0 <= i < |issues| ==> 0 < |issues[i]| <= 2000)
    && (forall i :: 0 <= i < |files| ==> files[i].size <= MAX_FILE_BYTES)
    && (forall i, j :: 0 <= i < j < |files| ==> files[i].path != files[j].path)
    && (forall i, j :: 0 <= i < |files| && 0 <= j < |files| ==> !Collides(fold, files[i].path, files[j].path))
  }

  lemma DeclarableIs(fold: Folding, files: seq<FileEntry>, issues: seq<string>)
    ensures ManifestOk(fold, files, issues) <==> Declarable(fold, files, issues)
  {
    var paths := seq(|files|, i requires 0 <= i < |files| => files[i].path);
    if ManifestOk(fold, files, issues) {
      forall i, j | 0 <= i < j < |files| ensures files[i].path != files[j].path {
        assert paths[i] != paths[j];
      }
      forall i, j | 0 <= i < |files| && 0 <= j < |files| ensures !Collides(fold, files[i].path, files[j].path) {
        assert paths[i] in Elements(paths) && paths[j] in Elements(paths);
      }
      forall i | 0 <= i < |files| ensures files[i].size <= MAX_FILE_BYTES { assert files[i] in files; }
      forall i | 0 <= i < |issues| ensures 0 < |issues[i]| <= 2000 { assert issues[i] in issues; }
    }
    if Declarable(fold, files, issues) {
      forall p, q | p in Elements(paths) && q in Elements(paths) ensures !Collides(fold, p, q) {
        var i :| 0 <= i < |paths| && paths[i] == p;
        var j :| 0 <= j < |paths| && paths[j] == q;
        assert !Collides(fold, files[i].path, files[j].path);
      }
      forall i, j | 0 <= i < j < |paths| ensures paths[i] != paths[j] {}
    }
  }

  /** A declaration is accepted exactly if it is within bounds and the project exists. The
      device's row then holds exactly what was declared, for the browser the files with one
      head, and exactly the issues; nothing else changes. */
  lemma DeclareExact(fold: Folding, db: Db, project: Id, device: Id, files: seq<FileEntry>, issues: seq<string>)
    ensures var tx := DeclareManifest(fold, db, project, device, files, issues);
            var key := DeviceKey(project, device);
            && (tx.out.Done? <==> Declarable(fold, files, issues) && project in db.projects)
            && (tx.out == Refused(Invalid) <==> !Declarable(fold, files, issues))
            && (!tx.out.Done? ==> tx.db == db && tx.out.reason in {Invalid, NotFound})
            && tx.db.(manifests := db.manifests) == db
            && (forall d :: d != key ==> (d in tx.db.manifests <==> d in db.manifests)
                                         && (d in db.manifests ==> tx.db.manifests[d] == db.manifests[d]))
            && (tx.out.Done? ==>
                  && key in tx.db.manifests && tx.db.manifests[key].issues == issues
                  && (device != BROWSER ==> forall f :: f in tx.db.manifests[key].files <==> f in files)
                  && (device == BROWSER ==> forall f :: f in tx.db.manifests[key].files <==> SoleFile(db, project, f)))
  {
    DeclarableIs(fold, files, issues);
    forall f ensures f in ServerView(db, project) <==> SoleFile(db, project, f) { ServerViewIs(db, project, f); }
  }

  // ------------------------------------------------------------------- begin

  /** No version, live transfer or declared file of the project has a path this one collides
      with. */
  ghost predicate Unclaimed(fold: Folding, db: Db, project: Id, path: Path) {
    && (forall r :: r in db.versions && db.versions[r].project == project ==>
          !Collides(fold, path, db.versions[r].path))
    && (forall k :: k in db.uploads && k.project == project && !db.uploads[k].state.Aborted? ==>
          !Collides(fold, path, db.uploads[k].path))
    && (forall d, f :: d in db.manifests && d.project == project && f in db.manifests[d].files ==>
          !Collides(fold, path, f.path))
  }

  lemma UnclaimedIs(fold: Folding, db: Db, project: Id, path: Path)
    ensures Unclaimed(fold, db, project, path) <==>
              !exists q :: q in KnownPaths(db, project) && Collides(fold, path, q)
  {
    if Unclaimed(fold, db, project, path) {
      forall q | q in KnownPaths(db, project) ensures !Collides(fold, path, q) {}
    } else {
      if r :| r in db.versions && db.versions[r].project == project && Collides(fold, path, db.versions[r].path) {
        assert db.versions[r].path in KnownPaths(db, project);
      } else if k :| k in db.uploads && k.project == project && !db.uploads[k].state.Aborted?
                     && Collides(fold, path, db.uploads[k].path) {
        assert db.uploads[k].path in KnownPaths(db, project);
      } else {
        var d, f :| d in db.manifests && d.project == project && f in db.manifests[d].files
            && Collides(fold, path, f.path);
        assert f.path in KnownPaths(db, project);
      }
    }
  }

  /** Room for one more transfer of this size: fewer than 32 open, at most half a gibibyte
      reserved with it, and at most one gibibyte stored and reserved together. */
  ghost predicate HasRoom(db: Db, size: nat) {
    var open := map k | k in db.uploads && db.uploads[k].state == Receiving :: db.uploads[k].size;
    var kept := map r | r in db.versions :: db.versions[r].size;
    && |open| < 32 && Total(open) + size <= 0x2000_0000 && Total(kept) + Total(open) + size <= 0x4000_0000
  }

  lemma HasRoomIs(db: Db, size: nat)
    ensures HasRoom(db, size) <==> WithinQuota(db.versions, db.uploads, size)
  {
    assert (map k | k in db.uploads && db.uploads[k].state == Receiving :: db.uploads[k].size) ==
        ReservedSizes(db.uploads);
    assert (map r | r in db.versions :: db.versions[r].size) == StoredSizes(db.versions);
  }

  /** A begin under an identifier not seen before. */
  ghost predicate Admitted(fold: Folding, db: Db, project: Id, path: Path, size: int, base: Option<Id>) {
    && 0 <= size <= MAX_FILE_BYTES && project in db.projects && db.projects[project].offline
    && (base.Some? ==>
          base.value in db.versions && db.versions[base.value].project == project
              && db.versions[base.value].path == path)
    && Unclaimed(fold, db, project, path) && HasRoom(db, size)
  }

  function Opened(db: Db, key: TransferKey, row: Upload): Db { db.(uploads := db.uploads[key := row]) }

  /** It is accepted exactly if admitted, opens one receiving row, and is otherwise refused
      for the first thing that is wrong. */
  lemma BeginExact(fold: Folding, db: Db, project: Id, transfer: Id, path: Path, size: int, sha: Digest,
                   base: Option<Id>)
    requires TransferKey(project, transfer) !in db.uploads
    ensures var tx := StartUpload(fold, db, project, transfer, path, size, sha, base);
            && (tx.out.Done? <==> Admitted(fold, db, project, path, size, base))
            && (tx.out.Done? ==>
                  && tx.db ==
                      Opened(db, TransferKey(project, transfer), Upload(path, size, sha, base, Receiving, 0, None))
                  && tx.out.value == UploadStatus(transfer, Receiving, 0, None))
            && (!tx.out.Done? ==> tx.db == db)
            && (tx.out == Refused(UnsafePath) ==> !Unclaimed(fold, db, project, path))
            && (tx.out == Refused(Quota) ==> Unclaimed(fold, db, project, path) && 0 <= size && !HasRoom(db, size))
            && (tx.out == Refused(InvalidBase) ==> base.Some?)
            && (tx.out == Refused(OfflineDisabled) ==> project in db.projects && !db.projects[project].offline)
            && (tx.out == Refused(NotFound) ==> project !in db.projects)
            && (tx.out == Refused(Invalid) ==> !(0 <= size <= MAX_FILE_BYTES))
            && (tx.out.Done? || tx.out.reason in {Invalid, NotFound, OfflineDisabled, InvalidBase, UnsafePath, Quota})
  {
    UnclaimedIs(fold, db, project, path);
    if 0 <= size { HasRoomIs(db, size); }
  }

  /** A begin under an identifier seen before changes nothing. It is answered with the row
      if that is aborted or was opened for the same file; else it is refused. */
  lemma BeginAgainExact(fold: Folding, db: Db, project: Id, transfer: Id, path: Path, size: int, sha: Digest,
                        base: Option<Id>)
    requires TransferKey(project, transfer) in db.uploads && 0 <= size <= MAX_FILE_BYTES && project in db.projects
    ensures var tx := StartUpload(fold, db, project, transfer, path, size, sha, base);
            var u := db.uploads[TransferKey(project, transfer)];
            && tx.db == db
            && tx.out == if u.state == Aborted
                || (u.path == path && u.size == size && u.sha256 == sha && u.base == base)
                         then Done(UploadStatus(transfer, u.state, u.offset, u.receipt)) else Refused(TransferConflict)
  {
  }

  // ------------------------------------------------------------------ chunks

  /** The bytes received under a transfer, in order. */
  ghost predicate Received(db: Db, key: TransferKey, bytes: Bytes) {
    && key in db.uploads && db.uploads[key].offset == |bytes|
    && Assemble(Blocks(db.chunks, key), 0) == Some(bytes)
  }

  ghost predicate SameElsewhere(a: Db, b: Db, key: TransferKey) {
    && b.projects == a.projects && b.manifests == a.manifests
    && (forall k :: k != key ==>
         (k in b.uploads <==> k in a.uploads) && (k in a.uploads ==> b.uploads[k] == a.uploads[k]))
    && (forall k :: k != key ==> (k in b.chunks <==> k in a.chunks) && (k in a.chunks ==> b.chunks[k] == a.chunks[k]))
  }

  /** In a valid store a chunk is appended exactly if its size is legal, the transfer is open,
      copies are enabled, and it starts where the received bytes end and stays within the
      announced size. */
  ghost predicate Appendable(db: Db, project: Id, transfer: Id, offset: int, data: Bytes) {
    var key := TransferKey(project, transfer);
    && 1 <= |data| <= MAX_CHUNK_BYTES && project in db.projects && db.projects[project].offline
    && key in db.uploads && db.uploads[key].state == Receiving
    && offset == db.uploads[key].offset && offset + |data| <= db.uploads[key].size
  }

  lemma RowIs(fold: Folding, db: Db, key: TransferKey)
    requires Valid(fold, db) && key in db.uploads
    ensures UploadOk(db.versions, db.chunks, key, db.uploads[key])
  {
  }

  lemma NotBeyond(blocks: map<nat, Bytes>, start: nat)
    requires BlockSizesOk(blocks) && Assemble(blocks, start).Some?
    ensures start + |Assemble(blocks, start).value| !in blocks
  {
    var end := start + |Assemble(blocks, start).value|;
    if end in blocks { AssembleKeys(blocks, start, end); }
  }

  lemma OpenJournal(fold: Folding, db: Db, key: TransferKey)
    requires Valid(fold, db) && key in db.uploads && db.uploads[key].state.Receiving?
    ensures var blocks := Blocks(db.chunks, key);
            && Assemble(blocks, 0).Some? && |Assemble(blocks, 0).value| == db.uploads[key].offset
            && BlockSizesOk(blocks) && db.uploads[key].offset !in blocks
            && db.uploads[key].offset <= db.uploads[key].size <= MAX_FILE_BYTES
  {
    hide Valid;
    RowIs(fold, db, key);
    NotBeyond(Blocks(db.chunks, key), 0);
  }

  /** The row of a chunk acknowledged before. */
  predicate Kept(db: Db, key: TransferKey, offset: int, data: Bytes) {
    key in db.chunks && 0 <= offset && offset in db.chunks[key] && db.chunks[key][offset] == data
  }

  /** An appended chunk lengthens what was received by exactly its bytes and changes no
      other transfer, version or head. */
  lemma AppendWrites(fold: Folding, db: Db, project: Id, transfer: Id, data: Bytes, bytes: Bytes)
    requires Valid(fold, db)
    requires var key := TransferKey(project, transfer);
             Received(db, key, bytes) && Appendable(db, project, transfer, |bytes|, data)
    ensures var key := TransferKey(project, transfer);
            var u := db.uploads[key];
            var tx := AppendChunk(db, project, transfer, |bytes|, data);
            && tx.out == Done(UploadStatus(transfer, Receiving, |bytes| + |data|, None))
            && Received(tx.db, key, bytes + data)
            && tx.db.uploads[key] == Upload(u.path, u.size, u.sha256, u.base, Receiving, |bytes| + |data|, None)
            && SameElsewhere(db, tx.db, key) && tx.db.versions == db.versions && tx.db.heads == db.heads
  {
    var key := TransferKey(project, transfer);
    hide Valid;
    RowIs(fold, db, key);
    OpenJournal(fold, db, key);
    AssembleAppend(Blocks(db.chunks, key), 0, |bytes|, data);
    assert Blocks(Extended(db, key, db.uploads[key], data).chunks, key) == Blocks(db.chunks, key)[|bytes| := data];
  }

  /** Which chunks are acknowledged, and what refuses the others. */
  lemma AppendExact(fold: Folding, db: Db, project: Id, transfer: Id, offset: int, data: Bytes)
    requires Valid(fold, db)
    ensures var key := TransferKey(project, transfer);
            var tx := AppendChunk(db, project, transfer, offset, data);
            var known := project in db.projects && key in db.uploads;
            var legal := 0 <= offset <= MAX_FILE_BYTES && 1 <= |data| <= MAX_CHUNK_BYTES;
            && (tx.out.Done? <==>
                  || Appendable(db, project, transfer, offset, data)
                  || (legal && known && db.uploads[key].state == Receiving && Kept(db, key, offset, data)))
            && (tx.db != db ==> Appendable(db, project, transfer, offset, data))
            && (tx.out == Refused(Invalid) <==> !legal)
            && (tx.out == Refused(NotFound) <==> legal && !known)
            && (tx.out == Refused(TransferClosed) <==> legal && known && db.uploads[key].state != Receiving)
            && (tx.out == Refused(ChunkConflict) <==>
                  && legal && known && db.uploads[key].state == Receiving
                  && key in db.chunks && offset in db.chunks[key] && db.chunks[key][offset] != data)
            && (tx.out == Refused(OfflineDisabled) ==> known && !db.projects[project].offline)
            && (tx.out == Refused(OffsetConflict) ==>
                  known && (offset != db.uploads[key].offset || offset + |data| > db.uploads[key].size))
            && (!tx.out.Done? ==>
                  tx.out.reason in {Invalid, NotFound, TransferClosed, ChunkConflict, OfflineDisabled, OffsetConflict})
  {
    var key := TransferKey(project, transfer);
    if key in db.uploads && db.uploads[key].state.Receiving? {
      OpenJournal(fold, db, key);
    }
  }

  // ------------------------------------------------------------------ commit

  /** What a commit needs: copies enabled, everything announced received, the announced
      digest, and a revision identifier not used before. */
  ghost predicate Committable(db: Db, key: TransferKey, bytes: Bytes, revision: Id) {
    && key.project in db.projects && db.projects[key.project].offline
    && Received(db, key, bytes) && db.uploads[key].state == Receiving
    && db.uploads[key].size == |bytes| && db.uploads[key].sha256 == Sha256(bytes) && revision !in db.versions
  }

  ghost predicate PublishedAs(db: Db, after: Db, key: TransferKey, bytes: Bytes, revision: Id)
    requires key in db.uploads
  {
    var u := db.uploads[key];
    && after.versions == db.versions[revision := Version(key.project, u.path, Sha256(bytes), |bytes|, bytes)]
    && (forall h :: h in after.heads <==>
          || h == Head(key.project, u.path, revision)
          || (h in db.heads && (u.base.Some? ==> h != Head(key.project, u.path, u.base.value))))
    && key in after.uploads && key !in after.chunks
    && after.uploads[key] ==
         Upload(u.path, |bytes|, Sha256(bytes), u.base, Committed, |bytes|,
                Some(Receipt(revision, u.path, Sha256(bytes), |bytes|, key.project, key.transfer)))
    && SameElsewhere(db, after, key)
  }

  /** A commit of what was received publishes exactly those bytes as one version, makes it a
      head in place of the transfer's base and closes the row, exactly if it may. */
  lemma CommitExact(fold: Folding, db: Db, project: Id, transfer: Id, bytes: Bytes, revision: Id)
    requires Valid(fold, db)
    requires var key := TransferKey(project, transfer);
             Received(db, key, bytes) && db.uploads[key].state == Receiving
    ensures var key := TransferKey(project, transfer);
            var u := db.uploads[key];
            var tx := FinishUpload(db, project, transfer, revision);
            && (tx.out.Done? <==> Committable(db, key, bytes, revision))
            && (tx.out.Done? ==>
                  && tx.out.value == Receipt(revision, u.path, Sha256(bytes), |bytes|, project, transfer)
                  && PublishedAs(db, tx.db, key, bytes, revision))
            && (!tx.out.Done? ==> tx.db == db)
            && (tx.out == Refused(NotFound) <==> project !in db.projects)
            && (tx.out == Refused(OfflineDisabled) <==> project in db.projects && !db.projects[project].offline)
            && (tx.out == Refused(Incomplete) <==>
                  project in db.projects && db.projects[project].offline && |bytes| != u.size)
            && (!tx.out.Done? ==> tx.out.reason in {NotFound, OfflineDisabled, Incomplete, Integrity})
  {
    hide Valid;
    RowIs(fold, db, TransferKey(project, transfer));
  }

  /** A closed or unknown transfer: the receipt again, or the refusal; nothing changes. */
  lemma CommitAgainExact(fold: Folding, db: Db, project: Id, transfer: Id, revision: Id)
    requires Valid(fold, db)
    requires var key := TransferKey(project, transfer);
             project in db.projects && key in db.uploads ==> db.uploads[key].state != Receiving
    ensures var key := TransferKey(project, transfer);
            var tx := FinishUpload(db, project, transfer, revision);
            && tx.db == db
            && (project !in db.projects || key !in db.uploads <==> tx.out == Refused(NotFound))
            && (project in db.projects && key in db.uploads ==>
                  if db.uploads[key].state == Aborted then tx.out == Refused(TransferClosed)
                  else tx.out.Done? && Some(tx.out.value) == db.uploads[key].receipt)
            && (tx.out.Done? ==>
                  var u := db.uploads[key];
                  tx.out.value == Receipt(tx.out.value.revision, u.path, u.sha256, u.size, project, transfer))
  {
    var key := TransferKey(project, transfer);
    hide Valid;
    if project in db.projects && key in db.uploads {
      RowIs(fold, db, key);
    }
  }

  // ------------------------------------------------------------------- abort

  /** A cancellation is accepted exactly if the project exists. A receiving transfer becomes
      aborted and loses its chunks, an unknown identifier is closed for good, and a closed
      transfer is reported as it is. */
  lemma AbortExact(db: Db, project: Id, transfer: Id)
    ensures var key := TransferKey(project, transfer);
            var tx := AbortUpload(db, project, transfer);
            && (tx.out.Done? <==> project in db.projects)
            && (!tx.out.Done? ==> tx == Tx(db, Refused(NotFound)))
            && SameElsewhere(db, tx.db, key) && tx.db.versions == db.versions && tx.db.heads == db.heads
            && (tx.out.Done? ==>
                  && key in tx.db.uploads && tx.db.uploads[key].state != Receiving
                  && tx.out.value ==
                       UploadStatus(transfer, tx.db.uploads[key].state, tx.db.uploads[key].offset,
                                    tx.db.uploads[key].receipt)
                  && (if key !in db.uploads then
                        tx.db.uploads[key].state == Aborted && tx.db.uploads[key].receipt == None
                            && tx.db.chunks == db.chunks
                      else if db.uploads[key].state == Receiving then
                        tx.db.uploads[key] == db.uploads[key].(state := Aborted) && key !in tx.db.chunks
                      else tx.db == db))
  {
  }

  // -------------------------------------------------------- heads and content

  /** The listed revisions are the heads of the path, each once, and the choice is one. */
  ghost predicate ListsHeads(db: Db, project: Id, path: Path, expected: seq<Id>, chosen: Id) {
    && (forall r :: r in expected <==> Head(project, path, r) in db.heads) && chosen in expected
    && (forall i, j :: 0 <= i < j < |expected| ==> expected[i] != expected[j])
  }

  /** A choice is accepted exactly if the heads are listed as they are. The chosen head is
      then the only one of its path, and every other head is as before. */
  lemma ResolveExact(fold: Folding, db: Db, project: Id, path: Path, expected: seq<Id>, chosen: Id)
    requires Valid(fold, db)
    ensures var tx := Resolve(db, project, path, expected, chosen);
            && (tx.out.Done? <==> project in db.projects && ListsHeads(db, project, path, expected, chosen))
            && (tx.out.Done? ==>
                  && tx.out.value == Head(project, path, chosen)
                  && (forall h :: h in tx.db.heads <==>
                        h in db.heads && (h.project == project && h.path == path ==> h.revision == chosen)))
            && (!tx.out.Done? ==> tx.db == db && tx.out.reason in {Invalid, NotFound, HeadsChanged})
            && tx.db.(heads := db.heads) == db
            && (tx.out == Refused(Invalid) <==> expected == [] || Repeats(expected))
            && (tx.out == Refused(HeadsChanged) ==> !ListsHeads(db, project, path, expected, chosen))
  {
    hide Valid;
    ListsMatch(db, project, path, expected, chosen);
    if HeadsMatch(db.heads, project, path, expected, chosen) {
      HeadIs(fold, db, Head(project, path, chosen));
    }
  }

  lemma HeadIs(fold: Folding, db: Db, h: Head)
    requires Valid(fold, db) && h in db.heads
    ensures IsVersionOf(db.versions, h.project, h.path, h.revision) && Verified(db.versions[h.revision])
  {
  }

  lemma ListsMatch(db: Db, project: Id, path: Path, expected: seq<Id>, chosen: Id)
    ensures ListsHeads(db, project, path, expected, chosen) <==>
              !Repeats(expected) && HeadsMatch(db.heads, project, path, expected, chosen)
  {
    if HeadsMatch(db.heads, project, path, expected, chosen) {
      forall r ensures r in expected <==> Head(project, path, r) in db.heads {
        if Head(project, path, r) in db.heads { assert Head(project, path, r) in HeadsOf(db.heads, project, path); }
      }
    }
    if ListsHeads(db, project, path, expected, chosen) {
      forall h | h in HeadsOf(db.heads, project, path) ensures h.revision in expected {
        assert h == Head(project, path, h.revision);
      }
    }
  }

  /** Every version of a project can be read, as the bytes of its digest and size; nothing
      else can. */
  lemma ReadExact(fold: Folding, db: Db, project: Id, revision: Id)
    requires Valid(fold, db)
    ensures var out := ReadRevision(db, project, revision);
            && (out.Done?
                <==> project in db.projects && revision in db.versions && db.versions[revision].project == project)
            && (out.Done? ==>
                 |out.value| == db.versions[revision].size && Sha256(out.value) == db.versions[revision].sha256
                              && out.value == db.versions[revision].body)
            && (!out.Done? ==> out == Refused(NotFound))
  {
    if revision in db.versions { assert Verified(db.versions[revision]); }
  }
}
