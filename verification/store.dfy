/** The tenant store: every method is one transaction on the tables, proved to be
    the transaction of `StoreModel` and so to keep every store invariant. */
module Store {
  import opened Common
  import opened Paths
  import opened StoreModel
  import opened StoreInvariant

  /** `SELECT COALESCE(SUM(size), 0)`. */
  method Sum<K>(column: map<K, nat>) returns (sum: nat)
    ensures sum == Total(column)
  {
    sum := 0;
    var rest := column;
    while rest != map[]
      invariant sum + Total(rest) == Total(column)
      decreases |rest|
    {
      var k :| k in rest;
      TotalRemove(rest, k);
      Fewer(rest, k);
      sum := sum + rest[k];
      rest := rest - {k};
    }
  }

  /** The least offset of a non-empty set of chunk rows. */
  method Least(rows: map<nat, Bytes>) returns (least: nat)
    requires rows != map[]
    ensures least in rows && forall k :: k in rows ==> least <= k
  {
    var first :| first in rows;
    least := first;
    var rest := rows.Keys - {first};
    while rest != {}
      invariant rest <= rows.Keys && least in rows
      invariant forall k :: k in rows && k !in rest ==> least <= k
      decreases |rest|
    {
      var k :| k in rest;
      if k < least { least := k; }
      rest := rest - {k};
    }
  }

  class SyncStore {
    const fold: Folding
    var projects: map<Id, Project>
    var manifests: map<DeviceKey, Manifest>
    var versions: map<Id, Version>
    var heads: set<Head>
    var uploads: map<TransferKey, Upload>
    var chunks: map<TransferKey, map<nat, Bytes>>

    function Tables(): Db reads this {
      Db(projects, manifests, versions, heads, uploads, chunks)
    }

    constructor (fold: Folding)
      ensures this.fold == fold && Tables() == EMPTY_DB && Valid(fold, Tables())
    {
      this.fold := fold;
      projects, manifests, versions, heads, uploads, chunks := map[], map[], map[], {}, map[], map[];
      new;
      EmptyIsValid(fold);
    }

    method CreateProject(project: Id, title: string) returns (out: Outcome<Project>)
      modifies this`projects
      ensures Tx(Tables(), out) == StoreModel.CreateProject(old(Tables()), project, title)
      ensures old(Valid(fold, Tables())) ==> Valid(fold, Tables())
    {
      if Blank(title) || |title| > 500 { return Refused(Invalid); }
      if project in projects { return Refused(ProjectExists); }
      projects := projects[project := Project(title, false)];
      out := Done(projects[project]);
    }

    method SetOffline(project: Id, enabled: bool) returns (out: Outcome<Project>)
      modifies this`projects
      ensures Tx(Tables(), out) == StoreModel.SetOffline(old(Tables()), project, enabled)
      ensures old(Valid(fold, Tables())) ==> Valid(fold, Tables())
    {
      if project !in projects { return Refused(NotFound); }
      projects := projects[project := projects[project].(offline := enabled)];
      out := Done(projects[project]);
    }

    /** The live view the browser's declaration is replaced by. */
    method LiveView(project: Id) returns (files: set<FileEntry>)
      ensures files == ServerView(Tables(), project)
    {
      files := {};
      var live := set h | h in heads && h.project == project && h.revision in versions;
      var rest := live;
      while rest != {}
        invariant rest <= live
        invariant files == set h | h in live - rest && HeadsOf(live, project, h.path) == {h} :: EntryOf(versions, h)
        decreases |rest|
      {
        var h :| h in rest;
        ghost var before := live - rest;
        rest := rest - {h};
        assert live - rest == before + {h};
        if HeadsOf(live, project, h.path) == {h} {
          files := files + {EntryOf(versions, h)};
        }
      }
      assert live - rest == live;
    }

    method DeclareManifest(project: Id, device: Id, files: seq<FileEntry>, issues: seq<string>)
      returns (out: Outcome<()>)
      modifies this`manifests
      ensures Tx(Tables(), out) == StoreModel.DeclareManifest(fold, old(Tables()), project, device, files, issues)
      ensures old(Valid(fold, Tables())) ==> Valid(fold, Tables())
    {
      if |files| > MAX_MANIFEST_FILES || !IssuesOk(issues) || exists f | f in files :: f.size > MAX_FILE_BYTES {
        return Refused(Invalid);
      }
      var paths := seq(|files|, i requires 0 <= i < |files| => files[i].path);
      var check := CheckManifestPaths(fold, paths);
      if !check.Accepted? { return Refused(Invalid); }
      if project !in projects { return Refused(NotFound); }
      var clean := set f | f in files;
      if device == BROWSER {
        clean := LiveView(project);
      }
      manifests := manifests[DeviceKey(project, device) := Manifest(clean, issues)];
      out := Done(());
    }

    /** The scan over every path the project already uses. */
    method Ambiguous(project: Id, path: Path) returns (clash: bool)
      ensures clash <==> exists q :: q in KnownPaths(Tables(), project) && Collides(fold, path, q)
    {
      var known: set<Path> :=
        (set r | r in versions && versions[r].project == project :: versions[r].path)
        + (set k | k in uploads && k.project == project && !uploads[k].state.Aborted? :: uploads[k].path)
        + (set d, f | d in manifests && d.project == project && f in manifests[d].files :: f.path);
      assert known == KnownPaths(Tables(), project);
      var rest := known;
      while rest != {}
        invariant rest <= known
        invariant forall q :: q in known - rest ==> !Collides(fold, path, q)
        decreases |rest|
      {
        var q :| q in rest;
        if Collides(fold, path, q) { return true; }
        rest := rest - {q};
      }
      clash := false;
    }

    method FitsQuota(size: nat) returns (fits: bool)
      ensures fits == WithinQuota(versions, uploads, size)
    {
      var stored := map r | r in versions :: versions[r].size;
      var reserved := map k | k in uploads && uploads[k].state.Receiving? :: uploads[k].size;
      var used := Sum(stored);
      var held := Sum(reserved);
      fits := |reserved| < MAX_ACTIVE_TRANSFERS
           && held + size <= MAX_RESERVED_BYTES && used + held + size <= MAX_TENANT_BYTES;
    }

    method StartUpload(project: Id, transfer: Id, path: Path, size: int, sha256: Digest, base: Option<Id>)
      returns (out: Outcome<UploadStatus>)
      modifies this`uploads
      ensures Tx(Tables(), out) ==
                StoreModel.StartUpload(fold, old(Tables()), project, transfer, path, size, sha256, base)
      ensures old(Valid(fold, Tables())) ==> Valid(fold, Tables())
    {
      ghost var before := Tables();
      if Valid(fold, before) { StartKeeps(fold, before, project, transfer, path, size, sha256, base); }
      if !(0 <= size <= MAX_FILE_BYTES) { return Refused(Invalid); }
      if project !in projects { return Refused(NotFound); }
      var key := TransferKey(project, transfer);
      if key in uploads {
        var row := uploads[key];
        if row.state.Aborted? { return Done(StatusOf(transfer, row)); }
        if row.path != path || row.size != size || row.sha256 != sha256 || row.base != base {
          return Refused(TransferConflict);
        }
        return Done(StatusOf(transfer, row));
      }
      if !projects[project].offline { return Refused(OfflineDisabled); }
      if base.Some? && !IsVersionOf(versions, project, path, base.value) { return Refused(InvalidBase); }
      var clash := Ambiguous(project, path);
      if clash { return Refused(UnsafePath); }
      var fits := FitsQuota(size);
      if !fits { return Refused(Quota); }
      uploads := uploads[key := Upload(path, size, sha256, base, Receiving, 0, None)];
      out := Done(StatusOf(transfer, uploads[key]));
    }

    method AbortUpload(project: Id, transfer: Id) returns (out: Outcome<UploadStatus>)
      modifies this`uploads, this`chunks
      ensures Tx(Tables(), out) == StoreModel.AbortUpload(old(Tables()), project, transfer)
      ensures old(Valid(fold, Tables())) ==> Valid(fold, Tables())
    {
      ghost var before := Tables();
      if Valid(fold, before) { AbortKeeps(fold, before, project, transfer); }
      if project !in projects { return Refused(NotFound); }
      var key := TransferKey(project, transfer);
      if key !in uploads {
        uploads := uploads[key := Upload([""], 0, Sha256([]), None, Aborted, 0, None)];
      } else if uploads[key].state.Receiving? {
        chunks := chunks - {key};
        uploads := uploads[key := uploads[key].(state := Aborted)];
      }
      out := Done(StatusOf(transfer, uploads[key]));
    }

    method AppendChunk(project: Id, transfer: Id, offset: int, data: Bytes) returns (out: Outcome<UploadStatus>)
      modifies this`uploads, this`chunks
      ensures Tx(Tables(), out) == StoreModel.AppendChunk(old(Tables()), project, transfer, offset, data)
      ensures old(Valid(fold, Tables())) ==> Valid(fold, Tables())
    {
      ghost var before := Tables();
      if Valid(fold, before) { AppendKeeps(fold, before, project, transfer, offset, data); }
      if !(0 <= offset <= MAX_FILE_BYTES && 1 <= |data| <= MAX_CHUNK_BYTES) { return Refused(Invalid); }
      var key := TransferKey(project, transfer);
      if project !in projects || key !in uploads { return Refused(NotFound); }
      var row := uploads[key];
      if !row.state.Receiving? { return Refused(TransferClosed); }
      var rows := Blocks(chunks, key);
      if offset in rows {
        if rows[offset] == data { return Done(StatusOf(transfer, row)); }
        return Refused(ChunkConflict);
      }
      if !projects[project].offline { return Refused(OfflineDisabled); }
      if offset != row.offset || offset + |data| > row.size { return Refused(OffsetConflict); }
      AddRow(key, data);
      out := Done(StatusOf(transfer, uploads[key]));
    }

    method AddRow(key: TransferKey, data: Bytes)
      requires key in uploads
      modifies this`uploads, this`chunks
      ensures Tables() == Extended(old(Tables()), key, old(uploads)[key], data)
    {
      var row := uploads[key];
      chunks := chunks[key := Blocks(chunks, key)[row.offset := data]];
      uploads := uploads[key := Longer(row, |data|)];
    }

    /** The chunk rows in offset order, joined; none when a row is out of place. */
    method JoinChunks(key: TransferKey) returns (body: Option<Bytes>)
      ensures body == Assemble(Blocks(chunks, key), 0)
    {
      var parts: Bytes := [];
      var rest := Blocks(chunks, key);
      ghost var whole := Assemble(rest, 0);
      assert whole.Some? ==> parts + whole.value == whole.value;
      while rest != map[]
        invariant var tail := Assemble(rest, |parts|);
                  whole == if tail.None? then None else Some(parts + tail.value)
        decreases |rest|
      {
        var next := Least(rest);
        if next != |parts| { return None; }
        Fewer2(rest, next);
        ghost var tail := Assemble(rest - {next}, |parts| + |rest[next]|);
        assert tail.Some? ==> parts + (rest[next] + tail.value) == (parts + rest[next]) + tail.value;
        parts := parts + rest[next];
        rest := rest - {next};
      }
      assert parts + [] == parts;
      body := Some(parts);
    }

    method FinishUpload(project: Id, transfer: Id, revision: Id) returns (out: Outcome<Receipt>)
      modifies this`versions, this`heads, this`uploads, this`chunks
      ensures Tx(Tables(), out) == StoreModel.FinishUpload(old(Tables()), project, transfer, revision)
      ensures old(Valid(fold, Tables())) ==> Valid(fold, Tables())
    {
      ghost var before := Tables();
      if Valid(fold, before) { FinishKeeps(fold, before, project, transfer, revision); }
      var key := TransferKey(project, transfer);
      if project !in projects || key !in uploads { return Refused(NotFound); }
      var row := uploads[key];
      if row.state.Committed? {
        if row.receipt.None? { return Refused(Integrity); }
        return Done(row.receipt.value);
      }
      if row.state.Aborted? { return Refused(TransferClosed); }
      if !projects[project].offline { return Refused(OfflineDisabled); }
      if row.offset != row.size { return Refused(Incomplete); }
      var body := JoinChunks(key);
      if body.None? { return Refused(Integrity); }
      var version := Version(project, row.path, row.sha256, row.size, body.value);
      if !Verified(version) || revision in versions { return Refused(Integrity); }
      versions := versions[revision := version];
      if row.base.Some? {
        heads := heads - {Head(project, row.path, row.base.value)};
      }
      heads := heads + {Head(project, row.path, revision)};
      var receipt := Receipt(revision, row.path, row.sha256, row.size, project, transfer);
      uploads := uploads[key := row.(state := Committed, receipt := Some(receipt))];
      chunks := chunks - {key};
      out := Done(receipt);
    }

    method ReadRevision(project: Id, revision: Id) returns (out: Outcome<Bytes>)
      ensures out == StoreModel.ReadRevision(Tables(), project, revision)
      ensures Valid(fold, Tables()) ==>
                (out.Done? <==> project in projects && revision in versions && versions[revision].project == project)
    {
      if project !in projects { return Refused(NotFound); }
      if revision !in versions || versions[revision].project != project { return Refused(NotFound); }
      if !Verified(versions[revision]) { return Refused(Integrity); }
      out := Done(versions[revision].body);
    }

    method Resolve(project: Id, path: Path, expected: seq<Id>, chosen: Id) returns (out: Outcome<Head>)
      modifies this`heads
      ensures Tx(Tables(), out) == StoreModel.Resolve(old(Tables()), project, path, expected, chosen)
      ensures old(Valid(fold, Tables())) ==> Valid(fold, Tables())
    {
      ghost var before := Tables();
      if Valid(fold, before) { ResolveKeeps(fold, before, project, path, expected, chosen); }
      if expected == [] || Repeats(expected) { return Refused(Invalid); }
      if project !in projects { return Refused(NotFound); }
      var current := set h | h in HeadsOf(heads, project, path) :: h.revision;
      if current != (set r | r in expected) || chosen !in current {
        SetsDiffer(project, path, expected, chosen);
        return Refused(HeadsChanged);
      }
      SetsDiffer(project, path, expected, chosen);
      if chosen !in versions || versions[chosen].project != project || !Verified(versions[chosen]) {
        return Refused(Integrity);
      }
      heads := heads - (HeadsOf(heads, project, path) - {Head(project, path, chosen)});
      out := Done(Head(project, path, chosen));
    }

    lemma SetsDiffer(project: Id, path: Path, expected: seq<Id>, chosen: Id)
      ensures var current := set h | h in HeadsOf(heads, project, path) :: h.revision;
              HeadsMatch(heads, project, path, expected, chosen) <==>
              (current == (set r | r in expected) && chosen in current)
    {
      var current := set h | h in HeadsOf(heads, project, path) :: h.revision;
      forall r ensures r in current <==> Head(project, path, r) in heads {
        if Head(project, path, r) in heads { assert Head(project, path, r) in HeadsOf(heads, project, path); }
      }
    }
  }
}
