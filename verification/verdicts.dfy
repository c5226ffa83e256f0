/** The project verdict said of the tables themselves: which of the five it is and what the
    report lists, without the sets `Readiness` computes them by. */
module Verdicts {
  import opened Common
  import opened Paths
  import opened StoreModel
  import opened StoreAnswers
  import opened Readiness

  /** `r` is a retained version and a head of this path. */
  predicate IsHead(db: Db, project: Id, path: Path, r: Id) {
    r in db.versions && Head(project, path, r) in db.heads
  }

  ghost predicate Forked(db: Db, project: Id, path: Path) {
    exists r, q :: IsHead(db, project, path, r) && IsHead(db, project, path, q) && r != q
  }

  predicate Sound(db: Db, r: Id) requires r in db.versions {
    |db.versions[r].body| == db.versions[r].size && Sha256(db.versions[r].body) == db.versions[r].sha256
  }

  /** Some device of the project declares the file. The browser declares what has one head. */
  ghost predicate Declared(db: Db, project: Id, f: FileEntry) {
    exists d :: d in db.manifests && d.project == project
                && if d.device == BROWSER then SoleFile(db, project, f) else f in db.manifests[d].files
  }

  ghost predicate Provided(db: Db, project: Id, f: FileEntry) {
    exists r :: IsHead(db, project, f.path, r) && Sound(db, r)
                && db.versions[r].sha256 == f.sha256 && db.versions[r].size == f.size
  }

  ghost predicate HasIssue(db: Db, project: Id, issue: Issue) {
    match issue
    case Reported(text) => exists d :: d in db.manifests && d.project == project && text in db.manifests[d].issues
    case Disagreement(path) =>
      exists f, g :: Declared(db, project, f) && Declared(db, project, g) && f != g && f.path == path && g.path == path
    case Undeclared(path) =>
      (exists r :: IsHead(db, project, path, r)) && forall f :: Declared(db, project, f) ==> f.path != path
    case Corrupt(path) => exists r :: IsHead(db, project, path, r) && !Sound(db, r)
  }

  // ------------------------------------------------ what the computed sets hold

  lemma HeadsAre(db: Db, project: Id, h: Head)
    ensures h in LiveHeads(db, project) <==> h.project == project && IsHead(db, project, h.path, h.revision)
  {
    assert h == Head(h.project, h.path, h.revision);
  }

  lemma ForkedIs(db: Db, project: Id, path: Path)
    ensures path in ConflictPaths(db, project) <==> Forked(db, project, path)
  {
    if path in ConflictPaths(db, project) {
      var h, g :| h in LiveHeads(db, project) && g in LiveHeads(db, project) && h != g && h.path == path == g.path;
      HeadsAre(db, project, h);
      HeadsAre(db, project, g);
      assert IsHead(db, project, path, h.revision) && IsHead(db, project, path, g.revision);
    }
    if Forked(db, project, path) {
      var r, q :| IsHead(db, project, path, r) && IsHead(db, project, path, q) && r != q;
      assert Head(project, path, r) in LiveHeads(db, project) && Head(project, path, q) in LiveHeads(db, project);
    }
  }

  lemma DeclaredIs(db: Db, project: Id, f: FileEntry)
    ensures f in Wanted(db, project) <==> Declared(db, project, f)
  {
    ServerViewIs(db, project, f);
    if f in Wanted(db, project) {
      var d :| d in ManifestKeys(db, project) && f in InventoryOf(db, d);
    }
    if Declared(db, project, f) {
      var d :| d in db.manifests && d.project == project
               && if d.device == BROWSER then SoleFile(db, project, f) else f in db.manifests[d].files;
      assert d in ManifestKeys(db, project) && f in InventoryOf(db, d);
    }
  }

  lemma ProvidedIs(db: Db, project: Id, f: FileEntry)
    ensures Stored(db, project, f) <==> Provided(db, project, f)
  {
    if Stored(db, project, f) {
      var h :| h in LiveHeads(db, project) && EntryOf(db.versions, h) == f && Verified(db.versions[h.revision]);
      HeadsAre(db, project, h);
      assert IsHead(db, project, f.path, h.revision) && Sound(db, h.revision);
    }
    if Provided(db, project, f) {
      var r :| IsHead(db, project, f.path, r) && Sound(db, r)
               && db.versions[r].sha256 == f.sha256 && db.versions[r].size == f.size;
      var h := Head(project, f.path, r);
      assert h in LiveHeads(db, project) && EntryOf(db.versions, h) == f;
    }
  }

  lemma ReportedIs(db: Db, project: Id, text: string)
    ensures Reported(text) in AllIssues(db, project) <==> HasIssue(db, project, Reported(text))
  {
    if d :| d in db.manifests && d.project == project && text in db.manifests[d].issues {
      assert d in ManifestKeys(db, project);
      assert Reported(text) in ReportedIssues(db, project);
    }
  }

  lemma DisagreementIs(db: Db, project: Id, path: Path)
    ensures Disagreement(path) in AllIssues(db, project) <==> HasIssue(db, project, Disagreement(path))
  {
    var wanted := Wanted(db, project);
    if Disagreement(path) in AllIssues(db, project) {
      assert Disagreement(path) in Disagreements(wanted);
      var f, g :| f in wanted && g in wanted && f != g && f.path == g.path && f.path == path;
      DeclaredIs(db, project, f);
      DeclaredIs(db, project, g);
    }
    if HasIssue(db, project, Disagreement(path)) {
      var f, g :| Declared(db, project, f) && Declared(db, project, g) && f != g && f.path == path && g.path == path;
      DeclaredIs(db, project, f);
      DeclaredIs(db, project, g);
      assert Disagreement(f.path) in Disagreements(wanted);
    }
  }

  lemma UndeclaredIs(db: Db, project: Id, path: Path)
    ensures Undeclared(path) in AllIssues(db, project) <==> HasIssue(db, project, Undeclared(path))
  {
    var wanted := Wanted(db, project);
    forall f ensures f in wanted <==> Declared(db, project, f) { DeclaredIs(db, project, f); }
    if Undeclared(path) in AllIssues(db, project) {
      assert Undeclared(path) in UndeclaredFiles(db, project, wanted);
      var h :| h in LiveHeads(db, project) && h.path == path && forall f :: f in wanted ==> f.path != h.path;
      HeadsAre(db, project, h);
    }
    if HasIssue(db, project, Undeclared(path)) {
      var r :| IsHead(db, project, path, r);
      var h := Head(project, path, r);
      assert h in LiveHeads(db, project);
      assert Undeclared(h.path) in UndeclaredFiles(db, project, wanted);
    }
  }

  lemma CorruptIs(db: Db, project: Id, path: Path)
    ensures Corrupt(path) in AllIssues(db, project) <==> HasIssue(db, project, Corrupt(path))
  {
    if Corrupt(path) in AllIssues(db, project) {
      assert Corrupt(path) in CorruptFiles(db, project);
      var h :| h in LiveHeads(db, project) && h.path == path && !Verified(db.versions[h.revision]);
      HeadsAre(db, project, h);
      assert IsHead(db, project, path, h.revision) && !Sound(db, h.revision);
    }
    if HasIssue(db, project, Corrupt(path)) {
      var r :| IsHead(db, project, path, r) && !Sound(db, r);
      var h := Head(project, path, r);
      assert h in LiveHeads(db, project);
      assert Corrupt(h.path) in CorruptFiles(db, project);
    }
  }

  /** The report's issues, missing files, conflicting paths and open transfers are the
      issues, missing files, forked paths and receiving rows of the tables. */
  lemma ReportIsExact(db: Db, project: Id)
    ensures forall issue :: issue in AllIssues(db, project) <==> HasIssue(db, project, issue)
    ensures forall f :: f in MissingFiles(db, project) <==> Declared(db, project, f) && !Provided(db, project, f)
    ensures forall path :: path in ConflictPaths(db, project) <==> Forked(db, project, path)
    ensures forall k :: k in ReceivingIn(db, project) <==>
              k in db.uploads && k.project == project && db.uploads[k].state == Receiving
  {
    forall issue: Issue ensures issue in AllIssues(db, project) <==> HasIssue(db, project, issue) {
      match issue
      case Reported(text) => ReportedIs(db, project, text);
      case Disagreement(path) => DisagreementIs(db, project, path);
      case Undeclared(path) => UndeclaredIs(db, project, path);
      case Corrupt(path) => CorruptIs(db, project, path);
    }
    forall f ensures f in MissingFiles(db, project) <==> Declared(db, project, f) && !Provided(db, project, f) {
      DeclaredIs(db, project, f);
      ProvidedIs(db, project, f);
    }
    forall path ensures path in ConflictPaths(db, project) <==> Forked(db, project, path) {
      ForkedIs(db, project, path);
    }
  }

  // --------------------------------------------------------------- the verdicts

  ghost predicate SomeFork(db: Db, project: Id) { exists path :: Forked(db, project, path) }
  ghost predicate SomeIssue(db: Db, project: Id) { exists issue :: HasIssue(db, project, issue) }

  /** Nobody declared, something declared is not provided, or a transfer is open. */
  ghost predicate Unfinished(db: Db, project: Id) {
    || (forall d :: d in db.manifests ==> d.project != project)
    || (exists f :: Declared(db, project, f) && !Provided(db, project, f))
    || (exists k :: k in db.uploads && k.project == project && db.uploads[k].state == Receiving)
  }

  lemma ForksAre(db: Db, project: Id)
    ensures ConflictPaths(db, project) != {} <==> SomeFork(db, project)
  {
    if path :| path in ConflictPaths(db, project) { ForkedIs(db, project, path); }
    if path :| Forked(db, project, path) { ForkedIs(db, project, path); }
  }

  lemma IssuesAre(db: Db, project: Id)
    ensures AllIssues(db, project) != {} <==> SomeIssue(db, project)
  {
    ReportIsExact(db, project);
    hide AllIssues;
    if issue :| issue in AllIssues(db, project) { assert HasIssue(db, project, issue); }
  }

  lemma OpenIs(db: Db, project: Id)
    ensures ManifestKeys(db, project) == {} || MissingFiles(db, project) != {} || ReceivingIn(db, project) != {}
       <==> Unfinished(db, project)
  {
    ReportIsExact(db, project);
    hide MissingFiles;
    if f :| f in MissingFiles(db, project) {}
    if k :| k in ReceivingIn(db, project) {}
    if d :| d in db.manifests && d.project == project { assert d in ManifestKeys(db, project); }
  }

  /** Each verdict, exactly: without offline copies metadata only; else a forked path is a
      conflict; else an issue blocks; else what is unfinished is pending; else ready. */
  lemma VerdictIsExact(db: Db, project: Id)
    requires project in db.projects
    ensures var verdict := VerdictOf(db, project);
            var offline := db.projects[project].offline;
            var fork, issue, open := SomeFork(db, project), SomeIssue(db, project), Unfinished(db, project);
            && (verdict == MetadataOnly <==> !offline)
            && (verdict == Conflict <==> offline && fork)
            && (verdict == Blocked <==> offline && !fork && issue)
            && (verdict == Pending <==> offline && !fork && !issue && open)
            && (verdict == Ready <==> offline && !fork && !issue && !open)
  {
    ForksAre(db, project);
    IssuesAre(db, project);
    OpenIs(db, project);
  }

  // ----------------------------------------------------------- declared issues

  /** No later declaration of the device is within bounds. */
  ghost predicate NotReplaced(fold: Folding, ops: seq<Op>, key: DeviceKey) {
    forall i :: 0 <= i < |ops| && ops[i].OpDeclare? && ops[i].project == key.project && ops[i].device == key.device
      ==> !Declarable(fold, ops[i].files, ops[i].issues)
  }

  lemma RowStays(fold: Folding, db: Db, op: Op, key: DeviceKey)
    requires key in db.manifests && key.project in db.projects && NotReplaced(fold, [op], key)
    ensures var after := Apply(fold, db, op);
            key in after.manifests && after.manifests[key] == db.manifests[key] && key.project in after.projects
  {
    assert [op][0] == op;
    if op.OpDeclare? { DeclareExact(fold, db, op.project, op.device, op.files, op.issues); }
  }

  lemma {:induction false} RowRemains(fold: Folding, db: Db, ops: seq<Op>, key: DeviceKey)
    requires key in db.manifests && key.project in db.projects && NotReplaced(fold, ops, key)
    ensures var after := Run(fold, db, ops);
            key in after.manifests && after.manifests[key] == db.manifests[key] && key.project in after.projects
    decreases |ops|
  {
    if ops != [] {
      assert NotReplaced(fold, [ops[0]], key);
      RowStays(fold, db, ops[0], key);
      RowRemains(fold, Apply(fold, db, ops[0]), ops[1..], key);
    }
  }

  /** While the latest declaration of some device has an issue, the report lists that issue
      and the project is never ready, whatever else happens. */
  lemma DeclaredIssueWithholds(fold: Folding, db: Db, project: Id, device: Id, files: seq<FileEntry>,
                               issues: seq<string>, text: string, later: seq<Op>)
    requires DeclareManifest(fold, db, project, device, files, issues).out.Done? && text in issues
    requires NotReplaced(fold, later, DeviceKey(project, device))
    ensures var after := Run(fold, DeclareManifest(fold, db, project, device, files, issues).db, later);
            && project in after.projects && Reported(text) in AllIssues(after, project)
            && VerdictOf(after, project) in {MetadataOnly, Conflict, Blocked}
  {
    var key := DeviceKey(project, device);
    var declared := DeclareManifest(fold, db, project, device, files, issues).db;
    DeclareExact(fold, db, project, device, files, issues);
    RowRemains(fold, declared, later, key);
    var after := Run(fold, declared, later);
    assert text in after.manifests[key].issues;
    ReportedIs(after, project, text);
    assert HasIssue(after, project, Reported(text));
    VerdictIsExact(after, project);
  }
}
