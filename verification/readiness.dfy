/** The project verdict computed by `_status`, and what `ready` amounts to. */
module Readiness {
  import opened Common
  import opened Paths
  import opened StoreModel
  import opened StoreInvariant

  datatype Verdict = MetadataOnly | Conflict | Blocked | Pending | Ready

  datatype Issue = Reported(text: string) | Disagreement(path: Path) | Undeclared(path: Path) | Corrupt(path: Path)

  datatype Report = Report(verdict: Verdict, missing: set<Path>, requiredBytes: nat, conflicts: nat,
                           issues: set<Issue>, manifests: nat, active: nat)

  // ------------------------------------------------------------ what is compared

  function ManifestKeys(db: Db, project: Id): set<DeviceKey> {
    set d | d in db.manifests && d.project == project
  }

  ghost function InventoryOf(db: Db, d: DeviceKey): set<FileEntry> requires d in db.manifests {
    if d.device == BROWSER then ServerView(db, d.project) else db.manifests[d].files
  }

  ghost function WantedBy(db: Db, keys: set<DeviceKey>): set<FileEntry> requires keys <= db.manifests.Keys {
    set d, f | d in keys && f in InventoryOf(db, d) :: f
  }

  /** What all devices together declare. */
  ghost function Wanted(db: Db, project: Id): set<FileEntry> { WantedBy(db, ManifestKeys(db, project)) }

  /** What the server currently holds. */
  ghost function Current(db: Db, project: Id): set<FileEntry> {
    set h | h in LiveHeads(db, project) :: EntryOf(db.versions, h)
  }

  ghost predicate Stored(db: Db, project: Id, f: FileEntry) {
    exists h :: h in LiveHeads(db, project) && EntryOf(db.versions, h) == f && Verified(db.versions[h.revision])
  }

  ghost function MissingFiles(db: Db, project: Id): set<FileEntry> {
    set f | f in Wanted(db, project) && !Stored(db, project, f)
  }

  function ConflictPaths(db: Db, project: Id): set<Path> {
    set h, g | h in LiveHeads(db, project) && g in LiveHeads(db, project) && h != g && h.path == g.path :: h.path
  }

  ghost function ReportedBy(db: Db, keys: set<DeviceKey>): set<Issue> requires keys <= db.manifests.Keys {
    set d, t | d in keys && t in db.manifests[d].issues :: Reported(t)
  }

  ghost function ReportedIssues(db: Db, project: Id): set<Issue> { ReportedBy(db, ManifestKeys(db, project)) }

  function Disagreements(files: set<FileEntry>): set<Issue> {
    set f, g | f in files && g in files && f != g && f.path == g.path :: Disagreement(f.path)
  }

  function UndeclaredFiles(db: Db, project: Id, files: set<FileEntry>): set<Issue> {
    set h | h in LiveHeads(db, project) && (forall f | f in files :: f.path != h.path) :: Undeclared(h.path)
  }

  function CorruptFiles(db: Db, project: Id): set<Issue> {
    set h | h in LiveHeads(db, project) && !Verified(db.versions[h.revision]) :: Corrupt(h.path)
  }

  ghost function AllIssues(db: Db, project: Id): set<Issue> {
    ReportedIssues(db, project) + Disagreements(Wanted(db, project))
    + UndeclaredFiles(db, project, Wanted(db, project)) + CorruptFiles(db, project)
  }

  function ReceivingIn(db: Db, project: Id): set<TransferKey> {
    set k | k in db.uploads && k.project == project && db.uploads[k].state.Receiving?
  }

  ghost function VerdictOf(db: Db, project: Id): Verdict requires project in db.projects {
    if !db.projects[project].offline then MetadataOnly
    else if ConflictPaths(db, project) != {} then Conflict
    else if AllIssues(db, project) != {} then Blocked
    else if ManifestKeys(db, project) == {} then Pending
    else if MissingFiles(db, project) != {} || ReceivingIn(db, project) != {} then Pending
    else Ready
  }

  ghost function SizeSum(files: set<FileEntry>): nat
    decreases |files|
  {
    if files == {} then 0 else var f :| f in files; f.size + SizeSum(files - {f})
  }

  lemma {:induction false} SizeSumRemove(files: set<FileEntry>, f: FileEntry)
    requires f in files
    ensures SizeSum(files) == f.size + SizeSum(files - {f})
    decreases |files|
  {
    var f0 :| f0 in files && SizeSum(files) == f0.size + SizeSum(files - {f0});
    if f0 != f {
      SizeSumRemove(files - {f0}, f);
      SizeSumRemove(files - {f}, f0);
      assert files - {f0} - {f} == files - {f} - {f0};
    }
  }

  // --------------------------------------------------------------- the theorem

  ghost predicate UniqueHeads(db: Db, project: Id) {
    forall h, g :: h in LiveHeads(db, project) && g in LiveHeads(db, project) && h.path == g.path ==> h == g
  }

  ghost predicate HeadsVerified(db: Db, project: Id) {
    forall h :: h in LiveHeads(db, project) ==> Verified(db.versions[h.revision])
  }

  ghost predicate NoReportedIssue(db: Db, project: Id) {
    forall d :: d in ManifestKeys(db, project) ==> db.manifests[d].issues == []
  }

  lemma NoConflictPaths(db: Db, project: Id)
    ensures ConflictPaths(db, project) == {} <==> UniqueHeads(db, project)
  {
    forall h, g | h in LiveHeads(db, project) && g in LiveHeads(db, project) && h != g && h.path == g.path
      ensures ConflictPaths(db, project) != {}
    {
      assert h.path in ConflictPaths(db, project);
    }
  }

  lemma NoReports(db: Db, project: Id)
    ensures ReportedIssues(db, project) == {} <==> NoReportedIssue(db, project)
  {
    forall d | d in ManifestKeys(db, project) && db.manifests[d].issues != []
      ensures ReportedIssues(db, project) != {}
    {
      assert Reported(db.manifests[d].issues[0]) in ReportedIssues(db, project);
    }
  }

  lemma NoCorruption(db: Db, project: Id)
    ensures CorruptFiles(db, project) == {} <==> HeadsVerified(db, project)
  {
    forall h | h in LiveHeads(db, project) && !Verified(db.versions[h.revision])
      ensures CorruptFiles(db, project) != {}
    {
      assert Corrupt(h.path) in CorruptFiles(db, project);
    }
  }

  /** With unique verified heads, agreement of the devices, every head declared and
      nothing missing is the same as: the declarations are exactly the heads. */
  lemma DeclaredIsCurrent(db: Db, project: Id)
    requires UniqueHeads(db, project) && HeadsVerified(db, project)
    ensures Disagreements(Wanted(db, project)) == {} && UndeclaredFiles(db, project, Wanted(db, project)) == {}
            && MissingFiles(db, project) == {}
       <==> Wanted(db, project) == Current(db, project)
  {
    var wanted, current := Wanted(db, project), Current(db, project);
    forall h | h in LiveHeads(db, project) && (forall f :: f in wanted ==> f.path != h.path)
      ensures UndeclaredFiles(db, project, wanted) != {}
    {
      assert Undeclared(h.path) in UndeclaredFiles(db, project, wanted);
    }
    forall f | f in wanted && !Stored(db, project, f) ensures MissingFiles(db, project) != {} {
      assert f in MissingFiles(db, project);
    }
    if wanted == current {
      forall f | f in wanted ensures Stored(db, project, f) {
        var h :| h in LiveHeads(db, project) && EntryOf(db.versions, h) == f;
      }
      forall h | h in LiveHeads(db, project) ensures exists f :: f in wanted && f.path == h.path {
        assert EntryOf(db.versions, h) in wanted;
      }
    }
  }

  /** `ready` is exact: copies are enabled, somebody declared, nobody reported a
      problem, nothing is in flight, every path has one verified head, and all
      declarations together are precisely those heads. */
  lemma ReadyIsExact(db: Db, project: Id)
    requires project in db.projects
    ensures VerdictOf(db, project).Ready? <==>
      && db.projects[project].offline && ManifestKeys(db, project) != {} && NoReportedIssue(db, project)
      && ReceivingIn(db, project) == {}
      && UniqueHeads(db, project) && HeadsVerified(db, project) && Wanted(db, project) == Current(db, project)
  {
    NoConflictPaths(db, project);
    NoReports(db, project);
    NoCorruption(db, project);
    if UniqueHeads(db, project) && HeadsVerified(db, project) { DeclaredIsCurrent(db, project); }
  }

  /** In a reachable store the integrity clause is never the reason. */
  lemma ReadyWhenReachable(fold: Folding, db: Db, project: Id)
    requires Valid(fold, db) && project in db.projects
    ensures VerdictOf(db, project).Ready? <==>
      && db.projects[project].offline && ManifestKeys(db, project) != {} && NoReportedIssue(db, project)
      && ReceivingIn(db, project) == {} && UniqueHeads(db, project) && Wanted(db, project) == Current(db, project)
  {
    ReadyIsExact(db, project);
  }

  /** The browser's own declaration never withholds `ready`: it wants exactly the
      files that have one head. */
  lemma BrowserNeverBlocks(db: Db, project: Id)
    requires UniqueHeads(db, project)
    ensures ServerView(db, project) == Current(db, project)
  {
    forall h | h in LiveHeads(db, project) ensures HeadsOf(LiveHeads(db, project), project, h.path) == {h} {}
  }

  // ------------------------------------------------------------------ the method

  lemma OneMoreDevice(db: Db, keys: set<DeviceKey>, d: DeviceKey)
    requires keys + {d} <= db.manifests.Keys
    ensures WantedBy(db, keys + {d}) == WantedBy(db, keys) + InventoryOf(db, d)
    ensures ReportedBy(db, keys + {d}) == ReportedBy(db, keys) + set t | t in db.manifests[d].issues :: Reported(t)
  {
    assert forall e :: e in keys + {d} <==> e in keys || e == d;
  }

  /** Every declaration of the project, with the browser's derived live. */
  method Declarations(db: Db, project: Id, live: set<FileEntry>) returns (files: set<FileEntry>, issues: set<Issue>)
    requires live == ServerView(db, project)
    ensures files == Wanted(db, project) && issues == ReportedIssues(db, project)
  {
    files, issues := {}, {};
    var keys := ManifestKeys(db, project);
    var rest := keys;
    while rest != {}
      invariant rest <= keys
      invariant files == WantedBy(db, keys - rest) && issues == ReportedBy(db, keys - rest)
      decreases |rest|
    {
      var d :| d in rest;
      OneMoreDevice(db, keys - rest, d);
      assert keys - (rest - {d}) == (keys - rest) + {d};
      rest := rest - {d};
      files := files + if d.device == BROWSER then live else db.manifests[d].files;
      issues := issues + set t | t in db.manifests[d].issues :: Reported(t);
    }
    assert keys - rest == keys;
  }

  predicate Holds(db: Db, project: Id, f: FileEntry)
    ensures Holds(db, project, f) <==> Stored(db, project, f)
  {
    exists h | h in LiveHeads(db, project) :: EntryOf(db.versions, h) == f && Verified(db.versions[h.revision])
  }

  /** The wanted files no verified head provides, and what it takes to upload them. */
  method Shortfall(db: Db, project: Id, wanted: set<FileEntry>) returns (missing: set<FileEntry>, required: nat)
    ensures missing == (set f | f in wanted && !Stored(db, project, f)) && required == SizeSum(missing)
  {
    missing, required := {}, 0;
    var rest := wanted;
    while rest != {}
      invariant rest <= wanted
      invariant forall f :: f in missing <==> f in wanted && f !in rest && !Stored(db, project, f)
      invariant required == SizeSum(missing)
      decreases |rest|
    {
      var f :| f in rest;
      rest := rest - {f};
      if !Holds(db, project, f) {
        ghost var before := missing;
        missing := missing + {f};
        required := required + f.size;
        SizeSumRemove(missing, f);
        assert missing - {f} == before;
      }
    }
  }

  /** `_status`: the verdict, the missing paths with the bytes they need, and the
      issues, each as defined above. */
  method Status(db: Db, project: Id) returns (out: Outcome<Report>)
    ensures out.Done? <==> project in db.projects
    ensures out.Done? ==>
      && out.value.verdict == VerdictOf(db, project)
      && out.value.issues == AllIssues(db, project)
      && out.value.missing == (set f | f in MissingFiles(db, project) :: f.path)
      && out.value.requiredBytes == SizeSum(MissingFiles(db, project))
      && out.value.conflicts == |ConflictPaths(db, project)|
      && out.value.active == |ReceivingIn(db, project)| && out.value.manifests == |ManifestKeys(db, project)|
  {
    if project !in db.projects { return Refused(NotFound); }
    var live := LiveHeads(db, project);
    var view := set h | h in live && HeadsOf(live, project, h.path) == {h} :: EntryOf(db.versions, h);
    var wanted, issues := Declarations(db, project, view);
    var missing, required := Shortfall(db, project, wanted);
    issues := issues + Disagreements(wanted) + UndeclaredFiles(db, project, wanted) + CorruptFiles(db, project);
    var conflicts := ConflictPaths(db, project);
    var active := ReceivingIn(db, project);
    var manifests := ManifestKeys(db, project);
    var verdict :=
      if !db.projects[project].offline then MetadataOnly
      else if conflicts != {} then Conflict
      else if issues != {} then Blocked
      else if manifests == {} || missing != {} || active != {} then Pending
      else Ready;
    out := Done(Report(verdict, set f | f in missing :: f.path, required, |conflicts|, issues, |manifests|, |active|));
  }
}
