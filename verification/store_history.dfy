/** What a run of transactions never undoes, and which versions are heads. */
module StoreHistory {
  import opened Common
  import opened Paths
  import opened StoreModel
  import opened StoreInvariant

  // --------------------------------------------------------- what never changes

  predicate Terminal(u: Upload) { !u.state.Receiving? }

  ghost predicate RowLater(u: Upload, u': Upload) {
    && u'.path == u.path && u'.size == u.size && u'.sha256 == u.sha256 && u'.base == u.base
    && u'.offset >= u.offset && (Terminal(u) ==> u' == u)
  }

  /** Versions are append-only, transfer rows are never removed, keep what was
      declared for them, and are frozen once committed or aborted. */
  ghost predicate Later(db: Db, db': Db) {
    && (forall p :: p in db.projects ==> p in db'.projects)
    && (forall r :: r in db.versions ==> r in db'.versions && db'.versions[r] == db.versions[r])
    && (forall k :: k in db.uploads ==> k in db'.uploads && RowLater(db.uploads[k], db'.uploads[k]))
  }

  lemma FinishLater(db: Db, project: Id, transfer: Id, revision: Id)
    ensures Later(db, FinishUpload(db, project, transfer, revision).db)
  {}

  lemma AppendLater(db: Db, project: Id, transfer: Id, offset: int, data: Bytes)
    ensures Later(db, AppendChunk(db, project, transfer, offset, data).db)
  {
    hide Blocks;
  }

  lemma StartLater(fold: Folding, db: Db, project: Id, transfer: Id, path: Path, size: int, sha: Digest,
                   base: Option<Id>)
    ensures Later(db, StartUpload(fold, db, project, transfer, path, size, sha, base).db)
  {}

  lemma AbortLater(db: Db, project: Id, transfer: Id)
    ensures Later(db, AbortUpload(db, project, transfer).db)
  {}

  lemma ResolveLater(db: Db, project: Id, path: Path, expected: seq<Id>, chosen: Id)
    ensures Later(db, Resolve(db, project, path, expected, chosen).db)
  {}

  lemma DeclareLater(fold: Folding, db: Db, op: Op)
    requires op.OpCreate? || op.OpOffline? || op.OpDeclare?
    ensures Later(db, Apply(fold, db, op))
  {
    var after := Apply(fold, db, op);
    assert after.versions == db.versions && after.uploads == db.uploads;
  }

  lemma ApplyLater(fold: Folding, db: Db, op: Op)
    ensures Later(db, Apply(fold, db, op))
  {
    match op
    case OpStart(p, t, path, size, sha, base) => StartLater(fold, db, p, t, path, size, sha, base);
    case OpAppend(p, t, offset, data) => AppendLater(db, p, t, offset, data);
    case OpFinish(p, t, r) => FinishLater(db, p, t, r);
    case OpAbort(p, t) => AbortLater(db, p, t);
    case OpResolve(p, path, expected, chosen) => ResolveLater(db, p, path, expected, chosen);
    case _ => DeclareLater(fold, db, op);
  }

  /** Rows come into being only through a begin, as declared, or a cancellation. */
  lemma NewRows(fold: Folding, db: Db, op: Op, k: TransferKey)
    requires k !in db.uploads && k in Apply(fold, db, op).uploads
    ensures var u := Apply(fold, db, op).uploads[k];
            || (op.OpStart? && k == TransferKey(op.project, op.transfer) && u.path == op.path && u.base == op.base)
            || (op.OpAbort? && u.base.None?)
  {}

  lemma LaterTransitive(a: Db, b: Db, c: Db)
    requires Later(a, b) && Later(b, c)
    ensures Later(a, c)
  {
    forall k | k in a.uploads ensures k in c.uploads && RowLater(a.uploads[k], c.uploads[k]) {
      assert RowLater(a.uploads[k], b.uploads[k]) && RowLater(b.uploads[k], c.uploads[k]);
    }
  }

  lemma {:induction false} RunLater(fold: Folding, db: Db, ops: seq<Op>)
    ensures Later(db, Run(fold, db, ops))
    decreases |ops|
  {
    if ops != [] {
      ApplyLater(fold, db, ops[0]);
      RunLater(fold, Apply(fold, db, ops[0]), ops[1..]);
      LaterTransitive(db, Apply(fold, db, ops[0]), Run(fold, db, ops));
    }
  }

  /** Once a transfer is committed or aborted, no run of later transactions (a
      delayed begin, chunk or commit among them) changes its row, and it holds no
      reservation ever again. */
  lemma TerminalForever(fold: Folding, db: Db, k: TransferKey, ops: seq<Op>)
    requires k in db.uploads && Terminal(db.uploads[k])
    ensures var db' := Run(fold, db, ops);
            && k in db'.uploads && db'.uploads[k] == db.uploads[k]
            && k !in ReservedSizes(db'.uploads)
  {
    RunLater(fold, db, ops);
    assert RowLater(db.uploads[k], Run(fold, db, ops).uploads[k]);
  }

  /** A commit answered once is answered the same way for ever after. */
  lemma ReceiptStable(fold: Folding, db: Db, project: Id, transfer: Id, revision: Id, ops: seq<Op>, retry: Id)
    requires Valid(fold, db) && FinishUpload(db, project, transfer, revision).out.Done?
    ensures var tx := FinishUpload(db, project, transfer, revision);
            var db' := Run(fold, tx.db, ops);
            FinishUpload(db', project, transfer, retry) == Tx(db', tx.out)
  {
    var tx := FinishUpload(db, project, transfer, revision);
    var key := TransferKey(project, transfer);
    assert UploadOk(db.versions, db.chunks, key, db.uploads[key]);
    assert tx.db.uploads[key].state.Committed? && tx.db.uploads[key].receipt == Some(tx.out.value);
    TerminalForever(fold, tx.db, key, ops);
    RunLater(fold, tx.db, ops);
  }

  // ------------------------------------------------------------ head structure

  /** The tables plus every revision some `resolve` has dropped so far. */
  datatype Ledger = Ledger(db: Db, dropped: set<Id>)

  ghost function Dropped(fold: Folding, db: Db, op: Op): set<Id> {
    match op
    case OpResolve(_, _, _, _) => set h | h in db.heads - Apply(fold, db, op).heads :: h.revision
    case _ => {}
  }

  ghost function Record(fold: Folding, ledger: Ledger, op: Op): Ledger {
    Ledger(Apply(fold, ledger.db, op), ledger.dropped + Dropped(fold, ledger.db, op))
  }

  ghost function RecordAll(fold: Folding, ledger: Ledger, ops: seq<Op>): Ledger
    decreases |ops|
  {
    if ops == [] then ledger else RecordAll(fold, Record(fold, ledger, ops[0]), ops[1..])
  }

  /** Some committed transfer named `r` as the version it was based on. */
  ghost predicate Superseded(uploads: map<TransferKey, Upload>, r: Id) {
    exists k :: k in uploads && uploads[k].state.Committed? && uploads[k].base == Some(r)
  }

  ghost predicate IsHead(db: Db, r: Id) requires r in db.versions {
    Head(db.versions[r].project, db.versions[r].path, r) in db.heads
  }

  /** The heads are exactly the versions nothing superseded and nobody dropped. */
  ghost predicate HeadsExact(db: Db, dropped: set<Id>) {
    && dropped <= db.versions.Keys
    && forall r :: r in db.versions ==> (IsHead(db, r) <==> r !in dropped && !Superseded(db.uploads, r))
  }

  lemma SupersededMoves(uploads: map<TransferKey, Upload>, key: TransferKey, row: Upload, r: Id)
    requires key in uploads ==> !uploads[key].state.Committed?
    ensures Superseded(uploads[key := row], r)
       <==> Superseded(uploads, r) || (row.state.Committed? && row.base == Some(r))
  {
    var after := uploads[key := row];
    if k :| k in uploads && uploads[k].state.Committed? && uploads[k].base == Some(r) {
      assert k in after && after[k] == uploads[k];
    }
    if row.state.Committed? && row.base == Some(r) { assert key in after && after[key] == row; }
  }

  lemma BaseIsOld(fold: Folding, db: Db, r: Id)
    requires Valid(fold, db) && Superseded(db.uploads, r)
    ensures r in db.versions
  {
    var k :| k in db.uploads && db.uploads[k].state.Committed? && db.uploads[k].base == Some(r);
    assert UploadOk(db.versions, db.chunks, k, db.uploads[k]);
  }

  /** A commit makes its own version a head and takes only its base from the heads. */
  lemma PublishHeadOf(db: Db, key: TransferKey, row: Upload, revision: Id, v: Version, r: Id)
    requires HeadsOk(db.versions, db.heads) && revision !in db.versions
    requires v.project == key.project && v.path == row.path && (r == revision || r in db.versions)
    requires row.base.Some? ==> IsVersionOf(db.versions, key.project, row.path, row.base.value)
    ensures IsHead(Publish(db, key, row, revision, v).db, r) <==>
              r == revision || (IsHead(db, r) && row.base != Some(r))
  {}

  lemma PublishExact(fold: Folding, db: Db, dropped: set<Id>, key: TransferKey, row: Upload, revision: Id, v: Version)
    requires Valid(fold, db) && HeadsExact(db, dropped) && revision !in db.versions
    requires key in db.uploads && db.uploads[key] == row && row.state.Receiving?
    requires v.project == key.project && v.path == row.path
    ensures HeadsExact(Publish(db, key, row, revision, v).db, dropped)
  {
    var after := Publish(db, key, row, revision, v).db;
    assert UploadOk(db.versions, db.chunks, key, row);
    forall r | r in after.versions
      ensures IsHead(after, r) <==> r !in dropped && !Superseded(after.uploads, r)
    {
      SupersededMoves(db.uploads, key, after.uploads[key], r);
      PublishHeadOf(db, key, row, revision, v, r);
      if r == revision && Superseded(db.uploads, r) { BaseIsOld(fold, db, r); }
    }
  }

  lemma RowExact(fold: Folding, ledger: Ledger, after: Db, key: TransferKey)
    requires HeadsExact(ledger.db, ledger.dropped)
    requires after.versions == ledger.db.versions && after.heads == ledger.db.heads
    requires after.uploads == ledger.db.uploads
          || (key in after.uploads && after.uploads == ledger.db.uploads[key := after.uploads[key]]
              && !after.uploads[key].state.Committed?
                  && (key in ledger.db.uploads ==> !ledger.db.uploads[key].state.Committed?))
    ensures HeadsExact(after, ledger.dropped)
  {
    forall r | r in after.versions ensures IsHead(after, r) <==> r !in ledger.dropped && !Superseded(after.uploads, r) {
      assert IsHead(ledger.db, r) <==> r !in ledger.dropped && !Superseded(ledger.db.uploads, r);
      if after.uploads != ledger.db.uploads { SupersededMoves(ledger.db.uploads, key, after.uploads[key], r); }
    }
  }

  /** The revisions of the heads that go are those of versions that were heads. */
  lemma GoneAreHeads(fold: Folding, db: Db, gone: set<Head>, r: Id)
    requires Valid(fold, db) && gone <= db.heads && r in db.versions
    ensures r in (set h | h in gone :: h.revision) <==> Head(db.versions[r].project, db.versions[r].path, r) in gone
  {
    if g :| g in gone && g.revision == r {
      assert IsVersionOf(db.versions, g.project, g.path, r);
    }
  }

  lemma KeptAt(fold: Folding, ledger: Ledger, kept: set<Head>, after: Db, revisions: set<Id>, r: Id)
    requires Valid(fold, ledger.db) && HeadsExact(ledger.db, ledger.dropped) && kept <= ledger.db.heads
    requires after.versions == ledger.db.versions && after.heads == kept && after.uploads == ledger.db.uploads
    requires r in after.versions && revisions == set h | h in ledger.db.heads - kept :: h.revision
    ensures IsHead(after, r) <==> r !in ledger.dropped + revisions && !Superseded(after.uploads, r)
  {
    GoneAreHeads(fold, ledger.db, ledger.db.heads - kept, r);
    assert IsHead(ledger.db, r) <==> r !in ledger.dropped && !Superseded(ledger.db.uploads, r);
  }

  lemma GoneAreVersions(fold: Folding, db: Db, gone: set<Head>)
    requires Valid(fold, db) && gone <= db.heads
    ensures (set h | h in gone :: h.revision) <= db.versions.Keys
  {
    forall h | h in gone ensures h.revision in db.versions {
      assert IsVersionOf(db.versions, h.project, h.path, h.revision);
    }
  }

  function WithHeads(db: Db, heads: set<Head>): Db { db.(heads := heads) }

  function Revisions(heads: set<Head>): set<Id> { set h | h in heads :: h.revision }

  /** Dropping heads drops exactly their versions. */
  lemma KeptExact(fold: Folding, ledger: Ledger, kept: set<Head>)
    requires Valid(fold, ledger.db) && HeadsExact(ledger.db, ledger.dropped) && kept <= ledger.db.heads
    ensures HeadsExact(WithHeads(ledger.db, kept), ledger.dropped + Revisions(ledger.db.heads - kept))
  {
    GoneAreVersions(fold, ledger.db, ledger.db.heads - kept);
    var after := WithHeads(ledger.db, kept);
    forall r | r in after.versions
      ensures IsHead(after, r) <==>
              r !in ledger.dropped + Revisions(ledger.db.heads - kept) && !Superseded(after.uploads, r)
    {
      KeptAt(fold, ledger, kept, after, Revisions(ledger.db.heads - kept), r);
    }
  }

  lemma KeepOnlyExact(fold: Folding, ledger: Ledger, winner: Head)
    requires Valid(fold, ledger.db) && HeadsExact(ledger.db, ledger.dropped)
    ensures var heads := KeepOnly(ledger.db.heads, winner);
            HeadsExact(ledger.db.(heads := heads), ledger.dropped + set h | h in ledger.db.heads - heads :: h.revision)
  {
    KeptExact(fold, ledger, KeepOnly(ledger.db.heads, winner));
  }

  /** `resolve` drops only heads its caller listed, all of one path, and keeps the
      chosen one; it deletes no version. */
  lemma ResolveDropsListed(db: Db, project: Id, path: Path, expected: seq<Id>, chosen: Id)
    ensures var tx := Resolve(db, project, path, expected, chosen);
            && tx.db.versions == db.versions && tx.db.heads <= db.heads
            && (forall h :: h in db.heads - tx.db.heads ==>
                  h.revision in expected && h.revision != chosen && h.path == path && h.project == project)
            && (tx.out.Done? ==> HeadsOf(tx.db.heads, project, path) == {Head(project, path, chosen)})
  {}

  ghost function Assembled(db: Db, key: TransferKey): Version
    requires key in db.uploads && Assemble(Blocks(db.chunks, key), 0).Some?
  {
    var row := db.uploads[key];
    Version(key.project, row.path, row.sha256, row.size, Assemble(Blocks(db.chunks, key), 0).value)
  }

  /** A commit that changes anything publishes what the journal assembles to. */
  lemma FinishPublishes(db: Db, project: Id, transfer: Id, revision: Id)
    requires FinishUpload(db, project, transfer, revision).db != db
    ensures var key := TransferKey(project, transfer);
            && key in db.uploads && db.uploads[key].state.Receiving? && revision !in db.versions
            && Assemble(Blocks(db.chunks, key), 0).Some?
            && FinishUpload(db, project, transfer, revision)
               == Publish(db, key, db.uploads[key], revision, Assembled(db, key))
  {
  }

  lemma FinishExact(fold: Folding, ledger: Ledger, project: Id, transfer: Id, revision: Id)
    requires Valid(fold, ledger.db) && HeadsExact(ledger.db, ledger.dropped)
    ensures HeadsExact(FinishUpload(ledger.db, project, transfer, revision).db, ledger.dropped)
  {
    var db := ledger.db;
    if FinishUpload(db, project, transfer, revision).db != db {
      var key := TransferKey(project, transfer);
      FinishPublishes(db, project, transfer, revision);
      PublishExact(fold, db, ledger.dropped, key, db.uploads[key], revision, Assembled(db, key));
    }
  }

  /** Every other transaction leaves versions and heads alone and commits nothing. */
  lemma OthersExact(fold: Folding, ledger: Ledger, op: Op)
    requires HeadsExact(ledger.db, ledger.dropped) && !op.OpFinish? && !op.OpResolve?
    ensures HeadsExact(Apply(fold, ledger.db, op), ledger.dropped)
  {
    var key := if op.OpStart? || op.OpAppend? || op.OpAbort? then TransferKey(op.project, op.transfer)
        else TransferKey("", "");
    RowExact(fold, ledger, Apply(fold, ledger.db, op), key);
  }

  lemma ResolveExact(fold: Folding, ledger: Ledger, op: Op)
    requires Valid(fold, ledger.db) && HeadsExact(ledger.db, ledger.dropped) && op.OpResolve?
    ensures HeadsExact(Apply(fold, ledger.db, op), ledger.dropped + Dropped(fold, ledger.db, op))
  {
    if Resolve(ledger.db, op.project, op.path, op.expected, op.chosen).out.Done? {
      KeepOnlyExact(fold, ledger, Head(op.project, op.path, op.chosen));
    } else {
      assert ledger.dropped + Dropped(fold, ledger.db, op) == ledger.dropped;
    }
  }

  lemma RecordExact(fold: Folding, ledger: Ledger, op: Op)
    requires Valid(fold, ledger.db) && HeadsExact(ledger.db, ledger.dropped)
    ensures var next := Record(fold, ledger, op); HeadsExact(next.db, next.dropped)
  {
    if op.OpResolve? {
      ResolveExact(fold, ledger, op);
    } else {
      assert ledger.dropped + Dropped(fold, ledger.db, op) == ledger.dropped;
      if op.OpFinish? {
        FinishExact(fold, ledger, op.project, op.transfer, op.revision);
      } else {
        OthersExact(fold, ledger, op);
      }
    }
  }

  lemma {:induction false} RecordAllExact(fold: Folding, ledger: Ledger, ops: seq<Op>)
    requires Valid(fold, ledger.db) && HeadsExact(ledger.db, ledger.dropped)
    ensures var final := RecordAll(fold, ledger, ops);
            && final.db == Run(fold, ledger.db, ops)
            && HeadsExact(final.db, final.dropped) && ledger.dropped <= final.dropped
    decreases |ops|
  {
    if ops != [] {
      ApplyKeeps(fold, ledger.db, ops[0]);
      RecordExact(fold, ledger, ops[0]);
      RecordAllExact(fold, Record(fold, ledger, ops[0]), ops[1..]);
    }
  }

  /** Over every run from the empty store. */
  lemma HeadStructure(fold: Folding, ops: seq<Op>)
    ensures var final := RecordAll(fold, Ledger(EMPTY_DB, {}), ops);
            && final.db == Run(fold, EMPTY_DB, ops)
            && HeadsExact(final.db, final.dropped)
            && EveryPathHasHead(final.db.versions, final.db.heads)
            && HeadsOk(final.db.versions, final.db.heads)
  {
    EmptyIsValid(fold);
    RecordAllExact(fold, Ledger(EMPTY_DB, {}), ops);
    ReachableIsValid(fold, ops);
  }
}
