/** The directory replica's client: its two durable tables and the procedures that
    rewrite them, run against a network and a user that may do anything meanwhile.
    Each table write is an enabled action of the replica protocol. */
module Client {
  import opened Common
  import opened Paths
  import opened StoreModel
  import opened StoreInvariant
  import opened StoreHistory
  import opened Replication
  import opened StoreAnswers
  import opened PendingRows
  import opened QuietServer
  import opened SyncWorld
  import opened QuietPaths
  import opened QuietUpload
  import opened QuietRound

  const CHUNK_BYTES: nat := 256 * 1024

  lemma Grown(me: ReplicaId, a: Sys, b: Sys, path: Path, row: BaseRow, t: Id)
    requires Undisturbed(me, a, b)
    ensures Announced(a.answers, path, row) ==> Announced(b.answers, path, row)
    ensures Terminated(a.answers, t) ==> Terminated(b.answers, t)
  {
    if a1, i :| a1 in a.answers && a1.reply.Listing? && i in a1.reply.heads
               && i.path == path && i.revision == row.revision && i.sha256 == row.sha256 {
      assert a1 in b.answers;
    }
  }

  lemma UndisturbedNow(me: ReplicaId, s: Sys)
    requires me in s.replicas
    ensures Undisturbed(me, s, s)
  {
  }

  lemma OwnTables(me: ReplicaId, a: Sys, b: Sys)
    requires Undisturbed(me, a, b)
    ensures me in a.replicas && me in b.replicas
    ensures b.replicas[me].base == a.replicas[me].base && b.replicas[me].uploads == a.replicas[me].uploads
  {
  }

  lemma UndisturbedOn(me: ReplicaId, a: Sys, b: Sys, c: Sys)
    requires Undisturbed(me, a, b) && Undisturbed(me, b, c)
    ensures Undisturbed(me, a, c)
    ensures me in a.replicas && me in c.replicas
    ensures c.replicas[me].base == a.replicas[me].base && c.replicas[me].uploads == a.replicas[me].uploads
  {
  }

  /** A version of the path with this content is retained. */
  ghost predicate Stored(versions: Versions, project: Id, path: Path, sha: Digest) {
    exists r :: IsVersionOf(versions, project, path, r) && versions[r].sha256 == sha
  }

  lemma StoredStays(before: Versions, after: Versions, project: Id, path: Path, sha: Digest)
    requires Grew(before, after)
    ensures Stored(before, project, path, sha) ==> Stored(after, project, path, sha)
  {
    if Stored(before, project, path, sha) {
      var r :| IsVersionOf(before, project, path, r) && before[r].sha256 == sha;
      assert IsVersionOf(after, project, path, r) && after[r].sha256 == sha;
    }
  }

  /** The server accepted a begin for these bytes under this transfer. */
  ghost predicate Begun(answers: set<Answer>, path: Path, size: nat, row: PendingRow) {
    exists s: UploadStatus :: !s.state.Aborted?
        && Answer(Begin(row.transfer, path, size, row.sha256, row.base), Progress(s)) in answers
  }

  /** The server answered that this transfer is aborted. */
  ghost predicate Canceled(answers: set<Answer>, path: Path, size: nat, row: PendingRow) {
    exists s: UploadStatus :: s.state.Aborted? && s.transfer == row.transfer
        && Answer(BeginOf(path, size, row), Progress(s)) in answers
  }

  lemma CanceledStays(before: set<Answer>, after: set<Answer>, path: Path, size: nat, row: PendingRow)
    requires before <= after
    ensures Canceled(before, path, size, row) ==> Canceled(after, path, size, row)
  {
  }

  lemma BegunStays(before: set<Answer>, after: set<Answer>, path: Path, size: nat, row: PendingRow)
    requires before <= after
    ensures Begun(before, path, size, row) ==> Begun(after, path, size, row)
  {
  }

  lemma BegunAndCommitted(c: Config, db: Db, answers: set<Answer>, path: Path, size: nat, row: PendingRow,
                          receipt: Receipt)
    requires AnswersOk(c, db, answers) && UploadsOk(db.versions, db.uploads, db.chunks)
    requires Begun(answers, path, size, row) && Answer(Commit(row.transfer), Committal(receipt)) in answers
    ensures Stored(db.versions, c.project, path, row.sha256)
  {
    var begin := Begin(row.transfer, path, size, row.sha256, row.base);
    var s: UploadStatus :| !s.state.Aborted? && Answer(begin, Progress(s)) in answers;
    assert AnswerOk(c, db, Answer(begin, Progress(s)));
    assert Describes(c, db.uploads, begin);
    assert AnswerOk(c, db, Answer(Commit(row.transfer), Committal(receipt)));
    var k := TransferKey(c.project, row.transfer);
    assert UploadOk(db.versions, db.chunks, k, db.uploads[k]);
    assert IsVersionOf(db.versions, c.project, path, receipt.revision);
  }

  /** The common version of a path is this head. */
  predicate AtHead(base: map<Path, BaseRow>, h: HeadInfo) {
    h.path in base && base[h.path] == BaseRow(h.revision, h.sha256)
  }

  /** Every listed path outside `rest` is at its one head. */
  ghost predicate Settled(base: map<Path, BaseRow>, heads: set<HeadInfo>, rest: set<Path>) {
    forall h :: h in heads && h.path !in rest ==> AtHead(base, h)
  }

  ghost predicate KeptBut(path: Path, before: map<Path, BaseRow>, after: map<Path, BaseRow>) {
    forall p :: p != path ==> (p in after <==> p in before) && (p in after ==> after[p] == before[p])
  }

  lemma SettledNext(before: map<Path, BaseRow>, after: map<Path, BaseRow>, heads: set<HeadInfo>, rest: set<Path>,
                    path: Path)
    requires KeptBut(path, before, after) && forall h :: h in heads && h.path == path ==> AtHead(after, h)
    ensures Settled(before, heads, rest + {path}) ==> Settled(after, heads, rest)
  {
    if Settled(before, heads, rest + {path}) {
      forall h | h in heads && h.path !in rest ensures AtHead(after, h) {
        assert h.path != path ==> AtHead(before, h);
      }
    }
  }

  lemma Single<T>(s: set<T>, x: T, y: T)
    requires |s| == 1 && x in s && y in s
    ensures x == y
  {
    if x != y {
      assert |{x, y}| == 2;
      Fits({x, y}, s);
    }
  }

  lemma Fits<T>(a: set<T>, b: set<T>)
    requires a <= b
    ensures |a| <= |b|
  {
    assert b == a + (b - a);
  }

  /** Outside `rest` the rows are exactly those that can be resumed; inside, all are there. */
  ghost predicate Sorted(snapshot: map<Path, PendingRow>, rows: map<Path, PendingRow>, rest: set<Path>,
                         files: map<Path, Digest>) {
    && rest <= rows.Keys
    && (forall p :: p in rows ==> p in snapshot && rows[p] == snapshot[p])
    && (forall p :: p in snapshot && p !in rest ==> (p in rows <==> p in files && files[p] == snapshot[p].sha256))
  }

  lemma SortedNext(snapshot: map<Path, PendingRow>, before: map<Path, PendingRow>, after: map<Path, PendingRow>,
                   rest: set<Path>, path: Path, files: map<Path, Digest>)
    requires Sorted(snapshot, before, rest, files) && path in rest
    ensures after == before ==> forall p :: p in after ==> p in snapshot && after[p] == snapshot[p]
    ensures after == before && path in files && files[path] == before[path].sha256 ==>
              Sorted(snapshot, after, rest - {path}, files)
    ensures after == before - {path} && !(path in files && files[path] == before[path].sha256) ==>
              Sorted(snapshot, after, rest - {path}, files)
  {
  }

  class SyncClient {
    const world: World
    var base: map<Path, BaseRow>
    var uploads: map<Path, PendingRow>

    ghost predicate Linked() reads this, world, world.store {
      && world.Valid()
      && base == world.replicas[world.me].base && uploads == world.replicas[world.me].uploads
    }

    constructor (world: World)
      requires world.Valid()
      ensures Linked() && this.world == world
    {
      this.world := world;
      base, uploads := world.replicas[world.me].base, world.replicas[world.me].uploads;
    }

    /** The user's directory. */
    function Files(): map<Path, Bytes> reads world requires world.me in world.replicas {
      world.replicas[world.me].files
    }

    /** From here on nothing is lost and nobody else acts, and the project exists. */
    predicate Calm() reads world, world.store {
      world.schedule == [] && world.c.project in world.store.projects
    }

    function Key(transfer: Id): TransferKey reads this, world { TransferKey(world.c.project, transfer) }

    /** What the server says of a transfer, after an abort if it was still receiving or had
        never arrived. */
    method AskState(transfer: Id) returns (r: Result<UploadStatus>)
      requires Linked()
      modifies world, world.store
      ensures Linked() && Undisturbed(world.me, old(world.State()), world.State()) && world.own == old(world.own)
      ensures !r.ClientError?
      ensures r.Ok? ==> Said(world.answers, transfer, r.value)
      ensures old(Calm()) ==>
                && Calm() && world.replicas == old(world.replicas)
                && world.store.Tables() == Closed(old(world.store.Tables()), Key(transfer))
                && Key(transfer) in world.store.uploads
                && r == Ok(StatusOf(transfer, world.store.uploads[Key(transfer)]))
    {
      hide Initial, Exec, Answered, Closed, SameContents, SameElsewhere, Said, Undisturbed;
      ghost var start := world.State();
      var reply := world.Call(Query(transfer));
      OwnTables(world.me, start, world.State());
      if reply.None? { return HttpError; }
      var state := reply.value;
      if old(Calm()) { QueryAnswered(world.c, start.db, world.store.Tables(), transfer, state); }
      if state == Failure(NotFound) {
        ghost var middle := world.State();
        reply := world.Call(Abort(transfer));
        UndisturbedOn(world.me, start, middle, world.State());
        if reply.None? { return HttpError; }
        state := reply.value;
        if old(Calm()) { AbortAnswered(world.c, start.db, world.store.Tables(), transfer, state); }
      }
      if old(Calm()) { ClosedIs(start.db, Key(transfer)); }
      if state.Progress? && state.status.state.Receiving? {
        ghost var middle := world.State();
        reply := world.Call(Abort(transfer));
        UndisturbedOn(world.me, start, middle, world.State());
        if reply.None? { return HttpError; }
        state := reply.value;
        if old(Calm()) { AbortAnswered(world.c, start.db, world.store.Tables(), transfer, state); }
      }
      if !state.Progress? { return HttpError; }
      r := Ok(state.status);
      SaidNow(transfer, r.value);
    }

    lemma SaidNow(transfer: Id, status: UploadStatus)
      requires exists q :: Answer(q, Progress(status)) in world.answers && TransferOf(q) == Some(transfer)
      ensures Said(world.answers, transfer, status)
    {
    }

    ghost predicate Said(answers: set<Answer>, transfer: Id, status: UploadStatus) {
      exists a :: a in answers && a.reply == Progress(status) && TransferOf(a.request) == Some(transfer)
    }

    lemma SaidIsOk(transfer: Id, status: UploadStatus)
      requires Linked() && Said(world.answers, transfer, status)
      ensures status.transfer == transfer
      ensures !status.state.Receiving? ==> Terminated(world.answers, transfer)
      ensures status.state.Committed? && status.receipt.Some? && status.receipt.value.project == world.c.project
              && status.receipt.value.transfer == transfer ==>
                Announced(world.answers, status.receipt.value.path,
                          BaseRow(status.receipt.value.revision, status.receipt.value.sha256))
    {
      world.Reachable();
      var a :| a in world.answers && a.reply == Progress(status) && TransferOf(a.request) == Some(transfer);
      assert AnswerOk(world.c, world.State().db, a);
    }

    /** Proof that a transfer is over, obtained from the server: its state, after an
        abort if it was still receiving or had never arrived. */
    method TerminalTransfer(path: Path, pending: PendingRow) returns (r: Result<UploadStatus>)
      requires Linked()
      modifies world, world.store
      ensures Linked() && Undisturbed(world.me, old(world.State()), world.State()) && world.own == old(world.own)
      ensures r.Ok? ==>
        && Terminated(world.answers, pending.transfer) && r.value.transfer == pending.transfer
        && (r.value.state.Committed? ==>
              && r.value.receipt.Some? && r.value.receipt.value.sha256 == pending.sha256
              && Announced(world.answers, path, BaseRow(r.value.receipt.value.revision, pending.sha256)))
      ensures old(Calm()) && path in uploads && uploads[path] == pending ==>
                && Calm() && world.replicas == old(world.replicas)
                && world.store.Tables() == Closed(old(world.store.Tables()), Key(pending.transfer))
                && Key(pending.transfer) in world.store.uploads
                && r == Ok(StatusOf(pending.transfer, world.store.uploads[Key(pending.transfer)]))
    {
      hide Initial, Exec, Answered, Closed, Undisturbed, Announced, Said, Terminated, RowMatches;
      ghost var start := world.State();
      r := AskState(pending.transfer);
      OwnTables(world.me, start, world.State());
      if !r.Ok? { return; }
      SaidIsOk(pending.transfer, r.value);
      if old(Calm()) && path in uploads && uploads[path] == pending {
        ClosedIs(start.db, Key(pending.transfer));
        OwnReceipt(path);
      }
      if r.value.state.Committed? {
        if r.value.receipt.None? { return ClientError; }
        var receipt := r.value.receipt.value;
        if receipt.sha256 != pending.sha256 || receipt.path != path || receipt.transfer != pending.transfer
           || receipt.project != world.c.project {
          return ClientError;
        }
      } else if !r.value.state.Aborted? {
        return ClientError;
      }
    }

    /** The receipt of a row's own transfer is for that row. */
    lemma OwnReceipt(path: Path)
      requires Linked() && path in uploads
      ensures uploads[path].base == BaseRevision(path)
      ensures var k := Key(uploads[path].transfer);
              && (k in world.store.uploads && !world.store.uploads[k].state.Aborted? ==>
                    RowMatches(world.store.uploads[k], path, uploads[path]))
              && (k in world.store.uploads && world.store.uploads[k].state.Committed? ==>
                    && world.store.uploads[k].receipt.Some?
                    && var receipt := world.store.uploads[k].receipt.value;
                       receipt.path == path && receipt.sha256 == uploads[path].sha256
                       && receipt.transfer == uploads[path].transfer && receipt.project == world.c.project)
    {
      world.RowsMatch();
      hide Inv, Matching, RowMatches;
      MatchedReceipt(world.c, world.State(), world.me, path);
    }

    /** What a step of this client leaves standing, its own tables aside. */
    ghost predicate Learnt(s: Sys, s': Sys) {
      && world.me in s.replicas && world.me in s'.replicas
      && s.replicas[world.me].held <= s'.replicas[world.me].held && s.answers <= s'.answers
      && Grew(s.db.versions, s'.db.versions)
    }

    /** One write of this client more. */
    ghost predicate Wrote(before: seq<Taken>, after: seq<Taken>, a: Action) {
      |after| == |before| + 1 && after[..|before|] == before && after[|before|].action == a
    }

    // ------------------------------------------------------------ table writes

    method WriteBase(path: Path, head: BaseRow)
      requires Linked() && Announced(world.answers, path, head)
      requires Held(path, head.sha256) in world.replicas[world.me].held
      requires path in uploads ==> Terminated(world.answers, uploads[path].transfer)
      modifies this, world, world.store
      ensures Linked() && Learnt(old(world.State()), world.State()) && world.schedule == old(world.schedule)
      ensures base == old(base)[path := head] && uploads == old(uploads) - {path}
      ensures world.own == old(world.own) + [Taken(old(world.State()), Remember(world.me, path, head))]
      ensures world.store.Tables() == old(world.store.Tables()) && Files() == old(Files())
    {
      hide Initial, Exec;
      StepGrows(world.c, world.State(), Remember(world.me, path, head));
      var _ := world.Act(Remember(world.me, path, head));
      base := base[path := head];
      uploads := uploads - {path};
    }

    method ForgetRow(path: Path)
      requires Linked() && path in uploads && Terminated(world.answers, uploads[path].transfer)
      modifies this`uploads, world, world.store
      ensures Linked() && Learnt(old(world.State()), world.State()) && world.schedule == old(world.schedule)
      ensures uploads == old(uploads) - {path}
      ensures world.store.Tables() == old(world.store.Tables()) && Files() == old(Files())
    {
      hide Initial, Exec;
      StepGrows(world.c, world.State(), Forget(world.me, path));
      var _ := world.Act(Forget(world.me, path));
      uploads := uploads - {path};
    }

    method PersistRow(path: Path, row: PendingRow)
      requires Linked()
      requires path in uploads ==> Terminated(world.answers, uploads[path].transfer)
      requires row.transfer !in world.owner && TransferKey(world.c.project, row.transfer) !in world.store.uploads
      requires Held(path, row.sha256) in world.replicas[world.me].held
      requires row.base == if path in base then Some(base[path].revision) else None
      modifies this`uploads, world, world.store
      ensures Linked() && Learnt(old(world.State()), world.State()) && uploads == old(uploads)[path := row]
      ensures world.schedule == old(world.schedule)
      ensures world.store.Tables() == old(world.store.Tables()) && Files() == old(Files())
      ensures world.own == old(world.own) + [Taken(old(world.State()), Persist(world.me, path, row))]
    {
      hide Initial, Exec;
      StepGrows(world.c, world.State(), Persist(world.me, path, row));
      var _ := world.Act(Persist(world.me, path, row));
      uploads := uploads[path := row];
    }

    /** Record a common version; a pending transfer of the path is closed first, and
        on any doubt nothing is written. */
    method RememberHead(path: Path, head: BaseRow) returns (r: Result<()>)
      requires Linked() && Announced(world.answers, path, head)
      requires Held(path, head.sha256) in world.replicas[world.me].held
      modifies this, world, world.store
      ensures Linked() && Learnt(old(world.State()), world.State())
      ensures base == if r.Ok? then old(base)[path := head] else old(base)
      ensures uploads == if r.Ok? then old(uploads) - {path} else old(uploads)
      ensures r.Ok? ==> Wrote(old(world.own), world.own, Remember(world.me, path, head))
      ensures !r.Ok? ==> world.own == old(world.own)
      ensures r.Ok? && path in old(uploads) ==> Over(world.c, world.store.uploads, old(uploads)[path].transfer)
      ensures old(Calm()) ==>
                && Calm() && r.Ok? && Files() == old(Files())
                && world.store.Tables() ==
                     (if path in old(uploads) then Closed(old(world.store.Tables()), Key(old(uploads)[path].transfer))
                      else old(world.store.Tables()))
    {
      hide Initial, Exec, Closed, Announced, Terminated;
      if path in uploads {
        ghost var start := world.State();
        if old(Calm()) { ClosedIs(start.db, Key(uploads[path].transfer)); }
        var terminal := TerminalTransfer(path, uploads[path]);
        if terminal.ClientError? { return ClientError; }
        if terminal.HttpError? { return HttpError; }
        ClosedNow(uploads[path].transfer);
        Grown(world.me, start, world.State(), path, head, "");
      }
      WriteBase(path, head);
      r := Ok(());
    }

    lemma ClosedNow(t: Id)
      requires Linked() && Terminated(world.answers, t)
      ensures Over(world.c, world.store.uploads, t)
    {
      world.Reachable();
      TerminatedIsOver(world.c, world.State(), t);
    }

    lemma RowHeld(path: Path)
      requires Linked() && path in uploads
      ensures Held(path, uploads[path].sha256) in world.replicas[world.me].held
    {
      world.Reachable();
      assert ReplicaOk(world.c, world.State().db.versions, world.replicas[world.me]);
    }

    // ------------------------------------------------------------ procedures

    /** A row stays exactly if its file still has the content that was being sent. */
    method CloseStale(path: Path, files: map<Path, Digest>) returns (r: Result<()>)
      requires Linked() && path in uploads
      modifies this, world, world.store
      ensures Linked() && Learnt(old(world.State()), world.State())
      ensures uploads == if r.Ok? && !(path in files && files[path] == old(uploads)[path].sha256)
                         then old(uploads) - {path} else old(uploads)
      ensures path in files && files[path] == old(uploads)[path].sha256 ==>
                r.Ok? && world.State() == old(world.State()) && world.schedule == old(world.schedule)
                    && base == old(base)
      ensures !(path in files && files[path] == old(uploads)[path].sha256) && old(Calm()) ==>
                
                && Calm() && r.Ok?
                && QuietlyClosed(world.c, world.me, old(world.State()), world.State(), path, old(uploads)[path])
      ensures KeptBut(path, old(base), base)
    {
      if path in files && files[path] == uploads[path].sha256 { return Ok(()); }
      r := CloseRow(path);
    }

    /** Close and drop every pending row whose file no longer has the content that
        was being sent. Rows that stay are exactly the resumable ones, and no row
        leaves the table unless its transfer is over. If none needs closing nothing happens;
        if nothing interferes every such row is closed out. */
    method ReconcilePending(files: map<Path, Digest>) returns (r: Result<()>)
      requires Linked()
      modifies this, world, world.store
      ensures Linked() && Learnt(old(world.State()), world.State())
      ensures forall p :: p in uploads ==> p in old(uploads) && uploads[p] == old(uploads)[p]
      ensures r.Ok? ==> forall p :: p in uploads <==>
                p in old(uploads) && p in files && files[p] == old(uploads)[p].sha256
      ensures AllCurrent(old(uploads), files) ==>
                r.Ok? && world.State() == old(world.State()) && world.schedule == old(world.schedule)
                    && base == old(base)
      ensures old(Calm()) ==>
                Calm() && r.Ok? && Reconciled(world.c, world.me, old(world.State()), world.State())
    {
      hide Initial, Exec, Learnt, QuietlyClosed;
      var snapshot := uploads;
      var rest := snapshot.Keys;
      LearntNothing(world.State());
      while rest != {}
        invariant Linked() && Learnt(old(world.State()), world.State())
        invariant Sorted(snapshot, uploads, rest, files)
        invariant AllCurrent(snapshot, files) ==>
                    world.State() == old(world.State()) && world.schedule == old(world.schedule) && base == old(base)
        invariant old(Calm()) ==> Calm() && Reconciled(world.c, world.me, old(world.State()), world.State())
        decreases |rest|
      {
        var path :| path in rest;
        ghost var before := uploads;
        ghost var state := world.State();
        var closed := CloseStale(path, files);
        LearntOn(old(world.State()), state, world.State());
        SortedNext(snapshot, before, uploads, rest, path, files);
        if old(Calm()) && uploads == before - {path} && !(path in files && files[path] == before[path].sha256) {
          OneMoreClosed(world.c, world.me, old(world.State()), state, world.State(), path);
        }
        if !closed.Ok? { return closed; }
        rest := rest - {path};
      }
      r := Ok(());
    }

    /** Every row is for the content its file has. */
    predicate AllCurrent(rows: map<Path, PendingRow>, files: map<Path, Digest>) {
      forall p :: p in rows ==> p in files && files[p] == rows[p].sha256
    }

    lemma LearntNothing(s: Sys)
      requires world.me in s.replicas
      ensures Learnt(s, s)
    {
    }

    /** One row: its receipt becomes the base if it was committed after all. */
    method CloseRow(path: Path) returns (r: Result<()>)
      requires Linked() && path in uploads
      modifies this, world, world.store
      ensures Linked() && Learnt(old(world.State()), world.State())
      ensures uploads == if r.Ok? then old(uploads) - {path} else old(uploads)
      ensures KeptBut(path, old(base), base)
      ensures old(Calm()) ==>
                && Calm() && r.Ok?
                && QuietlyClosed(world.c, world.me, old(world.State()), world.State(), path, old(uploads)[path])
    {
      hide Initial, Exec, Closed, Announced, Terminated, Undisturbed;
      ghost var start := world.State();
      var row := uploads[path];
      if old(Calm()) {
        ClosedIs(start.db, Key(row.transfer));
        ClosedTwice(start.db, Key(row.transfer));
      }
      var terminal := TerminalTransfer(path, row);
      UndisturbedLearnt(start, world.State());
      if terminal.ClientError? { return ClientError; }
      if terminal.HttpError? { return HttpError; }
      ghost var middle := world.State();
      if terminal.value.state.Committed? {
        RowHeld(path);
        r := RememberHead(path, BaseRow(terminal.value.receipt.value.revision, row.sha256));
      } else {
        ForgetRow(path);
        r := Ok(());
      }
      LearntOn(start, middle, world.State());
    }

    lemma UndisturbedLearnt(s: Sys, s': Sys)
      requires Undisturbed(world.me, s, s')
      ensures Learnt(s, s')
      ensures s.replicas[world.me].base == s'.replicas[world.me].base
      ensures s.replicas[world.me].uploads == s'.replicas[world.me].uploads
    {
    }

    lemma HeldStays(s: Sys, s': Sys)
      requires Learnt(s, s')
      ensures s.replicas[world.me].held <= s'.replicas[world.me].held && s.answers <= s'.answers
    {
    }

    lemma LearntOn(a: Sys, b: Sys, c: Sys)
      requires Learnt(a, b) && Learnt(b, c)
      ensures Learnt(a, c)
    {
    }

    lemma FileHeld(path: Path)
      requires Linked() && path in world.replicas[world.me].files
      ensures Held(path, Sha256(world.replicas[world.me].files[path])) in world.replicas[world.me].held
    {
      world.Reachable();
      assert ReplicaOk(world.c, world.State().db.versions, world.replicas[world.me]);
    }

    lemma AnswerNames(a: Answer)
      requires Linked() && a in world.answers && a.reply.Progress?
      ensures TransferOf(a.request) == Some(a.reply.status.transfer)
    {
      world.Reachable();
      assert AnswerOk(world.c, world.State().db, a);
    }

    /** What was begun for these bytes and committed is a version of this path. */
    lemma CommitStores(path: Path, size: nat, row: PendingRow, receipt: Receipt)
      requires Linked() && Begun(world.answers, path, size, row)
      requires Answer(Commit(row.transfer), Committal(receipt)) in world.answers
      ensures Stored(world.store.versions, world.c.project, path, row.sha256)
    {
      world.Reachable();
      BegunAndCommitted(world.c, world.State().db, world.answers, path, size, row, receipt);
    }

    lemma ListedIsStored(heads: set<HeadInfo>, h: HeadInfo)
      requires Linked() && AllAnnounced(world.answers, heads) && h in heads
      ensures Stored(world.store.versions, world.c.project, h.path, h.sha256)
    {
      world.Reachable();
      AnnouncedIsRetained(world.c, world.State(), h.path, BaseRow(h.revision, h.sha256));
    }

    lemma BaseIsStored(path: Path)
      requires Linked() && path in base
      ensures Stored(world.store.versions, world.c.project, path, base[path].sha256)
    {
      world.Reachable();
      assert ReplicaOk(world.c, world.State().db.versions, world.replicas[world.me]);
    }

    lemma CommitIsPublished(t: Id, receipt: Receipt)
      requires Linked() && Answer(Commit(t), Committal(receipt)) in world.answers
      ensures receipt.transfer == t && Published(world.store.uploads, TransferKey(world.c.project, t), receipt.revision)
    {
      hide Initial, Exec, Valid, ReplicasOk, RowsOk, SentOk, Accounted;
      world.Reachable();
      assert AnswerOk(world.c, world.State().db, Answer(Commit(t), Committal(receipt)));
    }

    function BaseRevision(path: Path): Option<Id> reads this {
      if path in base then Some(base[path].revision) else None
    }

    ghost predicate OthersKept(path: Path, before: map<Path, PendingRow>) reads this {
      forall p :: p != path ==> (p in uploads <==> p in before) && (p in uploads ==> uploads[p] == before[p])
    }

    /** Make the durable row for these bytes, before anything is sent: the existing
        one resumes if it is for the same bytes and base, any other is closed first. */
    method ClaimRow(path: Path, sha: Digest) returns (r: Result<()>)
      requires Linked() && Held(path, sha) in world.replicas[world.me].held
      modifies this, world, world.store
      ensures Linked() && Learnt(old(world.State()), world.State()) && OthersKept(path, old(uploads))
      ensures r.Ok? ==> path in uploads && uploads[path].sha256 == sha && uploads[path].base == BaseRevision(path)
      ensures !r.Ok? ==> uploads == old(uploads) && base == old(base)
      ensures old(Calm()) && (path in old(uploads) ==> old(uploads)[path].sha256 == sha) ==>
                && Calm() && r.Ok? && Files() == old(Files()) && base == old(base)
                && world.store.Tables() == old(world.store.Tables())
                && (if path in old(uploads) then uploads == old(uploads)
                    else Key(uploads[path].transfer) !in world.store.uploads)
      ensures old(Calm()) && path in old(uploads) && old(uploads)[path].sha256 != sha ==>
                && Calm() && r.Ok? && Files() == old(Files())
                && world.store.Tables() == Closed(old(world.store.Tables()), Key(old(uploads)[path].transfer))
                && Key(uploads[path].transfer) !in world.store.uploads
    {
      hide Initial, Exec, Announced, Learnt, Closed, RowMatches, Terminated, Undisturbed, SameContents;
      ghost var start := world.State();
      LearntNothing(start);
      if path in uploads { OwnReceipt(path); }
      if path in uploads && uploads[path].sha256 == sha && uploads[path].base == BaseRevision(path) {
        return Ok(());
      }
      if path in uploads {
        r := CloseOther(path);
        HeldStays(start, world.State());
        if !r.Ok? { return; }
      }
      ghost var middle := world.State();
      NewRow(path, sha);
      LearntOn(start, middle, world.State());
      r := Ok(());
    }

    /** A row under a new identifier, durable before it is used. */
    method NewRow(path: Path, sha: Digest)
      requires Linked() && Held(path, sha) in world.replicas[world.me].held
      requires path in uploads ==> Terminated(world.answers, uploads[path].transfer)
      modifies this`uploads, world, world.store
      ensures Linked() && Learnt(old(world.State()), world.State()) && world.schedule == old(world.schedule)
      ensures path in uploads && uploads == old(uploads)[path := uploads[path]]
      ensures uploads[path].sha256 == sha && uploads[path].base == BaseRevision(path)
      ensures world.store.Tables() == old(world.store.Tables()) && Files() == old(Files())
      ensures Key(uploads[path].transfer) !in world.store.uploads
    {
      hide Initial, Exec, Learnt, Terminated;
      var transfer := world.NewTransferId();
      PersistRow(path, PendingRow(sha, BaseRevision(path), transfer));
    }

    /** The row is for other bytes: its transfer is closed, and its receipt, if it was
        committed after all, becomes the base. */
    method CloseOther(path: Path) returns (r: Result<()>)
      requires Linked() && path in uploads
      modifies this, world, world.store
      ensures Linked() && Learnt(old(world.State()), world.State())
      ensures r.Ok? ==> path in uploads ==> Terminated(world.answers, uploads[path].transfer)
      ensures uploads == old(uploads) || (r.Ok? && uploads == old(uploads) - {path})
      ensures !r.Ok? ==> base == old(base)
      ensures old(Calm()) ==>
                && Calm() && r.Ok? && Files() == old(Files())
                && world.store.Tables() == Closed(old(world.store.Tables()), Key(old(uploads)[path].transfer))
    {
      hide Initial, Exec, Announced, Learnt, Closed, Undisturbed, Terminated, RowMatches;
      ghost var start := world.State();
      var row := uploads[path];
      if old(Calm()) {
        ClosedIs(start.db, Key(row.transfer));
        ClosedTwice(start.db, Key(row.transfer));
      }
      var previous := TerminalTransfer(path, row);
      UndisturbedLearnt(start, world.State());
      if previous.ClientError? { return ClientError; }
      if previous.HttpError? { return HttpError; }
      r := Ok(());
      if previous.value.state.Committed? {
        RowHeld(path);
        ghost var middle := world.State();
        r := RememberHead(path, BaseRow(previous.value.receipt.value.revision, row.sha256));
        LearntOn(start, middle, world.State());
      }
    }

    /** The begin request of the path's row. */
    method AskBegin(path: Path, size: nat) returns (r: Result<UploadStatus>)
      requires Linked() && path in uploads
      modifies world, world.store
      ensures Linked() && Undisturbed(world.me, old(world.State()), world.State()) && world.own == old(world.own)
      ensures !r.ClientError?
      ensures r.Ok? ==> r.value.transfer == uploads[path].transfer
      ensures r.Ok? ==> Answer(BeginOf(path, size, uploads[path]), Progress(r.value)) in world.answers
      ensures old(Calm()) ==>
                && Calm() && world.replicas == old(world.replicas)
                && Begins(world.c, old(world.store.Tables()), world.store.Tables(), path, size, uploads[path], r)
    {
      hide Initial, Exec, Answered, RowMatches;
      ghost var start := world.State();
      var begin := BeginOf(path, size, uploads[path]);
      var reply := world.Call(begin);
      OwnTables(world.me, start, world.State());
      if old(Calm()) {
        OwnReceipt(path);
        BeginIs(world.c, start.db, world.store.Tables(), path, size, uploads[path], reply.value);
      }
      if reply.None? || !reply.value.Progress? { return HttpError; }
      AnswerNames(Answer(begin, reply.value));
      r := Ok(reply.value.status);
    }

    /** A new id for the same bytes and base, durable before it is used. */
    method DrawAgain(path: Path)
      requires Linked() && path in uploads && uploads[path].base == BaseRevision(path)
      requires Terminated(world.answers, uploads[path].transfer)
      modifies this`uploads, world, world.store
      ensures Linked() && Learnt(old(world.State()), world.State())
      ensures path in uploads && uploads == old(uploads)[path := uploads[path]] && uploads[path] != old(uploads)[path]
      ensures uploads[path].sha256 == old(uploads)[path].sha256 && uploads[path].base == old(uploads)[path].base
      ensures Wrote(old(world.own), world.own, Persist(world.me, path, uploads[path]))
      ensures old(Calm()) ==>
                && Calm() && Files() == old(Files()) && world.store.Tables() == old(world.store.Tables())
                && Key(uploads[path].transfer) !in world.store.uploads
    {
      hide Initial, Exec, Learnt, Terminated;
      RowHeld(path);
      RowOwned(path);
      var row := uploads[path];
      var transfer := world.NewTransferId();
      PersistRow(path, PendingRow(row.sha256, row.base, transfer));
    }

    lemma RowOwned(path: Path)
      requires Linked() && path in uploads
      ensures uploads[path].transfer in world.owner
    {
      world.Reachable();
      assert PendingRow(uploads[path].sha256, uploads[path].base, uploads[path].transfer) == uploads[path];
    }

    /** The row now under the path, and how it came there: the old one, or a new id for
        the same bytes and base, written once and only after the server answered that the
        old id is aborted. */
    ghost predicate Reopened(path: Path, size: nat, before: map<Path, PendingRow>, wrote: seq<Taken>)
      requires path in before
      reads this, world
    {
      && path in uploads && uploads == before[path := uploads[path]]
      && uploads[path].sha256 == before[path].sha256 && uploads[path].base == before[path].base
      && if uploads[path] == before[path] then world.own == wrote
         else
           && Wrote(wrote, world.own, Persist(world.me, path, uploads[path]))
           && Canceled(world.answers, path, size, before[path])
    }

    lemma ReopenedRow(path: Path, size: nat, before: map<Path, PendingRow>, wrote: seq<Taken>)
      requires path in before && Reopened(path, size, before, wrote)
      ensures path in uploads && uploads == before[path := uploads[path]]
      ensures uploads[path].sha256 == before[path].sha256 && uploads[path].base == before[path].base
    {
    }

    /** Open the transfer. An id found aborted is replaced once, durably, and only on
        that positive answer; the attempt is given up only when the new one is aborted
        too. */
    method BeginTransfer(path: Path, size: nat) returns (r: Result<UploadStatus>)
      requires Linked() && path in uploads && uploads[path].base == BaseRevision(path)
      modifies this`uploads, world, world.store
      ensures Linked() && Learnt(old(world.State()), world.State())
      ensures Reopened(path, size, old(uploads), old(world.own))
      ensures r.Ok? ==> r.value.transfer == uploads[path].transfer && Begun(world.answers, path, size, uploads[path])
      ensures r.ClientError? ==>
                uploads[path] != old(uploads)[path] && Canceled(world.answers, path, size, uploads[path])
      ensures old(Calm()) ==>
                && Calm() && Files() == old(Files())
                && (r.Ok? <==> Opens(world.c, old(world.store.Tables()), path, size, old(uploads)[path]))
                && if r.Ok? then OpenedAs(world.c, old(world.store.Tables()), world.store.Tables(), path, size,
                                          old(uploads)[path], uploads[path], r.value)
                   else world.store.Tables() == old(world.store.Tables())
    {
      hide Initial, Exec, Learnt, Begins, Opens, OpenedAs, Begun, Canceled, Terminated, Undisturbed;
      ghost var start := world.State();
      LearntNothing(start);
      for attempt := 0 to 2
        invariant Linked() && Learnt(start, world.State())
        invariant Reopened(path, size, old(uploads), old(world.own))
        invariant attempt == 0 <==> uploads == old(uploads)
        invariant attempt < 2
        invariant old(Calm()) ==> Calm() && Files() == old(Files()) && world.store.Tables() == start.db
        invariant old(Calm()) && attempt == 1 ==>
                    && Key(old(uploads)[path].transfer) in start.db.uploads
                    && start.db.uploads[Key(old(uploads)[path].transfer)].state == Aborted
                    && Key(uploads[path].transfer) !in start.db.uploads
      {
        ghost var middle := world.State();
        r := AskBegin(path, size);
        UndisturbedLearnt(middle, world.State());
        LearntOn(start, middle, world.State());
        CanceledStays(middle.answers, world.answers, path, size, old(uploads)[path]);
        if old(Calm()) {
          if attempt == 0 {
            FirstBegin(world.c, start.db, world.store.Tables(), path, size, uploads[path], r);
          } else {
            SecondBegin(world.c, start.db, world.store.Tables(), path, size, old(uploads)[path], uploads[path], r);
          }
        }
        if r.Ok? && !r.value.state.Aborted? { BegunNow(path, size, uploads[path], r.value); }
        if r.Ok? && r.value.state.Aborted? { CanceledNow(path, size, uploads[path], r.value); }
        if !r.Ok? || !r.value.state.Aborted? { return; }
        if attempt == 1 { return ClientError; }
        ghost var asked := world.State();
        DrawAgain(path);
        HeldStays(asked, world.State());
        LearntOn(start, asked, world.State());
        CanceledStays(asked.answers, world.answers, path, size, old(uploads)[path]);
      }
      r := ClientError;
    }

    lemma BegunNow(path: Path, size: nat, row: PendingRow, status: UploadStatus)
      requires Answer(BeginOf(path, size, row), Progress(status)) in world.answers && !status.state.Aborted?
      ensures Begun(world.answers, path, size, row)
    {
    }

    lemma CanceledNow(path: Path, size: nat, row: PendingRow, status: UploadStatus)
      requires Answer(BeginOf(path, size, row), Progress(status)) in world.answers && status.state.Aborted?
      requires status.transfer == row.transfer
      ensures Canceled(world.answers, path, size, row) && Terminated(world.answers, row.transfer)
    {
    }

    /** Chunk after chunk, each acknowledged with the offset behind it. */
    method SendBytes(transfer: Id, data: Bytes, start: nat) returns (r: Result<()>)
      requires Linked() && start <= |data|
      modifies world, world.store
      ensures Linked() && Undisturbed(world.me, old(world.State()), world.State()) && world.own == old(world.own)
      ensures old(Calm()) && Sending(old(world.store.Tables()), Key(transfer), data, start) ==>
                && Calm() && r.Ok? && world.replicas == old(world.replicas)
                && AllSent(old(world.store.Tables()), world.store.Tables(), Key(transfer), data, |data|)
    {
      hide Initial, Exec, Answered, Undisturbed, Sending;
      ghost var before := world.State();
      ghost var calm := Calm() && Sending(before.db, Key(transfer), data, start);
      var offset := start;
      UndisturbedNow(world.me, before);
      if calm { SentSoFar(before.db, Key(transfer), data, start); }
      while offset < |data|
        invariant offset <= |data| && Linked() && Undisturbed(world.me, before, world.State())
        invariant world.own == old(world.own)
        invariant calm ==>
                    && Calm() && world.replicas == old(world.replicas)
                    && AllSent(before.db, world.store.Tables(), Key(transfer), data, offset)
        decreases |data| - offset
      {
        ghost var middle := world.State();
        if calm { world.Reachable(); }
        var end := if offset + CHUNK_BYTES <= |data| then offset + CHUNK_BYTES else |data|;
        var reply := world.Call(Chunk(transfer, offset, data[offset..end]));
        UndisturbedOn(world.me, before, middle, world.State());
        if calm {
          MoreSent(world.c, before.db, middle.db, world.store.Tables(), transfer, data, offset, end, reply.value);
        }
        if reply.None? || !reply.value.Progress? { return HttpError; }
        if reply.value.status.nextOffset != end { return ClientError; }
        offset := end;
      }
      r := Ok(());
    }

    /** `_upload`: bytes are sent only under a transfer id that is already durable; a
        receipt is the server's own, for a version that exists. If nothing interferes it
        succeeds when the file still has the content and its bytes can be sent; they are then
        published. Without a row to resume it succeeds only then. */
    method Upload(path: Path, sha: Digest) returns (r: Result<Receipt>)
      requires Linked()
      modifies this, world, world.store
      ensures Linked() && Learnt(old(world.State()), world.State()) && OthersKept(path, old(uploads))
      ensures path in uploads ==>
                uploads[path].sha256 == sha || (path in old(uploads) && uploads[path] == old(uploads)[path])
      ensures r.Ok? ==>
        && path in uploads && uploads[path].sha256 == sha && r.value.transfer == uploads[path].transfer
        && Published(world.store.uploads, TransferKey(world.c.project, r.value.transfer), r.value.revision)
        && Stored(world.store.versions, world.c.project, path, sha)
      ensures old(Calm()) && Sends(old(world.State()), path, sha) ==>
                && Calm() && r.Ok?
                && Uploaded(world.c, world.me, old(world.State()), world.State(), path, old(Files())[path])
      ensures old(Calm()) && path !in old(uploads) && r.Ok? ==> Sends(old(world.State()), path, sha)
    {
      hide Initial, Exec, Learnt, Ready, Begun, Undisturbed, Sending, Announced, Stored, Published, Delivered,
           SentAs, StartsSending, Uploaded;
      ghost var start := world.State();
      LearntNothing(start);
      var files := world.replicas[world.me].files;
      if path !in files { return ClientError; }
      var data := files[path];
      if Sha256(data) != sha { return ClientError; }
      var state := OpenTransfer(path, data);
      if state.ClientError? { return ClientError; }
      if state.HttpError? { return HttpError; }
      var transfer := state.value.transfer;
      var offset := state.value.nextOffset;
      if offset > |data| { return ClientError; }
      ghost var begun := world.State();
      if old(Calm()) && Ready(world.c, world.me, start, path, data) {
        StartsIs(start.db, begun.db, path, data, uploads[path], Key(transfer), offset);
      }
      r := SendAndCommit(path, data, transfer, offset);
      LearntOn(start, begun, world.State());
      if old(Calm()) && Ready(world.c, world.me, start, path, data) {
        CommittedAs(world.c, start.db, begun.db, world.store.Tables(), Key(transfer), path, data, uploads[path],
                    offset, r.value.revision);
        UploadedIs(world.c, world.me, start, world.State(), path, data, r.value.revision);
      }
    }

    /** The path's row is claimed and its transfer opened. */
    method OpenTransfer(path: Path, data: Bytes) returns (r: Result<UploadStatus>)
      requires Linked() && path in Files() && Files()[path] == data
      modifies this, world, world.store
      ensures Linked() && Learnt(old(world.State()), world.State()) && OthersKept(path, old(uploads))
      ensures path in uploads ==>
                uploads[path].sha256 == Sha256(data) || (path in old(uploads) && uploads[path] == old(uploads)[path])
      ensures r.Ok? ==>
                && path in uploads && uploads[path].sha256 == Sha256(data) && r.value.transfer == uploads[path].transfer
                && Begun(world.answers, path, |data|, uploads[path])
      ensures old(Calm()) && Ready(world.c, world.me, old(world.State()), path, data) ==>
                && Calm() && r.Ok? && Files() == old(Files()) && base == old(base) && r.value.nextOffset <= |data|
                && uploads[path].base == BaseRevision(path)
                && (path in old(uploads) && Active(world.c, old(world.store.Tables()), old(uploads)[path]) ==>
                      uploads[path] == old(uploads)[path])
                && StartsSending(old(world.store.Tables()), world.store.Tables(), path, data, uploads[path],
                                 Key(uploads[path].transfer), r.value.nextOffset)
      ensures old(Calm()) && path !in old(uploads) && r.Ok? ==>
                Ready(world.c, world.me, old(world.State()), path, data)
    {
      hide Initial, Exec, Learnt, Ready, Opens, OpenedAs, Begun, Undisturbed, Sending, Announced, Admitted, Valid,
           StartsSending, ClaimedRow, Reopened, RowMatches;
      ghost var start := world.State();
      ValidNow();
      FileHeld(path);
      if Ready(world.c, world.me, start, path, data) { ReadyRow(world.c, world.me, start, path, data); }
      var claimed := ClaimRow(path, Sha256(data));
      if claimed.ClientError? { return ClientError; }
      if claimed.HttpError? { return HttpError; }
      ghost var row, middle, wrote := uploads[path], world.State(), world.own;
      ghost var clear := old(Calm()) && (path in old(uploads) ==> old(uploads)[path].sha256 == Sha256(data));
      if clear {
        OwnReceipt(path);
        RowClaimed(start, path, data);
        ReadyOpens(world.c, world.me, start, path, data, row);
      }
      r := BeginTransfer(path, |data|);
      ReopenedRow(path, |data|, middle.replicas[world.me].uploads, wrote);
      LearntOn(start, middle, world.State());
      if r.Ok? && clear && Ready(world.c, world.me, start, path, data) {
        ReadySends(world.c, world.me, start, world.store.Tables(), path, data, row, uploads[path], r.value);
      }
    }

    /** The row in hand is the claimed one. */
    lemma RowClaimed(s: Sys, path: Path, data: Bytes)
      requires world.me in s.replicas && path in uploads && s.db == world.store.Tables()
      requires uploads[path].sha256 == Sha256(data) && uploads[path].base == BaseOf(s.replicas[world.me], path)
      requires if path in s.replicas[world.me].uploads then uploads[path] == s.replicas[world.me].uploads[path]
               else Key(uploads[path].transfer) !in world.store.uploads
      requires var k := Key(uploads[path].transfer);
               k in world.store.uploads && !world.store.uploads[k].state.Aborted? ==>
                 RowMatches(world.store.uploads[k], path, uploads[path])
      ensures ClaimedRow(world.c, world.me, s, path, data, uploads[path])
    {
    }

    /** The bytes behind the offset are sent, then the transfer is committed. */
    method SendAndCommit(path: Path, data: Bytes, transfer: Id, offset: nat) returns (r: Result<Receipt>)
      requires Linked() && path in uploads && transfer == uploads[path].transfer && offset <= |data|
      requires Begun(world.answers, path, |data|, uploads[path])
      modifies world, world.store
      ensures Linked() && Learnt(old(world.State()), world.State())
      ensures r.Ok? ==>
                && r.value.transfer == transfer && Published(world.store.uploads, Key(transfer), r.value.revision)
                && Stored(world.store.versions, world.c.project, path, uploads[path].sha256)
      ensures old(Calm()) && Sending(old(world.store.Tables()), Key(transfer), data, offset) ==>
                && Calm() && r.Ok? && world.replicas == old(world.replicas)
                && Delivered(old(world.store.Tables()), world.store.Tables(), Key(transfer), data, r.value.revision)
    {
      hide Initial, Exec, Learnt, Begun, Undisturbed, Sending, Stored, Published, PublishedAs, Delivered;
      ghost var start := world.State();
      var sent := SendBytes(transfer, data, offset);
      UndisturbedLearnt(start, world.State());
      if sent.ClientError? { return ClientError; }
      if sent.HttpError? { return HttpError; }
      ghost var middle := world.State();
      HeldStays(start, middle);
      BegunStays(start.answers, middle.answers, path, |data|, uploads[path]);
      r := AskCommit(path, data, transfer);
      LearntOn(start, middle, world.State());
      if old(Calm()) && Sending(start.db, Key(transfer), data, offset) {
        DeliveredIs(start.db, middle.db, world.store.Tables(), Key(transfer), data, r.value.revision);
      }
    }

    /** The commit request of a transfer all of whose bytes were sent. */
    method AskCommit(path: Path, ghost data: Bytes, transfer: Id) returns (r: Result<Receipt>)
      requires Linked() && path in uploads && transfer == uploads[path].transfer
      requires Begun(world.answers, path, |data|, uploads[path])
      modifies world, world.store
      ensures Linked() && Learnt(old(world.State()), world.State())
      ensures r.Ok? ==>
                && r.value.transfer == transfer && Published(world.store.uploads, Key(transfer), r.value.revision)
                && Stored(world.store.versions, world.c.project, path, uploads[path].sha256)
      ensures old(Calm()) && Sending(old(world.store.Tables()), Key(transfer), data, |data|) ==>
                && Key(transfer) in old(world.store.uploads) && Calm() && r.Ok? && world.replicas == old(world.replicas)
                && r.value.revision !in old(world.store.versions)
                && PublishedAs(old(world.store.Tables()), world.store.Tables(), Key(transfer), data, r.value.revision)
    {
      hide Initial, Exec, Learnt, Begun, Undisturbed, Stored, Answered, Published, PublishedAs, Received;
      ghost var start := world.State();
      ValidNow();
      var reply := world.Call(Commit(transfer));
      UndisturbedLearnt(start, world.State());
      if old(Calm()) && Sending(start.db, Key(transfer), data, |data|) {
        CommitAnswered(world.c, start.db, world.store.Tables(), transfer, data, reply.value);
        PublishedProjects(start.db, world.store.Tables(), Key(transfer), data, reply.value.receipt.revision);
      }
      if reply.None? || !reply.value.Committal? { return HttpError; }
      CommitIsPublished(transfer, reply.value.receipt);
      HeldStays(start, world.State());
      BegunStays(start.answers, world.answers, path, |data|, uploads[path]);
      CommitStores(path, |data|, uploads[path], reply.value.receipt);
      r := Ok(reply.value.receipt);
    }

    lemma ValidNow()
      requires Linked()
      ensures Valid(world.c.fold, world.store.Tables())
    {
      world.Reachable();
      hide Valid;
    }

    /** The bytes at the path have the content and can be sent. */
    ghost predicate Sends(s: Sys, path: Path, sha: Digest) {
      && world.me in s.replicas && path in s.replicas[world.me].files && Sha256(s.replicas[world.me].files[path]) == sha
      && Ready(world.c, world.me, s, path, s.replicas[world.me].files[path])
    }

    /** A listed head is a version of its path with the listed digest and size. */
    lemma ListedHead(h: HeadInfo)
      requires Linked() && h in HeadInfos(world.c, world.store.Tables())
      ensures h.revision in world.store.versions && world.store.versions[h.revision].project == world.c.project
      ensures var v := world.store.versions[h.revision];
              Verified(v) && v.path == h.path && v.sha256 == h.sha256 && v.size == h.size
    {
      world.Reachable();
      InfosAre(world.c, world.store.Tables(), h);
      HeadIs(world.c.fold, world.store.Tables(), Head(world.c.project, h.path, h.revision));
    }

    /** A download is believed only if size and digest match what was listed. */
    method Download(head: HeadInfo) returns (r: Result<Bytes>)
      requires Linked()
      modifies world, world.store
      ensures Linked() && Undisturbed(world.me, old(world.State()), world.State()) && world.own == old(world.own)
      ensures r.Ok? ==> Sha256(r.value) == head.sha256 && |r.value| == head.size
      ensures old(Calm()) && head in HeadInfos(world.c, old(world.store.Tables())) ==>
                && Calm() && world.replicas == old(world.replicas) && world.store.Tables() == old(world.store.Tables())
                && head.revision in world.store.versions && r == Ok(world.store.versions[head.revision].body)
                && Answer(Fetch(head.revision), Content(r.value)) in world.answers
    {
      hide Initial, Exec, Answered;
      ghost var start := world.State();
      if old(Calm()) && head in HeadInfos(world.c, start.db) { ListedHead(head); }
      var reply := world.Call(Fetch(head.revision));
      OwnTables(world.me, start, world.State());
      if old(Calm()) && head in HeadInfos(world.c, start.db) {
        FetchAnswered(world.c, start.db, world.store.Tables(), head.revision, reply.value);
      }
      if reply.None? || !reply.value.Content? { return HttpError; }
      var body := reply.value.body;
      if |body| != head.size || Sha256(body) != head.sha256 { return ClientError; }
      r := Ok(body);
    }

    /** `_install`, seen from the protocol: the file is replaced only if, at the moment
        it is taken away, it still has the expected content, or there is none. */
    method InstallFile(path: Path, head: HeadInfo, data: Bytes, expected: Option<Digest>) returns (r: Result<()>)
      requires Linked() && Announced(world.answers, path, BaseRow(head.revision, head.sha256))
      requires Sha256(data) == head.sha256
      requires expected.Some? ==> path in base && base[path].sha256 == expected.value
      modifies world, world.store
      ensures Linked() && Learnt(old(world.State()), world.State())
      ensures r.Ok? ==> Held(path, head.sha256) in world.replicas[world.me].held
      ensures if r.Ok? then |world.own| == |old(world.own)| + 1 && world.own[..|old(world.own)|] == old(world.own)
                            && Replaces(world.own[|old(world.own)|], path, head, expected)
              else world.own == old(world.own)
      ensures old(Calm()) ==>
                && Calm() && !r.HttpError? && world.store.Tables() == old(world.store.Tables())
                && (r.Ok? <==> FileIs(old(Files()), path, expected))
                && Files() == if r.Ok? then old(Files())[path := data] else old(Files())
    {
      hide Initial, Exec, Announced;
      LearntNothing(world.State());
      if !FileIs(world.replicas[world.me].files, path, expected) { return ClientError; }
      ghost var start := world.State();
      world.Pause();
      UndisturbedLearnt(start, world.State());
      if !FileIs(world.replicas[world.me].files, path, expected) { return ClientError; }
      Grown(world.me, start, world.State(), path, BaseRow(head.revision, head.sha256), "");
      ghost var middle := world.State();
      PlaceHead(path, head, data, expected);
      LearntOn(start, middle, world.State());
      r := Ok(());
    }

    /** What is at the path now is replaced by the head's content. */
    method PlaceHead(path: Path, head: HeadInfo, data: Bytes, ghost expected: Option<Digest>)
      requires Linked() && Announced(world.answers, path, BaseRow(head.revision, head.sha256))
      requires Sha256(data) == head.sha256
      requires FileIs(world.replicas[world.me].files, path, expected)
      requires expected.Some? ==> path in base && base[path].sha256 == expected.value
      modifies world, world.store
      ensures Linked() && Learnt(old(world.State()), world.State())
      ensures Held(path, head.sha256) in world.replicas[world.me].held
      ensures |world.own| == |old(world.own)| + 1 && world.own[..|old(world.own)|] == old(world.own)
      ensures Replaces(world.own[|old(world.own)|], path, head, expected)
      ensures world.schedule == old(world.schedule) && world.store.Tables() == old(world.store.Tables())
      ensures Files() == old(Files())[path := data]
    {
      hide Initial, Exec;
      StepGrows(world.c, world.State(), Install(world.me, path, head.revision, data));
      var _ := world.Act(Install(world.me, path, head.revision, data));
    }

    predicate FileIs(files: map<Path, Bytes>, path: Path, expected: Option<Digest>) {
      if path in files then expected == Some(Sha256(files[path])) else expected.None?
    }

    /** A write that puts the head's content at the path, made while the file there had
        the expected content, or there was none and none was expected. */
    ghost predicate Replaces(taken: Taken, path: Path, head: HeadInfo, expected: Option<Digest>) {
      && taken.action.Install? && taken.action.path == path && taken.action.revision == head.revision
      && Sha256(taken.action.body) == head.sha256
      && world.me in taken.state.replicas && FileIs(taken.state.replicas[world.me].files, path, expected)
    }

    predicate Notes(taken: Taken, path: Path, head: HeadInfo) {
      taken.action == Remember(world.me, path, BaseRow(head.revision, head.sha256))
    }

    /** The writes one remote path may lead to: recording one of its heads as common, or,
        if there is only one, replacing the file that is still what the inventory found,
        nothing or the base content. */
    ghost predicate Settling(taken: Taken, path: Path, heads: set<HeadInfo>, local: Option<FileEntry>,
                             base: map<Path, BaseRow>) {
      exists h :: h in heads
        && (Notes(taken, path, h)
            || (|heads| == 1 && Replaces(taken, path, h, DigestOf(local))
                && (local.Some? ==> path in base && base[path].sha256 == local.value.sha256 != h.sha256)))
    }

    ghost predicate AllSettling(before: seq<Taken>, after: seq<Taken>, path: Path, heads: set<HeadInfo>,
                                local: Option<FileEntry>, base: map<Path, BaseRow>) {
      before <= after && forall i :: |before| <= i < |after| ==> Settling(after[i], path, heads, local, base)
    }

    /** The current heads, each announced by the answer that listed it. */
    method ListFiles() returns (r: Result<set<HeadInfo>>)
      requires Linked()
      modifies world, world.store
      ensures Linked() && Undisturbed(world.me, old(world.State()), world.State()) && world.own == old(world.own)
      ensures r.Ok? ==> AllAnnounced(world.answers, r.value) && Answer(List, Listing(r.value)) in world.answers
      ensures old(Calm()) ==>
                && Calm() && world.replicas == old(world.replicas) && world.store.Tables() == old(world.store.Tables())
                && r == Ok(HeadInfos(world.c, world.store.Tables()))
    {
      hide Initial, Exec, Answered;
      ghost var start := world.State();
      var reply := world.Call(List);
      OwnTables(world.me, start, world.State());
      if old(Calm()) { ListAnswered(world.c, start.db, world.store.Tables(), reply.value); }
      if reply.None? || !reply.value.Listing? { return HttpError; }
      r := Ok(reply.value.heads);
    }

    ghost predicate AllAnnounced(answers: set<Answer>, heads: set<HeadInfo>) {
      forall h :: h in heads ==> Announced(answers, h.path, BaseRow(h.revision, h.sha256))
    }

    lemma AnnouncedStay(s: Sys, s': Sys, heads: set<HeadInfo>)
      requires AllAnnounced(s.answers, heads) && s.answers <= s'.answers
      ensures AllAnnounced(s'.answers, heads)
    {
      forall h | h in heads ensures Announced(s'.answers, h.path, BaseRow(h.revision, h.sha256)) {
        var row := BaseRow(h.revision, h.sha256);
        assert Announced(s.answers, h.path, row);
        if a, i :| a in s.answers && a.reply.Listing? && i in a.reply.heads
                   && i.path == h.path && i.revision == row.revision && i.sha256 == row.sha256 {
          assert a in s'.answers;
        }
      }
    }

    // ------------------------------------------------------------ one round

    /** Every pending row is for the content the inventory found: nothing in the
        table is orphaned. */
    ghost predicate NoOrphans(files: map<Path, FileEntry>) reads this {
      forall p :: p in uploads ==> p in files && files[p].sha256 == uploads[p].sha256
    }

    /** One inventoried file: on success the server retains its content. It is left alone if
        a head has its content, or if it is the common version and there is some head. */
    method UploadOne(item: FileEntry, heads: set<HeadInfo>) returns (r: Result<()>)
      requires Linked() && AllAnnounced(world.answers, heads)
      modifies this, world, world.store
      ensures Linked() && Learnt(old(world.State()), world.State()) && OthersKept(item.path, old(uploads))
      ensures item.path in uploads && uploads[item.path].sha256 != item.sha256 ==>
                item.path in old(uploads) && uploads[item.path] == old(uploads)[item.path]
      ensures r.Ok? ==> Stored(world.store.versions, world.c.project, item.path, item.sha256)
      ensures SkipsUpload(item, HeadsAt(heads, item.path), Got(old(base), item.path)) ==>
                r.Ok? && world.State() == old(world.State()) && world.schedule == old(world.schedule)
      ensures old(Calm()) && !SkipsUpload(item, HeadsAt(heads, item.path), Got(old(base), item.path))
              && Sends(old(world.State()), item.path, item.sha256) ==>
                && Calm() && r.Ok?
                && Uploaded(world.c, world.me, old(world.State()), world.State(), item.path, old(Files())[item.path])
    {
      hide Initial, Exec, Learnt, Uploaded, Sends, Stored, Announced;
      LearntNothing(world.State());
      var path := item.path;
      var mine := set h | h in heads && h.path == path;
      if h :| h in mine && h.sha256 == item.sha256 && h.size == item.size {
        ListedIsStored(heads, h);
        return Ok(());
      }
      if path in base && item.sha256 == base[path].sha256 && mine != {} {
        BaseIsStored(path);
        return Ok(());
      }
      var sent := Upload(path, item.sha256);
      if sent.HttpError? { return HttpError; }
      if sent.ClientError? { return ClientError; }
      r := Ok(());
    }

    /** One file of the pass: those before it stay retained. */
    method UploadNext(path: Path, files: map<Path, FileEntry>, heads: set<HeadInfo>, ghost rest: set<Path>,
                      ghost start: Sys)
      returns (r: Result<()>)
      requires Linked() && NoOrphans(files) && AllAnnounced(world.answers, heads)
      requires path in files && files[path].path == path && path in rest
      modifies this, world, world.store
      ensures Linked() && Learnt(old(world.State()), world.State()) && NoOrphans(files)
      ensures AllAnnounced(world.answers, heads)
      ensures r.Ok? && old(AllStored(world.store.versions, files, rest)) ==>
                AllStored(world.store.versions, files, rest - {path})
      ensures old(Calm()) && CanSend(world.c, world.me, start, files, heads)
              && Sent(world.c, world.me, start, old(world.State()), Sending0(start, files, heads), rest) ==>
                && Calm() && r.Ok?
                && Sent(world.c, world.me, start, world.State(), Sending0(start, files, heads), rest - {path})
    {
      hide Initial, Exec, Learnt, Uploaded, Sends, Stored, Announced, Sent, Sendable, SkipsUpload, AllAnnounced,
           AllStored;
      ghost var before := world.State();
      ghost var clear := Calm() && CanSend(world.c, world.me, start, files, heads)
                         && Sent(world.c, world.me, start, before, Sending0(start, files, heads), rest);
      if clear { NextSends(start, files, heads, rest, path); }
      r := UploadOne(files[path], heads);
      AnnouncedOn(before, world.State(), heads);
      AllStay(before.db.versions, world.store.versions, files, rest);
      if r.Ok? { OneStored(files, rest, path); }
      if clear {
        if path in Sending0(start, files, heads) {
          RowsApart();
          SendNext(world.c, world.me, start, before, world.State(), Sending0(start, files, heads), rest, path);
        } else {
          SkipNext(world.c, world.me, start, before, Sending0(start, files, heads), rest, path);
        }
      }
    }

    ghost function Sending0(s: Sys, files: map<Path, FileEntry>, heads: set<HeadInfo>): set<Path> {
      if world.me in s.replicas then ToSend(s.replicas[world.me], files, heads) else {}
    }

    /** The next file is skipped, or can be sent. */
    lemma NextSends(start: Sys, files: map<Path, FileEntry>, heads: set<HeadInfo>, rest: set<Path>, path: Path)
      requires Linked() && path in files && files[path].path == path && path in rest
      requires CanSend(world.c, world.me, start, files, heads)
      requires Sent(world.c, world.me, start, world.State(), Sending0(start, files, heads), rest)
      ensures path in Sending0(start, files, heads)
         <==> !SkipsUpload(files[path], HeadsAt(heads, path), Got(base, path))
      ensures path in Sending0(start, files, heads) ==>
                Sends(world.State(), path, files[path].sha256) && path in world.replicas[world.me].files
    {
      SentFolder(start, Sending0(start, files, heads), rest);
      hide Sent, Ready, Sendable, SkipsUpload, Initial, Exec;
      if path in Sending0(start, files, heads) {
        NextReady(world.c, world.me, start, world.State(), Sending0(start, files, heads), rest, path);
      }
    }

    lemma SentFolder(start: Sys, sending: set<Path>, rest: set<Path>)
      requires Sent(world.c, world.me, start, world.State(), sending, rest)
      ensures world.me in start.replicas && world.me in world.replicas
      ensures world.replicas[world.me].files == start.replicas[world.me].files
      ensures world.replicas[world.me].base == start.replicas[world.me].base
    {
      SameFolder(world.c, world.me, start, world.State(), sending - rest);
    }

    lemma RowsApart()
      requires Linked()
      ensures OneRowEach(world.replicas)
    {
      world.RowsMatch();
      hide Inv;
    }

    lemma AnnouncedOn(s: Sys, s': Sys, heads: set<HeadInfo>)
      requires AllAnnounced(s.answers, heads) && Learnt(s, s')
      ensures AllAnnounced(s'.answers, heads) && Grew(s.db.versions, s'.db.versions)
    {
      AnnouncedStay(s, s', heads);
    }

    lemma OneStored(files: map<Path, FileEntry>, rest: set<Path>, path: Path)
      requires path in files && Stored(world.store.versions, world.c.project, path, files[path].sha256)
      ensures AllStored(world.store.versions, files, rest) ==> AllStored(world.store.versions, files, rest - {path})
    {
    }

    /** A pass without an issue leaves every inventoried file retained at the server. If
        nothing interferes and the files to be sent can be, there is none, and each of them is
        published in place of its base. */
    method UploadPass(files: map<Path, FileEntry>, heads: set<HeadInfo>) returns (r: Result<nat>)
      requires Linked() && NoOrphans(files) && AllAnnounced(world.answers, heads)
      requires forall p :: p in files ==> files[p].path == p
      modifies this, world, world.store
      ensures Linked() && Learnt(old(world.State()), world.State()) && NoOrphans(files)
      ensures !r.ClientError?
      ensures r == Ok(0) ==> AllStored(world.store.versions, files, {})
      ensures old(Calm()) && CanSend(world.c, world.me, old(world.State()), files, heads) ==>
                && Calm() && r == Ok(0)
                && SentAll(world.c, world.me, old(world.State()), world.State(),
                           Sending0(old(world.State()), files, heads))
    {
      hide Initial, Exec, Learnt, Sent, Sendable, CanSend, AllAnnounced, AllStored, ToSend;
      ghost var start := world.State();
      ghost var calm := Calm() && CanSend(world.c, world.me, start, files, heads);
      ghost var sending := Sending0(start, files, heads);
      LearntNothing(start);
      NothingStored(files);
      var issues := 0;
      var rest := files.Keys;
      if calm { FirstOf(start, files, heads); }
      while rest != {}
        invariant rest <= files.Keys && Linked() && Learnt(start, world.State()) && NoOrphans(files)
        invariant AllAnnounced(world.answers, heads)
        invariant issues == 0 ==> AllStored(world.store.versions, files, rest)
        invariant calm ==> Calm() && issues == 0 && Sent(world.c, world.me, start, world.State(), sending, rest)
        decreases |rest|
      {
        ghost var middle := world.State();
        var path :| path in rest;
        var done := UploadNext(path, files, heads, rest, start);
        LearntOn(start, middle, world.State());
        rest := rest - {path};
        if done.HttpError? { return HttpError; }
        if done.ClientError? { issues := issues + 1; }
      }
      if calm { SentWhole(start, sending); }
      r := Ok(issues);
    }

    lemma FirstOf(start: Sys, files: map<Path, FileEntry>, heads: set<HeadInfo>)
      requires CanSend(world.c, world.me, start, files, heads)
      ensures Sent(world.c, world.me, start, start, Sending0(start, files, heads), files.Keys)
    {
      hide Sendable, SkipsUpload;
      SendStart(world.c, world.me, start, Sending0(start, files, heads), files.Keys);
    }

    lemma SentWhole(start: Sys, sending: set<Path>)
      requires Sent(world.c, world.me, start, world.State(), sending, {})
      ensures SentAll(world.c, world.me, start, world.State(), sending)
    {
      assert sending - {} == sending;
    }

    lemma NothingStored(files: map<Path, FileEntry>)
      ensures AllStored(world.store.versions, files, files.Keys)
    {
    }

    ghost predicate AllStored(versions: Versions, files: map<Path, FileEntry>, except: set<Path>) {
      forall p :: p in files && p !in except ==> Stored(versions, world.c.project, p, files[p].sha256)
    }

    lemma AllStay(before: Versions, after: Versions, files: map<Path, FileEntry>, except: set<Path>)
      requires Grew(before, after)
      ensures AllStored(before, files, except) ==> AllStored(after, files, except)
    {
      forall p | p in files && p !in except
        ensures Stored(before, world.c.project, p, files[p].sha256) ==>
                  Stored(after, world.c.project, p, files[p].sha256)
      {
        StoredStays(before, after, world.c.project, p, files[p].sha256);
      }
    }

    lemma InstallSettles(before: seq<Taken>, middle: seq<Taken>, after: seq<Taken>, path: Path, head: HeadInfo,
                         local: Option<FileEntry>, base: map<Path, BaseRow>)
      requires |middle| == |before| + 1 && middle[..|before|] == before
      requires Replaces(middle[|before|], path, head, DigestOf(local))
      requires local.Some? ==> path in base && base[path].sha256 == local.value.sha256 != head.sha256
      requires after == middle || Wrote(middle, after, Remember(world.me, path, BaseRow(head.revision, head.sha256)))
      ensures AllSettling(before, after, path, {head}, local, base) && after[|before|].action.Install?
    {
      forall i | |before| <= i < |after| ensures Settling(after[i], path, {head}, local, base) {
        assert after[..|middle|] == middle;
        assert i == |before| ==> after[i] == middle[|before|];
        assert i > |before| ==> Notes(after[i], path, head);
      }
    }

    /** The one head is downloaded, installed and recorded. */
    method InstallHead(path: Path, head: HeadInfo, local: Option<FileEntry>) returns (r: Result<()>)
      requires Linked() && Announced(world.answers, path, BaseRow(head.revision, head.sha256))
      requires local.Some? ==> path in base && base[path].sha256 == local.value.sha256 != head.sha256
      modifies this, world, world.store
      ensures Linked() && Learnt(old(world.State()), world.State())
      ensures uploads == if r.Ok? then old(uploads) - {path} else old(uploads)
      ensures base == if r.Ok? then old(base)[path := BaseRow(head.revision, head.sha256)] else old(base)
      ensures AllSettling(old(world.own), world.own, path, {head}, local, old(base))
      ensures r.Ok? ==> |world.own| == |old(world.own)| + 2 && world.own[|old(world.own)|].action.Install?
      ensures old(Calm()) && head in HeadInfos(world.c, old(world.store.Tables())) ==>
                && Calm() && !r.HttpError? && SameContents(old(world.store.Tables()), world.store.Tables())
                && (r.Ok? <==> Digested(Got(old(Files()), path)) == DigestOf(local))
                && head.revision in world.store.versions
                && Files() == if r.Ok? then old(Files())[path := world.store.versions[head.revision].body]
                              else old(Files())
    {
      hide Initial, Exec, Announced, Closed, HeadInfos, Replaces, Learnt, AllSettling;
      ghost var start := world.State();
      SettlesNothing(world.own, path, {head}, local, base);
      var placed := FetchAndPlace(path, head, local);
      if !placed.Ok? { return placed; }
      if old(Calm()) && path in uploads { ClosedIs(start.db, Key(uploads[path].transfer)); }
      ghost var middle, written := world.State(), world.own;
      r := RememberHead(path, BaseRow(head.revision, head.sha256));
      LearntOn(start, middle, world.State());
      InstallSettles(old(world.own), written, world.own, path, head, local, old(base));
    }

    /** The head's content is fetched and put at the path. */
    method FetchAndPlace(path: Path, head: HeadInfo, local: Option<FileEntry>) returns (r: Result<()>)
      requires Linked() && Announced(world.answers, path, BaseRow(head.revision, head.sha256))
      requires local.Some? ==> path in base && base[path].sha256 == local.value.sha256 != head.sha256
      modifies world, world.store
      ensures Linked() && Learnt(old(world.State()), world.State())
      ensures r.Ok? ==> Held(path, head.sha256) in world.replicas[world.me].held
      ensures r.Ok? ==> Announced(world.answers, path, BaseRow(head.revision, head.sha256))
      ensures if r.Ok? then |world.own| == |old(world.own)| + 1 && world.own[..|old(world.own)|] == old(world.own)
                            && Replaces(world.own[|old(world.own)|], path, head, DigestOf(local))
              else world.own == old(world.own)
      ensures old(Calm()) && head in HeadInfos(world.c, old(world.store.Tables())) ==>
                && Calm() && !r.HttpError? && world.store.Tables() == old(world.store.Tables())
                && (r.Ok? <==> Digested(Got(old(Files()), path)) == DigestOf(local))
                && head.revision in world.store.versions
                && Files() == if r.Ok? then old(Files())[path := world.store.versions[head.revision].body]
                              else old(Files())
    {
      hide Initial, Exec, Announced, HeadInfos, Replaces, Learnt;
      ghost var start := world.State();
      var data := Download(head);
      UndisturbedLearnt(start, world.State());
      if data.ClientError? { return ClientError; }
      if data.HttpError? { return HttpError; }
      Grown(world.me, start, world.State(), path, BaseRow(head.revision, head.sha256), "");
      ghost var middle := world.State();
      r := InstallFile(path, head, data.value, DigestOf(local));
      LearntOn(start, middle, world.State());
      AnnouncedKept(middle, world.State(), path, head);
    }

    lemma SettlesNothing(own: seq<Taken>, path: Path, heads: set<HeadInfo>, local: Option<FileEntry>,
                         base: map<Path, BaseRow>)
      ensures AllSettling(own, own, path, heads, local, base)
    {
    }

    lemma AnnouncedKept(s: Sys, s': Sys, path: Path, head: HeadInfo)
      requires Announced(s.answers, path, BaseRow(head.revision, head.sha256)) && Learnt(s, s')
      ensures Announced(s'.answers, path, BaseRow(head.revision, head.sha256))
    {
    }

    /** The only head of a path. */
    method InstallSingle(path: Path, head: HeadInfo, local: Option<FileEntry>) returns (r: Result<()>)
      requires Linked() && Announced(world.answers, path, BaseRow(head.revision, head.sha256)) && head.path == path
      modifies this, world, world.store
      ensures Linked() && Learnt(old(world.State()), world.State())
      ensures uploads == old(uploads) || uploads == old(uploads) - {path}
      ensures base == if r.Ok? then old(base)[path := BaseRow(head.revision, head.sha256)] else old(base)
      ensures AllSettling(old(world.own), world.own, path, {head}, local, old(base))
      ensures old(Calm()) && {head} <= HeadInfos(world.c, old(world.store.Tables())) ==>
                && Calm() && !r.HttpError?
                && OnePathEnds(world.me, old(world.State()), world.State(), path, {head}, local)
                && (r.Ok? <==> TakesAt(world.me, old(world.State()), path, {head}, local))
    {
      hide Initial, Exec, Announced, HeadInfos, Learnt, AllSettling, PathEnds, Takes, Undisturbed;
      ghost var start := world.State();
      ghost var calm := Calm() && {head} <= HeadInfos(world.c, world.store.Tables());
      if calm { ListedHead(head); }
      if local.Some? && local.value.sha256 == head.sha256 {
        SettlesNothing(world.own, path, {head}, local, base);
        r := Acknowledge(path, head);
        if r.Ok? { RecordSettles(old(world.own), world.own, path, head, {head}, local, old(base)); }
        if calm { SingleEnds(world.me, start, world.State(), path, head, local, r.Ok?); }
      } else if local.None? || (path in base && local.value.sha256 == base[path].sha256) {
        r := InstallHead(path, head, local);
        if calm { SingleEnds(world.me, start, world.State(), path, head, local, r.Ok?); }
      } else {
        SettlesNothing(world.own, path, {head}, local, base);
        r := ConflictCopies({head}, None);
        UndisturbedLearnt(start, world.State());
        if calm {
          OnlyCompeting(path, head, local);
          LeftAlone(start, path, {head}, local);
        }
      }
    }

    lemma OnlyCompeting(path: Path, head: HeadInfo, local: Option<FileEntry>)
      requires world.me in world.replicas && local.Some? && !Acknowledges(head, local)
      requires !Overwrites(head, local, Got(world.replicas[world.me].base, path))
      requires Copied(world.State(), set h | h in {head} && DigestOf(None) != Some(h.sha256))
      ensures Copied(world.State(), Competing({head}, local, Got(world.replicas[world.me].base, path)))
    {
    }

    /** Nothing here changed, and nothing was to. */
    lemma LeftAlone(s: Sys, path: Path, heads: set<HeadInfo>, local: Option<FileEntry>)
      requires world.me in world.replicas
      requires Copied(world.State(), Competing(heads, local, Got(world.replicas[world.me].base, path)))
      requires world.me in world.replicas && s.replicas == world.replicas && SameContents(s.db, world.store.Tables())
      requires forall h :: h in heads ==> |heads| == 1 ==>
                 !Acknowledges(h, local) && !Overwrites(h, local, Got(world.replicas[world.me].base, path))
      requires forall h :: h in heads ==> |heads| > 1 ==> !Records(h, local, SpotAt(world.replicas[world.me], path))
      ensures OnePathEnds(world.me, s, world.State(), path, heads, local)
      ensures !TakesAt(world.me, s, path, heads, local)
    {
      forall h | heads == {h} ensures |heads| == 1 && h in heads {}
    }

    /** One remote path: acknowledge, install over the base content only, or keep both.
        Competing versions are never installed. */
    method InstallOne(path: Path, heads: set<HeadInfo>, local: Option<FileEntry>) returns (r: Result<()>)
      requires Linked() && heads != {} && AllAnnounced(world.answers, heads)
      requires forall h :: h in heads ==> h.path == path
      modifies this, world, world.store
      ensures Linked() && Learnt(old(world.State()), world.State())
      ensures uploads == old(uploads) || uploads == old(uploads) - {path}
      ensures KeptBut(path, old(base), base)
      ensures AllSettling(old(world.own), world.own, path, heads, local, old(base))
      ensures r.Ok? ==> |heads| == 1 && forall h :: h in heads ==> AtHead(base, h)
      ensures old(Calm()) && heads <= HeadInfos(world.c, old(world.store.Tables())) ==>
                && Calm() && !r.HttpError?
                && OnePathEnds(world.me, old(world.State()), world.State(), path, heads, local)
                && (r.Ok? <==> TakesAt(world.me, old(world.State()), path, heads, local))
    {
      hide Initial, Exec, Announced, HeadInfos, Learnt, AllSettling, OnePathEnds, TakesAt, Undisturbed;
      ghost var start := world.State();
      if |heads| == 1 {
        var head :| head in heads;
        forall h | h in heads ensures h == head { Single(heads, h, head); }
        assert heads == {head};
        r := InstallSingle(path, head, local);
      } else {
        r := KeepCompeting(path, heads, local);
        if old(Calm()) && heads <= HeadInfos(world.c, start.db) {
          CompetingEnd(world.me, start, world.State(), path, heads, local);
        }
      }
    }

    lemma RecordSettles(before: seq<Taken>, after: seq<Taken>, path: Path, head: HeadInfo, heads: set<HeadInfo>,
                        local: Option<FileEntry>, base: map<Path, BaseRow>)
      requires Wrote(before, after, Remember(world.me, path, BaseRow(head.revision, head.sha256))) && head in heads
      ensures AllSettling(before, after, path, heads, local, base)
      ensures forall i :: |before| <= i < |after| ==> after[i].action.Remember?
    {
      assert Notes(after[|before|], path, head);
    }

    /** The common content, if the local bytes are those of one of the heads. */
    method RecordOne(path: Path, heads: set<HeadInfo>, local: Option<FileEntry>) returns (r: Result<()>)
      requires Linked() && AllAnnounced(world.answers, heads) && forall h :: h in heads ==> h.path == path
      modifies this, world, world.store
      ensures Linked() && Learnt(old(world.State()), world.State())
      ensures uploads == old(uploads) || uploads == old(uploads) - {path}
      ensures KeptBut(path, old(base), base)
      ensures AllSettling(old(world.own), world.own, path, heads, local, old(base))
      ensures forall i :: |old(world.own)| <= i < |world.own| ==> world.own[i].action.Remember?
      ensures old(Calm()) ==>
                && Calm() && !r.HttpError? && SameContents(old(world.store.Tables()), world.store.Tables())
                && RecordedOne(world.me, old(world.State()), world.State(), path, heads, local)
    {
      hide Initial, Exec, Announced, HeadInfos, Learnt, AllSettling, AllAnnounced;
      ghost var start := world.State();
      LearntNothing(start);
      SettlesNothing(world.own, path, heads, local, base);
      var same := set h | h in heads && local.Some? && h.sha256 == local.value.sha256 && h.size == local.value.size;
      assert forall h :: h in heads && Records(h, local, SpotAt(world.replicas[world.me], path)) ==> h in same;
      if same == {} { return Ok(()); }
      var acknowledged :| acknowledged in same;
      AllToOne(heads, acknowledged);
      r := Acknowledge(path, acknowledged);
      if r.Ok? { RecordSettles(old(world.own), world.own, path, acknowledged, heads, local, old(base)); }
    }

    lemma AllToOne(heads: set<HeadInfo>, h: HeadInfo)
      requires AllAnnounced(world.answers, heads) && h in heads
      ensures Announced(world.answers, h.path, BaseRow(h.revision, h.sha256))
    {
    }

    /** Several heads: one of them may be the local content, which is then recorded; the
        others are fetched, and the file stays. */
    method KeepCompeting(path: Path, heads: set<HeadInfo>, local: Option<FileEntry>) returns (r: Result<()>)
      requires Linked() && AllAnnounced(world.answers, heads) && forall h :: h in heads ==> h.path == path
      modifies this, world, world.store
      ensures Linked() && Learnt(old(world.State()), world.State()) && !r.Ok?
      ensures uploads == old(uploads) || uploads == old(uploads) - {path}
      ensures KeptBut(path, old(base), base)
      ensures AllSettling(old(world.own), world.own, path, heads, local, old(base))
      ensures forall i :: |old(world.own)| <= i < |world.own| ==> world.own[i].action.Remember?
      ensures old(Calm()) && heads <= HeadInfos(world.c, old(world.store.Tables())) ==>
                && Calm() && r.ClientError? && SameContents(old(world.store.Tables()), world.store.Tables())
                && RecordedOne(world.me, old(world.State()), world.State(), path, heads, local)
                && Copied(world.State(), set h | h in heads && DigestOf(local) != Some(h.sha256))
    {
      hide Initial, Exec, Announced, HeadInfos, Learnt, AllSettling, AllAnnounced, Undisturbed, RecordedOne,
          SameContents, Copied;
      ghost var start := world.State();
      r := RecordOne(path, heads, local);
      if r.HttpError? { return r; }
      ghost var middle := world.State();
      if old(Calm()) { SameInfos(world.c, start.db, world.store.Tables()); }
      r := ConflictCopies(heads, local);
      UndisturbedLearnt(middle, world.State());
      LearntOn(start, middle, world.State());
      if old(Calm()) && heads <= HeadInfos(world.c, start.db) {
        RecordedThen(world.me, start, middle, world.State(), path, heads, local);
      }
    }

    lemma RecordedThen(me: ReplicaId, s: Sys, m: Sys, s': Sys, path: Path, heads: set<HeadInfo>,
                       local: Option<FileEntry>)
      requires RecordedOne(me, s, m, path, heads, local) && s'.replicas == m.replicas
      ensures RecordedOne(me, s, s', path, heads, local)
    {
    }

    /** Competing versions are fetched for the recovery area; the file stays. */
    method ConflictCopies(heads: set<HeadInfo>, local: Option<FileEntry>) returns (r: Result<()>)
      requires Linked()
      modifies world, world.store
      ensures Linked() && Undisturbed(world.me, old(world.State()), world.State()) && world.own == old(world.own)
      ensures !r.Ok?
      ensures old(Calm()) && heads <= HeadInfos(world.c, old(world.store.Tables())) ==>
                && Calm() && r.ClientError? && world.replicas == old(world.replicas)
                && world.store.Tables() == old(world.store.Tables())
                && Copied(world.State(), set h | h in heads && DigestOf(local) != Some(h.sha256))
    {
      hide Initial, Exec, HeadInfos, Copied;
      ghost var calm := Calm() && heads <= HeadInfos(world.c, world.store.Tables());
      ghost var start := world.State();
      var rest := set h | h in heads && (local.None? || local.value.sha256 != h.sha256);
      ghost var copies, done := rest, {};
      NoneCopied(world.State());
      assert copies == set h | h in heads && DigestOf(local) != Some(h.sha256);
      while rest != {}
        invariant calm ==> Copied(world.State(), done)
        invariant done + rest == copies
        invariant rest <= heads && Linked() && Undisturbed(world.me, start, world.State())
        invariant world.own == old(world.own)
        invariant calm ==>
                    Calm() && world.replicas == start.replicas && world.store.Tables() == start.db
        decreases |rest|
      {
        var h :| h in rest;
        rest := rest - {h};
        ghost var middle := world.State();
        var copy := Download(h);
        UndisturbedOn(world.me, start, middle, world.State());
        if calm { OneMoreCopied(middle, world.State(), done, h); }
        done := done + {h};
        if copy.HttpError? { return HttpError; }
        if copy.ClientError? { return ClientError; }
      }
      assert done == copies;
      r := ClientError;
    }

    lemma NoneCopied(s: Sys)
      ensures Copied(s, {})
    {
    }

    lemma OneMoreCopied(s: Sys, s': Sys, done: set<HeadInfo>, h: HeadInfo)
      requires Copied(s, done) && Undisturbed(world.me, s, s') && s'.db == s.db && h.revision in s'.db.versions
      requires Answer(Fetch(h.revision), Content(s'.db.versions[h.revision].body)) in s'.answers
      ensures Copied(s', done + {h})
    {
    }

    /** The local bytes are read again before they are recorded as common. */
    method Acknowledge(path: Path, head: HeadInfo) returns (r: Result<()>)
      requires Linked() && Announced(world.answers, path, BaseRow(head.revision, head.sha256))
      modifies this, world, world.store
      ensures Linked() && Learnt(old(world.State()), world.State())
      ensures uploads == old(uploads) || uploads == old(uploads) - {path}
      ensures base == if r.Ok? then old(base)[path := BaseRow(head.revision, head.sha256)] else old(base)
      ensures r.Ok? ==> Wrote(old(world.own), world.own, Remember(world.me, path, BaseRow(head.revision, head.sha256)))
      ensures !r.Ok? ==> world.own == old(world.own)
      ensures old(Calm()) ==>
                && Calm() && !r.HttpError? && SameContents(old(world.store.Tables()), world.store.Tables())
                && Files() == old(Files()) && (r.Ok? <==> Digested(Got(old(Files()), path)) == Some(head.sha256))
                && (!r.Ok? ==> uploads == old(uploads)) && (r.Ok? ==> uploads == old(uploads) - {path})
    {
      hide Initial, Exec, Announced, Closed;
      LearntNothing(world.State());
      if old(Calm()) && path in uploads { ClosedIs(world.store.Tables(), Key(uploads[path].transfer)); }
      var files := world.replicas[world.me].files;
      if path !in files || Sha256(files[path]) != head.sha256 { return ClientError; }
      FileHeld(path);
      r := RememberHead(path, BaseRow(head.revision, head.sha256));
    }

    method InstallPath(path: Path, files: map<Path, FileEntry>, heads: set<HeadInfo>, ghost rest: set<Path>)
      returns (r: Result<()>)
      requires Linked() && NoOrphans(files) && AllAnnounced(world.answers, heads)
      requires exists h :: h in heads && h.path == path
      modifies this, world, world.store
      ensures Linked() && Learnt(old(world.State()), world.State()) && NoOrphans(files)
      ensures AllAnnounced(world.answers, heads)
      ensures r.Ok? && Settled(old(base), heads, rest + {path}) ==> Settled(base, heads, rest)
      ensures old(Calm()) && heads == HeadInfos(world.c, old(world.store.Tables())) ==>
                && Calm() && !r.HttpError?
                && OnePathEnds(world.me, old(world.State()), world.State(), path, HeadsAt(heads, path),
                               Got(files, path))
                && (r.Ok? <==>
                      TakesAt(world.me, old(world.State()), path, HeadsAt(heads, path), Got(files, path)))
    {
      hide Initial, Exec, HeadInfos, OnePathEnds, TakesAt, AllSettling, Announced;
      var mine := set h | h in heads && h.path == path;
      ghost var one :| one in heads && one.path == path;
      assert one in mine;
      r := InstallOne(path, mine, if path in files then Some(files[path]) else None);
      AnnouncedStay(old(world.State()), world.State(), heads);
      if r.Ok? {
        assert forall h :: h in heads && h.path == path ==> h in mine;
        SettledNext(old(base), base, heads, rest, path);
      }
    }

    /** A pass without an issue leaves every listed path at its one head. If nothing
        interferes every listed path is brought to its end, and there is no issue exactly if
        every one takes its head. */
    method InstallPass(files: map<Path, FileEntry>, heads: set<HeadInfo>) returns (r: Result<nat>)
      requires Linked() && NoOrphans(files) && AllAnnounced(world.answers, heads)
      modifies this, world, world.store
      ensures Linked() && Learnt(old(world.State()), world.State()) && NoOrphans(files)
      ensures !r.ClientError?
      ensures r == Ok(0) ==> Settled(base, heads, {})
      ensures old(Calm()) && heads == HeadInfos(world.c, old(world.store.Tables())) ==>
                && Calm() && r.Ok?
                && PathsEnd(world.me, old(world.State()), world.State(), files, heads, PathsOf(heads))
                && (r == Ok(0) <==> AllTake(world.me, old(world.State()), files, heads, PathsOf(heads)))
    {
      hide Initial, Exec, HeadInfos, OnePathEnds, TakesAt, Announced, Learnt, PathsEnd, AllTake, AllAnnounced;
      ghost var start := world.State();
      ghost var calm := Calm() && heads == HeadInfos(world.c, world.store.Tables());
      LearntNothing(start);
      NoPathYet(world.me, start, files, heads);
      var issues := 0;
      var paths := PathsOf(heads);
      var rest := paths;
      while rest != {}
        invariant rest <= paths && Linked() && Learnt(start, world.State()) && NoOrphans(files)
        invariant AllAnnounced(world.answers, heads)
        invariant issues == 0 ==> Settled(base, heads, rest)
        invariant calm ==>
                    && Calm() && heads == HeadInfos(world.c, world.store.Tables())
                    && PathsEnd(world.me, start, world.State(), files, heads, paths - rest)
                    && (issues == 0 <==> AllTake(world.me, start, files, heads, paths - rest))
        decreases |rest|
      {
        ghost var middle := world.State();
        var path :| path in rest;
        ghost var done := paths - rest;
        assert rest == (rest - {path}) + {path};
        assert done + {path} == paths - (rest - {path});
        rest := rest - {path};
        var settled := InstallPath(path, files, heads, rest);
        HeldStays(middle, world.State());
        LearntOn(start, middle, world.State());
        if calm {
          OneMorePath(world.me, start, middle, world.State(), files, heads, done, path);
          SamePathInfos(middle, world.State(), path, HeadsAt(heads, path), Got(files, path));
        }
        if settled.HttpError? { return HttpError; }
        if settled.ClientError? { issues := issues + 1; }
      }
      assert paths - rest == paths;
      r := Ok(issues);
    }

    lemma SamePathInfos(s: Sys, s': Sys, path: Path, heads: set<HeadInfo>, local: Option<FileEntry>)
      requires OnePathEnds(world.me, s, s', path, heads, local)
      ensures HeadInfos(world.c, s'.db) == HeadInfos(world.c, s.db)
    {
      SameInfos(world.c, s.db, s'.db);
    }

    /** One synchronisation round over an inventory of the local files, of which the
        discovery may have left some out. However it ends, the surroundings it ran in
        took only protocol steps; once pending rows were reconciled, none is left for
        content the inventory did not find; and a round without an issue leaves every
        inventoried content retained at the server, and every path of its last listing
        at its one head. */
    method SyncOnce(files: map<Path, FileEntry>)
      returns (r: Result<nat>, ghost listing: set<HeadInfo>, ghost reconciled: Sys)
      requires Linked() && forall p :: p in files ==> files[p].path == p
      modifies this, world, world.store
      ensures Linked() && Learnt(old(world.State()), world.State()) && Inv(world.c, world.State())
      ensures r.Ok? ==> NoOrphans(files)
      ensures r == Ok(0) ==>
                && AllStored(world.store.versions, files, {})
                && Answer(List, Listing(listing)) in world.answers && Settled(base, listing, {})
      ensures old(Calm()) ==>
                && Reconciled(world.c, world.me, old(world.State()), reconciled)
                && OnlyCurrent(old(uploads), files, reconciled)
                && (CanSend(world.c, world.me, reconciled, files, HeadInfos(world.c, reconciled.db)) ==>
                      && Calm() && r.Ok? && RoundEnds(world.c, world.me, reconciled, world.State(), files)
                      && (r == Ok(0) <==> AllFine(world.c, world.me, reconciled, files)))
      ensures old(NoOrphans(files)) ==> reconciled == old(world.State())
    {
      hide Initial, Exec, Learnt, CanSend, AllStored, HeadInfos, Settled, RoundEnds, AllFine, Reconciled, Inv;
      listing := {};
      ghost var start := world.State();
      LearntNothing(start);
      var digests := map p | p in files :: files[p].sha256;
      var closed := ReconcilePending(digests);
      reconciled := world.State();
      if closed.Ok? {
        r, listing := ExchangeFiles(files);
        LearntOn(start, reconciled, world.State());
      } else {
        r := if closed.ClientError? then ClientError else HttpError;
      }
      world.Reachable();
    }

    /** The rows that are left are those for the content the inventory found. */
    ghost predicate OnlyCurrent(rows: map<Path, PendingRow>, files: map<Path, FileEntry>, s: Sys) {
      && world.me in s.replicas
      && forall p :: Got(s.replicas[world.me].uploads, p) ==
           if p in rows && p in files && files[p].sha256 == rows[p].sha256 then Some(rows[p]) else None
    }

    /** What the server lacks is uploaded. */
    method SendFiles(files: map<Path, FileEntry>) returns (r: Result<nat>)
      requires Linked() && NoOrphans(files) && forall p :: p in files ==> files[p].path == p
      modifies this, world, world.store
      ensures Linked() && Learnt(old(world.State()), world.State()) && NoOrphans(files)
      ensures !r.ClientError?
      ensures r == Ok(0) ==> AllStored(world.store.versions, files, {})
      ensures old(Calm()) && CanSend(world.c, world.me, old(world.State()), files, old(Listed())) ==>
                && Calm() && r == Ok(0)
                && SentAll(world.c, world.me, old(world.State()), world.State(),
                           Sending0(old(world.State()), files, old(Listed())))
    {
      hide Initial, Exec, Learnt, CanSend, AllAnnounced, AllStored, ToSend, SentAll, HeadInfos, Undisturbed;
      ghost var start := world.State();
      var remote := ListFiles();
      UndisturbedLearnt(start, world.State());
      if !remote.Ok? { return HttpError; }
      ghost var middle := world.State();
      r := UploadPass(files, remote.value);
      LearntOn(start, middle, world.State());
      if old(Calm()) && CanSend(world.c, world.me, start, files, old(Listed())) {
        SameStart(start, middle, files, old(Listed()));
        SentSince(start, middle, world.State(), Sending0(start, files, old(Listed())));
      }
    }

    /** What the server would list now. */
    ghost function Listed(): set<HeadInfo> reads this, world, world.store {
      HeadInfos(world.c, world.store.Tables())
    }

    lemma SameStart(s: Sys, s': Sys, files: map<Path, FileEntry>, heads: set<HeadInfo>)
      requires s'.replicas == s.replicas && s'.db == s.db
      ensures CanSend(world.c, world.me, s, files, heads) ==> CanSend(world.c, world.me, s', files, heads)
      ensures Sending0(s', files, heads) == Sending0(s, files, heads)
    {
      hide SkipsUpload, Affordable, Prepared, Collides;
      if CanSend(world.c, world.me, s, files, heads) {
        forall p | p in Sending0(s, files, heads) ensures Prepared(world.c, world.me, s', p) {
          SamePrepared(s, s', p);
        }
      }
    }

    lemma SamePrepared(s: Sys, s': Sys, p: Path)
      requires s'.replicas == s.replicas && s'.db == s.db && world.me in s.replicas && p in s.replicas[world.me].files
      ensures Prepared(world.c, world.me, s, p) ==> Prepared(world.c, world.me, s', p)
    {
    }

    lemma SentSince(s: Sys, m: Sys, s': Sys, paths: set<Path>)
      requires m.replicas == s.replicas && m.db == s.db && SentAll(world.c, world.me, m, s', paths)
      ensures SentAll(world.c, world.me, s, s', paths)
    {
    }

    /** What the server has is installed, over a new listing. */
    method TakeFiles(files: map<Path, FileEntry>) returns (r: Result<nat>, ghost listing: set<HeadInfo>)
      requires Linked() && NoOrphans(files)
      modifies this, world, world.store
      ensures Linked() && Learnt(old(world.State()), world.State()) && NoOrphans(files)
      ensures !r.ClientError?
      ensures r == Ok(0) ==> Answer(List, Listing(listing)) in world.answers && Settled(base, listing, {})
      ensures old(AllStored(world.store.versions, files, {})) ==> AllStored(world.store.versions, files, {})
      ensures old(Calm()) ==>
                && Calm() && r.Ok? && listing == old(Listed())
                && PathsEnd(world.me, old(world.State()), world.State(), files, listing, PathsOf(listing))
                && (r == Ok(0) <==> AllTake(world.me, old(world.State()), files, listing, PathsOf(listing)))
    {
      hide Initial, Exec, Learnt, AllAnnounced, AllStored, HeadInfos, Undisturbed, PathsEnd, AllTake;
      listing := {};
      ghost var start := world.State();
      var remote := ListFiles();
      UndisturbedLearnt(start, world.State());
      if !remote.Ok? {
        StayStored(start, world.State(), files);
        return HttpError, listing;
      }
      listing := remote.value;
      ghost var middle := world.State();
      r := InstallPass(files, remote.value);
      HeldStays(middle, world.State());
      LearntOn(start, middle, world.State());
      StayStored(start, world.State(), files);
      if old(Calm()) { EndSince(start, middle, world.State(), files, listing); }
    }

    lemma StayStored(s: Sys, s': Sys, files: map<Path, FileEntry>)
      requires Learnt(s, s')
      ensures AllStored(s.db.versions, files, {}) ==> AllStored(s'.db.versions, files, {})
    {
      AllStay(s.db.versions, s'.db.versions, files, {});
    }

    lemma EndSince(s: Sys, m: Sys, s': Sys, files: map<Path, FileEntry>, heads: set<HeadInfo>)
      requires m.replicas == s.replicas && m.db == s.db && PathsEnd(world.me, m, s', files, heads, PathsOf(heads))
      ensures PathsEnd(world.me, s, s', files, heads, PathsOf(heads))
      ensures AllTake(world.me, m, files, heads, PathsOf(heads)) <==> AllTake(world.me, s, files, heads, PathsOf(heads))
    {
      hide PathEnds, Takes;
    }

    method ExchangeFiles(files: map<Path, FileEntry>) returns (r: Result<nat>, ghost listing: set<HeadInfo>)
      requires Linked() && NoOrphans(files) && forall p :: p in files ==> files[p].path == p
      modifies this, world, world.store
      ensures Linked() && Learnt(old(world.State()), world.State()) && NoOrphans(files)
      ensures !r.ClientError?
      ensures r == Ok(0) ==>
                && AllStored(world.store.versions, files, {})
                && Answer(List, Listing(listing)) in world.answers && Settled(base, listing, {})
      ensures old(Calm()) && CanSend(world.c, world.me, old(world.State()), files, old(Listed())) ==>
                && Calm() && r.Ok? && RoundEnds(world.c, world.me, old(world.State()), world.State(), files)
                && (r == Ok(0) <==> AllFine(world.c, world.me, old(world.State()), files))
    {
      hide Initial, Exec, Learnt, CanSend, AllStored, SentAll, HeadInfos, PathsEnd, AllTake, Settled, ToSend, RoundEnds,
           AllFine, HeadsRetained, PathsOf;
      ghost var start := world.State();
      HeadsAreRetained();
      listing := {};
      var sent := SendFiles(files);
      if !sent.Ok? { return HttpError, listing; }
      ghost var middle := world.State();
      var taken;
      taken, listing := TakeFiles(files);
      LearntOn(start, middle, world.State());
      if old(Calm()) && CanSend(world.c, world.me, start, files, old(Listed())) {
        RoundIs(world.c, world.me, start, middle, world.State(), files);
        FineTakes(world.c, world.me, start, middle, files);
      }
      if !taken.Ok? { return HttpError, listing; }
      r := Ok(sent.value + taken.value);
    }

    lemma HeadsAreRetained()
      requires Linked()
      ensures HeadsRetained(world.c, world.store.Tables())
    {
      ValidNow();
      forall h: Head | h in world.store.heads
        ensures IsVersionOf(world.store.versions, h.project, h.path, h.revision)
        ensures Verified(world.store.versions[h.revision])
      {
        HeadIs(world.c.fold, world.store.Tables(), h);
      }
    }
  }
}
