/** A row of a replica's durable table and the server's row of the same transfer are for
    the same file, content and base, in every behaviour of the protocol. */
module PendingRows {
  import opened Common
  import opened Paths
  import opened StoreModel
  import opened StoreInvariant
  import opened StoreHistory
  import opened Replication

  /** A transfer identifier stands in one row of one replica. */
  ghost predicate OneRowEach(replicas: Replicas) {
    forall w, p, v, q :: w in replicas && p in replicas[w].uploads && v in replicas && q in replicas[v].uploads ==>
      (replicas[w].uploads[p].transfer == replicas[v].uploads[q].transfer ==> w == v && p == q)
  }

  /** A begin that names it was for that row. */
  ghost predicate BeginsMatch(replicas: Replicas, sent: set<Request>) {
    forall w, p, q :: w in replicas && p in replicas[w].uploads && q in sent && q.Begin? ==>
      (q.transfer == replicas[w].uploads[p].transfer ==>
         q.path == p && PendingRow(q.sha256, q.base, q.transfer) == replicas[w].uploads[p])
  }

  predicate RowMatches(u: Upload, path: Path, row: PendingRow) {
    u.path == path && u.sha256 == row.sha256 && u.base == row.base
  }

  /** The server's row of it, unless canceled, is for that file. */
  ghost predicate ServerMatches(c: Config, uploads: Uploads, replicas: Replicas) {
    forall w, p :: w in replicas && p in replicas[w].uploads ==>
      var row := replicas[w].uploads[p];
      var k := TransferKey(c.project, row.transfer);
      k in uploads && !uploads[k].state.Aborted? ==> RowMatches(uploads[k], p, row)
  }

  /** A row's base is the common version there is. */
  predicate OnBase(r: Replica) { forall p :: p in r.uploads ==> r.uploads[p].base == BaseOf(r, p) }

  ghost predicate AllOnBase(replicas: Replicas) { forall w :: w in replicas ==> OnBase(replicas[w]) }

  ghost predicate Matching(c: Config, sys: Sys) {
    && OneRowEach(sys.replicas) && BeginsMatch(sys.replicas, sys.sent)
    && ServerMatches(c, sys.db.uploads, sys.replicas) && AllOnBase(sys.replicas)
  }

  /** A transaction opens no row of these transfers but as announced. */
  ghost predicate OpensAs(c: Config, replicas: Replicas, op: Op) {
    op.OpStart? && op.project == c.project ==>
      forall w, p :: w in replicas && p in replicas[w].uploads && replicas[w].uploads[p].transfer == op.transfer ==>
        op.path == p && op.sha256 == replicas[w].uploads[p].sha256 && op.base == replicas[w].uploads[p].base
  }

  lemma RowAfter(fold: Folding, db: Db, op: Op, k: TransferKey)
    requires k in Apply(fold, db, op).uploads && !Apply(fold, db, op).uploads[k].state.Aborted?
    ensures var u := Apply(fold, db, op).uploads[k];
            if k in db.uploads then
              !db.uploads[k].state.Aborted? && u.path == db.uploads[k].path && u.sha256 == db.uploads[k].sha256
              && u.base == db.uploads[k].base
            else op.OpStart? && k == TransferKey(op.project, op.transfer) && u.path == op.path && u.sha256 == op.sha256
                 && u.base == op.base
  {
  }

  lemma OpMatches(c: Config, db: Db, replicas: Replicas, op: Op)
    requires ServerMatches(c, db.uploads, replicas) && OpensAs(c, replicas, op)
    ensures ServerMatches(c, Apply(c.fold, db, op).uploads, replicas)
  {
    hide Apply;
    var after := Apply(c.fold, db, op).uploads;
    forall w, p | w in replicas && p in replicas[w].uploads
      ensures var row := replicas[w].uploads[p];
              var k := TransferKey(c.project, row.transfer);
              k in after && !after[k].state.Aborted? ==> RowMatches(after[k], p, row)
    {
      var k := TransferKey(c.project, replicas[w].uploads[p].transfer);
      if k in after && !after[k].state.Aborted? { RowAfter(c.fold, db, op, k); }
    }
  }

  lemma DeliverMatches(c: Config, sys: Sys, request: Request, revision: Id)
    requires Matching(c, sys) && request in sys.sent
    ensures Matching(c, Effect(c, sys, Deliver(request, revision)))
  {
    hide Serve;
    ServedDb(c, sys.db, request, revision);
    var op := OpOf(c, request, revision);
    if op.Some? { OpMatches(c, sys.db, sys.replicas, op.value); }
  }

  lemma OperateMatches(c: Config, sys: Sys, op: Op)
    requires Matching(c, sys) && OwnersOk(sys.replicas, sys.owner) && Enabled(c, sys, Operate(op))
    ensures Matching(c, Effect(c, sys, Operate(op)))
  {
    OpMatches(c, sys.db, sys.replicas, op);
  }

  lemma SendMatches(c: Config, sys: Sys, w: ReplicaId, request: Request)
    requires Matching(c, sys) && Enabled(c, sys, Send(w, request))
    ensures Matching(c, Effect(c, sys, Send(w, request)))
  {
    if request.Begin? {
      var row := sys.replicas[w].uploads[request.path];
      forall v, p | v in sys.replicas && p in sys.replicas[v].uploads
          && sys.replicas[v].uploads[p].transfer == row.transfer
        ensures v == w && p == request.path
      {
      }
    }
  }

  /** A replica that lists fewer rows. */
  lemma FewerRows(c: Config, sys: Sys, w: ReplicaId, r: Replica)
    requires Matching(c, sys) && w in sys.replicas
    requires forall p :: p in r.uploads ==> p in sys.replicas[w].uploads && r.uploads[p] == sys.replicas[w].uploads[p]
    requires forall p :: p in r.uploads ==> BaseOf(r, p) == BaseOf(sys.replicas[w], p)
    ensures Matching(c, Put(sys, w, r))
  {
    var after := Put(sys, w, r);
    assert OnBase(sys.replicas[w]);
    forall v, p | v in after.replicas && p in after.replicas[v].uploads
      ensures v in sys.replicas && p in sys.replicas[v].uploads
              && after.replicas[v].uploads[p] == sys.replicas[v].uploads[p]
    {
    }
  }

  /** A new row has an identifier nobody used. */
  ghost predicate Unheard(c: Config, sys: Sys, t: Id) {
    && (forall v, p :: v in sys.replicas && p in sys.replicas[v].uploads ==> sys.replicas[v].uploads[p].transfer != t)
    && (forall q :: q in sys.sent && q.Begin? ==> q.transfer != t)
    && TransferKey(c.project, t) !in sys.db.uploads
  }

  lemma NewIsUnheard(c: Config, sys: Sys, w: ReplicaId, path: Path, row: PendingRow)
    requires Inv(c, sys) && Enabled(c, sys, Persist(w, path, row))
    ensures Unheard(c, sys, row.transfer)
  {
    forall q | q in sys.sent && q.Begin? ensures q.transfer != row.transfer {
      assert RequestOk(c, sys.db.versions, sys.replicas, sys.owner, q);
    }
  }

  lemma PersistMatches(c: Config, sys: Sys, w: ReplicaId, path: Path, row: PendingRow)
    requires Unheard(c, sys, row.transfer) && Matching(c, sys) && Enabled(c, sys, Persist(w, path, row))
    ensures Matching(c, Effect(c, sys, Persist(w, path, row)))
  {
    var after := Effect(c, sys, Persist(w, path, row));
    assert OnBase(sys.replicas[w]);
    forall v, p | v in after.replicas && p in after.replicas[v].uploads
      ensures if v == w && p == path then after.replicas[v].uploads[p] == row
              else v in sys.replicas && p in sys.replicas[v].uploads
                   && after.replicas[v].uploads[p] == sys.replicas[v].uploads[p]
    {
    }
  }

  lemma StepMatches(c: Config, sys: Sys, a: Action)
    requires Inv(c, sys) && Matching(c, sys)
    ensures Matching(c, Step(c, sys, a))
  {
    hide Inv, Matching;
    if Enabled(c, sys, a) {
      match a
      case Send(w, request) => SendMatches(c, sys, w, request);
      case Deliver(request, revision) => DeliverMatches(c, sys, request, revision);
      case Operate(op) =>
        OwnersAre(c, sys);
        OperateMatches(c, sys, op);
      case Edit(w, path, content) => FewerRows(c, sys, w, Edited(sys.replicas[w], path, content));
      case Persist(w, path, row) =>
        NewIsUnheard(c, sys, w, path, row);
        PersistMatches(c, sys, w, path, row);
      case Remember(w, path, row) => FewerRows(c, sys, w, Remembered(sys.replicas[w], path, row));
      case Forget(w, path) =>
        FewerRows(c, sys, w, sys.replicas[w].(uploads := sys.replicas[w].uploads - {path}));
      case Install(w, path, revision, body) => FewerRows(c, sys, w, Place(sys.replicas[w], path, body));
    }
  }

  lemma OwnersAre(c: Config, sys: Sys)
    requires Inv(c, sys)
    ensures OwnersOk(sys.replicas, sys.owner)
  {
  }

  lemma {:induction false} ExecMatches(c: Config, sys: Sys, actions: seq<Action>)
    requires Inv(c, sys) && Matching(c, sys)
    ensures Matching(c, Exec(c, sys, actions))
    decreases |actions|
  {
    if actions != [] {
      StepMatches(c, sys, actions[0]);
      StepKeeps(c, sys, actions[0]);
      ExecMatches(c, Step(c, sys, actions[0]), actions[1..]);
    }
  }

  lemma InitialMatches(c: Config, sys: Sys)
    requires Initial(c, sys)
    ensures Matching(c, sys)
  {
  }

  /** What the server holds, or has published, under the transfer of a replica's row is that
      row's file, content and base; so the receipt of a transfer committed behind the
      replica's back is always for the row that asks. */
  lemma PendingIsTheServers(c: Config, init: Sys, actions: seq<Action>, w: ReplicaId, path: Path)
    requires Initial(c, init)
    requires var s := Exec(c, init, actions); w in s.replicas && path in s.replicas[w].uploads
    ensures var s := Exec(c, init, actions);
            var row := s.replicas[w].uploads[path];
            var k := TransferKey(c.project, row.transfer);
            && row.base == BaseOf(s.replicas[w], path)
            && (k in s.db.uploads && !s.db.uploads[k].state.Aborted? ==> RowMatches(s.db.uploads[k], path, row))
            && (k in s.db.uploads && s.db.uploads[k].state.Committed? ==>
                  var receipt := s.db.uploads[k].receipt;
                  receipt.Some?
                      && receipt == Some(Receipt(receipt.value.revision, path, row.sha256, s.db.uploads[k].size,
                                          c.project, row.transfer)))
            && (forall v, p :: v in s.replicas && p in s.replicas[v].uploads ==>
                  (s.replicas[v].uploads[p].transfer == row.transfer ==> v == w && p == path))
  {
    InitialInv(c, init);
    InitialMatches(c, init);
    ExecKeeps(c, init, actions);
    ExecMatches(c, init, actions);
    MatchedReceipt(c, Exec(c, init, actions), w, path);
  }

  lemma MatchedReceipt(c: Config, s: Sys, w: ReplicaId, path: Path)
    requires Inv(c, s) && Matching(c, s) && w in s.replicas && path in s.replicas[w].uploads
    ensures var row := s.replicas[w].uploads[path];
            var k := TransferKey(c.project, row.transfer);
            && row.base == BaseOf(s.replicas[w], path)
            && (k in s.db.uploads && !s.db.uploads[k].state.Aborted? ==> RowMatches(s.db.uploads[k], path, row))
            && (k in s.db.uploads && s.db.uploads[k].state.Committed? ==>
                  && s.db.uploads[k].receipt.Some?
                  && var receipt := s.db.uploads[k].receipt.value;
                     receipt ==
                         Receipt(receipt.revision, path, row.sha256, s.db.uploads[k].size, c.project, row.transfer))
  {
    var k := TransferKey(c.project, s.replicas[w].uploads[path].transfer);
    assert OnBase(s.replicas[w]);
    if k in s.db.uploads { assert UploadOk(s.db.versions, s.db.chunks, k, s.db.uploads[k]); }
  }
}
