/** What every behaviour of the replica protocol guarantees. */
module ReplicationResults {
  import opened Common
  import opened Paths
  import opened StoreModel
  import opened StoreInvariant
  import opened StoreHistory
  import opened Replication

  lemma StepLater(c: Config, sys: Sys, a: Action)
    ensures Later(sys.db, Step(c, sys, a).db)
    ensures forall t :: t in sys.owner ==> t in Step(c, sys, a).owner
  {
    if Enabled(c, sys, a) {
      match a
      case Deliver(request, revision) =>
        ServedDb(c, sys.db, request, revision);
        var op := OpOf(c, request, revision);
        if op.Some? { ApplyLater(c.fold, sys.db, op.value); }
      case Operate(op) => ApplyLater(c.fold, sys.db, op);
      case _ =>
    }
  }

  lemma {:induction false} ExecLater(c: Config, sys: Sys, actions: seq<Action>)
    ensures Later(sys.db, Exec(c, sys, actions).db)
    ensures forall t :: t in sys.owner ==> t in Exec(c, sys, actions).owner
    decreases |actions|
  {
    if actions != [] {
      StepLater(c, sys, actions[0]);
      ExecLater(c, Step(c, sys, actions[0]), actions[1..]);
      LaterTransitive(sys.db, Step(c, sys, actions[0]).db, Exec(c, sys, actions).db);
    }
  }

  /** Nothing a replica allocated is ever orphaned: what the server still holds as
      receiving is in its owner's durable table, and what the owner dropped from
      the table is over. */
  lemma TransferClosure(c: Config, init: Sys, actions: seq<Action>, t: Id)
    requires Initial(c, init) && t in Exec(c, init, actions).owner
    ensures var s := Exec(c, init, actions);
            var k := TransferKey(c.project, t);
            && s.owner[t] in s.replicas
            && (k in s.db.uploads && s.db.uploads[k].state.Receiving? ==> Pending(s.replicas[s.owner[t]], t))
            && (!Pending(s.replicas[s.owner[t]], t) ==> Over(c, s.db.uploads, t))
  {
    InitialInv(c, init);
    ExecKeeps(c, init, actions);
  }

  /** A forgotten transfer stays over: whatever arrives later, in any order, its row
      is not touched again and it never reserves a byte. */
  lemma ForgottenForever(c: Config, init: Sys, actions: seq<Action>, later: seq<Action>, t: Id)
    requires Initial(c, init)
    requires var s := Exec(c, init, actions);
             t in s.owner && s.owner[t] in s.replicas && !Pending(s.replicas[s.owner[t]], t)
    ensures var s := Exec(c, init, actions);
            var s' := Exec(c, s, later);
            var k := TransferKey(c.project, t);
            && k in s.db.uploads && k in s'.db.uploads && s'.db.uploads[k] == s.db.uploads[k]
            && k !in ReservedSizes(s'.db.uploads)
  {
    TransferClosure(c, init, actions, t);
    var s := Exec(c, init, actions);
    ExecLater(c, s, later);
    var k := TransferKey(c.project, t);
    assert RowLater(s.db.uploads[k], Exec(c, s, later).db.uploads[k]);
  }

  /** However often its requests were repeated, a transfer yields one version at
      most, and a version comes from one transfer. */
  lemma OneVersionEach(c: Config, init: Sys, actions: seq<Action>, k: TransferKey, l: TransferKey, r: Id, r': Id)
    requires Initial(c, init)
    ensures var uploads := Exec(c, init, actions).db.uploads;
            && (Published(uploads, k, r) && Published(uploads, k, r') ==> r == r')
            && (Published(uploads, k, r) && Published(uploads, l, r) ==> k == l)
  {
    InitialInv(c, init);
    ExecKeeps(c, init, actions);
  }

  /** A base row always names a retained version of its path, with its digest, whose
      bytes this replica itself once had there. */
  lemma BaseIsHeldVersion(c: Config, init: Sys, actions: seq<Action>, w: ReplicaId, path: Path)
    requires Initial(c, init)
    requires w in Exec(c, init, actions).replicas && path in Exec(c, init, actions).replicas[w].base
    ensures var s := Exec(c, init, actions);
            var row := s.replicas[w].base[path];
            && IsVersionOf(s.db.versions, c.project, path, row.revision)
            && Sha256(s.db.versions[row.revision].body) == row.sha256
            && Held(path, row.sha256) in s.replicas[w].held
  {
    InitialInv(c, init);
    ExecKeeps(c, init, actions);
    var s := Exec(c, init, actions);
    assert ReplicaOk(c, s.db.versions, s.replicas[w]);
  }

  /** An install only ever replaces bytes the server retains as a version of that
      very path. */
  lemma InstallReplacesRetained(c: Config, init: Sys, actions: seq<Action>, w: ReplicaId, path: Path, revision: Id,
                                body: Bytes)
    requires Initial(c, init)
    requires var s := Exec(c, init, actions);
             Enabled(c, s, Install(w, path, revision, body)) && path in s.replicas[w].files
    ensures var s := Exec(c, init, actions);
            exists r :: IsVersionOf(s.db.versions, c.project, path, r)
                && s.db.versions[r].body == s.replicas[w].files[path]
  {
    var s := Exec(c, init, actions);
    BaseIsHeldVersion(c, init, actions, w, path);
    var r := s.replicas[w].base[path].revision;
    assert Sha256(s.db.versions[r].body) == Sha256(s.replicas[w].files[path]);
  }

  lemma HeadLoss(c: Config, db: Db, request: Request, revision: Id, h: Head)
    requires h in db.heads && h !in Serve(c, db, request, revision).0.heads
    ensures request.Commit? && TransferKey(c.project, request.transfer) in db.uploads
    ensures var u := db.uploads[TransferKey(c.project, request.transfer)];
            u.base == Some(h.revision) && h == Head(c.project, u.path, h.revision)
  {
    ServedDb(c, db, request, revision);
    assert request.Commit?;
  }

  /** A request that removes a head removes one version only, of the file being
      uploaded; and when a replica authored the transfer, it had held that version. */
  lemma CommitSparesUnseen(c: Config, init: Sys, actions: seq<Action>, request: Request, revision: Id, h: Head)
    requires Initial(c, init)
    requires var s := Exec(c, init, actions);
             h in s.db.heads && h !in Serve(c, s.db, request, revision).0.heads
    ensures var s := Exec(c, init, actions);
            && request.Commit? && TransferKey(c.project, request.transfer) in s.db.uploads
            && s.db.uploads[TransferKey(c.project, request.transfer)].base == Some(h.revision)
            && h.revision in s.db.versions
            && (request.transfer in s.owner ==>
                  && s.owner[request.transfer] in s.replicas
                  && Held(h.path, s.db.versions[h.revision].sha256) in s.replicas[s.owner[request.transfer]].held)
  {
    InitialInv(c, init);
    ExecKeeps(c, init, actions);
    var s := Exec(c, init, actions);
    HeadLoss(c, s.db, request, revision, h);
    assert IsVersionOf(s.db.versions, h.project, h.path, h.revision);
  }
}
