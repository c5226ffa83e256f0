/** The file replica protocol as a state machine: one server store, any number of
    replicas with durable tables, users editing files, other people using the same
    store, and a network that loses, delays, reorders and repeats requests and
    answers. A crash loses only what is not in this state, so it is no action. */
module Replication {
  import opened Common
  import opened Paths
  import opened StoreModel
  import opened StoreInvariant
  import opened StoreHistory

  type ReplicaId = nat

  datatype Config = Config(fold: Folding, project: Id)

  datatype BaseRow = BaseRow(revision: Id, sha256: Digest)
  datatype PendingRow = PendingRow(sha256: Digest, base: Option<Id>, transfer: Id)
  datatype Held = Held(path: Path, sha256: Digest)

  /** `files` is the user's directory, `base` and `uploads` the durable checkpoint;
      `held` records every content that was ever at a path here. */
  datatype Replica = Replica(files: map<Path, Bytes>, base: map<Path, BaseRow>,
                             uploads: map<Path, PendingRow>, held: set<Held>)

  datatype Request =
    | Begin(transfer: Id, path: Path, size: int, sha256: Digest, base: Option<Id>)
    | Chunk(transfer: Id, offset: int, data: Bytes)
    | Commit(transfer: Id)
    | Abort(transfer: Id)
    | Query(transfer: Id)
    | List
    | Fetch(revision: Id)

  datatype HeadInfo = HeadInfo(path: Path, revision: Id, sha256: Digest, size: nat)

  datatype Reply =
    | Progress(status: UploadStatus)
    | Committal(receipt: Receipt)
    | Listing(heads: set<HeadInfo>)
    | Content(body: Bytes)
    | Failure(reason: Refusal)

  datatype Answer = Answer(request: Request, reply: Reply)

  /** `owner` records which replica allocated a transfer id; `sent` and `answers`
      are everything ever put on the wire, from where it may arrive at any time. */
  datatype Sys = Sys(db: Db, replicas: map<ReplicaId, Replica>, owner: map<Id, ReplicaId>,
                     sent: set<Request>, answers: set<Answer>)

  // --------------------------------------------------------------- the server

  ghost function ProgressOf(tx: Tx<UploadStatus>): (Db, Reply) {
    (tx.db, if tx.out.Done? then Progress(tx.out.value) else Failure(tx.out.reason))
  }

  function InfoOf(versions: map<Id, Version>, h: Head): HeadInfo requires h.revision in versions {
    HeadInfo(h.path, h.revision, versions[h.revision].sha256, versions[h.revision].size)
  }

  /** What one arriving request does and answers; `revision` is the id a commit
      would draw. */
  ghost function Serve(c: Config, db: Db, request: Request, revision: Id): (Db, Reply) {
    match request
    case Begin(t, path, size, sha, base) => ProgressOf(StartUpload(c.fold, db, c.project, t, path, size, sha, base))
    case Chunk(t, offset, data) => ProgressOf(AppendChunk(db, c.project, t, offset, data))
    case Abort(t) => ProgressOf(AbortUpload(db, c.project, t))
    case Query(t) => ProgressOf(Tx(db, UploadStatusOf(db, c.project, t)))
    case Commit(t) =>
      var tx := FinishUpload(db, c.project, t, revision);
      (tx.db, if tx.out.Done? then Committal(tx.out.value) else Failure(tx.out.reason))
    case List =>
      (db, if c.project in db.projects then Listing(set h | h in LiveHeads(db, c.project) :: InfoOf(db.versions, h))
           else Failure(NotFound))
    case Fetch(r) =>
      var out := ReadRevision(db, c.project, r);
      (db, if out.Done? then Content(out.value) else Failure(out.reason))
  }

  // -------------------------------------------------------------- the actions

  datatype Action =
    | Send(who: ReplicaId, request: Request)
    | Deliver(request: Request, revision: Id)
    | Operate(op: Op)
    | Edit(who: ReplicaId, path: Path, content: Option<Bytes>)
    | Persist(who: ReplicaId, path: Path, row: PendingRow)
    | Remember(who: ReplicaId, path: Path, base: BaseRow)
    | Forget(who: ReplicaId, path: Path)
    | Install(who: ReplicaId, path: Path, revision: Id, body: Bytes)

  predicate Pending(r: Replica, t: Id) {
    exists p :: p in r.uploads && r.uploads[p].transfer == t
  }

  /** Proof in hand that a transfer is over: an answer said committed or aborted. */
  predicate Terminated(answers: set<Answer>, t: Id) {
    exists a :: a in answers && a.reply.Progress? && a.reply.status.transfer == t && !a.reply.status.state.Receiving?
  }

  predicate MayReplace(sys: Sys, r: Replica, path: Path) {
    path in r.uploads ==> Terminated(sys.answers, r.uploads[path].transfer)
  }

  /** The server said this revision is, or was, a version of the path: in a file
      listing, or in the receipt of a transfer. */
  predicate Announced(answers: set<Answer>, path: Path, row: BaseRow) {
    || (exists a, i :: a in answers && a.reply.Listing? && i in a.reply.heads
          && i.path == path && i.revision == row.revision && i.sha256 == row.sha256)
    || (exists a :: a in answers && a.reply.Progress? && a.reply.status.state.Committed? && a.reply.status.receipt.Some?
          && a.reply.status.receipt.value.path == path && a.reply.status.receipt.value.revision == row.revision
          && a.reply.status.receipt.value.sha256 == row.sha256)
  }

  function BaseOf(r: Replica, path: Path): Option<Id> {
    if path in r.base then Some(r.base[path].revision) else None
  }

  /** When each action is possible. Requests are unconstrained, except that a begin
      is only sent for a row already in the durable table; other users cannot guess
      a replica's transfer id. */
  predicate Enabled(c: Config, sys: Sys, a: Action) {
    match a
    case Send(w, request) =>
      && w in sys.replicas
      && (request.Begin? ==>
            && request.path in sys.replicas[w].uploads
            && sys.replicas[w].uploads[request.path] == PendingRow(request.sha256, request.base, request.transfer))
    case Deliver(request, _) => request in sys.sent
    case Operate(op) => op.OpStart? && op.project == c.project ==> op.transfer !in sys.owner
    case Edit(w, _, _) => w in sys.replicas
    case Persist(w, path, row) =>
      && w in sys.replicas && MayReplace(sys, sys.replicas[w], path)
      && row.transfer !in sys.owner && TransferKey(c.project, row.transfer) !in sys.db.uploads
      && Held(path, row.sha256) in sys.replicas[w].held && row.base == BaseOf(sys.replicas[w], path)
    case Remember(w, path, row) =>
      && w in sys.replicas && MayReplace(sys, sys.replicas[w], path)
      && Announced(sys.answers, path, row) && Held(path, row.sha256) in sys.replicas[w].held
    case Forget(w, path) =>
      w in sys.replicas && path in sys.replicas[w].uploads && MayReplace(sys, sys.replicas[w], path)
    case Install(w, path, revision, body) =>
      && w in sys.replicas && Announced(sys.answers, path, BaseRow(revision, Sha256(body)))
      && var r := sys.replicas[w];
         path in r.files ==> path in r.base && Sha256(r.files[path]) == r.base[path].sha256
  }

  ghost function Put(sys: Sys, w: ReplicaId, r: Replica): Sys {
    sys.(replicas := sys.replicas[w := r])
  }

  /** `INSERT OR REPLACE INTO uploads`, and the allocation it stands for. */
  ghost function Listed(sys: Sys, w: ReplicaId, path: Path, row: PendingRow): Sys requires w in sys.replicas {
    var r := sys.replicas[w];
    Put(sys, w, r.(uploads := r.uploads[path := row])).(owner := sys.owner[row.transfer := w])
  }

  /** `DELETE FROM uploads`. */
  ghost function Unlisted(sys: Sys, w: ReplicaId, path: Path): Sys requires w in sys.replicas {
    var r := sys.replicas[w];
    Put(sys, w, r.(uploads := r.uploads - {path}))
  }

  function Place(r: Replica, path: Path, body: Bytes): Replica {
    r.(files := r.files[path := body], held := r.held + {Held(path, Sha256(body))})
  }

  function Edited(r: Replica, path: Path, content: Option<Bytes>): Replica {
    if content.None? then r.(files := r.files - {path}) else Place(r, path, content.value)
  }

  ghost function Effect(c: Config, sys: Sys, a: Action): Sys requires Enabled(c, sys, a) {
    match a
    case Send(_, request) => sys.(sent := sys.sent + {request})
    case Deliver(request, revision) =>
      var (db, reply) := Serve(c, sys.db, request, revision);
      sys.(db := db, answers := sys.answers + {Answer(request, reply)})
    case Operate(op) => sys.(db := Apply(c.fold, sys.db, op))
    case Edit(w, path, content) =>
      Put(sys, w, Edited(sys.replicas[w], path, content))
    case Persist(w, path, row) => Listed(sys, w, path, row)
    case Remember(w, path, row) =>
      var r := sys.replicas[w];
      Put(sys, w, r.(base := r.base[path := row], uploads := r.uploads - {path}))
    case Forget(w, path) => Unlisted(sys, w, path)
    case Install(w, path, _, body) =>
      Put(sys, w, Place(sys.replicas[w], path, body))
  }

  ghost function Step(c: Config, sys: Sys, a: Action): Sys {
    if Enabled(c, sys, a) then Effect(c, sys, a) else sys
  }

  /** Every behaviour is some list of actions; a disabled one does nothing. */
  ghost function Exec(c: Config, sys: Sys, actions: seq<Action>): Sys
    decreases |actions|
  {
    if actions == [] then sys else Exec(c, Step(c, sys, actions[0]), actions[1..])
  }

  // ------------------------------------------------------------- the invariant

  type Replicas = map<ReplicaId, Replica>
  type Owners = map<Id, ReplicaId>

  ghost predicate OwnersOk(replicas: Replicas, owner: Owners) {
    && (forall t :: t in owner ==> owner[t] in replicas)
    && (forall w, p :: w in replicas && p in replicas[w].uploads ==>
          replicas[w].uploads[p].transfer in owner && owner[replicas[w].uploads[p].transfer] == w)
  }

  ghost predicate Over(c: Config, uploads: Uploads, t: Id) {
    var k := TransferKey(c.project, t);
    k in uploads && Terminal(uploads[k])
  }

  /** Every transfer id a replica ever allocated is still in its durable table, or
      over at the server. */
  ghost predicate Accounted(c: Config, uploads: Uploads, replicas: Replicas, owner: Owners) {
    forall t :: t in owner ==> owner[t] in replicas && (Pending(replicas[owner[t]], t) || Over(c, uploads, t))
  }

  function TransferOf(request: Request): Option<Id> {
    if request.List? || request.Fetch? then None else Some(request.transfer)
  }

  /** The transfer's row is for the file the begin was for. */
  ghost predicate Describes(c: Config, uploads: Uploads, q: Request) requires q.Begin? {
    var k := TransferKey(c.project, q.transfer);
    k in uploads && uploads[k].path == q.path && uploads[k].sha256 == q.sha256 && uploads[k].base == q.base
  }

  ghost predicate AnswerOk(c: Config, db: Db, a: Answer) {
    match a.reply
    case Progress(s) =>
      && TransferOf(a.request) == Some(s.transfer)
      && (!s.state.Receiving? ==>
            var k := TransferKey(c.project, s.transfer);
            k in db.uploads && db.uploads[k].state == s.state && db.uploads[k].receipt == s.receipt)
      && (a.request.Begin? && !s.state.Aborted? ==> Describes(c, db.uploads, a.request))
    case Committal(r) =>
      && TransferOf(a.request) == Some(r.transfer)
      && var k := TransferKey(c.project, r.transfer);
         k in db.uploads && db.uploads[k].state.Committed? && db.uploads[k].receipt == Some(r)
    case Listing(heads) => forall i :: i in heads ==> InfoOk(c, db.versions, i)
    case Content(body) => a.request.Fetch? ==>
        a.request.revision in db.versions && db.versions[a.request.revision].body == body
    case Failure(_) => true
  }

  ghost predicate InfoOk(c: Config, versions: Versions, i: HeadInfo) {
    && IsVersionOf(versions, c.project, i.path, i.revision)
    && versions[i.revision].sha256 == i.sha256 && versions[i.revision].size == i.size
  }

  ghost predicate AnswersOk(c: Config, db: Db, answers: set<Answer>) {
    forall a :: a in answers ==> AnswerOk(c, db, a)
  }

  /** A base names a retained version of the path whose bytes were once here. */
  ghost predicate Provenance(c: Config, versions: Versions, held: set<Held>, path: Path, base: Option<Id>) {
    base.Some? ==>
      IsVersionOf(versions, c.project, path, base.value) && Held(path, versions[base.value].sha256) in held
  }

  ghost predicate RequestOk(c: Config, versions: Versions, replicas: Replicas, owner: Owners, q: Request) {
    q.Begin? ==>
      && q.transfer in owner && owner[q.transfer] in replicas
      && Provenance(c, versions, replicas[owner[q.transfer]].held, q.path, q.base)
  }

  ghost predicate SentOk(c: Config, versions: Versions, replicas: Replicas, owner: Owners, sent: set<Request>) {
    forall q :: q in sent ==> RequestOk(c, versions, replicas, owner, q)
  }

  /** Server rows of replica-owned transfers carry that provenance too. */
  ghost predicate RowsOk(c: Config, db: Db, replicas: Replicas, owner: Owners) {
    forall t :: t in owner && TransferKey(c.project, t) in db.uploads ==>
      && owner[t] in replicas
      && var u := db.uploads[TransferKey(c.project, t)];
         Provenance(c, db.versions, replicas[owner[t]].held, u.path, u.base)
  }

  ghost predicate ReplicaOk(c: Config, versions: Versions, r: Replica) {
    && (forall p :: p in r.base ==>
          && Provenance(c, versions, r.held, p, Some(r.base[p].revision))
          && versions[r.base[p].revision].sha256 == r.base[p].sha256)
    && (forall p :: p in r.uploads ==>
          && Provenance(c, versions, r.held, p, r.uploads[p].base)
          && Held(p, r.uploads[p].sha256) in r.held)
    && (forall p :: p in r.files ==> Held(p, Sha256(r.files[p])) in r.held)
  }

  ghost predicate ReplicasOk(c: Config, versions: Versions, replicas: Replicas) {
    forall w :: w in replicas ==> ReplicaOk(c, versions, replicas[w])
  }

  ghost predicate Inv(c: Config, sys: Sys) {
    && Valid(c.fold, sys.db)
    && OwnersOk(sys.replicas, sys.owner)
    && Accounted(c, sys.db.uploads, sys.replicas, sys.owner)
    && AnswersOk(c, sys.db, sys.answers)
    && SentOk(c, sys.db.versions, sys.replicas, sys.owner, sys.sent)
    && RowsOk(c, sys.db, sys.replicas, sys.owner)
    && ReplicasOk(c, sys.db.versions, sys.replicas)
  }

  /** Any valid store, and replicas with fresh checkpoints and arbitrary files. */
  ghost predicate Initial(c: Config, sys: Sys) {
    && Valid(c.fold, sys.db)
    && (forall w :: w in sys.replicas ==>
          && sys.replicas[w].base == map[] && sys.replicas[w].uploads == map[]
          && forall p :: p in sys.replicas[w].files ==>
              Held(p, Sha256(sys.replicas[w].files[p])) in sys.replicas[w].held)
    && sys.owner == map[] && sys.sent == {} && sys.answers == {}
  }

  lemma InitialInv(c: Config, sys: Sys)
    requires Initial(c, sys)
    ensures Inv(c, sys)
  {}

  // ------------------------------------------------- the server moves, or others do

  lemma AnswersKept(c: Config, db: Db, db': Db, answers: set<Answer>)
    requires AnswersOk(c, db, answers) && Later(db, db')
    ensures AnswersOk(c, db', answers)
  {
    forall a | a in answers ensures AnswerOk(c, db', a) {
      assert AnswerOk(c, db, a);
      match a.reply
      case Listing(heads) => forall i | i in heads ensures InfoOk(c, db'.versions, i) {
        assert InfoOk(c, db.versions, i);
      }
      case _ =>
    }
  }

  lemma ReplicasKept(c: Config, db: Db, db': Db, replicas: Replicas)
    requires ReplicasOk(c, db.versions, replicas) && Later(db, db')
    ensures ReplicasOk(c, db'.versions, replicas)
  {
    forall w | w in replicas ensures ReplicaOk(c, db'.versions, replicas[w]) {
      assert ReplicaOk(c, db.versions, replicas[w]);
    }
  }

  lemma SentKept(c: Config, db: Db, db': Db, replicas: Replicas, owner: Owners, sent: set<Request>)
    requires SentOk(c, db.versions, replicas, owner, sent) && Later(db, db')
    ensures SentOk(c, db'.versions, replicas, owner, sent)
  {
    forall q | q in sent ensures RequestOk(c, db'.versions, replicas, owner, q) {
      assert RequestOk(c, db.versions, replicas, owner, q);
    }
  }

  lemma AccountedKept(c: Config, db: Db, db': Db, replicas: Replicas, owner: Owners)
    requires Accounted(c, db.uploads, replicas, owner) && Later(db, db')
    ensures Accounted(c, db'.uploads, replicas, owner)
  {
    forall t | t in owner && Over(c, db.uploads, t) ensures Over(c, db'.uploads, t) {
      var k := TransferKey(c.project, t);
      assert RowLater(db.uploads[k], db'.uploads[k]);
    }
  }

  /** The one row a transaction may add for a replica's transfer is the one its own
      begin announced, or a cancellation without a base. */
  ghost predicate NewRowsOk(c: Config, db: Db, db': Db, replicas: Replicas, owner: Owners) {
    forall t :: t in owner && TransferKey(c.project, t) in db'.uploads && TransferKey(c.project, t) !in db.uploads ==>
      && owner[t] in replicas
      && var u := db'.uploads[TransferKey(c.project, t)];
         Provenance(c, db'.versions, replicas[owner[t]].held, u.path, u.base)
  }

  lemma RowsKept(c: Config, db: Db, db': Db, replicas: Replicas, owner: Owners)
    requires RowsOk(c, db, replicas, owner) && Later(db, db') && NewRowsOk(c, db, db', replicas, owner)
    ensures RowsOk(c, db', replicas, owner)
  {
    forall t | t in owner && TransferKey(c.project, t) in db.uploads
      ensures owner[t] in replicas
      ensures var u := db'.uploads[TransferKey(c.project, t)];
              Provenance(c, db'.versions, replicas[owner[t]].held, u.path, u.base)
    {
      var k := TransferKey(c.project, t);
      assert RowLater(db.uploads[k], db'.uploads[k]);
    }
  }

  lemma ServerMoves(c: Config, sys: Sys, db': Db, answers': set<Answer>)
    requires Inv(c, sys) && Valid(c.fold, db') && Later(sys.db, db')
    requires NewRowsOk(c, sys.db, db', sys.replicas, sys.owner)
    requires AnswersOk(c, db', answers')
    ensures Inv(c, sys.(db := db', answers := answers'))
  {
    ReplicasKept(c, sys.db, db', sys.replicas);
    SentKept(c, sys.db, db', sys.replicas, sys.owner, sys.sent);
    AccountedKept(c, sys.db, db', sys.replicas, sys.owner);
    RowsKept(c, sys.db, db', sys.replicas, sys.owner);
  }

  lemma OpNewRows(c: Config, sys: Sys, op: Op)
    requires Inv(c, sys)
    requires op.OpStart? && op.project == c.project && op.transfer in sys.owner ==>
               Provenance(c, sys.db.versions, sys.replicas[sys.owner[op.transfer]].held, op.path, op.base)
    ensures NewRowsOk(c, sys.db, Apply(c.fold, sys.db, op), sys.replicas, sys.owner)
  {
    var db' := Apply(c.fold, sys.db, op);
    ApplyLater(c.fold, sys.db, op);
    forall t | t in sys.owner && TransferKey(c.project, t) in db'.uploads
        && TransferKey(c.project, t) !in sys.db.uploads
      ensures sys.owner[t] in sys.replicas
      ensures var u := db'.uploads[TransferKey(c.project, t)];
              Provenance(c, db'.versions, sys.replicas[sys.owner[t]].held, u.path, u.base)
    {
      NewRows(c.fold, sys.db, op, TransferKey(c.project, t));
    }
  }

  lemma OperateStep(c: Config, sys: Sys, op: Op)
    requires Inv(c, sys) && Enabled(c, sys, Operate(op))
    ensures Inv(c, sys.(db := Apply(c.fold, sys.db, op)))
  {
    var db' := Apply(c.fold, sys.db, op);
    ApplyLater(c.fold, sys.db, op);
    ApplyKeeps(c.fold, sys.db, op);
    OpNewRows(c, sys, op);
    AnswersKept(c, sys.db, db', sys.answers);
    ServerMoves(c, sys, db', sys.answers);
  }

  /** The transaction behind a request, if it changes tables. */
  ghost function OpOf(c: Config, request: Request, revision: Id): Option<Op> {
    match request
    case Begin(t, path, size, sha, base) => Some(OpStart(c.project, t, path, size, sha, base))
    case Chunk(t, offset, data) => Some(OpAppend(c.project, t, offset, data))
    case Commit(t) => Some(OpFinish(c.project, t, revision))
    case Abort(t) => Some(OpAbort(c.project, t))
    case _ => None
  }

  lemma ServedDb(c: Config, db: Db, request: Request, revision: Id)
    ensures var op := OpOf(c, request, revision);
            Serve(c, db, request, revision).0 == if op.None? then db else Apply(c.fold, db, op.value)
  {}

  /** An answer that reports a row reports the row as it is. */
  lemma ProgressAnswer(c: Config, request: Request, tx: Tx<UploadStatus>)
    requires tx.out.Done? ==>
      var k := TransferKey(c.project, tx.out.value.transfer);
      TransferOf(request) == Some(k.transfer) && k in tx.db.uploads
          && tx.out.value == StatusOf(k.transfer, tx.db.uploads[k])
    requires tx.out.Done? && request.Begin? && !tx.out.value.state.Aborted? ==> Describes(c, tx.db.uploads, request)
    ensures AnswerOk(c, tx.db, Answer(request, ProgressOf(tx).1))
  {}

  lemma CommitAnswer(c: Config, db: Db, t: Id, revision: Id)
    requires Valid(c.fold, db)
    ensures var tx := FinishUpload(db, c.project, t, revision);
            tx.out.Done? ==> AnswerOk(c, tx.db, Answer(Commit(t), Committal(tx.out.value)))
  {
    var key := TransferKey(c.project, t);
    if key in db.uploads { assert UploadOk(db.versions, db.chunks, key, db.uploads[key]); }
  }

  lemma ListAnswer(c: Config, db: Db)
    requires Valid(c.fold, db)
    ensures forall i :: i in (set h | h in LiveHeads(db, c.project) :: InfoOf(db.versions, h)) ==>
              InfoOk(c, db.versions, i)
  {
    forall h | h in LiveHeads(db, c.project) ensures InfoOk(c, db.versions, InfoOf(db.versions, h)) {
      assert IsVersionOf(db.versions, h.project, h.path, h.revision);
    }
  }

  lemma BeginAnswer(c: Config, db: Db, q: Request)
    requires q.Begin?
    ensures var (db', reply) := Serve(c, db, q, ""); AnswerOk(c, db', Answer(q, reply))
  {
    ProgressAnswer(c, q, StartUpload(c.fold, db, c.project, q.transfer, q.path, q.size, q.sha256, q.base));
  }

  lemma ChunkAnswer(c: Config, db: Db, q: Request)
    requires q.Chunk?
    ensures var (db', reply) := Serve(c, db, q, ""); AnswerOk(c, db', Answer(q, reply))
  {
    ProgressAnswer(c, q, AppendChunk(db, c.project, q.transfer, q.offset, q.data));
  }

  lemma AbortAnswer(c: Config, db: Db, q: Request)
    requires q.Abort? || q.Query?
    ensures var (db', reply) := Serve(c, db, q, ""); AnswerOk(c, db', Answer(q, reply))
  {
    ProgressAnswer(c, q, if q.Abort? then AbortUpload(db, c.project, q.transfer)
                         else Tx(db, UploadStatusOf(db, c.project, q.transfer)));
  }

  lemma ServedAnswer(c: Config, db: Db, request: Request, revision: Id)
    requires Valid(c.fold, db)
    ensures var (db', reply) := Serve(c, db, request, revision);
            AnswerOk(c, db', Answer(request, reply))
  {
    match request
    case Begin(_, _, _, _, _) => BeginAnswer(c, db, request);
    case Chunk(_, _, _) => ChunkAnswer(c, db, request);
    case Abort(_) => AbortAnswer(c, db, request);
    case Query(_) => AbortAnswer(c, db, request);
    case Commit(t) => CommitAnswer(c, db, t, revision);
    case List => ListAnswer(c, db);
    case Fetch(_) =>
  }

  /** What serving one request does to the tables keeps what replicas rely on. */
  lemma ServedKeeps(c: Config, sys: Sys, request: Request, revision: Id)
    requires Inv(c, sys) && request in sys.sent
    ensures var db' := Serve(c, sys.db, request, revision).0;
            Valid(c.fold, db') && Later(sys.db, db') && NewRowsOk(c, sys.db, db', sys.replicas, sys.owner)
  {
    var op := OpOf(c, request, revision);
    ServedDb(c, sys.db, request, revision);
    if op.Some? {
      assert RequestOk(c, sys.db.versions, sys.replicas, sys.owner, request);
      ApplyLater(c.fold, sys.db, op.value);
      ApplyKeeps(c.fold, sys.db, op.value);
      OpNewRows(c, sys, op.value);
    }
  }

  lemma DeliverStep(c: Config, sys: Sys, request: Request, revision: Id)
    requires Inv(c, sys) && request in sys.sent
    ensures Inv(c, Effect(c, sys, Deliver(request, revision)))
  {
    var (db', reply) := Serve(c, sys.db, request, revision);
    ServedKeeps(c, sys, request, revision);
    AnswersKept(c, sys.db, db', sys.answers);
    ServedAnswer(c, sys.db, request, revision);
    ServerMoves(c, sys, db', sys.answers + {Answer(request, reply)});
  }

  // -------------------------------------------------------------- a replica moves

  /** Replacing one replica's row set, with more history held, keeps what others and
      the server rely on, provided every transfer it stops listing is over. */
  lemma ReplicaMoves(c: Config, sys: Sys, w: ReplicaId, r: Replica)
    requires Inv(c, sys) && w in sys.replicas
    requires sys.replicas[w].held <= r.held && ReplicaOk(c, sys.db.versions, r)
    requires forall p :: p in r.uploads ==> p in sys.replicas[w].uploads && r.uploads[p] == sys.replicas[w].uploads[p]
    requires forall p :: p in sys.replicas[w].uploads && p !in r.uploads ==>
              Over(c, sys.db.uploads, sys.replicas[w].uploads[p].transfer)
    ensures Inv(c, Put(sys, w, r))
  {
    var after := Put(sys, w, r);
    forall t | t in sys.owner ensures Pending(after.replicas[sys.owner[t]], t) || Over(c, sys.db.uploads, t) {
      if sys.owner[t] == w && Pending(sys.replicas[w], t) {
        var p :| p in sys.replicas[w].uploads && sys.replicas[w].uploads[p].transfer == t;
        assert p in r.uploads ==> Pending(r, t);
      }
    }
    SentMonotone(c, sys, w, r);
    forall v | v in after.replicas ensures ReplicaOk(c, sys.db.versions, after.replicas[v]) {}
  }

  lemma SentMonotone(c: Config, sys: Sys, w: ReplicaId, r: Replica)
    requires SentOk(c, sys.db.versions, sys.replicas, sys.owner, sys.sent) && RowsOk(c, sys.db, sys.replicas, sys.owner)
    requires w in sys.replicas && sys.replicas[w].held <= r.held
    ensures SentOk(c, sys.db.versions, sys.replicas[w := r], sys.owner, sys.sent)
    ensures RowsOk(c, sys.db, sys.replicas[w := r], sys.owner)
  {
    forall q | q in sys.sent ensures RequestOk(c, sys.db.versions, sys.replicas[w := r], sys.owner, q) {
      assert RequestOk(c, sys.db.versions, sys.replicas, sys.owner, q);
    }
  }

  /** Proof in hand is proof: the server's row really is terminal. */
  lemma TerminatedIsOver(c: Config, sys: Sys, t: Id)
    requires Inv(c, sys) && Terminated(sys.answers, t)
    ensures Over(c, sys.db.uploads, t)
  {
    var a :| a in sys.answers && a.reply.Progress? && a.reply.status.transfer == t && !a.reply.status.state.Receiving?;
    assert AnswerOk(c, sys.db, a);
  }

  /** What was announced is a retained version of that path with that digest. */
  lemma AnnouncedIsRetained(c: Config, sys: Sys, path: Path, row: BaseRow)
    requires AnswersOk(c, sys.db, sys.answers) && UploadsOk(sys.db.versions, sys.db.uploads, sys.db.chunks)
    requires Announced(sys.answers, path, row)
    ensures IsVersionOf(sys.db.versions, c.project, path, row.revision)
         && sys.db.versions[row.revision].sha256 == row.sha256
  {
    if a, i :| a in sys.answers && a.reply.Listing? && i in a.reply.heads
               && i.path == path && i.revision == row.revision && i.sha256 == row.sha256 {
      assert AnswerOk(c, sys.db, a) && InfoOk(c, sys.db.versions, i);
    } else {
      var a :| a in sys.answers && a.reply.Progress? && a.reply.status.state.Committed? && a.reply.status.receipt.Some?
          && a.reply.status.receipt.value.path == path && a.reply.status.receipt.value.revision == row.revision
          && a.reply.status.receipt.value.sha256 == row.sha256;
      assert AnswerOk(c, sys.db, a);
      var k := TransferKey(c.project, a.reply.status.transfer);
      assert UploadOk(sys.db.versions, sys.db.chunks, k, sys.db.uploads[k]);
    }
  }

  lemma EditedOk(c: Config, versions: Versions, r: Replica, path: Path, content: Option<Bytes>)
    requires ReplicaOk(c, versions, r)
    ensures ReplicaOk(c, versions, Edited(r, path, content))
  {
  }

  lemma EditStep(c: Config, sys: Sys, w: ReplicaId, path: Path, content: Option<Bytes>)
    requires Inv(c, sys) && w in sys.replicas
    ensures Inv(c, Effect(c, sys, Edit(w, path, content)))
  {
    EditedOk(c, sys.db.versions, sys.replicas[w], path, content);
    ReplicaMoves(c, sys, w, Edited(sys.replicas[w], path, content));
  }

  lemma InstallStep(c: Config, sys: Sys, w: ReplicaId, path: Path, revision: Id, body: Bytes)
    requires Inv(c, sys) && Enabled(c, sys, Install(w, path, revision, body))
    ensures Inv(c, Effect(c, sys, Install(w, path, revision, body)))
  {
    hide Inv, Announced, Serve;
    EditStep(c, sys, w, path, Some(body));
    assert Effect(c, sys, Install(w, path, revision, body)) == Effect(c, sys, Edit(w, path, Some(body)));
  }

  function Remembered(r: Replica, path: Path, row: BaseRow): Replica {
    r.(base := r.base[path := row], uploads := r.uploads - {path})
  }

  lemma RememberedOk(c: Config, versions: Versions, r: Replica, path: Path, row: BaseRow)
    requires ReplicaOk(c, versions, r) && Held(path, row.sha256) in r.held
    requires IsVersionOf(versions, c.project, path, row.revision) && versions[row.revision].sha256 == row.sha256
    ensures ReplicaOk(c, versions, Remembered(r, path, row))
  {
  }

  lemma RememberStep(c: Config, sys: Sys, w: ReplicaId, path: Path, row: BaseRow)
    requires Inv(c, sys) && Enabled(c, sys, Remember(w, path, row))
    ensures Inv(c, Effect(c, sys, Remember(w, path, row)))
  {
    var r := sys.replicas[w];
    AnnouncedIsRetained(c, sys, path, row);
    if path in r.uploads { TerminatedIsOver(c, sys, r.uploads[path].transfer); }
    assert ReplicaOk(c, sys.db.versions, r);
    RememberedOk(c, sys.db.versions, r, path, row);
    ReplicaMoves(c, sys, w, Remembered(r, path, row));
  }

  lemma ForgetStep(c: Config, sys: Sys, w: ReplicaId, path: Path)
    requires Inv(c, sys) && Enabled(c, sys, Forget(w, path))
    ensures Inv(c, Unlisted(sys, w, path))
  {
    var r := sys.replicas[w];
    TerminatedIsOver(c, sys, r.uploads[path].transfer);
    assert ReplicaOk(c, sys.db.versions, r);
    ReplicaMoves(c, sys, w, r.(uploads := r.uploads - {path}));
  }

  lemma PersistAccounted(c: Config, sys: Sys, w: ReplicaId, path: Path, row: PendingRow)
    requires OwnersOk(sys.replicas, sys.owner) && Accounted(c, sys.db.uploads, sys.replicas, sys.owner)
    requires w in sys.replicas && path !in sys.replicas[w].uploads && row.transfer !in sys.owner
    ensures var r' := sys.replicas[w].(uploads := sys.replicas[w].uploads[path := row]);
            Accounted(c, sys.db.uploads, sys.replicas[w := r'], sys.owner[row.transfer := w])
  {
    var r := sys.replicas[w];
    var r' := r.(uploads := r.uploads[path := row]);
    assert r'.uploads[path].transfer == row.transfer;
    forall t | t in sys.owner && Pending(r, t) ensures Pending(r', t) {
      var p :| p in r.uploads && r.uploads[p].transfer == t;
      assert p in r'.uploads && r'.uploads[p].transfer == t;
    }
  }

  lemma PersistOwners(sys: Sys, w: ReplicaId, path: Path, row: PendingRow)
    requires OwnersOk(sys.replicas, sys.owner) && w in sys.replicas && row.transfer !in sys.owner
    ensures var r' := sys.replicas[w].(uploads := sys.replicas[w].uploads[path := row]);
            OwnersOk(sys.replicas[w := r'], sys.owner[row.transfer := w])
  {
  }

  lemma SentWidened(c: Config, versions: Versions, db: Db, replicas: Replicas, owner: Owners, sent: set<Request>,
                    t: Id, w: ReplicaId)
    requires SentOk(c, versions, replicas, owner, sent) && RowsOk(c, db, replicas, owner) && t !in owner
    requires TransferKey(c.project, t) !in db.uploads
    ensures SentOk(c, versions, replicas, owner[t := w], sent) && RowsOk(c, db, replicas, owner[t := w])
  {
    forall q | q in sent ensures RequestOk(c, versions, replicas, owner[t := w], q) {
      assert RequestOk(c, versions, replicas, owner, q);
    }
  }

  lemma PersistedOk(c: Config, versions: Versions, r: Replica, path: Path, row: PendingRow)
    requires ReplicaOk(c, versions, r) && Held(path, row.sha256) in r.held && row.base == BaseOf(r, path)
    ensures ReplicaOk(c, versions, r.(uploads := r.uploads[path := row]))
  {
  }

  lemma PersistFresh(c: Config, sys: Sys, w: ReplicaId, path: Path, row: PendingRow)
    requires Inv(c, sys) && w in sys.replicas && path !in sys.replicas[w].uploads
    requires row.transfer !in sys.owner && TransferKey(c.project, row.transfer) !in sys.db.uploads
    requires Held(path, row.sha256) in sys.replicas[w].held && row.base == BaseOf(sys.replicas[w], path)
    ensures Inv(c, Listed(sys, w, path, row))
  {
    var r := sys.replicas[w];
    var r' := r.(uploads := r.uploads[path := row]);
    PersistedOk(c, sys.db.versions, r, path, row);
    PersistAccounted(c, sys, w, path, row);
    PersistOwners(sys, w, path, row);
    SentMonotone(c, sys, w, r');
    SentWidened(c, sys.db.versions, sys.db, sys.replicas[w := r'], sys.owner, sys.sent, row.transfer, w);
  }

  lemma ListedAfterUnlisting(sys: Sys, w: ReplicaId, path: Path, row: PendingRow)
    requires w in sys.replicas
    ensures Listed(Unlisted(sys, w, path), w, path, row) == Listed(sys, w, path, row)
  {
    var r := sys.replicas[w];
    var bare := r.(uploads := r.uploads - {path});
    assert bare.uploads[path := row] == r.uploads[path := row];
    assert sys.replicas[w := bare][w := r.(uploads := r.uploads[path := row])] ==
        sys.replicas[w := r.(uploads := r.uploads[path := row])];
  }

  lemma PersistStep(c: Config, sys: Sys, w: ReplicaId, path: Path, row: PendingRow)
    requires Inv(c, sys) && Enabled(c, sys, Persist(w, path, row))
    ensures Inv(c, Listed(sys, w, path, row))
  {
    if path in sys.replicas[w].uploads {
      ForgetStep(c, sys, w, path);
      PersistFresh(c, Unlisted(sys, w, path), w, path, row);
      ListedAfterUnlisting(sys, w, path, row);
    } else {
      PersistFresh(c, sys, w, path, row);
    }
  }

  lemma SendStep(c: Config, sys: Sys, w: ReplicaId, request: Request)
    requires Inv(c, sys) && Enabled(c, sys, Send(w, request))
    ensures Inv(c, Effect(c, sys, Send(w, request)))
  {
    assert ReplicaOk(c, sys.db.versions, sys.replicas[w]);
    assert RequestOk(c, sys.db.versions, sys.replicas, sys.owner, request);
  }

  lemma StepKeeps(c: Config, sys: Sys, a: Action)
    requires Inv(c, sys)
    ensures Inv(c, Step(c, sys, a))
  {
    if Enabled(c, sys, a) {
      match a
      case Send(w, request) => SendStep(c, sys, w, request);
      case Deliver(request, revision) => DeliverStep(c, sys, request, revision);
      case Operate(op) => OperateStep(c, sys, op);
      case Edit(w, path, content) => EditStep(c, sys, w, path, content);
      case Persist(w, path, row) => PersistStep(c, sys, w, path, row);
      case Remember(w, path, row) => RememberStep(c, sys, w, path, row);
      case Forget(w, path) => ForgetStep(c, sys, w, path);
      case Install(w, path, revision, body) => InstallStep(c, sys, w, path, revision, body);
    }
  }

  lemma {:induction false} ExecKeeps(c: Config, sys: Sys, actions: seq<Action>)
    requires Inv(c, sys)
    ensures Inv(c, Exec(c, sys, actions))
    decreases |actions|
  {
    if actions != [] {
      StepKeeps(c, sys, actions[0]);
      ExecKeeps(c, Step(c, sys, actions[0]), actions[1..]);
    }
  }
}
