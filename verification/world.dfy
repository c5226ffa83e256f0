/** The surroundings of one sync client: the store behind a network, the user and
    everybody else, driven by a schedule the client knows nothing about. Every move
    is an action of the replica protocol and is logged, so whatever the client does
    here is a behaviour of that protocol. */
module SyncWorld {
  import opened Common
  import opened Paths
  import opened StoreModel
  import opened StoreInvariant
  import opened StoreHistory
  import opened Store
  import opened Replication
  import opened ReplicationResults
  import opened PendingRows
  import opened QuietServer

  lemma {:induction false} ExecSnoc(c: Config, sys: Sys, actions: seq<Action>, a: Action)
    ensures Exec(c, sys, actions + [a]) == Step(c, Exec(c, sys, actions), a)
    decreases |actions|
  {
    if actions == [] {
      assert Exec(c, Step(c, sys, a), []) == Step(c, sys, a);
      assert ([a])[1..] == [];
    } else {
      assert (actions + [a])[1..] == actions[1..] + [a];
      ExecSnoc(c, Step(c, sys, actions[0]), actions[1..], a);
    }
  }

  /** Actions that are not the client's own writes. */
  predicate Foreign(me: ReplicaId, a: Action) {
    match a
    case Persist(w, _, _) => w != me
    case Remember(w, _, _) => w != me
    case Forget(w, _) => w != me
    case Install(w, _, _, _) => w != me
    case _ => true
  }

  /** What survives other people's moves: the own tables, and everything learnt. */
  ghost predicate Undisturbed(me: ReplicaId, sys: Sys, sys': Sys) {
    && me in sys.replicas && me in sys'.replicas
    && sys'.replicas[me].base == sys.replicas[me].base && sys'.replicas[me].uploads == sys.replicas[me].uploads
    && sys.replicas[me].held <= sys'.replicas[me].held && sys.answers <= sys'.answers
    && Grew(sys.db.versions, sys'.db.versions)
  }

  ghost predicate Grew(before: Versions, after: Versions) {
    forall r :: r in before ==> r in after && after[r] == before[r]
  }

  /** No step of anybody loses a version. */
  lemma StepGrows(c: Config, sys: Sys, a: Action)
    ensures Grew(sys.db.versions, Step(c, sys, a).db.versions)
  {
    StepLater(c, sys, a);
  }

  lemma ForeignUndisturbed(c: Config, me: ReplicaId, sys: Sys, a: Action)
    requires me in sys.replicas && Foreign(me, a)
    ensures Undisturbed(me, sys, Step(c, sys, a))
  {
    StepGrows(c, sys, a);
    if Enabled(c, sys, a) {
      match a
      case Edit(w, path, content) =>
      case _ =>
    }
  }

  /** One exchange: what happens meanwhile, whether the request arrives, whether the
      answer does, and the revision id a commit would draw. */
  datatype Turn = Turn(before: seq<Action>, arrives: bool, revision: Id, after: seq<Action>, answered: bool)

  /** A write of the client itself, and the state it was made in. */
  datatype Taken = Taken(state: Sys, action: Action)

  /** An identifier longer than each of these. */
  method LongerThan(used: set<Id>) returns (t: Id)
    ensures t !in used
  {
    t := "0";
    var rest := used;
    while rest != {}
      invariant rest <= used && |t| >= 1
      invariant forall u :: u in used - rest ==> |u| < |t|
      decreases |rest|
    {
      var u :| u in rest;
      t, rest := t + u, rest - {u};
    }
  }

  class World {
    const c: Config
    const store: SyncStore
    const me: ReplicaId
    ghost const init: Sys
    ghost var history: seq<Action>
    ghost var own: seq<Taken>       // the client's own writes among them
    var replicas: map<ReplicaId, Replica>
    var owner: map<Id, ReplicaId>
    var sent: set<Request>
    var answers: set<Answer>
    var schedule: seq<Turn>

    function State(): Sys reads this, store { Sys(store.Tables(), replicas, owner, sent, answers) }

    ghost predicate Valid() reads this, store {
      && store.fold == c.fold && me in replicas
      && Initial(c, init) && State() == Exec(c, init, history)
    }

    constructor (c: Config, me: ReplicaId, store: SyncStore, replicas: map<ReplicaId, Replica>, schedule: seq<Turn>)
      requires store.fold == c.fold && me in replicas
      requires Initial(c, Sys(store.Tables(), replicas, map[], {}, {}))
      ensures Valid() && this.c == c && this.me == me && this.store == store && this.schedule == schedule
      ensures State() == Sys(store.Tables(), replicas, map[], {}, {})
    {
      this.c, this.me, this.store, this.schedule := c, me, store, schedule;
      this.replicas, owner, sent, answers := replicas, map[], {}, {};
      init, history, own := Sys(store.Tables(), replicas, map[], {}, {}), [], [];
    }

    lemma Reachable()
      requires Valid()
      ensures Inv(c, State())
    {
      InitialInv(c, init);
      ExecKeeps(c, init, history);
    }

    lemma RowsMatch()
      requires Valid()
      ensures Inv(c, State()) && Matching(c, State())
    {
      InitialInv(c, init);
      InitialMatches(c, init);
      ExecKeeps(c, init, history);
      ExecMatches(c, init, history);
    }

    method Operated(op: Op)
      requires store.fold == c.fold
      modifies store
      ensures store.Tables() == Apply(c.fold, old(store.Tables()), op)
    {
      match op
      case OpCreate(p, t) => var _ := store.CreateProject(p, t);
      case OpOffline(p, e) => var _ := store.SetOffline(p, e);
      case OpDeclare(p, d, f, i) => var _ := store.DeclareManifest(p, d, f, i);
      case OpStart(p, t, path, size, sha, base) => var _ := store.StartUpload(p, t, path, size, sha, base);
      case OpAppend(p, t, offset, data) => var _ := store.AppendChunk(p, t, offset, data);
      case OpFinish(p, t, r) => var _ := store.FinishUpload(p, t, r);
      case OpAbort(p, t) => var _ := store.AbortUpload(p, t);
      case OpResolve(p, path, expected, chosen) => var _ := store.Resolve(p, path, expected, chosen);
    }

    /** One arriving request, carried out by the store. */
    method Served(request: Request, revision: Id) returns (reply: Reply)
      requires store.fold == c.fold
      modifies store
      ensures (store.Tables(), reply) == Serve(c, old(store.Tables()), request, revision)
    {
      match request
      case Begin(t, path, size, sha, base) =>
        var out := store.StartUpload(c.project, t, path, size, sha, base);
        reply := if out.Done? then Progress(out.value) else Failure(out.reason);
      case Chunk(t, offset, data) =>
        var out := store.AppendChunk(c.project, t, offset, data);
        reply := if out.Done? then Progress(out.value) else Failure(out.reason);
      case Abort(t) =>
        var out := store.AbortUpload(c.project, t);
        reply := if out.Done? then Progress(out.value) else Failure(out.reason);
      case Query(t) =>
        var key := TransferKey(c.project, t);
        reply := if c.project in store.projects && key in store.uploads then Progress(StatusOf(t, store.uploads[key]))
                 else Failure(NotFound);
      case Commit(t) =>
        var out := store.FinishUpload(c.project, t, revision);
        reply := if out.Done? then Committal(out.value) else Failure(out.reason);
      case List =>
        var db := store.Tables();
        reply := if c.project !in store.projects then Failure(NotFound)
                 else Listing(set h | h in LiveHeads(db, c.project) :: InfoOf(db.versions, h));
      case Fetch(r) =>
        var out := store.ReadRevision(c.project, r);
        reply := if out.Done? then Content(out.value) else Failure(out.reason);
    }

    /** An action that does not reach the store. */
    method Write(a: Action)
      requires Enabled(c, State(), a) && !a.Deliver? && !a.Operate?
      modifies this`sent, this`replicas, this`owner
      ensures State() == Effect(c, old(State()), a)
    {
      match a
      case Send(_, request) => sent := sent + {request};
      case Edit(w, path, content) => replicas := replicas[w := Edited(replicas[w], path, content)];
      case Persist(w, path, row) =>
        var r := replicas[w];
        replicas := replicas[w := r.(uploads := r.uploads[path := row])];
        owner := owner[row.transfer := w];
      case Remember(w, path, base) =>
        var r := replicas[w];
        replicas := replicas[w := r.(base := r.base[path := base], uploads := r.uploads - {path})];
      case Forget(w, path) =>
        var r := replicas[w];
        replicas := replicas[w := r.(uploads := r.uploads - {path})];
      case Install(w, path, _, body) =>
        replicas := replicas[w := Place(replicas[w], path, body)];
    }

    /** The effect of one action, on the real store object where it reaches it. */
    method Perform(a: Action) returns (reply: Option<Reply>)
      requires store.fold == c.fold && Enabled(c, State(), a)
      modifies this`sent, this`replicas, this`owner, this`answers, store
      ensures State() == Effect(c, old(State()), a)
      ensures reply.Some? ==> a.Deliver? && Answer(a.request, reply.value) in answers
      ensures a.Deliver? ==> reply == Some(Serve(c, old(store.Tables()), a.request, a.revision).1)
    {
      reply := None;
      match a
      case Deliver(request, revision) =>
        var answer := Served(request, revision);
        answers := answers + {Answer(request, answer)};
        reply := Some(answer);
      case Operate(op) => Operated(op);
      case _ => Write(a);
    }

    /** Perform one action and log it; a disabled one does nothing. */
    method Act(a: Action) returns (reply: Option<Reply>)
      requires Valid()
      modifies this, store
      ensures Valid() && schedule == old(schedule)
      ensures State() == Step(c, old(State()), a)
      ensures own == if Foreign(me, a) then old(own) else old(own) + [Taken(old(State()), a)]
      ensures reply.Some? ==> a.Deliver? && Answer(a.request, reply.value) in answers
      ensures a.Deliver? && a.request in old(sent) ==>
                reply == Some(Serve(c, old(store.Tables()), a.request, a.revision).1)
    {
      hide Initial, Exec, Serve;
      reply := None;
      ghost var before := State();
      if Enabled(c, State(), a) { reply := Perform(a); }
      ExecSnoc(c, init, history, a);
      history := history + [a];
      if !Foreign(me, a) { own := own + [Taken(before, a)]; }
    }

    /** Everybody else takes their turn. */
    method Others(actions: seq<Action>)
      requires Valid()
      modifies this, store
      ensures Valid() && schedule == old(schedule) && Undisturbed(me, old(State()), State()) && own == old(own)
    {
      for i := 0 to |actions|
        invariant Valid() && schedule == old(schedule) && Undisturbed(me, old(State()), State()) && own == old(own)
      {
        if Foreign(me, actions[i]) {
          ForeignUndisturbed(c, me, State(), actions[i]);
          var _ := Act(actions[i]);
        }
      }
    }

    /** One HTTP exchange: the answer, or nothing when anything was lost. Behind the end of
        the schedule nobody else acts and nothing is lost. */
    method Call(request: Request) returns (reply: Option<Reply>)
      requires Valid() && Enabled(c, State(), Send(me, request))
      modifies this, store
      ensures Valid() && Undisturbed(me, old(State()), State()) && own == old(own)
      ensures reply.Some? ==> Answer(request, reply.value) in answers
      ensures old(schedule) == [] ==>
                && schedule == [] && replicas == old(replicas) && owner == old(owner) && reply.Some?
                && Answered(c, old(store.Tables()), store.Tables(), request, reply.value)
    {
      hide Initial, Exec, Serve;
      if schedule == [] {
        var answer := CallQuietly(request);
        return Some(answer);
      }
      var turn := schedule[0];
      schedule := schedule[1..];
      reply := CallAmid(request, turn);
    }

    method CallAmid(request: Request, turn: Turn) returns (reply: Option<Reply>)
      requires Valid() && Enabled(c, State(), Send(me, request))
      modifies this, store
      ensures Valid() && Undisturbed(me, old(State()), State()) && own == old(own)
      ensures reply.Some? ==> Answer(request, reply.value) in answers
    {
      hide Initial, Exec, Serve;
      var _ := Act(Send(me, request));
      Others(turn.before);
      if !turn.arrives { return None; }
      ForeignUndisturbed(c, me, State(), Deliver(request, turn.revision));
      reply := Act(Deliver(request, turn.revision));
      Others(turn.after);
      if !turn.answered { return None; }
    }

    method CallQuietly(request: Request) returns (reply: Reply)
      requires Valid() && Enabled(c, State(), Send(me, request))
      modifies this, store
      ensures Valid() && Undisturbed(me, old(State()), State()) && own == old(own) && schedule == old(schedule)
      ensures Answer(request, reply) in answers && replicas == old(replicas) && owner == old(owner)
      ensures Answered(c, old(store.Tables()), store.Tables(), request, reply)
    {
      hide Initial, Exec, Serve;
      var _ := Act(Send(me, request));
      ForeignUndisturbed(c, me, old(State()), Send(me, request));
      var revision := NewRevision();
      ghost var db := store.Tables();
      ForeignUndisturbed(c, me, State(), Deliver(request, revision));
      var answer := Act(Deliver(request, revision));
      reply := answer.value;
      assert revision !in db.versions && (store.Tables(), reply) == Serve(c, db, request, revision);
    }

    /** Time passes between two local operations. */
    method Pause()
      requires Valid()
      modifies this, store
      ensures Valid() && Undisturbed(me, old(State()), State()) && own == old(own)
      ensures old(schedule) == [] ==> schedule == [] && State() == old(State())
    {
      if schedule != [] {
        var turn := schedule[0];
        schedule := schedule[1..];
        Others(turn.before + turn.after);
      }
    }

    /** A fresh revision id (uuid4). */
    method NewRevision() returns (r: Id)
      ensures r !in store.versions
    {
      r := LongerThan(store.versions.Keys);
    }

    /** A fresh transfer id, distinct from every id in use (uuid4). */
    method NewTransferId() returns (t: Id)
      ensures t !in owner && TransferKey(c.project, t) !in store.uploads
    {
      var used := owner.Keys + set k | k in store.uploads :: k.transfer;
      t := LongerThan(used);
      assert forall k :: k in store.uploads ==> k.transfer in used;
    }
  }
}
