/** One metadata replica at work, between its own core, its checkpoint and the server,
    amid a schedule of other people's moves, lost messages and crashes. */
module MetadataClient {
  import opened Common
  import opened Documents
  import opened LifecycleGuard
  import opened Merge
  import opened MergeResults
  import opened MetadataCore
  import opened MetadataAnswers
  import opened MetadataReplication

  /** What happens before the next step, and whether the step is still reached: a lost
      message and a crash both end the call. */
  datatype Turn = Turn(meanwhile: seq<Action>, reached: bool)

  datatype Outcome = Synced | Conflicted | Unchanged | Refused | Interrupted

  /** Moves that are not this call's own: other people's, and late arrivals. */
  predicate Foreign(a: Action) { a.OthersAtServer? || a.OthersAtHome? || a.Serve? }

  /** The first time an operation is asked for, the answer is the merge's. */
  lemma FirstAnswer(accepts: Validator, s: Desk, op: Id, base: Document, document: Document)
    requires op !in s.journal
    ensures var (s', reply) := Synchronized(accepts, s, op, base, document);
            var out := MergeOf(accepts, base, document, s.document);
            && (reply.Done? <==> accepts(base) && accepts(document) && out.Accepted?)
            && (reply.Done? ==> reply == Done(out.document, out.conflicts) && s'.document == out.document)
  {
  }

  /** The pull is clean of leaves, of states and of a trashed thread's file references. */
  ghost predicate QuietPull(base: Document, mine: Document, theirs: Document) {
    StatesPull(base, mine, theirs) && FilesPull(base, mine, theirs) && PullsCleanly(base, mine, theirs)
  }

  /** An exchange nothing interferes with, without conflict at the server: there is none at
      home exactly if the pull is clean, and then the documents are equal to Python, and
      the very same exactly if no leaf was alike and spelled differently. */
  lemma QuietRound(accepts: Validator, server: Desk, local: Desk, op: Id, base: Document)
    requires Validates(accepts) && op !in server.journal && op !in local.journal
    requires Unambiguous(local.document) && Unambiguous(server.document)
    requires var reply := Synchronized(accepts, server, op, base, local.document).1;
             reply.Done? && reply.conflicts == {}
    ensures var server' := Synchronized(accepts, server, op, base, local.document).0;
            var (local', reply) := Synchronized(accepts, local, op, local.document, server'.document);
            && (reply.Done? ==> (reply.conflicts == {} <==> QuietPull(base, local.document, server.document)))
            && (reply.Done? && reply.conflicts == {}
                <==> QuietPull(base, local.document, server.document)
                     && accepts(Pulled(local.document, server'.document)))
            && (reply.Done? && reply.conflicts == {} ==> AlikeDocuments(local'.document, server'.document))
            && (reply == Done(server'.document, {}) <==>
                  QuietPull(base, local.document, server.document) && SpelledAlike(local.document, server.document))
            && (reply == Done(server'.document, {}) ==> local'.document == server'.document)
  {
    var server' := Synchronized(accepts, server, op, base, local.document).0;
    FirstAnswer(accepts, server, op, base, local.document);
    FirstAnswer(accepts, local, op, local.document, server'.document);
    ServerFacts(accepts, base, local.document, server.document, server'.document);
    Convergence(accepts, base, local.document, server.document, server'.document);
    ExactConvergence(accepts, base, local.document, server.document, server'.document);
  }

  /** An exchange nothing interferes with: the server's answer is applied at home. */
  function Push(accepts: Validator, server: Desk, p: Pending): (Desk, Reply) {
    Synchronized(accepts, server, p.op, p.base, p.document)
  }

  function Pull(accepts: Validator, local: Desk, p: Pending, answer: Reply): (Desk, Reply) requires answer.Done? {
    Synchronized(accepts, local, p.op, p.document, answer.document)
  }

  /** How the two cores are left. */
  function Exchanged(accepts: Validator, server: Desk, local: Desk, p: Pending): (Desk, Desk) {
    var (server', answer) := Push(accepts, server, p);
    (server', if answer.Done? then Pull(accepts, local, p, answer).0 else local)
  }

  /** How it ends: refused if the server or home does not answer; else synchronized if
      neither answer has a conflict. */
  ghost predicate EndsAs(accepts: Validator, server: Desk, local: Desk, p: Pending, out: Outcome) {
    var answer := Push(accepts, server, p).1;
    if !Answers(accepts, server, p.op, p.base, p.document) then out == Refused
    else if answer.Failed? then false
    else if !Answers(accepts, local, p.op, p.document, answer.document) then out == Refused
    else
      var applied := Pull(accepts, local, p, answer).1;
      applied.Done? && out == if answer.conflicts == {} && applied.conflicts == {} then Synced else Conflicted
  }

  /** The two answers decide how it ends. */
  lemma EndIs(accepts: Validator, server: Desk, local: Desk, p: Pending, out: Outcome)
    ensures var answer := Push(accepts, server, p).1;
            EndsAs(accepts, server, local, p, out) <==>
              if answer.Failed? then out == Refused
              else
                var applied := Pull(accepts, local, p, answer).1;
                if applied.Failed? then out == Refused
                else out == if answer.conflicts == {} && applied.conflicts == {} then Synced else Conflicted
  {
    hide Synchronized, Answers;
    SyncIsExact(accepts, server, p.op, p.base, p.document);
    var answer := Push(accepts, server, p).1;
    if answer.Done? { SyncIsExact(accepts, local, p.op, p.document, answer.document); }
  }

  /** The merge meets no conflict and its document is valid. */
  ghost predicate MergesCleanly(accepts: Validator, base: Document, incoming: Document, current: Document) {
    && (forall x :: Passes(base, incoming, current, x))
    && (forall k :: !LeafContest(base, incoming, current, k))
    && (exists d :: MergedFrom(base, incoming, current, d) && Checked(accepts, d))
  }

  lemma CleanMergeIs(accepts: Validator, base: Document, incoming: Document, current: Document)
    ensures var out := MergeOf(accepts, base, incoming, current);
            MergesCleanly(accepts, base, incoming, current) ==> out.Accepted? && out.conflicts == {}
  {
    hide Passes, LeafContest, MergedFrom, MergeOf;
    MergeIsExact(accepts, base, incoming, current);
  }

  /** The operation is on no record, the documents are unambiguous and the server can merge
      without a conflict. */
  ghost predicate QuietStart(accepts: Validator, server: Desk, local: Desk, op: Id, base: Document) {
    && op !in server.journal && op !in local.journal && accepts(base) && accepts(local.document)
    && Unambiguous(local.document) && Unambiguous(server.document)
    && MergesCleanly(accepts, base, local.document, server.document)
  }

  /** Then the exchange ends synchronized exactly if the pull is quiet and its document is
      valid; and both sides hold documents equal to Python, the very same exactly if no
      leaf was alike and spelled differently. */
  lemma QuietExchange(accepts: Validator, server: Desk, local: Desk, op: Id, base: Document, out: Outcome)
    requires Validates(accepts) && QuietStart(accepts, server, local, op, base)
    requires EndsAs(accepts, server, local, Pending(op, base, local.document), out)
    ensures var (server', local') := Exchanged(accepts, server, local, Pending(op, base, local.document));
            && (out.Synced? <==>
                  QuietPull(base, local.document, server.document)
                  && accepts(Pulled(local.document, server'.document)))
            && (out.Synced? ==>
                  && AlikeDocuments(local'.document, server'.document)
                  && op in server'.journal && server'.journal[op].document == server'.document
                  && (SpelledAlike(local.document, server.document) ==> local'.document == server'.document))
  {
    hide Answers, QuietPull, SpelledAlike, MergesCleanly, Unambiguous;
    CleanMergeIs(accepts, base, local.document, server.document);
    FirstAnswer(accepts, server, op, base, local.document);
    SyncIsExact(accepts, server, op, base, local.document);
    hide Synchronized, MergeOf;
    EndIs(accepts, server, local, Pending(op, base, local.document), out);
    QuietRound(accepts, server, local, op, base);
  }

  class MetadataReplica {
    const accepts: Validator
    const server: Core
    const local: Core
    var base: Document
    var pending: Option<Pending>
    var sent: set<Pending>
    var answers: set<Answer>
    var prepared: map<Id, Pending>
    var schedule: seq<Turn>
    ghost var provenance: Provenance
    ghost var landed: Option<Document>
    ghost var log: seq<Event>
    ghost var history: seq<Action>
    ghost const init: Sys

    ghost function State(): Sys reads this, server, local {
      Sys(server.State(), local.State(), base, provenance, pending, landed, sent, answers, prepared, log)
    }

    ghost predicate Valid() reads this, server, local {
      && server != local && server.accepts == accepts == local.accepts && Validates(accepts)
      && Initial(accepts, init) && State() == Exec(accepts, init, history)
    }

    constructor (server: Core, local: Core, schedule: seq<Turn>)
      requires server != local && server.accepts == local.accepts && Validates(server.accepts)
      requires DeskValid(server.accepts, server.State()) && DeskValid(server.accepts, local.State())
      requires server.accepts(EMPTY)
      ensures Valid() && this.server == server && this.local == local && this.schedule == schedule
      ensures base == EMPTY && pending == None && log == [] && history == []
    {
      accepts, this.server, this.local, this.schedule := server.accepts, server, local, schedule;
      base, pending, sent, answers, prepared := EMPTY, None, {}, {}, map[];
      provenance, landed, log, history := Unset, None, [], [];
      init := Sys(server.State(), local.State(), EMPTY, Unset, None, None, {}, {}, map[], []);
    }

    lemma Reachable()
      requires Valid()
      ensures Inv(accepts, State())
    {
      ExecKeeps(accepts, init, history);
    }

    /** The move the fields have just made. */
    ghost method Log(a: Action, before: Sys)
      requires server != local && server.accepts == accepts == local.accepts && Validates(accepts)
      requires Initial(accepts, init) && before == Exec(accepts, init, history) && State() == Step(accepts, before, a)
      modifies this`history
      ensures Valid() && history == old(history) + [a]
    {
      history := history + [a];
      assert history[..|history| - 1] == old(history);
    }

    /** The checkpoint is this replica's own, and journals only grow. */
    twostate predicate Undisturbed() reads this, server, local {
      && Extends(old(server.journal), server.journal) && Extends(old(local.journal), local.journal)
      && base == old(base) && pending == old(pending) && provenance == old(provenance) && prepared == old(prepared)
      && sent == old(sent) && old(answers) <= answers && (landed == old(landed) || landed.None?)
    }

    twostate predicate SameCores() reads server, local {
      server.State() == old(server.State()) && local.State() == old(local.State())
    }

    /** A request reaches the server. */
    method Arrive(p: Pending) returns (reply: Reply)
      requires Valid() && p in sent
      modifies this`answers, this`log, this`history, server
      ensures Valid() && Extends(old(server.journal), server.journal) && old(answers) <= answers
      ensures (server.State(), reply) == Synchronized(accepts, old(server.State()), p.op, p.base, p.document)
      ensures reply.Done? ==>
                && Answer(p.op, reply.document, reply.conflicts) in answers && p.op in server.journal
                && server.journal[p.op] == Record(Sync(p.base, p.document), reply.document, reply.conflicts)
    {
      ghost var before := State();
      SyncAnswers(accepts, server.State(), p.op, p.base, p.document);
      reply := server.Synchronize(p.op, p.base, p.document);
      log := log + Logged(Server, before.server, server.State(), p.op, p.base, p.document);
      if reply.Done? { answers := answers + {Answer(p.op, reply.document, reply.conflicts)}; }
      Log(Serve(p), before);
    }

    /** Somebody else's move, if possible. */
    method Other(a: Action)
      requires Valid() && Foreign(a)
      modifies this`answers, this`log, this`history, server, local
      ensures Valid() && Undisturbed()
    {
      ghost var before := State();
      match a
      case OthersAtServer(o) =>
        if OpOf(o).Some? && OpOf(o).value in prepared { return; }
        NextExtends(accepts, server.State(), o);
        var s := Next(accepts, server.State(), o);
        server.document, server.journal := s.document, s.journal;
        Log(a, before);
      case OthersAtHome(o) =>
        if OpOf(o).Some? && OpOf(o).value in prepared { return; }
        NextExtends(accepts, local.State(), o);
        var s := Next(accepts, local.State(), o);
        local.document, local.journal := s.document, s.journal;
        Log(a, before);
      case Serve(p) =>
        if p !in sent { return; }
        var _ := Arrive(p);
    }

    /** What happens before the next step. */
    method Meanwhile() returns (goesOn: bool)
      requires Valid()
      modifies this`answers, this`log, this`history, this`schedule, this`landed, server, local
      ensures Valid() && Undisturbed()
      ensures goesOn ==> landed == old(landed)
      ensures !goesOn ==> landed == None
      ensures old(schedule) == [] ==> goesOn && schedule == [] && SameCores()
    {
      if schedule == [] { return true; }
      var turn := schedule[0];
      schedule := schedule[1..];
      for n := 0 to |turn.meanwhile|
        invariant Valid() && Undisturbed() && landed == old(landed)
      {
        if Foreign(turn.meanwhile[n]) { Other(turn.meanwhile[n]); }
      }
      goesOn := turn.reached;
      if !goesOn {
        ghost var before := State();
        landed := None;
        Log(Crash, before);
      }
    }

    /** `seed_base`. */
    method SeedBase(document: Document) returns (seeded: bool)
      requires Valid()
      modifies this`base, this`provenance, this`history
      ensures Valid()
      ensures seeded == (accepts(document) && old(pending).None? && old(base) == EMPTY)
      ensures base == if seeded then document else old(base)
    {
      if !accepts(document) || pending.Some? || base != EMPTY { return false; }
      ghost var before := State();
      base, provenance := document, Seeded;
      Log(Seed(document), before);
      seeded := true;
    }

    /** The pending operation is on disk before anything is sent. */
    method Persist(op: Id, document: Document)
      requires Valid() && pending.None? && accepts(document)
      requires op !in prepared && op !in server.journal && op !in local.journal
      modifies this`pending, this`prepared, this`history
      ensures Valid() && pending == Some(Pending(op, base, document))
    {
      ghost var before := State();
      var p := Pending(op, base, document);
      pending, prepared := Some(p), prepared[op := p];
      Log(Prepare(op, document), before);
    }

    /** The answer is applied to the local core, once. */
    method Apply(answer: Answer) returns (reply: Reply)
      requires Valid() && pending.Some? && answer in answers && answer.op == pending.value.op
      modifies this`landed, this`log, this`history, local
      ensures Valid()
      ensures landed == if reply.Done? then Some(answer.document) else None
      ensures (local.State(), reply) ==
                Synchronized(accepts, old(local.State()), answer.op, old(pending).value.document, answer.document)
      ensures reply.Done? ==> answer.op in local.journal && local.journal[answer.op].conflicts == reply.conflicts
    {
      ghost var before := State();
      var p := pending.value;
      SyncAnswers(accepts, local.State(), p.op, p.document, answer.document);
      reply := local.Synchronize(p.op, p.document, answer.document);
      log := log + Logged(Local, before.local, local.State(), p.op, p.document, answer.document);
      landed := if reply.Done? then Some(answer.document) else None;
      Log(Land(answer), before);
    }

    method MoveOn(document: Document)
      requires Valid() && pending.Some? && landed == Some(document)
      modifies this`base, this`provenance, this`pending, this`landed, this`history
      ensures Valid() && base == document && pending == None && provenance == Answered(old(pending).value.op)
    {
      ghost var before := State();
      provenance := Answered(pending.value.op);
      base, pending, landed := document, None, None;
      Log(Advance, before);
    }

    /** `sync_once`; `op` is the identifier it would draw. Whatever the schedule brings, it
        is a behaviour of the protocol (`Valid`). If it completes, the base is the server's
        record of the pending operation and both journals hold its conflicts; if not, base
        and an already pending operation are as before. If nothing interferes, it skips
        the exchange exactly when Python finds both documents equal to the base, and
        otherwise is one merge at the server and one at home. */
    method SyncOnce(op: Id) returns (out: Outcome)
      requires Valid()
      modifies this, server, local
      ensures Valid()
      ensures out in {Synced, Conflicted} ==>
                && pending.None? && provenance.Answered?
                && (old(pending).Some? ==> provenance.op == old(pending).value.op)
                && provenance.op in server.journal && provenance.op in local.journal
                && base == server.journal[provenance.op].document
                && (out.Synced?
                    <==> server.journal[provenance.op].conflicts == {} && local.journal[provenance.op].conflicts == {})
      ensures out in {Unchanged, Refused, Interrupted} ==>
                base == old(base) && (old(pending).Some? ==> pending == old(pending))
      ensures out.Unchanged? ==> pending.None? && old(pending).None?
      ensures old(schedule) == [] ==>
                var skips := old(pending).None? && AlikeDocuments(old(local.document), old(base))
                             && AlikeDocuments(old(server.document), old(base));
                var taken := op in old(prepared) || op in old(server.journal) || op in old(local.journal);
                var p := if old(pending).Some? then old(pending).value else Pending(op, old(base), old(local.document));
                && (out.Unchanged? <==> skips)
                && (out.Interrupted? <==> old(pending).None? && !skips && taken)
                && (out in {Unchanged, Interrupted} ==> SameCores() && pending == old(pending))
                && (out !in {Unchanged, Interrupted} ==>
                      && EndsAs(accepts, old(server.State()), old(local.State()), p, out)
                      && (server.State(), local.State()) ==
                           Exchanged(accepts, old(server.State()), old(local.State()), p)
                      && (out.Refused? ==> pending == Some(p)))
      ensures old(schedule) == [] && old(pending).None? && op !in old(prepared)
              && QuietStart(accepts, old(server.State()), old(local.State()), op, old(base)) && !out.Unchanged? ==>
                && (out.Synced? <==>
                      QuietPull(old(base), old(local.document), old(server.document))
                      && accepts(Pulled(old(local.document), server.document)))
                && (out.Synced? ==>
                      && pending.None? && base == server.document && AlikeDocuments(local.document, server.document)
                      && (SpelledAlike(old(local.document), old(server.document)) ==>
                           local.document == server.document))
    {
      hide Initial, EndsAs, QuietPull, SpelledAlike, AlikeDocuments, Exchanged, Exec, Pulled, MergesCleanly,
           Unambiguous;
      var early := Begin(op);
      if early.Some? { return early.value; }
      out := Exchange();
      if old(schedule) == [] && old(pending).None?
         && QuietStart(accepts, old(server.State()), old(local.State()), op, old(base)) {
        QuietExchange(accepts, old(server.State()), old(local.State()), op, old(base), out);
      }
    }

    /** The first part of the call: the pending operation, or the probe of an unchanged
        replica, or a new operation put on disk. */
    method Begin(op: Id) returns (early: Option<Outcome>)
      requires Valid()
      modifies this, server, local
      ensures Valid() && base == old(base) && (old(pending).Some? ==> pending == old(pending))
      ensures early.None? ==> pending.Some?
      ensures early.Some? ==>
                early.value in {Unchanged, Interrupted} && (early.value.Unchanged? ==> pending == None == old(pending))
      ensures old(schedule) == [] ==>
                var skips := old(pending).None? && AlikeDocuments(old(local.document), old(base))
                             && AlikeDocuments(old(server.document), old(base));
                var taken := op in old(prepared) || op in old(server.journal) || op in old(local.journal);
                && schedule == [] && SameCores()
                && (early == Some(Unchanged) <==> skips)
                && (early == Some(Interrupted) <==> old(pending).None? && !skips && taken)
                && (early.Some? ==> pending == old(pending))
                && (early.None? && old(pending).None? ==> pending == Some(Pending(op, base, old(local.document))))
    {
      hide Initial, AlikeDocuments;
      var goesOn := Meanwhile();
      if !goesOn { return Some(Interrupted); }
      if pending.None? {
        var document := local.document;
        Reachable();
        goesOn := Meanwhile();
        if !goesOn { return Some(Interrupted); }
        if AlikeDocuments(document, base) {
          // a conditional read of the server's document, and its answer
          var same := AlikeDocuments(server.document, base);
          goesOn := Meanwhile();
          if !goesOn { return Some(Interrupted); }
          if same { return Some(Unchanged); }
        }
        // a random identifier that is taken after all ends the call
        if op in prepared || op in server.journal || op in local.journal { return Some(Interrupted); }
        Persist(op, document);
      }
      early := None;
    }

    /** The rest of the call, with the operation on disk. */
    method Exchange() returns (out: Outcome)
      requires Valid() && pending.Some?
      modifies this, server, local
      ensures Valid()
      ensures out in {Synced, Conflicted} ==>
                && pending.None? && provenance == Answered(old(pending).value.op)
                && provenance.op in server.journal && provenance.op in local.journal
                && base == server.journal[provenance.op].document
                && (out.Synced?
                    <==> server.journal[provenance.op].conflicts == {} && local.journal[provenance.op].conflicts == {})
      ensures out in {Refused, Interrupted} ==> base == old(base) && pending == old(pending)
      ensures !out.Unchanged? && (old(schedule) == [] ==> !out.Interrupted?)
      ensures old(schedule) == [] ==>
                && EndsAs(accepts, old(server.State()), old(local.State()), old(pending).value, out)
                && (server.State(), local.State()) ==
                     Exchanged(accepts, old(server.State()), old(local.State()), old(pending).value)
    {
      hide Synchronized, Answers, Initial;
      var p := pending.value;
      forall o { EndIs(accepts, old(server.State()), old(local.State()), p, o); }
      var remote := Ask(p);
      if remote.None? { return Interrupted; }
      if remote.value.Failed? { return Refused; }
      out := Settle(p, remote.value.document, remote.value.conflicts);
    }

    method Send(p: Pending)
      requires Valid() && pending == Some(p)
      modifies this`sent, this`history
      ensures Valid() && p in sent
    {
      ghost var before := State();
      sent := sent + {p};
      Log(Post, before);
    }

    /** The request goes out, and its answer may come back. */
    method Ask(p: Pending) returns (reply: Option<Reply>)
      requires Valid() && pending == Some(p)
      modifies this`sent, this`answers, this`log, this`history, this`schedule, this`landed, server, local
      ensures Valid()
      ensures base == old(base) && pending == old(pending)
      ensures old(schedule) == [] ==>
                && schedule == [] && reply.Some? && local.State() == old(local.State())
                && (server.State(), reply.value) == Push(accepts, old(server.State()), p)
      ensures reply.Some? && reply.value.Done? ==>
                && Answer(p.op, reply.value.document, reply.value.conflicts) in answers
                && p.op in server.journal && server.journal[p.op].document == reply.value.document
                && server.journal[p.op].conflicts == reply.value.conflicts
    {
      Send(p);
      var goesOn := Meanwhile();
      if !goesOn { return None; }
      var remote := Arrive(p);
      goesOn := Meanwhile();
      reply := if goesOn then Some(remote) else None;
    }

    /** The answer is applied, then the checkpoint follows. */
    method Settle(p: Pending, document: Document, conflicts: set<Conflict>) returns (out: Outcome)
      requires Valid() && pending == Some(p) && Answer(p.op, document, conflicts) in answers
      requires p.op in server.journal && server.journal[p.op].document == document
      requires server.journal[p.op].conflicts == conflicts
      modifies this, server, local
      ensures Valid()
      ensures out in {Synced, Conflicted} ==>
                && pending.None? && provenance == Answered(p.op)
                && provenance.op in server.journal && provenance.op in local.journal
                && base == server.journal[provenance.op].document
                && (out.Synced?
                    <==> server.journal[provenance.op].conflicts == {} && local.journal[provenance.op].conflicts == {})
      ensures out in {Refused, Interrupted} ==> base == old(base) && pending == old(pending)
      ensures !out.Unchanged? && (old(schedule) == [] ==> !out.Interrupted?)
      ensures old(schedule) == [] ==>
                var (local', applied) := Pull(accepts, old(local.State()), p, Done(document, conflicts));
                && server.State() == old(server.State()) && local.State() == local'
                && out == (if applied.Failed? then Refused
                           else if conflicts == {} && applied.conflicts == {} then Synced else Conflicted)
    {
      var applied := Apply(Answer(p.op, document, conflicts));
      if applied.Failed? { return Refused; }
      var goesOn := Meanwhile();
      if !goesOn { return Interrupted; }
      MoveOn(document);
      out := if conflicts != {} || applied.conflicts != {} then Conflicted else Synced;
    }
  }
}
