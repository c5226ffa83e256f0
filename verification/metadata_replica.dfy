/** The exchange of one metadata replica with its server as a state machine: two
    journaled cores, a checkpoint of base and pending operation, requests and answers
    that may be lost, repeated or late, other people working on both cores, and crashes
    between any two persisted steps. */
module MetadataReplication {
  import opened Common
  import opened Documents
  import opened LifecycleGuard
  import opened Merge
  import opened MetadataCore

  datatype Pending = Pending(op: Id, base: Document, document: Document)
  datatype Answer = Answer(op: Id, document: Document, conflicts: set<Conflict>)

  datatype Site = Server | Local

  /** A merge that took place, as opposed to an answer from the journal. */
  datatype Event = Event(site: Site, op: Id, base: Document, incoming: Document, before: Document,
                         after: Document, conflicts: set<Conflict>)

  datatype Provenance = Unset | Seeded | Answered(op: Id)

  /** `landed` is the only volatile part: the answer applied to the local core while the
      checkpoint has not followed yet. `prepared` holds every operation this replica
      ever prepared, `log` every merge done for one of them. */
  datatype Sys = Sys(server: Desk, local: Desk, base: Document, provenance: Provenance, pending: Option<Pending>,
                     landed: Option<Document>, sent: set<Pending>, answers: set<Answer>,
                     prepared: map<Id, Pending>, log: seq<Event>)

  datatype Action =
    | OthersAtServer(o: DeskOp)
    | OthersAtHome(o: DeskOp)
    | Seed(document: Document)
    | Prepare(op: Id, document: Document)
    | Post
    | Serve(request: Pending)
    | Land(answer: Answer)
    | Advance
    | Crash

  function OpOf(o: DeskOp): Option<Id> { if o.Edited? then None else Some(o.op) }

  /** Others cannot guess an operation id of this replica, and a new one is new. The
      document prepared is a snapshot of the local core, possibly edited since. */
  predicate Enabled(accepts: Validator, sys: Sys, a: Action) {
    match a
    case OthersAtServer(o) => OpOf(o).Some? ==> OpOf(o).value !in sys.prepared
    case OthersAtHome(o) => OpOf(o).Some? ==> OpOf(o).value !in sys.prepared
    case Seed(d) => accepts(d) && sys.pending.None? && sys.base == EMPTY
    case Prepare(op, d) =>
      sys.pending.None? && accepts(d) && op !in sys.prepared && op !in sys.server.journal && op !in sys.local.journal
    case Post => sys.pending.Some?
    case Serve(p) => p in sys.sent
    case Land(a) => sys.pending.Some? && a in sys.answers && a.op == sys.pending.value.op
    case Advance => sys.pending.Some? && sys.landed.Some?
    case Crash => true
  }

  /** The log entry of a synchronization, if it merged. */
  function Logged(site: Site, s: Desk, s': Desk, op: Id, base: Document, incoming: Document): seq<Event> {
    if op !in s.journal && op in s'.journal
    then [Event(site, op, base, incoming, s.document, s'.document, s'.journal[op].conflicts)] else []
  }

  function Served(accepts: Validator, sys: Sys, p: Pending): Sys {
    var (s', reply) := Synchronized(accepts, sys.server, p.op, p.base, p.document);
    sys.(server := s', log := sys.log + Logged(Server, sys.server, s', p.op, p.base, p.document),
         answers := sys.answers + if reply.Done? then {Answer(p.op, reply.document, reply.conflicts)} else {})
  }

  function Landed(accepts: Validator, sys: Sys, p: Pending, d: Document): Sys {
    var (s', reply) := Synchronized(accepts, sys.local, p.op, p.document, d);
    sys.(local := s', log := sys.log + Logged(Local, sys.local, s', p.op, p.document, d),
         landed := if reply.Done? then Some(d) else None)
  }

  function Effect(accepts: Validator, sys: Sys, a: Action): Sys
    requires Enabled(accepts, sys, a)
  {
    match a
    case OthersAtServer(o) => sys.(server := Next(accepts, sys.server, o))
    case OthersAtHome(o) => sys.(local := Next(accepts, sys.local, o))
    case Seed(d) => sys.(base := d, provenance := Seeded)
    case Prepare(op, d) =>
      var p := Pending(op, sys.base, d);
      sys.(pending := Some(p), prepared := sys.prepared[op := p])
    case Post => sys.(sent := sys.sent + {sys.pending.value})
    case Serve(p) => Served(accepts, sys, p)
    case Land(a) => Landed(accepts, sys, sys.pending.value, a.document)
    case Advance =>
      sys.(base := sys.landed.value, provenance := Answered(sys.pending.value.op), pending := None, landed := None)
    case Crash => sys.(landed := None)
  }

  function Step(accepts: Validator, sys: Sys, a: Action): Sys {
    if Enabled(accepts, sys, a) then Effect(accepts, sys, a) else sys
  }

  function Exec(accepts: Validator, sys: Sys, actions: seq<Action>): Sys
    decreases |actions|
  {
    if actions == [] then sys else Step(accepts, Exec(accepts, sys, actions[..|actions| - 1]), actions[|actions| - 1])
  }

  // ------------------------------------------------------------- the invariant

  type Requests = map<Id, Pending>

  predicate DeskValid(accepts: Validator, s: Desk) {
    accepts(s.document) && forall op :: op in s.journal ==> accepts(s.journal[op].document)
  }

  predicate RequestsValid(accepts: Validator, prepared: Requests) {
    forall op :: op in prepared ==>
      prepared[op].op == op && accepts(prepared[op].base) && accepts(prepared[op].document)
  }

  /** What is pending or on the wire is what was prepared. */
  predicate Wired(prepared: Requests, pending: Option<Pending>, base: Document, sent: set<Pending>) {
    && (pending.Some? ==>
          pending.value.op in prepared && prepared[pending.value.op] == pending.value && pending.value.base == base)
    && (forall p :: p in sent ==> p.op in prepared && prepared[p.op] == p)
  }

  predicate ServerRecords(prepared: Requests, sj: Journal, answers: set<Answer>) {
    && (forall op :: op in prepared && op in sj ==> sj[op].request == Sync(prepared[op].base, prepared[op].document))
    && (forall a :: a in answers ==>
          a.op in prepared && a.op in sj && sj[a.op].document == a.document && sj[a.op].conflicts == a.conflicts)
  }

  /** An operation reaches the local core only with the server's recorded document. */
  predicate LocalRecords(prepared: Requests, sj: Journal, lj: Journal) {
    forall op :: op in prepared && op in lj ==>
      op in sj && lj[op].request == Sync(prepared[op].document, sj[op].document)
  }

  predicate Progress(prepared: Requests, sj: Journal, lj: Journal, pending: Option<Pending>, landed: Option<Document>) {
    && (landed.Some? ==>
          pending.Some? && pending.value.op in lj && pending.value.op in sj
              && sj[pending.value.op].document == landed.value)
    && (forall op :: op in prepared && !(pending.Some? && pending.value.op == op) ==> op in sj && op in lj)
  }

  predicate BaseRecorded(base: Document, provenance: Provenance, prepared: Requests, sj: Journal) {
    && (provenance.Unset? ==> base == EMPTY)
    && (provenance.Answered? ==>
          provenance.op in prepared && provenance.op in sj && sj[provenance.op].document == base)
  }

  function Count(log: seq<Event>, site: Site, op: Id): nat {
    if log == [] then 0
    else Count(log[..|log| - 1], site, op) + if log[|log| - 1].site == site && log[|log| - 1].op == op then 1 else 0
  }

  predicate Faithful(accepts: Validator, j: Journal, e: Event) {
    && e.op in j && j[e.op] == Record(Sync(e.base, e.incoming), e.after, e.conflicts)
    && MergeOf(accepts, e.base, e.incoming, e.before) == Accepted(e.after, e.conflicts)
  }

  predicate LogFaithful(accepts: Validator, prepared: Requests, sj: Journal, lj: Journal, log: seq<Event>) {
    forall i :: 0 <= i < |log| ==>
        log[i].op in prepared && Faithful(accepts, if log[i].site.Server? then sj else lj, log[i])
  }

  ghost predicate Counted(prepared: Requests, j: Journal, log: seq<Event>, site: Site) {
    forall op :: op in prepared ==> Count(log, site, op) == if op in j then 1 else 0
  }

  ghost predicate Inv(accepts: Validator, sys: Sys) {
    && DeskValid(accepts, sys.server) && DeskValid(accepts, sys.local) && accepts(sys.base)
    && RequestsValid(accepts, sys.prepared)
    && Wired(sys.prepared, sys.pending, sys.base, sys.sent)
    && ServerRecords(sys.prepared, sys.server.journal, sys.answers)
    && LocalRecords(sys.prepared, sys.server.journal, sys.local.journal)
    && Progress(sys.prepared, sys.server.journal, sys.local.journal, sys.pending, sys.landed)
    && BaseRecorded(sys.base, sys.provenance, sys.prepared, sys.server.journal)
    && LogFaithful(accepts, sys.prepared, sys.server.journal, sys.local.journal, sys.log)
    && Counted(sys.prepared, sys.server.journal, sys.log, Server)
    && Counted(sys.prepared, sys.local.journal, sys.log, Local)
  }

  predicate Initial(accepts: Validator, sys: Sys) {
    && DeskValid(accepts, sys.server) && DeskValid(accepts, sys.local) && accepts(EMPTY)
    && sys == Sys(sys.server, sys.local, EMPTY, Unset, None, None, {}, {}, map[], [])
  }

  // -------------------------------------------------------------- preservation

  /** A journal grown by records of the given operation only. */
  predicate Grows(j: Journal, j': Journal, op: Id) {
    && (forall o :: o in j ==> o in j' && j'[o] == j[o])
    && (forall o :: o in j' && o !in j ==> o == op)
  }

  lemma MergeValid(accepts: Validator, base: Document, incoming: Document, current: Document)
    requires accepts(current)
    ensures var out := MergeOf(accepts, base, incoming, current); out.Accepted? ==> accepts(out.document)
  {
  }

  lemma RecordGrows(accepts: Validator, s: Desk, op: Id, record: Record, d: Document)
    requires d == record.document || d == s.document
    requires DeskValid(accepts, s) && accepts(record.document) && op !in s.journal
    ensures DeskValid(accepts, Desk(d, s.journal[op := record]))
    ensures Grows(s.journal, s.journal[op := record], op)
  {
  }

  /** Every operation leaves a desk alone or adds one record, whose document it takes or,
      where Python sees no difference, leaves aside. */
  predicate AddsRecord(s: Desk, s': Desk, op: Id) {
    || s' == s
    || (op !in s.journal && op in s'.journal && s'.journal == s.journal[op := s'.journal[op]]
        && (s'.document == s'.journal[op].document || s'.document == s.document))
  }

  lemma SyncAdds(accepts: Validator, s: Desk, op: Id, base: Document, d: Document)
    ensures var s' := Synchronized(accepts, s, op, base, d).0;
            AddsRecord(s, s', op)
                && (s' == s || (s'.journal[op].request == Sync(base, d) && s'.document == s'.journal[op].document
              && MergeOf(accepts, base, d, s.document) == Accepted(s'.document, s'.journal[op].conflicts)))
  {
  }

  /** An answer is the record of the operation, made for this very request. */
  lemma SyncAnswers(accepts: Validator, s: Desk, op: Id, base: Document, d: Document)
    ensures var (s', reply) := Synchronized(accepts, s, op, base, d);
            && (reply.Done? ==>
                 op in s'.journal && s'.journal[op] == Record(Sync(base, d), reply.document, reply.conflicts))
            && (accepts(base) && accepts(d) && op in s.journal && s.journal[op].request == Sync(base, d) ==>
                 reply.Done?)
  {
  }

  lemma LeafAdds(accepts: Validator, s: Desk, op: Id, id: ConflictId, expected: Leaf, chosen: Leaf)
    ensures AddsRecord(s, LeafResolved(accepts, s, op, id, expected, chosen).0, op)
  {
  }

  lemma LeafResolvedValid(accepts: Validator, s: Desk, op: Id, id: ConflictId, expected: Leaf, chosen: Leaf)
    ensures var s' := LeafResolved(accepts, s, op, id, expected, chosen).0;
            s' == s || (op in s'.journal && accepts(s'.journal[op].document))
  {
    if id.conflict.LeafConflict? { WithLeafValid(accepts, s.document, id.conflict.path, chosen); }
  }

  lemma WithLeafValid(accepts: Validator, d: Document, p: FieldPath, leaf: Leaf)
    ensures var e := WithLeaf(accepts, d, p, leaf); e.Some? ==> accepts(e.value)
  {
  }

  lemma AddsGrows(accepts: Validator, s: Desk, s': Desk, op: Id)
    requires DeskValid(accepts, s) && AddsRecord(s, s', op)
             && (s' == s || (op in s'.journal && accepts(s'.journal[op].document)))
    ensures DeskValid(accepts, s') && Grows(s.journal, s'.journal, op)
  {
    if s' != s { RecordGrows(accepts, s, op, s'.journal[op], s'.document); }
  }

  lemma SyncGrows(accepts: Validator, s: Desk, op: Id, base: Document, d: Document)
    requires DeskValid(accepts, s)
    ensures var s' := Synchronized(accepts, s, op, base, d).0;
            DeskValid(accepts, s') && Grows(s.journal, s'.journal, op)
  {
    SyncAdds(accepts, s, op, base, d);
    MergeValid(accepts, base, d, s.document);
    AddsGrows(accepts, s, Synchronized(accepts, s, op, base, d).0, op);
  }

  lemma LeafGrows(accepts: Validator, s: Desk, op: Id, id: ConflictId, expected: Leaf, chosen: Leaf)
    requires DeskValid(accepts, s)
    ensures var s' := LeafResolved(accepts, s, op, id, expected, chosen).0;
            DeskValid(accepts, s') && Grows(s.journal, s'.journal, op)
  {
    LeafAdds(accepts, s, op, id, expected, chosen);
    LeafResolvedValid(accepts, s, op, id, expected, chosen);
    AddsGrows(accepts, s, LeafResolved(accepts, s, op, id, expected, chosen).0, op);
  }

  lemma StateAdds(accepts: Validator, s: Desk, op: Id, id: ConflictId, state: Option<Entry>, seen: Document,
                  choice: Option<Entry>, target: Option<Document>)
    ensures var s' := StateResolved(accepts, s, op, id, state, seen, choice, target).0;
            AddsRecord(s, s', op) && (s' == s || (op in s'.journal && accepts(s'.journal[op].document)))
  {
  }

  lemma NextGrows(accepts: Validator, s: Desk, o: DeskOp)
    requires DeskValid(accepts, s)
    ensures DeskValid(accepts, Next(accepts, s, o))
    ensures if OpOf(o).Some? then Grows(s.journal, Next(accepts, s, o).journal, OpOf(o).value)
            else Next(accepts, s, o).journal == s.journal
  {
    match o
    case Edited(_) =>
    case Synchronizing(op, base, d) => SyncGrows(accepts, s, op, base, d);
    case Resolving(op, id, expected, chosen) => LeafGrows(accepts, s, op, id, expected, chosen);
    case Adopting(op, id, state, seen, choice, target) =>
      StateAdds(accepts, s, op, id, state, seen, choice, target);
      AddsGrows(accepts, s, StateResolved(accepts, s, op, id, state, seen, choice, target).0, op);
  }

  /** Records of foreign operations are no concern of ours. */
  lemma ForeignServer(accepts: Validator, sys: Sys, j: Journal, op: Id)
    requires Inv(accepts, sys) && op !in sys.prepared && Grows(sys.server.journal, j, op)
    ensures ServerRecords(sys.prepared, j, sys.answers) && LocalRecords(sys.prepared, j, sys.local.journal)
    ensures Progress(sys.prepared, j, sys.local.journal, sys.pending, sys.landed)
    ensures BaseRecorded(sys.base, sys.provenance, sys.prepared, j)
    ensures LogFaithful(accepts, sys.prepared, j, sys.local.journal, sys.log)
    ensures Counted(sys.prepared, j, sys.log, Server)
  {
  }

  lemma ForeignLocal(accepts: Validator, sys: Sys, j: Journal, op: Id)
    requires Inv(accepts, sys) && op !in sys.prepared && Grows(sys.local.journal, j, op)
    ensures LocalRecords(sys.prepared, sys.server.journal, j)
    ensures Progress(sys.prepared, sys.server.journal, j, sys.pending, sys.landed)
    ensures LogFaithful(accepts, sys.prepared, sys.server.journal, j, sys.log)
    ensures Counted(sys.prepared, j, sys.log, Local)
  {
  }

  lemma CountSnoc(log: seq<Event>, e: Event, site: Site, op: Id)
    ensures Count(log + [e], site, op) == Count(log, site, op) + if e.site == site && e.op == op then 1 else 0
  {
    assert (log + [e])[..|log|] == log;
  }

  lemma LogGrows(accepts: Validator, prepared: Requests, sj: Journal, lj: Journal, log: seq<Event>, sj': Journal,
                 lj': Journal,
                 op: Id, more: seq<Event>)
    requires LogFaithful(accepts, prepared, sj, lj, log) && Grows(sj, sj', op) && Grows(lj, lj', op)
    requires more == [] || (|more| == 1 && more[0].op in prepared
               && Faithful(accepts, if more[0].site.Server? then sj' else lj', more[0]))
    ensures LogFaithful(accepts, prepared, sj', lj', log + more)
  {
    hide Faithful, Grows;
    forall i | 0 <= i < |log + more|
      ensures var e := (log + more)[i]; e.op in prepared && Faithful(accepts, if e.site.Server? then sj' else lj', e)
    {
      if i < |log| {
        var e := log[i];
        assert (log + more)[i] == e;
        FaithfulStays(accepts, if e.site.Server? then sj else lj, if e.site.Server? then sj' else lj', op, e);
      }
    }
  }

  lemma FaithfulStays(accepts: Validator, j: Journal, j': Journal, op: Id, e: Event)
    requires Faithful(accepts, j, e) && Grows(j, j', op)
    ensures Faithful(accepts, j', e)
  {
  }

  /** One merge is one more in the log, of its site and operation. */
  lemma CountGrows(prepared: Requests, j: Journal, j': Journal, log: seq<Event>, site: Site, op: Id, more: seq<Event>)
    requires Counted(prepared, j, log, site) && Grows(j, j', op)
    requires if op in j' && op !in j then |more| == 1 && more[0].site == site && more[0].op == op
             else |more| == 1 ==> more[0].site != site
    requires |more| <= 1
    ensures Counted(prepared, j', log + more, site)
  {
    forall o | o in prepared ensures Count(log + more, site, o) == if o in j' then 1 else 0 {
      if |more| == 1 {
        assert more == [more[0]];
        CountSnoc(log, more[0], site, o);
      } else {
        assert log + more == log;
      }
    }
  }

  lemma OtherSiteCounted(prepared: Requests, j: Journal, log: seq<Event>, site: Site, op: Id, more: seq<Event>)
    requires Counted(prepared, j, log, site) && |more| <= 1 && (more != [] ==> more[0].site != site)
    ensures Counted(prepared, j, log + more, site)
  {
    CountGrows(prepared, j, j, log, site, op, more);
  }

  lemma ServeKeeps(accepts: Validator, sys: Sys, p: Pending)
    requires Inv(accepts, sys) && p in sys.sent
    ensures Inv(accepts, Served(accepts, sys, p))
  {
    var (s', reply) := Synchronized(accepts, sys.server, p.op, p.base, p.document);
    var more := Logged(Server, sys.server, s', p.op, p.base, p.document);
    SyncGrows(accepts, sys.server, p.op, p.base, p.document);
    SyncAdds(accepts, sys.server, p.op, p.base, p.document);
    SyncAnswers(accepts, sys.server, p.op, p.base, p.document);
    LogGrows(accepts, sys.prepared, sys.server.journal, sys.local.journal, sys.log, s'.journal, sys.local.journal,
             p.op, more);
    CountGrows(sys.prepared, sys.server.journal, s'.journal, sys.log, Server, p.op, more);
    OtherSiteCounted(sys.prepared, sys.local.journal, sys.log, Local, p.op, more);
  }

  lemma LandKeeps(accepts: Validator, sys: Sys, a: Answer)
    requires Inv(accepts, sys) && Enabled(accepts, sys, Land(a))
    ensures Inv(accepts, Landed(accepts, sys, sys.pending.value, a.document))
  {
    var p := sys.pending.value;
    var (s', reply) := Synchronized(accepts, sys.local, p.op, p.document, a.document);
    var more := Logged(Local, sys.local, s', p.op, p.document, a.document);
    SyncGrows(accepts, sys.local, p.op, p.document, a.document);
    SyncAdds(accepts, sys.local, p.op, p.document, a.document);
    SyncAnswers(accepts, sys.local, p.op, p.document, a.document);
    LogGrows(accepts, sys.prepared, sys.server.journal, sys.local.journal, sys.log, sys.server.journal, s'.journal,
             p.op, more);
    CountGrows(sys.prepared, sys.local.journal, s'.journal, sys.log, Local, p.op, more);
    OtherSiteCounted(sys.prepared, sys.server.journal, sys.log, Server, p.op, more);
  }

  /** One more operation on record, pending, with nothing of it anywhere else. */
  lemma PreparedWired(sys: Sys, op: Id, p: Pending)
    requires Wired(sys.prepared, None, sys.base, sys.sent) && op !in sys.prepared && p.op == op && p.base == sys.base
    ensures Wired(sys.prepared[op := p], Some(p), sys.base, sys.sent)
  {
  }

  lemma PreparedRecords(sys: Sys, op: Id, p: Pending)
    requires op !in sys.prepared && op !in sys.server.journal && op !in sys.local.journal && p.op == op
    requires ServerRecords(sys.prepared, sys.server.journal, sys.answers)
    requires LocalRecords(sys.prepared, sys.server.journal, sys.local.journal)
    requires Progress(sys.prepared, sys.server.journal, sys.local.journal, None, sys.landed)
    ensures ServerRecords(sys.prepared[op := p], sys.server.journal, sys.answers)
    ensures LocalRecords(sys.prepared[op := p], sys.server.journal, sys.local.journal)
    ensures Progress(sys.prepared[op := p], sys.server.journal, sys.local.journal, Some(p), sys.landed)
  {
  }

  lemma PrepareKeeps(accepts: Validator, sys: Sys, op: Id, d: Document)
    requires Inv(accepts, sys) && Enabled(accepts, sys, Prepare(op, d))
    ensures Inv(accepts, Effect(accepts, sys, Prepare(op, d)))
  {
    var p := Pending(op, sys.base, d);
    var prepared := sys.prepared[op := p];
    PreparedWired(sys, op, p);
    PreparedRecords(sys, op, p);
    NoneLogged(accepts, sys, op);
    OneMorePrepared(sys.prepared, prepared, sys.server.journal, sys.log, Server, op);
    OneMorePrepared(sys.prepared, prepared, sys.local.journal, sys.log, Local, op);
    LogStays(accepts, sys.prepared, prepared, sys.server.journal, sys.local.journal, sys.log);
  }

  lemma OneMorePrepared(prepared: Requests, prepared': Requests, j: Journal, log: seq<Event>, site: Site, op: Id)
    requires Counted(prepared, j, log, site) && prepared'.Keys == prepared.Keys + {op}
    requires op !in j && Count(log, site, op) == 0
    ensures Counted(prepared', j, log, site)
  {
  }

  lemma LogStays(accepts: Validator, prepared: Requests, prepared': Requests, sj: Journal, lj: Journal, log: seq<Event>)
    requires LogFaithful(accepts, prepared, sj, lj, log) && prepared.Keys <= prepared'.Keys
    ensures LogFaithful(accepts, prepared', sj, lj, log)
  {
  }

  lemma {:induction false} NoneCounted(log: seq<Event>, site: Site, op: Id)
    requires forall i :: 0 <= i < |log| ==> log[i].op != op
    ensures Count(log, site, op) == 0
    decreases |log|
  {
    if log != [] { NoneCounted(log[..|log| - 1], site, op); }
  }

  lemma NoneLogged(accepts: Validator, sys: Sys, op: Id)
    requires Inv(accepts, sys) && op !in sys.prepared
    ensures forall site :: Count(sys.log, site, op) == 0
  {
    forall site ensures Count(sys.log, site, op) == 0 { NoneCounted(sys.log, site, op); }
  }

  lemma StepKeeps(accepts: Validator, sys: Sys, a: Action)
    requires Inv(accepts, sys)
    ensures Inv(accepts, Step(accepts, sys, a))
  {
    if Enabled(accepts, sys, a) {
      match a
      case OthersAtServer(o) => OthersServerKeep(accepts, sys, o);
      case OthersAtHome(o) => OthersHomeKeep(accepts, sys, o);
      case Prepare(op, d) => PrepareKeeps(accepts, sys, op, d);
      case Serve(p) => ServeKeeps(accepts, sys, p);
      case Land(answer) => LandKeeps(accepts, sys, answer);
      case _ => CheckpointKeeps(accepts, sys, a);
    }
  }

  lemma CheckpointKeeps(accepts: Validator, sys: Sys, a: Action)
    requires Inv(accepts, sys) && Enabled(accepts, sys, a) && (a.Seed? || a.Post? || a.Advance? || a.Crash?)
    ensures Inv(accepts, Effect(accepts, sys, a))
  {
  }

  lemma OthersServerKeep(accepts: Validator, sys: Sys, o: DeskOp)
    requires Inv(accepts, sys) && Enabled(accepts, sys, OthersAtServer(o))
    ensures Inv(accepts, Effect(accepts, sys, OthersAtServer(o)))
  {
    NextGrows(accepts, sys.server, o);
    if OpOf(o).Some? { ForeignServer(accepts, sys, Next(accepts, sys.server, o).journal, OpOf(o).value); }
  }

  lemma OthersHomeKeep(accepts: Validator, sys: Sys, o: DeskOp)
    requires Inv(accepts, sys) && Enabled(accepts, sys, OthersAtHome(o))
    ensures Inv(accepts, Effect(accepts, sys, OthersAtHome(o)))
  {
    NextGrows(accepts, sys.local, o);
    if OpOf(o).Some? { ForeignLocal(accepts, sys, Next(accepts, sys.local, o).journal, OpOf(o).value); }
  }

  lemma {:induction false} ExecKeeps(accepts: Validator, sys: Sys, actions: seq<Action>)
    requires Initial(accepts, sys)
    ensures Inv(accepts, Exec(accepts, sys, actions))
    decreases |actions|
  {
    if actions != [] {
      ExecKeeps(accepts, sys, actions[..|actions| - 1]);
      StepKeeps(accepts, Exec(accepts, sys, actions[..|actions| - 1]), actions[|actions| - 1]);
    }
  }

  // ------------------------------------------------------------------- results

  /** Every operation is merged at most once at home and at most once on the server,
      there first; exactly once at both when it is no longer pending. */
  lemma ExactlyOnce(accepts: Validator, init: Sys, actions: seq<Action>, op: Id)
    requires Initial(accepts, init) && op in Exec(accepts, init, actions).prepared
    ensures var sys := Exec(accepts, init, actions);
            && Count(sys.log, Local, op) <= Count(sys.log, Server, op) <= 1
            && (!(sys.pending.Some? && sys.pending.value.op == op) ==>
                 Count(sys.log, Local, op) == Count(sys.log, Server, op) == 1)
  {
    ExecKeeps(accepts, init, actions);
  }

  /** What those merges were: on the server the prepared document against the prepared
      base, at home the server's recorded document against the prepared one; and what
      came of them is what the journal holds. */
  lemma MergesAreTheRecorded(accepts: Validator, init: Sys, actions: seq<Action>, i: nat)
    requires Initial(accepts, init) && i < |Exec(accepts, init, actions).log|
    ensures var sys := Exec(accepts, init, actions);
            var e := sys.log[i];
            && e.op in sys.prepared && e.op in sys.server.journal
            && MergeOf(accepts, e.base, e.incoming, e.before) == Accepted(e.after, e.conflicts)
            && (e.base, e.incoming) == (if e.site.Server? then (sys.prepared[e.op].base, sys.prepared[e.op].document)
                                        else (sys.prepared[e.op].document, sys.server.journal[e.op].document))
            && var j := if e.site.Server? then sys.server.journal else sys.local.journal;
               e.op in j && j[e.op].document == e.after && j[e.op].conflicts == e.conflicts
  {
    ExecKeeps(accepts, init, actions);
    var sys := Exec(accepts, init, actions);
    assert Faithful(accepts, if sys.log[i].site.Server? then sys.server.journal else sys.local.journal, sys.log[i]);
  }

  /** The checkpoint base is empty, seeded, or the server's recorded document for one of
      this replica's operations; and it changes only to the document of the operation
      that was pending. */
  lemma BaseIsRecorded(accepts: Validator, init: Sys, actions: seq<Action>, a: Action)
    requires Initial(accepts, init)
    ensures var sys := Exec(accepts, init, actions);
            && BaseRecorded(sys.base, sys.provenance, sys.prepared, sys.server.journal)
            && var next := Step(accepts, sys, a);
               next.base != sys.base && !a.Seed? ==>
                 && sys.pending.Some? && sys.pending.value.op in sys.server.journal
                     && sys.pending.value.op in sys.local.journal
                 && next.base == sys.server.journal[sys.pending.value.op].document && next.pending.None?
  {
    ExecKeeps(accepts, init, actions);
  }

  /** A leaf edited at home after the snapshot keeps its value against the answer, unless
      Python finds it equal to the snapshot's or to the stand-in and the answer changed it
      to something else. If the answer differs from both, it is journaled against the kept
      value, or refused as a whole. */
  lemma EditsSurvive(accepts: Validator, init: Sys, actions: seq<Action>, i: nat, p: FieldPath)
    requires Initial(accepts, init) && i < |Exec(accepts, init, actions).log| && p != FILES
    requires var sys := Exec(accepts, init, actions);
             var e := sys.log[i];
             && e.site.Local? && e.op in sys.prepared && p in Leaves(e.before)
             && Leaves(e.before)[p] != Get(Leaves(sys.prepared[e.op].document), p)
    ensures var sys := Exec(accepts, init, actions);
            var e := sys.log[i];
            && e.op in sys.local.journal && e.conflicts == sys.local.journal[e.op].conflicts
            && Survives(e, p, Get(Leaves(sys.prepared[e.op].document), p), Leaves(e.before)[p],
                        Get(Leaves(e.incoming), p))
  {
    MergesAreTheRecorded(accepts, init, actions, i);
    var e := Exec(accepts, init, actions).log[i];
    EventSurvives(accepts, e, p);
  }

  ghost predicate Survives(e: Event, p: FieldPath, snapshot: Leaf, edited: Leaf, answered: Leaf) {
    || (e.after == e.before && e.conflicts != {})
    || (&& (Get(Leaves(e.after), p) == edited <==> !GivesWay(p, snapshot, answered, edited))
        && (!Alike(edited, snapshot) && !StandsIn(edited) ==>
              && Get(Leaves(e.after), p) == edited
              && (!Alike(answered, snapshot) && !Alike(answered, edited) ==>
                    exists reason :: LeafConflict(p, snapshot, answered, edited, reason) in e.conflicts)))
  }

  lemma EventSurvives(accepts: Validator, e: Event, p: FieldPath)
    requires MergeOf(accepts, e.base, e.incoming, e.before) == Accepted(e.after, e.conflicts)
    requires p != FILES && p in Leaves(e.before)
    ensures Survives(e, p, Get(Leaves(e.base), p), Leaves(e.before)[p], Get(Leaves(e.incoming), p))
  {
    if Guard(e.base, e.incoming, e.before) == {} {
      LeafConservation(accepts, e.base, e.incoming, e.before, Accepted(e.after, e.conflicts), p);
    } else {
      GuardedChangesNothing(accepts, e.base, e.incoming, e.before);
    }
  }

  /** A leaf not there at home when the answer is merged, deleted since the snapshot or never
      present: it appears, without a conflict, exactly if the answer has it and Python does
      not find the snapshot's value in it; then with the answer's value. A deletion is thus
      undone exactly by an answer that changed the leaf. */
  lemma DeletionsSurvive(accepts: Validator, init: Sys, actions: seq<Action>, i: nat, p: FieldPath)
    requires Initial(accepts, init) && i < |Exec(accepts, init, actions).log| && p != FILES
    requires var e := Exec(accepts, init, actions).log[i];
             e.site.Local? && p !in Leaves(e.before)
    ensures var sys := Exec(accepts, init, actions);
            var e := sys.log[i];
            && e.op in sys.prepared && e.op in sys.local.journal && e.conflicts == sys.local.journal[e.op].conflicts
            && StaysAway(e, p, Get(Leaves(sys.prepared[e.op].document), p), Get(Leaves(e.incoming), p))
  {
    MergesAreTheRecorded(accepts, init, actions, i);
    EventStaysAway(accepts, Exec(accepts, init, actions).log[i], p);
  }

  ghost predicate StaysAway(e: Event, p: FieldPath, snapshot: Leaf, answered: Leaf) {
    || (e.after == e.before && e.conflicts != {})
    || (&& (p in Leaves(e.after) <==> !StandsIn(answered) && !Alike(answered, snapshot))
        && (p in Leaves(e.after) ==> Leaves(e.after)[p] == answered)
        && (!StandsIn(answered) ==> forall k :: k in e.conflicts && k.LeafConflict? ==> k.path != p))
  }

  lemma EventStaysAway(accepts: Validator, e: Event, p: FieldPath)
    requires MergeOf(accepts, e.base, e.incoming, e.before) == Accepted(e.after, e.conflicts)
    requires p != FILES && p !in Leaves(e.before)
    ensures StaysAway(e, p, Get(Leaves(e.base), p), Get(Leaves(e.incoming), p))
  {
    if Guard(e.base, e.incoming, e.before) == {} {
      AbsentStaysAway(accepts, e.base, e.incoming, e.before, Accepted(e.after, e.conflicts), p);
    } else {
      GuardedChangesNothing(accepts, e.base, e.incoming, e.before);
    }
  }

  /** File references at home and in the answer unite, whatever was added or removed since
      the snapshot: an added one stays, a removed one returns exactly if the answer has it. */
  lemma FileEditsUnite(accepts: Validator, init: Sys, actions: seq<Action>, i: nat)
    requires Initial(accepts, init) && i < |Exec(accepts, init, actions).log|
    requires Exec(accepts, init, actions).log[i].site.Local?
    ensures var e := Exec(accepts, init, actions).log[i];
            || (e.after == e.before && e.conflicts != {})
            || FilesIn(Get(Leaves(e.after), FILES))
               == FilesIn(Get(Leaves(e.incoming), FILES)) + FilesIn(Get(Leaves(e.before), FILES))
  {
    MergesAreTheRecorded(accepts, init, actions, i);
    EventFiles(accepts, Exec(accepts, init, actions).log[i]);
  }

  lemma EventFiles(accepts: Validator, e: Event)
    requires MergeOf(accepts, e.base, e.incoming, e.before) == Accepted(e.after, e.conflicts)
    ensures (e.after == e.before && e.conflicts != {})
         || FilesIn(Get(Leaves(e.after), FILES))
            == FilesIn(Get(Leaves(e.incoming), FILES)) + FilesIn(Get(Leaves(e.before), FILES))
  {
    if Guard(e.base, e.incoming, e.before) == {} {
      FilesUnite(accepts, e.base, e.incoming, e.before, Accepted(e.after, e.conflicts));
    } else {
      GuardedChangesNothing(accepts, e.base, e.incoming, e.before);
    }
  }

  /** What a pending operation that reached both cores left in their journals. */
  lemma PendingRecords(accepts: Validator, sys: Sys)
    requires Inv(accepts, sys) && sys.pending.Some? && sys.pending.value.op in sys.local.journal
    ensures var p := sys.pending.value;
            && p.op in sys.server.journal && accepts(p.base) && accepts(p.document)
                && accepts(sys.server.journal[p.op].document)
            && sys.server.journal[p.op].request == Sync(p.base, p.document)
            && sys.local.journal[p.op].request == Sync(p.document, sys.server.journal[p.op].document)
  {
  }

  /** Asking a core again for what its journal holds changes nothing. */
  lemma ServeAgain(accepts: Validator, sys: Sys, p: Pending)
    requires p in sys.sent && p.op in sys.server.journal && accepts(p.base) && accepts(p.document)
    requires sys.server.journal[p.op].request == Sync(p.base, p.document)
    ensures var r := sys.server.journal[p.op];
            Step(accepts, sys, Serve(p)) == sys.(answers := sys.answers + {Answer(p.op, r.document, r.conflicts)})
  {
    assert sys.log + [] == sys.log;
  }

  lemma LandAgain(accepts: Validator, sys: Sys, a: Answer)
    requires Enabled(accepts, sys, Land(a)) && a.op in sys.local.journal
    requires accepts(sys.pending.value.document) && accepts(a.document)
    requires sys.local.journal[a.op].request == Sync(sys.pending.value.document, a.document)
    ensures Step(accepts, sys, Land(a)) == sys.(landed := Some(a.document))
  {
    assert sys.log + [] == sys.log;
  }

  /** A pending operation both cores have already merged completes on the next attempt
      without touching either: only the checkpoint moves. */
  lemma RetryFinishes(accepts: Validator, init: Sys, actions: seq<Action>)
    requires Initial(accepts, init)
    requires var sys := Exec(accepts, init, actions);
             sys.pending.Some? && sys.pending.value.op in sys.local.journal
    ensures var sys := Exec(accepts, init, actions);
            var p := sys.pending.value;
            p.op in sys.server.journal &&
            var r := sys.server.journal[p.op];
            var sys1 := Step(accepts, sys, Post);
            var sys2 := Step(accepts, sys1, Serve(p));
            var sys3 := Step(accepts, sys2, Land(Answer(p.op, r.document, r.conflicts)));
            var sys4 := Step(accepts, sys3, Advance);
            && sys4.server == sys.server && sys4.local == sys.local && sys4.log == sys.log
            && sys4.pending.None? && sys4.base == r.document
  {
    ExecKeeps(accepts, init, actions);
    var sys := Exec(accepts, init, actions);
    PendingRecords(accepts, sys);
    Retry(accepts, sys);
  }

  lemma Retry(accepts: Validator, sys: Sys)
    requires sys.pending.Some?
    requires sys.pending.value.op in sys.local.journal && sys.pending.value.op in sys.server.journal
    requires var p := sys.pending.value;
             && accepts(p.base) && accepts(p.document) && accepts(sys.server.journal[p.op].document)
             && sys.server.journal[p.op].request == Sync(p.base, p.document)
             && sys.local.journal[p.op].request == Sync(p.document, sys.server.journal[p.op].document)
    ensures var p := sys.pending.value;
            var r := sys.server.journal[p.op];
            var sys1 := Step(accepts, sys, Post);
            var sys2 := Step(accepts, sys1, Serve(p));
            var sys3 := Step(accepts, sys2, Land(Answer(p.op, r.document, r.conflicts)));
            var sys4 := Step(accepts, sys3, Advance);
            && sys4.server == sys.server && sys4.local == sys.local && sys4.log == sys.log
            && sys4.pending.None? && sys4.base == r.document
  {
    var p := sys.pending.value;
    var r := sys.server.journal[p.op];
    var sys1 := sys.(sent := sys.sent + {p});
    assert Step(accepts, sys, Post) == sys1;
    ServeAgain(accepts, sys1, p);
    var a := Answer(p.op, r.document, r.conflicts);
    LandAgain(accepts, sys1.(answers := sys1.answers + {a}), a);
  }
}
