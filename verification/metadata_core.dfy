/** One side of the metadata exchange: the project document and the journal of
    operations, which makes every operation happen at most once. */
module MetadataCore {
  import opened Common
  import opened Documents
  import opened LifecycleGuard
  import opened Merge
  import opened MergeResults
  import opened Adoption

  /** A journaled conflict: the operation that met it, and what it says. */
  datatype ConflictId = ConflictId(op: Id, conflict: Conflict)

  datatype Request =
    | Sync(base: Document, document: Document)
    | Resolve(id: ConflictId, expected: Leaf, chosen: Leaf)
    | Adopt(id: ConflictId, state: Option<Entry>, seen: Document, choice: Option<Entry>)

  datatype Record = Record(request: Request, document: Document, conflicts: set<Conflict>)
  type Journal = map<Id, Record>

  datatype Desk = Desk(document: Document, journal: Journal)

  datatype Refusal = Invalid | Reused | NotFound | Changed | BadChoice | Immutable
  datatype Reply = Done(document: Document, conflicts: set<Conflict>) | Failed(reason: Refusal)

  function Replayed(s: Desk, op: Id, request: Request): Reply
    requires op in s.journal
  {
    if s.journal[op].request == request then Done(s.journal[op].document, s.journal[op].conflicts) else Failed(Reused)
  }

  function Recorded(s: Desk, op: Id, request: Request, d: Document, conflicts: set<Conflict>): (Desk, Reply) {
    (Desk(d, s.journal[op := Record(request, d, conflicts)]), Done(d, conflicts))
  }

  /** `synchronize` as one transaction. */
  function Synchronized(accepts: Validator, s: Desk, op: Id, base: Document, document: Document): (Desk, Reply) {
    if !accepts(base) || !accepts(document) then (s, Failed(Invalid))
    else if op in s.journal then (s, Replayed(s, op, Sync(base, document)))
    else
      var out := MergeOf(accepts, base, document, s.document);
      if out.Rejected? then (s, Failed(Invalid))
      else Recorded(s, op, Sync(base, document), out.document, out.conflicts)
  }

  /** Journaled conflicts that no resolution names. */
  function Open(j: Journal): set<ConflictId> {
    (set op, k | op in j && k in j[op].conflicts :: ConflictId(op, k)) - Settlements(j)
  }

  function Settlements(j: Journal): set<ConflictId> {
    set op | op in j && !j[op].request.Sync? :: j[op].request.id
  }

  function WithLeaf(accepts: Validator, d: Document, p: FieldPath, leaf: Leaf): Option<Document> {
    var f := Leaves(d)[p := leaf];
    if Typed(f) && accepts(Assembled(f)) then Some(Assembled(f)) else None
  }

  /** `_apply` writes nothing when Python finds the document equal to the current one. */
  function Applied(current: Document, d: Document): Document { if AlikeDocuments(current, d) then current else d }

  /** `resolve_conflict` for the conflict of one leaf, as one transaction. */
  function LeafResolved(accepts: Validator, s: Desk, op: Id, id: ConflictId, expected: Leaf,
                        chosen: Leaf): (Desk, Reply) {
    if op in s.journal then (s, Replayed(s, op, Resolve(id, expected, chosen)))
    else if id !in Open(s.journal) || !id.conflict.LeafConflict? then (s, Failed(NotFound))
    else
      var k := id.conflict;
      var actual := Get(Leaves(s.document), k.path);
      if !Alike(actual, expected) then (s, Failed(Changed))
      else if !(Alike(chosen, k.incoming) || Alike(chosen, k.current)) || StandsIn(chosen) then (s, Failed(BadChoice))
      else if k.path.Board? && !Alike(chosen, actual) then (s, Failed(Immutable))
      else
        var d := WithLeaf(accepts, s.document, k.path, chosen);
        if d.None? then (s, Failed(Invalid))
        else
          var (s', reply) := Recorded(s, op, Resolve(id, expected, chosen), d.value, {});
          (s'.(document := Applied(s.document, d.value)), reply)
  }

  /** The same for the conflict of one state; `target` is what `resolve_document` makes
      of the choice, if it allows it. */
  function StateResolved(accepts: Validator, s: Desk, op: Id, id: ConflictId, state: Option<Entry>, seen: Document,
                         choice: Option<Entry>, target: Option<Document>): (Desk, Reply) {
    var request := Adopt(id, state, seen, choice);
    if op in s.journal then (s, Replayed(s, op, request))
    else if id !in Open(s.journal) || !id.conflict.StateConflict? then (s, Failed(NotFound))
    else
      var k := id.conflict;
      if state != StateAt(s.document, k.scope) || seen != s.document then (s, Failed(Changed))
      else if choice !in {k.target, k.actual} then (s, Failed(BadChoice))
      else if target.None? || !accepts(target.value) then (s, Failed(Invalid))
      else Recorded(s, op, request, target.value, {})
  }

  /** The conflict is open, about a state, seen as it is, and the choice is one of its two. */
  predicate StateAsked(s: Desk, id: ConflictId, state: Option<Entry>, seen: Document, choice: Option<Entry>) {
    && id in Open(s.journal) && id.conflict.StateConflict?
    && state == StateAt(s.document, id.conflict.scope) && seen == s.document
    && (choice == id.conflict.target || choice == id.conflict.actual)
  }

  /** After a merge nothing hides behind that comparison: a document equal to the current
      one in Python is the current one. */
  lemma MergeIsApplied(accepts: Validator, base: Document, incoming: Document, current: Document, out: Outcome)
    requires LeafMerged(accepts, base, incoming, current, out)
    requires Validates(accepts) && accepts(current) && accepts(out.document)
    ensures Applied(current, out.document) == out.document
  {
    if AlikeDocuments(current, out.document) {
      CurrentTidy(accepts, current);
      CurrentTidy(accepts, out.document);
      ValidFiles(accepts, current);
      forall p ensures At(out.document, p) == At(current, p) { AppliedAt(accepts, base, incoming, current, out, p); }
      LeavesDetermine(out.document, current);
    }
  }

  lemma AppliedAt(accepts: Validator, base: Document, incoming: Document, current: Document, out: Outcome, p: FieldPath)
    requires LeafMerged(accepts, base, incoming, current, out) && AlikeDocuments(current, out.document)
    requires FILES in Leaves(current) ==> Leaves(current)[FILES].FileSet?
    ensures At(out.document, p) == At(current, p)
  {
    AlikeAt(current, out.document, p);
    MergedAt(accepts, base, incoming, current, out, p);
    assert Lookup(Leaves(current), p) == At(current, p);
    MergedAlike(Leaves(base), Leaves(incoming), Leaves(current), p);
  }

  lemma MergedAlike(b: Flat, l: Flat, r: Flat, p: FieldPath)
    requires AlikeLeaf(Lookup(r, p), MergedLeaf(b, l, r, p)) && (FILES in r ==> r[FILES].FileSet?)
    ensures MergedLeaf(b, l, r, p) == Lookup(r, p)
  {
  }

  // ------------------------------------------------------------- the journal

  datatype DeskOp =
    | Edited(document: Document)
    | Synchronizing(op: Id, base: Document, document: Document)
    | Resolving(op: Id, id: ConflictId, expected: Leaf, chosen: Leaf)
    | Adopting(op: Id, id: ConflictId, state: Option<Entry>, seen: Document, choice: Option<Entry>,
               target: Option<Document>)

  function Next(accepts: Validator, s: Desk, o: DeskOp): Desk {
    match o
    case Edited(d) => if accepts(d) then s.(document := d) else s
    case Synchronizing(op, base, d) => Synchronized(accepts, s, op, base, d).0
    case Resolving(op, id, expected, chosen) => LeafResolved(accepts, s, op, id, expected, chosen).0
    case Adopting(op, id, state, seen, choice, target) =>
      StateResolved(accepts, s, op, id, state, seen, choice, target).0
  }

  function RunDesk(accepts: Validator, s: Desk, ops: seq<DeskOp>): Desk
    decreases |ops|
  {
    if ops == [] then s else RunDesk(accepts, Next(accepts, s, ops[0]), ops[1..])
  }

  predicate Extends(j: Journal, j': Journal) { forall op :: op in j ==> op in j' && j'[op] == j[op] }

  lemma NextExtends(accepts: Validator, s: Desk, o: DeskOp)
    ensures Extends(s.journal, Next(accepts, s, o).journal)
  {
  }

  lemma {:induction false} JournalExtends(accepts: Validator, s: Desk, ops: seq<DeskOp>)
    ensures Extends(s.journal, RunDesk(accepts, s, ops).journal)
    decreases |ops|
  {
    if ops != [] {
      JournalExtends(accepts, Next(accepts, s, ops[0]), ops[1..]);
    }
  }

  /** An operation that was carried out is never carried out again: whatever happened
      since, asking again changes nothing and brings the first answer. */
  lemma AtMostOnce(accepts: Validator, s: Desk, op: Id, base: Document, document: Document, ops: seq<DeskOp>)
    requires Synchronized(accepts, s, op, base, document).1.Done?
    ensures var (s1, reply) := Synchronized(accepts, s, op, base, document);
            var s2 := RunDesk(accepts, s1, ops);
            Synchronized(accepts, s2, op, base, document) == (s2, reply)
  {
    JournalExtends(accepts, Synchronized(accepts, s, op, base, document).0, ops);
  }

  lemma SyncRecords(accepts: Validator, s: Desk, op: Id, base: Document, d: Document)
    ensures var s' := Synchronized(accepts, s, op, base, d).0;
            || s' == s
            || (op !in s.journal && MergeOf(accepts, base, d, s.document).Accepted?
                && s'.journal == s.journal[op := s'.journal[op]] && s'.journal[op].request.Sync?
                && s'.journal[op].conflicts == MergeOf(accepts, base, d, s.document).conflicts)
  {
  }

  lemma ResolutionRecords(accepts: Validator, s: Desk, op: Id, id: ConflictId, expected: Leaf, chosen: Leaf)
    ensures var (s', reply) := LeafResolved(accepts, s, op, id, expected, chosen);
            || s' == s
            || (op !in s.journal && s'.journal == s.journal[op := s'.journal[op]] && reply.Done?
                && s'.journal[op].request == Resolve(id, expected, chosen) && s'.journal[op].conflicts == {})
  {
  }

  /** A merge closes no conflict and opens exactly its own. */
  lemma SyncConserves(accepts: Validator, s: Desk, op: Id, base: Document, d: Document, id: ConflictId)
    ensures var j' := Synchronized(accepts, s, op, base, d).0.journal;
            && (id in Open(s.journal) ==> id in Open(j'))
            && (id !in Open(s.journal) && id in Open(j') ==>
                 op == id.op && id.conflict in MergeOf(accepts, base, d, s.document).conflicts)
  {
    SyncRecords(accepts, s, op, base, d);
    var s' := Synchronized(accepts, s, op, base, d).0;
    if s' != s { OneMoreRecord(s.journal, op, s'.journal[op], id); }
  }

  lemma AdoptionRecords(accepts: Validator, s: Desk, op: Id, id: ConflictId, state: Option<Entry>, seen: Document,
                        choice: Option<Entry>, target: Option<Document>)
    ensures var (s', reply) := StateResolved(accepts, s, op, id, state, seen, choice, target);
            || s' == s
            || (op !in s.journal && s'.journal == s.journal[op := s'.journal[op]] && reply.Done?
                && s'.journal[op].request == Adopt(id, state, seen, choice) && s'.journal[op].conflicts == {})
  {
  }

  /** The choice of a lifecycle state closes no conflict but its own either, and opens
      none. */
  lemma AdoptionConserves(accepts: Validator, s: Desk, op: Id, k: ConflictId, state: Option<Entry>, seen: Document,
                          choice: Option<Entry>, target: Option<Document>, id: ConflictId)
    ensures var (s', reply) := StateResolved(accepts, s, op, k, state, seen, choice, target);
            && (id in Open(s.journal) && id !in Open(s'.journal) ==> k == id && reply.Done?)
            && (id in Open(s'.journal) ==> id in Open(s.journal))
            && (op !in s.journal && reply.Done? ==> k in Open(s.journal) && k !in Open(s'.journal))
  {
    AdoptionRecords(accepts, s, op, k, state, seen, choice, target);
    var s' := StateResolved(accepts, s, op, k, state, seen, choice, target).0;
    if s' != s { OneMoreRecord(s.journal, op, s'.journal[op], id); }
    if op in s'.journal && op !in s.journal { Settles(s'.journal, op); }
  }

  /** A resolution closes no conflict but its own. */
  lemma ResolutionConserves(accepts: Validator, s: Desk, op: Id, k: ConflictId, expected: Leaf, chosen: Leaf,
                            id: ConflictId)
    ensures var (s', reply) := LeafResolved(accepts, s, op, k, expected, chosen);
            && (id in Open(s.journal) && id !in Open(s'.journal) ==> k == id && reply.Done?)
            && (id in Open(s'.journal) ==> id in Open(s.journal))
  {
    ResolutionRecords(accepts, s, op, k, expected, chosen);
    var s' := LeafResolved(accepts, s, op, k, expected, chosen).0;
    if s' != s { OneMoreRecord(s.journal, op, s'.journal[op], id); }
  }

  /** A conflict that was journaled is, after any run, still listed or named by the
      record of a resolution. */
  lemma ConflictsAreKept(accepts: Validator, s: Desk, ops: seq<DeskOp>, id: ConflictId)
    requires id in Open(s.journal)
    ensures var j := RunDesk(accepts, s, ops).journal;
            id in Open(j) || exists op :: op in j && !j[op].request.Sync? && j[op].request.id == id
  {
    JournalExtends(accepts, s, ops);
    var j := RunDesk(accepts, s, ops).journal;
    assert id.op in j && j[id.op] == s.journal[id.op];
  }

  lemma OneMoreRecord(j: Journal, op: Id, record: Record, id: ConflictId)
    requires op !in j
    ensures var j' := j[op := record];
            && (id in Open(j) && id !in Open(j') ==> !record.request.Sync? && record.request.id == id)
            && (id !in Open(j) && id in Open(j') ==> op == id.op && id.conflict in record.conflicts)
  {
    var j' := j[op := record];
    assert id in Settlements(j') <==> id in Settlements(j) || (!record.request.Sync? && record.request.id == id) by {
      forall o | o in j && !j[o].request.Sync? ensures j[o].request.id in Settlements(j') { assert j'[o] == j[o]; }
      assert !record.request.Sync? ==> j'[op].request.id in Settlements(j');
    }
  }

  lemma WithLeafAt(accepts: Validator, d: Document, p: FieldPath, leaf: Leaf, q: FieldPath)
    ensures var e := WithLeaf(accepts, d, p, leaf);
            e.Some? ==> At(e.value, q) == if q == p then Some(leaf) else At(d, q)
  {
    var f := Leaves(d)[p := leaf];
    assert Lookup(Leaves(d), q) == At(d, q);
    if Typed(f) { AssembledAt(f, q); }
  }

  /** Python sees the change of one leaf exactly if it tells the two values apart. */
  lemma WithLeafSeen(accepts: Validator, d: Document, p: FieldPath, leaf: Leaf)
    requires Validates(accepts) && Tidy(d) && !StandsIn(leaf) && WithLeaf(accepts, d, p, leaf).Some?
    ensures AlikeDocuments(d, WithLeaf(accepts, d, p, leaf).value) <==> Alike(leaf, Get(Leaves(d), p))
  {
    var e := WithLeaf(accepts, d, p, leaf).value;
    AcceptedIsStructured(accepts, e);
    ValidIsTidy(e);
    assert Lookup(Leaves(d), p) == At(d, p);
    WithLeafAt(accepts, d, p, leaf, p);
    if AlikeDocuments(d, e) {
      AlikeAt(d, e, p);
    } else if Alike(leaf, Get(Leaves(d), p)) {
      forall q ensures AlikeLeaf(At(d, q), At(e, q)) { WithLeafAt(accepts, d, p, leaf, q); }
      AlikeLeavesAlike(d, e);
    }
  }

  lemma Settles(j: Journal, op: Id)
    requires op in j && !j[op].request.Sync?
    ensures j[op].request.id in Settlements(j) && j[op].request.id !in Open(j)
  {
  }

  lemma ResolutionFacts(accepts: Validator, s: Desk, op: Id, id: ConflictId, expected: Leaf, chosen: Leaf)
    requires op !in s.journal && LeafResolved(accepts, s, op, id, expected, chosen).1.Done?
    ensures id in Open(s.journal) && id.conflict.LeafConflict?
    ensures var k := id.conflict;
            var actual := Get(Leaves(s.document), k.path);
            && (Alike(chosen, k.incoming) || Alike(chosen, k.current)) && !StandsIn(chosen) && Alike(expected, actual)
            && (k.path.Board? ==> Alike(chosen, actual))
    ensures var s' := LeafResolved(accepts, s, op, id, expected, chosen).0;
            var d := WithLeaf(accepts, s.document, id.conflict.path, chosen);
            && d.Some? && s'.document == Applied(s.document, d.value)
            && op in s'.journal && s'.journal[op].request == Resolve(id, expected, chosen)
  {
  }

  /** A resolution takes one of the two journaled values for the path it found unchanged,
      and puts it there unless Python finds it there already; it moves no other leaf, and
      closes exactly its conflict. All comparisons are Python's. */
  lemma ResolutionChangesOneLeaf(accepts: Validator, s: Desk, op: Id, id: ConflictId, expected: Leaf, chosen: Leaf,
                                 p: FieldPath)
    requires Validates(accepts) && accepts(s.document)
    requires op !in s.journal && LeafResolved(accepts, s, op, id, expected, chosen).1.Done?
    ensures id in Open(s.journal) && id.conflict.LeafConflict?
    ensures var s' := LeafResolved(accepts, s, op, id, expected, chosen).0;
            var k := id.conflict;
            var actual := Get(Leaves(s.document), k.path);
            && id !in Open(s'.journal)
            && (Alike(chosen, k.incoming) || Alike(chosen, k.current)) && !StandsIn(chosen) && Alike(expected, actual)
            && At(s'.document, p) == (if p == k.path && !Alike(chosen, actual) then Some(chosen) else At(s.document, p))
            && (k.path.Board? ==> Alike(chosen, actual))
  {
    ResolutionFacts(accepts, s, op, id, expected, chosen);
    CurrentTidy(accepts, s.document);
    WithLeafAt(accepts, s.document, id.conflict.path, chosen, p);
    WithLeafSeen(accepts, s.document, id.conflict.path, chosen);
    Settles(LeafResolved(accepts, s, op, id, expected, chosen).0.journal, op);
  }

  lemma CurrentTidy(accepts: Validator, d: Document)
    requires Validates(accepts) && accepts(d)
    ensures Tidy(d)
  {
    AcceptedIsStructured(accepts, d);
    ValidIsTidy(d);
  }

  /** The choice of the first restored generation of a missing object, with the current
      state and document in hand. */
  predicate Asks(d: Document, id: ConflictId, state: Option<Entry>, seen: Document, choice: Option<Entry>) {
    && id.conflict.StateConflict? && Missing(d, id.conflict.scope) && StatesPresent(d)
    && choice == Some(RESTORED_ONCE) && choice in {id.conflict.target, id.conflict.actual}
    && state == StateAt(d, id.conflict.scope) && seen == d
  }

  /** What a merge retained decides a later resolution: while the objects present at the
      merge stay, a refused object can be adopted exactly if the thread is not in the
      trash and what it still leads to has no history but first tombstones. */
  lemma RetainedResolvable(accepts: Validator, base: Document, incoming: Document, before: Document,
                           payloads: Payloads, later: Document, r: Ref)
    requires Validates(accepts) && accepts(incoming) && MergeOf(accepts, base, incoming, before).Accepted?
    requires var seeds := Seeds(before, MergeOf(accepts, base, incoming, before).conflicts);
             r in seeds && Retains(before, incoming, seeds, payloads)
    requires (forall x :: Present(before, x) ==> Present(later, x)) && !Present(later, r)
    ensures Adoptable(later, payloads, r)
       <==> !Hidden(StateAt(later, Whole)) && PlainCompany(incoming, later, payloads, r)
  {
    AcceptedIsStructured(accepts, incoming);
    SeedsOfGuard(accepts, base, incoming, before);
    RetainedAdoptable(base, incoming, before, payloads, later, r);
  }

  /** Only the guard refuses history. */
  lemma SeedsOfGuard(accepts: Validator, base: Document, incoming: Document, current: Document)
    requires MergeOf(accepts, base, incoming, current).Accepted?
    ensures Seeds(current, MergeOf(accepts, base, incoming, current).conflicts) ==
              Seeds(current, Guard(base, incoming, current))
  {
  }

  // ---------------------------------------------------------------- the store

  class Core {
    const accepts: Validator
    var document: Document
    var journal: Journal
    var retained: map<Id, Payloads>

    function State(): Desk reads this { Desk(document, journal) }

    ghost predicate Valid() { Validates(accepts) }

    constructor (accepts: Validator, document: Document)
      requires Validates(accepts)
      ensures Valid() && State() == Desk(document, map[]) && this.accepts == accepts && retained == map[]
    {
      this.accepts, this.document, journal, retained := accepts, document, map[], map[];
    }

    method Replay(op: Id, request: Request) returns (reply: Option<Reply>)
      ensures reply == if op in journal then Some(Replayed(State(), op, request)) else None
    {
      if op !in journal { return None; }
      if journal[op].request != request { return Some(Failed(Reused)); }
      reply := Some(Done(journal[op].document, journal[op].conflicts));
    }

    method Retain(op: Id, incoming: Document, conflicts: set<Conflict>)
      requires Linked(incoming) && forall r :: r in Seeds(document, conflicts) ==> Present(incoming, r)
      modifies this`retained
      ensures forall o :: o in old(retained) && o != op ==> o in retained && retained[o] == old(retained[o])
      ensures Seeds(document, conflicts) != {} ==>
                op in retained && Retains(document, incoming, Seeds(document, conflicts), retained[op])
    {
      if Seeds(document, conflicts) != {} {
        var payloads := RestoredHistoryPayloads(document, incoming, conflicts);
        retained := retained[op := payloads];
      }
    }

    /** A merge answered once and for all; if it refused restored history of missing
        objects, what their adoption will need is kept with the receipt. */
    method Synchronize(op: Id, base: Document, incoming: Document) returns (reply: Reply)
      requires Valid()
      modifies this
      ensures (State(), reply) == Synchronized(accepts, old(State()), op, base, incoming)
      ensures forall o :: o in old(retained) && (o != op || op in old(journal)) ==>
                o in retained && retained[o] == old(retained[o])
      ensures op !in old(journal) && reply.Done? && Seeds(old(document), reply.conflicts) != {} ==>
                op in retained && Retains(old(document), incoming, Seeds(old(document), reply.conflicts), retained[op])
    {
      if !accepts(base) || !accepts(incoming) { return Failed(Invalid); }
      var replay := Replay(op, Sync(base, incoming));
      if replay.Some? { return replay.value; }
      var out := MergeDocuments(accepts, base, incoming, document);
      if out.Rejected? { return Failed(Invalid); }
      SeedsPresent(accepts, base, incoming, document);
      Retain(op, incoming, out.conflicts);
      journal := journal[op := Record(Sync(base, incoming), out.document, out.conflicts)];
      document := out.document;
      reply := Done(out.document, out.conflicts);
    }

    method ListConflicts() returns (open: set<ConflictId>)
      ensures open == Open(journal)
    {
      open := {};
      var resolved: set<ConflictId> := {};
      var todo := journal.Keys;
      while todo != {}
        invariant todo <= journal.Keys
        invariant forall id :: id in open <==> id.op in journal.Keys - todo && id.conflict in journal[id.op].conflicts
        invariant resolved == set op | op in journal.Keys - todo && !journal[op].request.Sync? :: journal[op].request.id
        decreases |todo|
      {
        var op :| op in todo;
        open := open + set k | k in journal[op].conflicts :: ConflictId(op, k);
        if !journal[op].request.Sync? { resolved := resolved + {journal[op].request.id}; }
        todo := todo - {op};
      }
      open := open - resolved;
    }

    method ResolveLeaf(op: Id, id: ConflictId, expected: Leaf, chosen: Leaf) returns (reply: Reply)
      modifies this`document, this`journal
      ensures (State(), reply) == LeafResolved(accepts, old(State()), op, id, expected, chosen)
    {
      var replay := Replay(op, Resolve(id, expected, chosen));
      if replay.Some? { return replay.value; }
      var open := ListConflicts();
      if id !in open || !id.conflict.LeafConflict? { return Failed(NotFound); }
      var k := id.conflict;
      var flat := Flatten(document);
      var actual := Get(flat, k.path);
      if !Alike(actual, expected) { return Failed(Changed); }
      if !(Alike(chosen, k.incoming) || Alike(chosen, k.current)) || StandsIn(chosen) { return Failed(BadChoice); }
      if k.path.Board? && !Alike(chosen, actual) { return Failed(Immutable); }
      flat := flat[k.path := chosen];
      if !Typed(flat) { return Failed(Invalid); }
      var resolved := Unflatten(flat);
      if !accepts(resolved) { return Failed(Invalid); }
      journal := journal[op := Record(Resolve(id, expected, chosen), resolved, {})];
      document := Applied(document, resolved);
      reply := Done(resolved, {});
    }

    /** What the receipt of an operation retained. */
    function RetainedFor(op: Id): Payloads reads this { if op in retained then retained[op] else map[] }

    /** Adoption uses what the receipt of the conflict's own operation retained. A state
        is taken only as a move or an adoption; for a missing object whose first restored
        generation is chosen there is a result, for the validator to judge, exactly if it
        is adoptable. */
    method ResolveState(op: Id, id: ConflictId, state: Option<Entry>, seen: Document, choice: Option<Entry>)
      returns (reply: Reply, ghost target: Option<Document>)
      modifies this`document, this`journal
      ensures (State(), reply) == StateResolved(accepts, old(State()), op, id, state, seen, choice, target)
      ensures op !in old(journal) && reply.Done? ==>
                && StateAt(document, id.conflict.scope) == choice && OnlyAdded(old(document), document)
                && (choice == state || Moves(state, choice) || Adopts(state, choice))
                && (forall x :: x != id.conflict.scope ==>
                      StateAt(document, x) == StateAt(old(document), x)
                          || Moves(StateAt(old(document), x), StateAt(document, x)))
      ensures op !in old(journal) && StatesPresent(old(document)) ==>
                && (target.Some? <==> StateAsked(old(State()), id, state, seen, choice)
                                      && Takes(old(document), id.conflict.scope, choice, RetainedFor(id.op)))
                && (target.Some? ==>
                      TakenAs(old(document), target.value, id.conflict.scope, choice, RetainedFor(id.op)))
      ensures op !in old(journal) && id in Open(old(journal)) && Asks(old(document), id, state, seen, choice) ==>
                (target.Some? <==> Adoptable(old(document), RetainedFor(id.op),
                                             Ref(id.conflict.scope.section, id.conflict.scope.origin)))
    {
      hide StateAt, Moves, Takes, TakenAs, Adoptable, OnlyAdded, StatesPresent, Open, Missing;
      target := None;
      var replay := Replay(op, Adopt(id, state, seen, choice));
      if replay.Some? { return replay.value, None; }
      var open := ListConflicts();
      if id !in open || !id.conflict.StateConflict? { return Failed(NotFound), None; }
      var k := id.conflict;
      if state != StateAt(document, k.scope) || seen != document { return Failed(Changed), None; }
      if choice !in {k.target, k.actual} { return Failed(BadChoice), None; }
      var resolution := ResolveDocument(document, k.scope, choice, RetainedFor(id.op));
      if resolution.Refused? { return Failed(Invalid), None; }
      target := Some(resolution.document);
      if !accepts(resolution.document) { return Failed(Invalid), target; }
      journal := journal[op := Record(Adopt(id, state, seen, choice), resolution.document, {})];
      document := resolution.document;
      reply := Done(resolution.document, {});
    }
  }

  lemma SeedsPresent(accepts: Validator, base: Document, incoming: Document, current: Document)
    requires Validates(accepts) && accepts(incoming) && MergeOf(accepts, base, incoming, current).Accepted?
    ensures forall r :: r in Seeds(current, MergeOf(accepts, base, incoming, current).conflicts) ==>
              Present(incoming, r)
    ensures Linked(incoming)
  {
    AcceptedIsStructured(accepts, incoming);
    ValidLinked(incoming);
    SeedsIncoming(base, incoming, current);
  }
}
