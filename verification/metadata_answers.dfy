/** When each request of the metadata core is answered, with which document, and what it is
    refused for, said of documents, leaves and journals. */
module MetadataAnswers {
  import opened Common
  import opened Documents
  import opened LifecycleGuard
  import opened Merge
  import opened MergeResults
  import opened Adoption
  import opened MetadataCore

  // ---------------------------------------------------------------- journals

  /** A conflict is open exactly if an operation met it and no resolution names it. */
  lemma OpenIs(j: Journal, id: ConflictId)
    ensures id in Open(j) <==>
              && id.op in j && id.conflict in j[id.op].conflicts
              && forall op :: op in j && !j[op].request.Sync? ==> j[op].request.id != id
  {
    if op :| op in j && !j[op].request.Sync? && j[op].request.id == id { Settles(j, op); }
  }

  /** A resolution on record closes its conflict and no other. */
  lemma OneClosed(j: Journal, op: Id, record: Record)
    requires op !in j && !record.request.Sync? && record.conflicts == {}
    ensures Open(j[op := record]) == Open(j) - {record.request.id}
  {
    var j' := j[op := record];
    Settles(j', op);
    forall id ensures id in Open(j') <==> id in Open(j) && id != record.request.id {
      OneMoreRecord(j, op, record, id);
    }
  }

  /** An identifier on record is answered as it was for the same request, refused for any
      other, and changes nothing. */
  lemma ReplayIsExact(accepts: Validator, s: Desk, op: Id, request: Request)
    requires op in s.journal
    requires request.Sync? ==> accepts(request.base) && accepts(request.document)
    ensures var answer := match request
                          case Sync(base, d) => Synchronized(accepts, s, op, base, d)
                          case Resolve(id, expected, chosen) => LeafResolved(accepts, s, op, id, expected, chosen)
                          case Adopt(id, state, seen, choice) =>
                            StateResolved(accepts, s, op, id, state, seen, choice, None);
            && answer.0 == s
            && (s.journal[op].request == request ==> answer.1 == Done(s.journal[op].document, s.journal[op].conflicts))
            && (s.journal[op].request != request ==> answer.1 == Failed(Reused))
  {
  }

  // -------------------------------------------------------------------- sync

  /** The merge of a request can be made: some scope does not pass, and the conflict is
      answered, or the merged document is valid. */
  ghost predicate Mergeable(accepts: Validator, base: Document, incoming: Document, current: Document) {
    || (exists x :: !Passes(base, incoming, current, x))
    || (exists d :: MergedFrom(base, incoming, current, d) && Checked(accepts, d))
  }

  /** What it is answered with. */
  ghost predicate MergeAnswer(base: Document, incoming: Document, current: Document, d: Document,
                              conflicts: set<Conflict>) {
    if exists x :: !Passes(base, incoming, current, x) then
      d == current && forall k :: k in conflicts <==> StateContest(base, incoming, current, k)
    else
      MergedFrom(base, incoming, current, d) && forall k :: k in conflicts <==> LeafContest(base, incoming, current, k)
  }

  /** Both documents are valid, and the identifier is new and the merge can be made, or it
      is on record for this very request. */
  ghost predicate Answers(accepts: Validator, s: Desk, op: Id, base: Document, incoming: Document) {
    && accepts(base) && accepts(incoming)
    && if op in s.journal then s.journal[op].request == Sync(base, incoming)
       else Mergeable(accepts, base, incoming, s.document)
  }

  lemma SyncIsExact(accepts: Validator, s: Desk, op: Id, base: Document, incoming: Document)
    ensures var (s', reply) := Synchronized(accepts, s, op, base, incoming);
            && (reply.Done? <==> Answers(accepts, s, op, base, incoming))
            && (!reply.Done? ==> s' == s)
            && (reply == Failed(Reused) <==>
                  accepts(base) && accepts(incoming) && op in s.journal
                      && s.journal[op].request != Sync(base, incoming))
            && (!reply.Done? ==> reply.reason in {Invalid, Reused})
            && (reply.Done? && op in s.journal ==>
                  s' == s && reply == Done(s.journal[op].document, s.journal[op].conflicts))
            && (reply.Done? && op !in s.journal ==>
                  && MergeAnswer(base, incoming, s.document, reply.document, reply.conflicts)
                  && s'.document == reply.document
                  && s'.journal == s.journal[op := Record(Sync(base, incoming), reply.document, reply.conflicts)])
  {
    MergeIsExact(accepts, base, incoming, s.document);
    hide MergedFrom, StateContest, LeafContest, Passes, MergeOf;
  }

  // ------------------------------------------------------ resolution of a leaf

  /** The value of a leaf, or the stand-in for an absent one. */
  function LeafOf(d: Document, p: FieldPath): Leaf { if At(d, p).Some? then At(d, p).value else MISSING }

  /** The document with that one leaf replaced. */
  ghost predicate Replaces(d: Document, e: Document, p: FieldPath, leaf: Leaf) {
    forall q :: At(e, q) == if q == p then Some(leaf) else At(d, q)
  }

  /** One of the two journaled values, standing for nothing missing. */
  predicate Offered(k: Conflict, chosen: Leaf) requires k.LeafConflict? {
    (Alike(chosen, k.incoming) || Alike(chosen, k.current)) && !StandsIn(chosen)
  }

  ghost predicate Replaceable(accepts: Validator, d: Document, p: FieldPath, leaf: Leaf) {
    exists e :: Replaces(d, e, p, leaf) && Checked(accepts, e)
  }

  lemma ReplaceableIs(accepts: Validator, d: Document, p: FieldPath, leaf: Leaf)
    requires Validates(accepts)
    ensures var e := WithLeaf(accepts, d, p, leaf);
            && (e.Some? <==> Replaceable(accepts, d, p, leaf))
            && (e.Some? ==> accepts(e.value) && Replaces(d, e.value, p, leaf))
  {
    hide Assembled, At, Structured, Leaves, Tidy;
    var f := Leaves(d)[p := leaf];
    if WithLeaf(accepts, d, p, leaf).Some? {
      var e := WithLeaf(accepts, d, p, leaf).value;
      forall q ensures At(e, q) == if q == p then Some(leaf) else At(d, q) { WithLeafAt(accepts, d, p, leaf, q); }
      assert Checked(accepts, e);
    }
    if Replaceable(accepts, d, p, leaf) {
      var e :| Replaces(d, e, p, leaf) && Checked(accepts, e);
      ReplacedLeaves(d, e, p, leaf);
      CurrentTidy(accepts, e);
      AssembleLeaves(e);
    }
  }

  lemma ReplacedLeaves(d: Document, e: Document, p: FieldPath, leaf: Leaf)
    requires Replaces(d, e, p, leaf)
    ensures Leaves(e) == Leaves(d)[p := leaf]
  {
    var f := Leaves(d)[p := leaf];
    forall q: FieldPath ensures Lookup(Leaves(e), q) == Lookup(f, q) {
      assert Lookup(Leaves(e), q) == At(e, q) && Lookup(Leaves(d), q) == At(d, q);
    }
    SameLeaves(Leaves(e), f);
  }

  /** When a new resolution of a leaf's conflict is carried out: the conflict is open, the
      leaf is as expected, the choice is offered, no whiteboard entry is changed, and the
      document with that leaf replaced is valid. */
  ghost predicate LeafResolvable(accepts: Validator, s: Desk, id: ConflictId, expected: Leaf, chosen: Leaf) {
    && id in Open(s.journal) && id.conflict.LeafConflict?
    && var p := id.conflict.path;
       && Alike(LeafOf(s.document, p), expected) && Offered(id.conflict, chosen)
       && (p.Board? ==> Alike(chosen, LeafOf(s.document, p)))
       && Replaceable(accepts, s.document, p, chosen)
  }

  /** It is carried out exactly then. The answer is the document with the one leaf replaced,
      which becomes the current one unless Python finds it there already; the conflict is
      closed and no other. */
  lemma LeafIsExact(accepts: Validator, s: Desk, op: Id, id: ConflictId, expected: Leaf, chosen: Leaf)
    requires Validates(accepts) && accepts(s.document) && op !in s.journal
    ensures var (s', reply) := LeafResolved(accepts, s, op, id, expected, chosen);
            && (reply.Done? <==> LeafResolvable(accepts, s, id, expected, chosen))
            && (!reply.Done? ==> s' == s)
            && (reply.Done? ==>
                  var p := id.conflict.path;
                  && Replaces(s.document, reply.document, p, chosen) && accepts(reply.document) && reply.conflicts == {}
                  && s'.document == (if Alike(chosen, LeafOf(s.document, p)) then s.document else reply.document)
                  && s'.journal == s.journal[op := Record(Resolve(id, expected, chosen), reply.document, {})]
                  && Open(s'.journal) == Open(s.journal) - {id})
  {
    hide WithLeaf, LeafOf, At, Alike, StandsIn, Open, Leaves, Get, AlikeDocuments, Replaceable, Replaces;
    var (s', reply) := LeafResolved(accepts, s, op, id, expected, chosen);
    if id.conflict.LeafConflict? {
      var p := id.conflict.path;
      LeafOfIs(s.document, p);
      ReplaceableIs(accepts, s.document, p, chosen);
      if reply.Done? {
        CurrentTidy(accepts, s.document);
        WithLeafSeen(accepts, s.document, p, chosen);
        OneClosed(s.journal, op, Record(Resolve(id, expected, chosen), reply.document, {}));
      }
    }
  }

  lemma LeafOfIs(d: Document, p: FieldPath)
    ensures Get(Leaves(d), p) == LeafOf(d, p)
  {
    assert Lookup(Leaves(d), p) == At(d, p);
  }

  /** What a new resolution of a leaf is refused for, the first that holds: no such open
      conflict; a leaf not as expected; a choice not offered; a change of a whiteboard
      entry; a document that is not valid. */
  lemma LeafRefusals(accepts: Validator, s: Desk, op: Id, id: ConflictId, expected: Leaf, chosen: Leaf)
    requires Validates(accepts) && op !in s.journal
    ensures var reply := LeafResolved(accepts, s, op, id, expected, chosen).1;
            var known := id in Open(s.journal) && id.conflict.LeafConflict?;
            && (reply == Failed(NotFound) <==> !known)
            && (known ==>
                  var p, leaf := id.conflict.path, LeafOf(s.document, id.conflict.path);
                  var same, offered := Alike(leaf, expected), Offered(id.conflict, chosen);
                  var rewrites := p.Board? && !Alike(chosen, leaf);
                  && (reply == Failed(Changed) <==> !same)
                  && (reply == Failed(BadChoice) <==> same && !offered)
                  && (reply == Failed(Immutable) <==> same && offered && rewrites)
                  && (reply == Failed(Invalid) <==>
                        same && offered && !rewrites && !Replaceable(accepts, s.document, p, chosen)))
  {
    hide WithLeaf, LeafOf, At, Alike, StandsIn, Open, Leaves, Get, AlikeDocuments, Replaceable, Applied;
    if id.conflict.LeafConflict? {
      LeafOfIs(s.document, id.conflict.path);
      ReplaceableIs(accepts, s.document, id.conflict.path, chosen);
    }
  }

  // ----------------------------------------------------- resolution of a state

  /** A new resolution of a state's conflict is carried out exactly if the conflict is open,
      state and document are those seen, the choice is one of the conflict's two, can be
      taken, and makes a valid document. Which refusal each failing condition gives. */
  lemma StateIsExact(accepts: Validator, s: Desk, op: Id, id: ConflictId, state: Option<Entry>, seen: Document,
                     choice: Option<Entry>, target: Option<Document>)
    requires op !in s.journal
    ensures var (s', reply) := StateResolved(accepts, s, op, id, state, seen, choice, target);
            var known := id in Open(s.journal) && id.conflict.StateConflict?;
            && (reply.Done? <==>
                  StateAsked(s, id, state, seen, choice) && target.Some? && accepts(target.value))
            && (!reply.Done? ==> s' == s)
            && (reply.Done? ==>
                  && reply == Done(target.value, {}) && s'.document == target.value
                  && s'.journal == s.journal[op := Record(Adopt(id, state, seen, choice), target.value, {})]
                  && Open(s'.journal) == Open(s.journal) - {id})
            && (reply == Failed(NotFound) <==> !known)
            && (known ==>
                  var same := state == StateAt(s.document, id.conflict.scope) && seen == s.document;
                  var offered := choice == id.conflict.target || choice == id.conflict.actual;
                  && (reply == Failed(Changed) <==> !same)
                  && (reply == Failed(BadChoice) <==> same && !offered)
                  && (reply == Failed(Invalid) <==> same && offered && (target.None? || !accepts(target.value))))
  {
    if target.Some? { OneClosed(s.journal, op, Record(Adopt(id, state, seen, choice), target.value, {})); }
  }

  /** Every resolution on record names a conflict of an operation on record. */
  predicate NamesKnown(j: Journal) {
    forall op :: op in j && !j[op].request.Sync? ==> j[op].request.id.op in j
  }

  lemma {:induction false} NamesStayKnown(accepts: Validator, s: Desk, ops: seq<DeskOp>)
    requires NamesKnown(s.journal)
    ensures NamesKnown(RunDesk(accepts, s, ops).journal)
    decreases |ops|
  {
    if ops != [] {
      NextKnown(accepts, s, ops[0]);
      NamesStayKnown(accepts, Next(accepts, s, ops[0]), ops[1..]);
    }
  }

  lemma NextKnown(accepts: Validator, s: Desk, o: DeskOp)
    requires NamesKnown(s.journal)
    ensures NamesKnown(Next(accepts, s, o).journal)
  {
    hide MergeOf, WithLeaf;
    match o
    case Edited(d) =>
    case Synchronizing(op, base, d) => SyncRecords(accepts, s, op, base, d);
    case Resolving(op, id, expected, chosen) => ResolutionRecords(accepts, s, op, id, expected, chosen);
    case Adopting(op, id, state, seen, choice, target) =>
      AdoptionRecords(accepts, s, op, id, state, seen, choice, target);
  }

  /** A guarded merge leaves the document alone and journals the states it refused; keeping
      the journaled current state then resolves the conflict and changes nothing. */
  lemma KeepingResolves(accepts: Validator, s: Desk, op: Id, base: Document, incoming: Document, k: Conflict, next: Id)
    requires accepts(s.document) && NamesKnown(s.journal) && op !in s.journal && next !in s.journal && next != op
    requires Synchronized(accepts, s, op, base, incoming).1.Done? && k.StateConflict?
    requires k in Synchronized(accepts, s, op, base, incoming).1.conflicts
    ensures var s1 := Synchronized(accepts, s, op, base, incoming).0;
            var id := ConflictId(op, k);
            var (s2, reply) := StateResolved(accepts, s1, next, id, k.actual, s1.document, k.actual, Some(s1.document));
            && s1.document == s.document && id in Open(s1.journal) && k.actual == StateAt(s1.document, k.scope)
            && reply == Done(s.document, {}) && s2.document == s.document && id !in Open(s2.journal)
  {
    SyncIsExact(accepts, s, op, base, incoming);
    var (s1, reply) := Synchronized(accepts, s, op, base, incoming);
    assert StateContest(base, incoming, s.document, k);
    OpenIs(s1.journal, ConflictId(op, k));
    StateIsExact(accepts, s1, next, ConflictId(op, k), k.actual, s1.document, k.actual, Some(s1.document));
  }
}
