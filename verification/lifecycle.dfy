/** Trash states carried by metadata documents, and the guard that refuses a merge
    before any edit of a stale writer is applied. */
module LifecycleGuard {
  import opened Common
  import opened Documents

  datatype Scope = Whole | One(section: Section, origin: Origin)
  type States = map<Scope, Entry>

  datatype Reason =
    | StaleWriter | EditOfTrashed | PurgeNeedsReview | RestoreMismatch
    | StaleGeneration | GenerationGap | LifecycleConflict | ConcurrentDeleteEdit
    | ImmutableEntryChanged | DeletionNotApplied | ConcurrentChange

  datatype Conflict =
    | StateConflict(scope: Scope, oldState: Option<Entry>, target: Option<Entry>, actual: Option<Entry>, reason: Reason)
    | LeafConflict(path: FieldPath, base: Leaf, incoming: Leaf, current: Leaf, reason: Reason)

  function StateAt(d: Document, scope: Scope): Option<Entry> {
    if d.lifecycle.None? then None
    else if scope.Whole? then d.lifecycle.value.thread
    else Lookup(Entries(d.lifecycle.value, scope.section), scope.origin)
  }

  function Scopes(d: Document): (scopes: set<Scope>)
    ensures forall x :: x in scopes <==> StateAt(d, x).Some?
  {
    if d.lifecycle.None? then {}
    else
      var l := d.lifecycle.value;
      (if l.thread.Some? then {Whole} else {})
      + (set o | o in l.nodes :: One(Nodes, o)) + (set o | o in l.relations :: One(Relations, o))
  }

  /** What a tombstone of a scope hides. */
  datatype Content =
    | Project(thread: Fields, nodes: map<Origin, Fields>, relations: map<Origin, Fields>, whiteboard: map<Origin, Leaf>)
    | Single(item: Option<Fields>)

  function CanonContent(c: Content): Content {
    match c
    case Project(t, n, r, w) => Project(CanonFields(t), CanonItems(n), CanonItems(r), CanonFields(w))
    case Single(item) => Single(if item.Some? then Some(CanonFields(item.value)) else None)
  }

  /** What two documents say about a scope is the same to Python. */
  predicate SameContent(d: Document, e: Document, scope: Scope) {
    CanonContent(ContentAt(d, scope)) == CanonContent(ContentAt(e, scope))
  }

  function ContentAt(d: Document, scope: Scope): Content {
    if scope.Whole? then Project(d.thread, d.nodes, d.relations, d.whiteboard)
    else Single(Lookup(Items(d, scope.section), scope.origin))
  }

  /** The branches of the guard for one scope. */
  function ReasonFor(base: Document, incoming: Document, current: Document, scope: Scope): Option<Reason> {
    var target, actual := StateAt(incoming, scope), StateAt(current, scope);
    if actual.Some? && target.None? then Some(StaleWriter)
    else if target == actual then
      if actual.Some? && actual.value.state in {Trashed, Purged} && !SameContent(incoming, current, scope)
      then Some(EditOfTrashed) else None
    else
      var t := target.value;
      var early :=
        if t.state.Purged? then Some(PurgeNeedsReview)
        else if actual.None? then
          if t.generation != 1 || !t.state.Trashed? then Some(RestoreMismatch) else None
        else
          var a := actual.value;
          if t.generation < a.generation then Some(StaleGeneration)
          else if a.state.Trashed? && t.state.Restored? then
            if t.generation != a.generation || t.revision != a.revision + 1 then Some(RestoreMismatch) else None
          else if a.state.Restored? && t.state.Trashed? then
            if t.generation != a.generation + 1 || t.revision != 1 then Some(GenerationGap) else None
          else Some(LifecycleConflict);
      if early.None? && !SameContent(base, current, scope) then Some(ConcurrentDeleteEdit) else early
  }

  function ConflictAt(base: Document, incoming: Document, current: Document, scope: Scope): Conflict
    requires ReasonFor(base, incoming, current, scope).Some?
  {
    StateConflict(scope, StateAt(base, scope), StateAt(incoming, scope), StateAt(current, scope),
                  ReasonFor(base, incoming, current, scope).value)
  }

  function Guard(base: Document, incoming: Document, current: Document): set<Conflict> {
    set x | x in Scopes(incoming) + Scopes(current) && ReasonFor(base, incoming, current, x).Some? ::
      ConflictAt(base, incoming, current, x)
  }

  method GuardMerge(base: Document, incoming: Document, current: Document) returns (conflicts: set<Conflict>)
    ensures conflicts == Guard(base, incoming, current)
  {
    conflicts := {};
    var all := Scopes(incoming) + Scopes(current);
    var todo := all;
    while todo != {}
      invariant todo <= all
      invariant conflicts == set x | x in all - todo && ReasonFor(base, incoming, current, x).Some? ::
                               ConflictAt(base, incoming, current, x)
      decreases |todo|
    {
      var x :| x in todo;
      if ReasonFor(base, incoming, current, x).Some? {
        conflicts := conflicts + {ConflictAt(base, incoming, current, x)};
      }
      todo := todo - {x};
    }
    assert all - todo == all;
  }

  // --------------------------------------------------- what a tombstone hides

  /** The leaves a tombstone of a scope hides. */
  predicate InScope(x: Scope, p: FieldPath) {
    if x.Whole? then !p.LifecyclePath? else p.Item? && p.section == x.section && p.origin == x.origin
  }

  lemma ContentLeaf(d: Document, e: Document, x: Scope, p: FieldPath)
    requires SameContent(d, e, x) && InScope(x, p)
    ensures AlikeLeaf(At(d, p), At(e, p))
  {
    if x.Whole? {
      CanonAt(d, p);
      CanonAt(e, p);
      assert At(CanonDocument(d), p) == At(CanonDocument(e), p);
    } else {
      var (i, j) := (Lookup(Items(d, x.section), x.origin), Lookup(Items(e, x.section), x.origin));
      if i.Some? && j.Some? {
        assert CanonFields(i.value) == CanonFields(j.value);
        assert p.field in CanonFields(i.value) <==> p.field in i.value;
        assert p.field in CanonFields(j.value) <==> p.field in j.value;
      }
    }
  }

  lemma ItemContent(d: Document, e: Document, s: Section, o: Origin)
    requires Tidy(d) && Tidy(e) && forall k :: AlikeLeaf(At(d, Item(s, o, k)), At(e, Item(s, o, k)))
    ensures SameContent(d, e, One(s, o))
  {
    if o in Items(d, s) {
      var k :| k in Items(d, s)[o];
      assert AlikeLeaf(At(d, Item(s, o, k)), At(e, Item(s, o, k)));
    }
    if o in Items(e, s) {
      var k :| k in Items(e, s)[o];
      assert AlikeLeaf(At(d, Item(s, o, k)), At(e, Item(s, o, k)));
    }
    if o in Items(d, s) && o in Items(e, s) {
      forall k ensures Lookup(CanonFields(Items(d, s)[o]), k) == Lookup(CanonFields(Items(e, s)[o]), k) {
        assert AlikeLeaf(At(d, Item(s, o, k)), At(e, Item(s, o, k)));
      }
      SameLookups(CanonFields(Items(d, s)[o]), CanonFields(Items(e, s)[o]));
    }
  }

  lemma SameLookups(f: map<string, Leaf>, g: map<string, Leaf>)
    requires forall k :: Lookup(f, k) == Lookup(g, k)
    ensures f == g
  {
    forall k ensures k in f <==> k in g { assert Lookup(f, k) == Lookup(g, k); }
    forall k | k in f ensures f[k] == g[k] { assert Lookup(f, k) == Lookup(g, k); }
  }

  function WithoutStates(d: Document): Document { d.(format := V1, lifecycle := None) }

  lemma WholeContent(d: Document, e: Document)
    requires Tidy(d) && Tidy(e) && forall p: FieldPath :: !p.LifecyclePath? ==> AlikeLeaf(At(d, p), At(e, p))
    ensures SameContent(d, e, Whole)
  {
    var (f, g) := (WithoutStates(d), WithoutStates(e));
    forall p ensures AlikeLeaf(At(f, p), At(g, p)) {
      assert !p.LifecyclePath? ==> At(f, p) == At(d, p) && At(g, p) == At(e, p);
    }
    forall s, o | o in Items(f, s) ensures Items(f, s)[o] != map[] { assert Items(f, s) == Items(d, s); }
    forall s, o | o in Items(g, s) ensures Items(g, s)[o] != map[] { assert Items(g, s) == Items(e, s); }
    AlikeLeavesAlike(f, g);
  }

  /** A scope's content is the same to Python exactly if each of its leaves is. */
  lemma ContentLeaves(d: Document, e: Document, x: Scope)
    requires Tidy(d) && Tidy(e)
    ensures SameContent(d, e, x) <==> forall p :: InScope(x, p) ==> AlikeLeaf(At(d, p), At(e, p))
  {
    if SameContent(d, e, x) {
      forall p | InScope(x, p) ensures AlikeLeaf(At(d, p), At(e, p)) { ContentLeaf(d, e, x, p); }
    }
    if forall p :: InScope(x, p) ==> AlikeLeaf(At(d, p), At(e, p)) {
      if x.Whole? {
        WholeContent(d, e);
      } else {
        forall k ensures AlikeLeaf(At(d, Item(x.section, x.origin, k)), At(e, Item(x.section, x.origin, k))) {
          assert InScope(x, Item(x.section, x.origin, k));
        }
        ItemContent(d, e, x.section, x.origin);
      }
    }
  }

  // ------------------------------------------------ what the guard lets through

  /** The changes of state an accepted writer may make: a first tombstone, the restore of
      the very tombstone that is there, a new tombstone of the next generation. */
  predicate Moves(actual: Option<Entry>, target: Option<Entry>) {
    && target.Some?
    && if actual.None? then target.value.generation == 1 && target.value.state.Trashed?
       else
         var (a, t) := (actual.value, target.value);
         || (a.state.Trashed? && t == Entry(a.generation, a.revision + 1, Restored))
         || (a.state.Restored? && t == Entry(a.generation + 1, 1, Trashed))
  }

  /** In the trash, or purged. */
  predicate Hidden(e: Option<Entry>) { e.Some? && !e.value.state.Restored? }

  predicate Passes(base: Document, incoming: Document, current: Document, scope: Scope) {
    var target, actual := StateAt(incoming, scope), StateAt(current, scope);
    if target == actual then
      Hidden(actual) ==> SameContent(incoming, current, scope)
    else
      Moves(actual, target) && SameContent(base, current, scope)
  }

  /** The guard finds nothing exactly if every scope keeps its state, with nothing
      trashed or purged edited, or makes a move while its content is still what the
      writer saw. */
  lemma GuardPasses(base: Document, incoming: Document, current: Document)
    ensures Guard(base, incoming, current) == {} <==> forall x :: Passes(base, incoming, current, x)
  {
    forall x ensures Passes(base, incoming, current, x) <==> ReasonFor(base, incoming, current, x).None? {
      ScopePasses(base, incoming, current, x);
    }
    forall x | ReasonFor(base, incoming, current, x).Some?
      ensures ConflictAt(base, incoming, current, x) in Guard(base, incoming, current)
    {
      assert x in Scopes(incoming) + Scopes(current);
    }
  }

  lemma ScopePasses(base: Document, incoming: Document, current: Document, x: Scope)
    ensures Passes(base, incoming, current, x) <==> ReasonFor(base, incoming, current, x).None?
  {
    var target, actual := StateAt(incoming, x), StateAt(current, x);
    if target.Some? && actual.Some? {
      assert target.value == Entry(target.value.generation, target.value.revision, target.value.state);
    }
  }

  /** What each refusal of a scope means, said of the states the writer sends and finds and
      of the contents. */
  ghost predicate Because(reason: Reason, base: Document, incoming: Document, current: Document, scope: Scope) {
    var target, actual := StateAt(incoming, scope), StateAt(current, scope);
    match reason
    case StaleWriter => target == None && actual != None
    case EditOfTrashed => target == actual && Hidden(actual) && !SameContent(incoming, current, scope)
    case PurgeNeedsReview => target != actual && target.Some? && target.value.state == Purged
    case RestoreMismatch =>
      && target.Some?
      && (actual == None ==>
            target.value.state != Purged && (target.value.generation != 1 || target.value.state != Trashed))
      && (actual != None ==>
            && actual.value.state == Trashed && target.value.state == Restored
            && target.value.generation >= actual.value.generation
            && target.value != Entry(actual.value.generation, actual.value.revision + 1, Restored))
    case StaleGeneration =>
      && target.Some? && actual.Some? && target.value.state != Purged
      && target.value.generation < actual.value.generation
    case GenerationGap =>
      && target.Some? && actual.Some? && actual.value.state == Restored && target.value.state == Trashed
      && target.value.generation >= actual.value.generation
      && target.value != Entry(actual.value.generation + 1, 1, Trashed)
    case LifecycleConflict =>
      && target.Some? && actual.Some? && target != actual && target.value.state != Purged
      && target.value.generation >= actual.value.generation
      && (actual.value.state == Purged || actual.value.state == target.value.state)
    case ConcurrentDeleteEdit => Moves(actual, target) && !SameContent(base, current, scope)
    case _ => false
  }

  lemma ReasonIs(base: Document, incoming: Document, current: Document, scope: Scope, reason: Reason)
    ensures ReasonFor(base, incoming, current, scope) == Some(reason)
       <==> Because(reason, base, incoming, current, scope)
  {
    hide SameContent;
    hide StateAt;
    var target, actual := StateAt(incoming, scope), StateAt(current, scope);
    if target.Some? && actual.Some? {
      assert target.value == Entry(target.value.generation, target.value.revision, target.value.state);
    }
  }

  /** One conflict for each scope that does not pass: its three states as the documents
      have them and the one reason there is. */
  lemma GuardIsExact(base: Document, incoming: Document, current: Document)
    ensures forall k :: k in Guard(base, incoming, current) <==>
              && k.StateConflict? && Because(k.reason, base, incoming, current, k.scope)
              && k.oldState == StateAt(base, k.scope) && k.target == StateAt(incoming, k.scope)
              && k.actual == StateAt(current, k.scope)
    ensures forall x :: Passes(base, incoming, current, x) <==>
              forall k :: k in Guard(base, incoming, current) ==> k.scope != x
    ensures forall k, l :: k in Guard(base, incoming, current) && l in Guard(base, incoming, current) ==>
              (k.scope == l.scope ==> k == l)
  {
    forall x, reason ensures ReasonFor(base, incoming, current, x) == Some(reason)
                             <==> Because(reason, base, incoming, current, x) {
      ReasonIs(base, incoming, current, x, reason);
    }
    forall x | ReasonFor(base, incoming, current, x).Some?
      ensures ConflictAt(base, incoming, current, x) in Guard(base, incoming, current)
    {
      assert x in Scopes(incoming) + Scopes(current) by { ReasonedScope(base, incoming, current, x); }
    }
    hide Because;
    forall x ensures Passes(base, incoming, current, x) <==> ReasonFor(base, incoming, current, x).None? {
      ScopePasses(base, incoming, current, x);
    }
  }

  lemma ReasonedScope(base: Document, incoming: Document, current: Document, x: Scope)
    requires ReasonFor(base, incoming, current, x).Some?
    ensures x in Scopes(incoming) + Scopes(current)
  {
  }

  /** Position in the life of an object: untouched, trashed for the first time, restored,
      trashed for the second time, ... */
  function Stage(e: Option<Entry>): int {
    if e.None? then 1 else 2 * e.value.generation + if e.value.state.Trashed? then 0 else 1
  }

  predicate After(e: Entry, f: Entry) {
    f.generation > e.generation || (f.generation == e.generation && f.revision >= e.revision)
  }

  /** A move is one stage forward, and lexicographically forward in generation and
      revision. */
  lemma MoveAdvances(actual: Option<Entry>, target: Option<Entry>)
    requires Moves(actual, target)
    ensures Stage(target) == Stage(actual) + 1
    ensures actual.Some? ==> After(actual.value, target.value) && actual.value != target.value
    ensures !target.value.state.Purged? && (actual.Some? ==> !actual.value.state.Purged?)
  {
  }

  /** The guard leaves the revision of a first tombstone to the trash service, which numbers
      it 1 and refuses any other within the same transaction. */
  lemma FirstTombstoneRevisionUnchecked(revision: int)
    ensures var d := EMPTY.(thread := map["title" := Value(Str("t"))]);
            var e := d.(format := V2, lifecycle := Some(Lifecycle(Some(Entry(1, revision, Trashed)), map[], map[])));
            Guard(d, e, d) == {} && StateAt(e, Whole).value.revision == revision
  {
    var d := EMPTY.(thread := map["title" := Value(Str("t"))]);
    var e := d.(format := V2, lifecycle := Some(Lifecycle(Some(Entry(1, revision, Trashed)), map[], map[])));
    forall x ensures Passes(d, e, d, x) {
      if x.One? { assert StateAt(e, x) == None && StateAt(d, x) == None; }
    }
    GuardPasses(d, e, d);
  }
}
