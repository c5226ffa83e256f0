/** The three-way merge of metadata documents, leaf by leaf. */
module Merge {
  import opened Common
  import opened Documents
  import opened LifecycleGuard

  /** The value standing for an absent leaf. It is an ordinary JSON value, so a leaf may
      also really hold it. */
  const MISSING := Value(Obj(map["$missing" := Bool(true)]))

  predicate StandsIn(leaf: Leaf) { Alike(leaf, MISSING) }

  function Get(f: Flat, p: FieldPath): Leaf { if p in f then f[p] else MISSING }

  datatype Decision = Keep | Take | Clash(reason: Reason)

  /** The branches of the merge for one leaf. */
  function Decide(p: FieldPath, was: Leaf, left: Leaf, right: Leaf): Decision {
    if Alike(left, right) || Alike(left, was) then Keep
    else if p.Board? && !StandsIn(right) then Clash(ImmutableEntryChanged)
    else if StandsIn(left) then Clash(DeletionNotApplied)
    else if Alike(right, was) || StandsIn(right) then Take
    else Clash(if p.Board? then ImmutableEntryChanged else ConcurrentChange)
  }

  function Verdict(b: Flat, l: Flat, r: Flat, p: FieldPath): Decision {
    if p == FILES then Keep else Decide(p, Get(b, p), Get(l, p), Get(r, p))
  }

  function FilesIn(leaf: Leaf): set<string> { if leaf.FileSet? then leaf.files else {} }

  function MergedLeaf(b: Flat, l: Flat, r: Flat, p: FieldPath): Option<Leaf> {
    if p == FILES then
      if p in b || p in l || p in r then Some(FileSet(FilesIn(Get(l, p)) + FilesIn(Get(r, p)))) else None
    else if Verdict(b, l, r, p).Take? then Some(Get(l, p))
    else Lookup(r, p)
  }

  function Merged(b: Flat, l: Flat, r: Flat): (m: Flat)
    ensures forall p: FieldPath :: Lookup(m, p) == MergedLeaf(b, l, r, p)
  {
    map p | p in b.Keys + l.Keys + r.Keys && MergedLeaf(b, l, r, p).Some? :: MergedLeaf(b, l, r, p).value
  }

  function ClashAt(b: Flat, l: Flat, r: Flat, p: FieldPath): Conflict
    requires Verdict(b, l, r, p).Clash?
  {
    LeafConflict(p, Get(b, p), Get(l, p), Get(r, p), Verdict(b, l, r, p).reason)
  }

  function ClashesOver(b: Flat, l: Flat, r: Flat, paths: set<FieldPath>): set<Conflict> {
    set p | p in paths && Verdict(b, l, r, p).Clash? :: ClashAt(b, l, r, p)
  }

  function Clashes(b: Flat, l: Flat, r: Flat): set<Conflict> { ClashesOver(b, l, r, b.Keys + l.Keys + r.Keys) }

  datatype Outcome = Accepted(document: Document, conflicts: set<Conflict>) | Rejected

  lemma MergedTyped(b: Flat, l: Flat, r: Flat)
    requires Typed(l) && Typed(r)
    ensures Typed(Merged(b, l, r))
  {
    assert Lookup(Merged(b, l, r), LifecyclePath) == MergedLeaf(b, l, r, LifecyclePath);
  }

  lemma LeavesTyped(d: Document)
    ensures Typed(Leaves(d))
  {
    assert Lookup(Leaves(d), LifecyclePath) == At(d, LifecyclePath);
  }

  /** Where the guard finds nothing: the merged document, if it is valid. */
  function LeafMerge(accepts: Validator, base: Document, incoming: Document, current: Document): Outcome {
    var b, l, r := Leaves(base), Leaves(incoming), Leaves(current);
    LeavesTyped(incoming); LeavesTyped(current); MergedTyped(b, l, r);
    var d := Assembled(Merged(b, l, r));
    if accepts(d) then Accepted(d, Clashes(b, l, r)) else Rejected
  }

  /** What `merge_documents` returns or raises. */
  function MergeOf(accepts: Validator, base: Document, incoming: Document, current: Document): Outcome {
    var guarded := Guard(base, incoming, current);
    if guarded != {} then Accepted(current, guarded) else LeafMerge(accepts, base, incoming, current)
  }

  /** The merge of one leaf other than the file references. */
  method MergeLeaf(merged: Flat, conflicts: set<Conflict>, p: FieldPath, was: Leaf, left: Leaf, right: Leaf)
    returns (m: Flat, c: set<Conflict>)
    ensures m == if Decide(p, was, left, right).Take? then merged[p := left] else merged
    ensures c == conflicts + if Decide(p, was, left, right).Clash?
                             then {LeafConflict(p, was, left, right, Decide(p, was, left, right).reason)} else {}
  {
    m, c := merged, conflicts;
    var immutable := p.Board?;
    if Alike(left, right) || Alike(left, was) { return; }
    if immutable && !StandsIn(right) {
      c := c + {LeafConflict(p, was, left, right, ImmutableEntryChanged)};
    } else if StandsIn(left) {
      c := c + {LeafConflict(p, was, left, right, DeletionNotApplied)};
    } else if Alike(right, was) || StandsIn(right) {
      m := m[p := left];
    } else {
      c := c + {LeafConflict(p, was, left, right, if immutable then ImmutableEntryChanged else ConcurrentChange)};
    }
  }

  /** One turn of the loop over all paths. */
  method MergePath(b: Flat, l: Flat, r: Flat, merged: Flat, conflicts: set<Conflict>, ghost done: set<FieldPath>,
                   p: FieldPath)
    returns (m: Flat, c: set<Conflict>)
    requires p in b.Keys + l.Keys + r.Keys && p !in done
    requires MergedOn(b, l, r, done, merged) && conflicts == ClashesOver(b, l, r, done)
    ensures MergedOn(b, l, r, done + {p}, m) && c == ClashesOver(b, l, r, done + {p})
  {
    MoreClashes(b, l, r, done, p);
    assert Lookup(merged, p) == Lookup(r, p);
    m, c := merged, conflicts;
    if p == FILES {
      m := merged[p := FileSet(FilesIn(Get(l, p)) + FilesIn(Get(r, p)))];
    } else {
      m, c := MergeLeaf(merged, conflicts, p, Get(b, p), Get(l, p), Get(r, p));
    }
  }

  method MergePaths(b: Flat, l: Flat, r: Flat, paths: set<FieldPath>) returns (merged: Flat, conflicts: set<Conflict>)
    requires forall p :: p in paths ==> p in b.Keys + l.Keys + r.Keys
    ensures MergedOn(b, l, r, paths, merged) && conflicts == ClashesOver(b, l, r, paths)
  {
    merged, conflicts := r, {};
    ghost var done: set<FieldPath> := {};
    var todo := paths;
    MergedNone(b, l, r);
    while todo != {}
      invariant done !! todo && done + todo == paths
      invariant MergedOn(b, l, r, done, merged) && conflicts == ClashesOver(b, l, r, done)
      decreases |todo|
    {
      var p :| p in todo;
      assert p in paths && p !in done;
      merged, conflicts := MergePath(b, l, r, merged, conflicts, done, p);
      done := done + {p};
      todo := todo - {p};
    }
    assert done == paths;
  }

  method MergeLeaves(b: Flat, l: Flat, r: Flat) returns (merged: Flat, conflicts: set<Conflict>)
    ensures merged == Merged(b, l, r) && conflicts == Clashes(b, l, r)
  {
    merged, conflicts := MergePaths(b, l, r, b.Keys + l.Keys + r.Keys);
    MergedAll(b, l, r, b.Keys + l.Keys + r.Keys, merged);
  }

  ghost predicate MergedOn(b: Flat, l: Flat, r: Flat, done: set<FieldPath>, merged: Flat) {
    forall p: FieldPath :: Lookup(merged, p) == if p in done then MergedLeaf(b, l, r, p) else Lookup(r, p)
  }

  lemma MergedNone(b: Flat, l: Flat, r: Flat)
    ensures MergedOn(b, l, r, {}, r) && ClashesOver(b, l, r, {}) == {}
  {
  }

  lemma MergedAll(b: Flat, l: Flat, r: Flat, done: set<FieldPath>, merged: Flat)
    requires done == b.Keys + l.Keys + r.Keys && MergedOn(b, l, r, done, merged)
    ensures merged == Merged(b, l, r) && ClashesOver(b, l, r, done) == Clashes(b, l, r)
  {
    forall p: FieldPath ensures Lookup(merged, p) == Lookup(Merged(b, l, r), p) { OutsideUntouched(b, l, r, p); }
    SameLeaves(merged, Merged(b, l, r));
  }

  lemma OutsideUntouched(b: Flat, l: Flat, r: Flat, p: FieldPath)
    ensures p !in b && p !in l && p !in r ==> MergedLeaf(b, l, r, p) == Lookup(r, p)
  {
  }

  lemma MoreClashes(b: Flat, l: Flat, r: Flat, paths: set<FieldPath>, p: FieldPath)
    ensures ClashesOver(b, l, r, paths + {p}) ==
              ClashesOver(b, l, r, paths) + if Verdict(b, l, r, p).Clash? then {ClashAt(b, l, r, p)} else {}
  {
  }

  method MergeDocuments(accepts: Validator, base: Document, incoming: Document, current: Document)
    returns (out: Outcome)
    ensures out == MergeOf(accepts, base, incoming, current)
  {
    var guarded := GuardMerge(base, incoming, current);
    if guarded != {} { return Accepted(current, guarded); }
    var b := Flatten(base);
    var l := Flatten(incoming);
    var r := Flatten(current);
    var merged, conflicts := MergeLeaves(b, l, r);
    LeavesTyped(incoming); LeavesTyped(current); MergedTyped(b, l, r);
    var d := Unflatten(merged);
    out := if accepts(d) then Accepted(d, conflicts) else Rejected;
  }

  // ------------------------------------------------------------ conservation

  /** The incoming change that is neither applied nor dropped silently: it is refused
      because it deletes, rewrites a whiteboard entry, or meets another change. */
  predicate Contested(p: FieldPath, was: Leaf, left: Leaf, right: Leaf) {
    && p != FILES && !Alike(left, was) && !Alike(left, right)
    && (StandsIn(left) || (!StandsIn(right) && (p.Board? || !Alike(right, was))))
  }

  /** The current value is replaced: incoming changed it, to something, and it is as it
      was in the base, or taken for absent. */
  predicate GivesWay(p: FieldPath, was: Leaf, left: Leaf, right: Leaf) {
    && !Alike(left, was) && !Alike(left, right) && !StandsIn(left)
    && (StandsIn(right) || (Alike(right, was) && !p.Board?))
  }

  function Triple(base: Document, incoming: Document, current: Document, p: FieldPath): (Leaf, Leaf, Leaf) {
    (Get(Leaves(base), p), Get(Leaves(incoming), p), Get(Leaves(current), p))
  }

  ghost predicate LeafMerged(accepts: Validator, base: Document, incoming: Document, current: Document, out: Outcome) {
    out.Accepted? && Guard(base, incoming, current) == {} && out == MergeOf(accepts, base, incoming, current)
  }

  lemma MergedAt(accepts: Validator, base: Document, incoming: Document, current: Document, out: Outcome, p: FieldPath)
    requires LeafMerged(accepts, base, incoming, current, out)
    ensures At(out.document, p) == MergedLeaf(Leaves(base), Leaves(incoming), Leaves(current), p)
    ensures Lookup(Leaves(out.document), p) == MergedLeaf(Leaves(base), Leaves(incoming), Leaves(current), p)
  {
    var b, l, r := Leaves(base), Leaves(incoming), Leaves(current);
    LeavesTyped(incoming); LeavesTyped(current); MergedTyped(b, l, r);
    AssembledAt(Merged(b, l, r), p);
    assert Lookup(Merged(b, l, r), p) == MergedLeaf(b, l, r, p);
    assert Lookup(Leaves(out.document), p) == At(out.document, p);
  }

  /** Leaf by leaf: the result is one side's value, and the current value gives way
      exactly under the condition above. An incoming change Python can see is applied, or
      journaled with its three values, and never both. */
  ghost predicate Conserves(p: FieldPath, was: Leaf, left: Leaf, right: Leaf, merged: Leaf, conflicts: set<Conflict>) {
    && merged in {left, right}
    && (merged != right <==> GivesWay(p, was, left, right))
    && (!Alike(left, was) ==> Alike(merged, left) != Contested(p, was, left, right))
    && (forall reason :: LeafConflict(p, was, left, right, reason) in conflicts ==> Contested(p, was, left, right))
    && (Contested(p, was, left, right) ==>
          LeafConflict(p, was, left, right,
            if p.Board? && !StandsIn(right) then ImmutableEntryChanged
            else if StandsIn(left) then DeletionNotApplied else ConcurrentChange) in conflicts)
  }

  lemma FlatConservation(b: Flat, l: Flat, r: Flat, p: FieldPath)
    requires p != FILES
    ensures Conserves(p, Get(b, p), Get(l, p), Get(r, p), Get(Merged(b, l, r), p), Clashes(b, l, r))
  {
    assert Lookup(Merged(b, l, r), p) == MergedLeaf(b, l, r, p);
    if Contested(p, Get(b, p), Get(l, p), Get(r, p)) {
      assert p in b.Keys + l.Keys + r.Keys;
      assert Verdict(b, l, r, p).Clash?;
      assert ClashAt(b, l, r, p) in Clashes(b, l, r);
    }
  }

  lemma LeafConservation(accepts: Validator, base: Document, incoming: Document, current: Document,
                         out: Outcome, p: FieldPath)
    requires LeafMerged(accepts, base, incoming, current, out) && p != FILES
    ensures var (was, left, right) := Triple(base, incoming, current, p);
            Conserves(p, was, left, right, Get(Leaves(out.document), p), out.conflicts)
  {
    MergedAt(accepts, base, incoming, current, out, p);
    FlatConservation(Leaves(base), Leaves(incoming), Leaves(current), p);
    assert Lookup(Merged(Leaves(base), Leaves(incoming), Leaves(current)), p) == Lookup(Leaves(out.document), p);
  }

  lemma ClashIsContest(b: Flat, l: Flat, r: Flat, k: Conflict)
    requires k in Clashes(b, l, r)
    ensures k.LeafConflict? && Contested(k.path, k.base, k.incoming, k.current)
    ensures k.base == Get(b, k.path) && k.incoming == Get(l, k.path) && k.current == Get(r, k.path)
    ensures k == ClashAt(b, l, r, k.path) && MergedLeaf(b, l, r, k.path) == Lookup(r, k.path)
  {
  }

  /** Every journaled conflict is one of these, with its exact values, and is the only
      one of its path; the current value it names is in the result. */
  lemma ConflictsAreContests(accepts: Validator, base: Document, incoming: Document, current: Document,
                             out: Outcome, k: Conflict)
    requires LeafMerged(accepts, base, incoming, current, out) && k in out.conflicts
    ensures k.LeafConflict? && Contested(k.path, k.base, k.incoming, k.current)
    ensures (k.base, k.incoming, k.current) == Triple(base, incoming, current, k.path)
    ensures Get(Leaves(out.document), k.path) == k.current
    ensures forall other :: other in out.conflicts && other.LeafConflict? && other.path == k.path ==> other == k
  {
    var (b, l, r) := (Leaves(base), Leaves(incoming), Leaves(current));
    assert out.conflicts == Clashes(b, l, r);
    ClashIsContest(b, l, r, k);
    MergedAt(accepts, base, incoming, current, out, k.path);
    forall other | other in out.conflicts && other.LeafConflict? && other.path == k.path ensures other == k {
      ClashIsContest(b, l, r, other);
    }
  }

  /** File references only ever accumulate. */
  lemma FilesUnite(accepts: Validator, base: Document, incoming: Document, current: Document, out: Outcome)
    requires LeafMerged(accepts, base, incoming, current, out)
    ensures FilesIn(Get(Leaves(out.document), FILES)) ==
              FilesIn(Get(Leaves(incoming), FILES)) + FilesIn(Get(Leaves(current), FILES))
  {
    MergedAt(accepts, base, incoming, current, out, FILES);
  }

  lemma MergedLeafKeeps(b: Flat, l: Flat, r: Flat, p: FieldPath)
    ensures p in r ==> MergedLeaf(b, l, r, p).Some?
    ensures p in l && p !in b && !StandsIn(l[p]) ==> MergedLeaf(b, l, r, p).Some?
  {
  }

  /** No leaf disappears, and every new one appears unless it holds the stand-in value. */
  lemma AbsenceNeverDeletes(accepts: Validator, base: Document, incoming: Document, current: Document,
                            out: Outcome, p: FieldPath)
    requires LeafMerged(accepts, base, incoming, current, out)
    ensures p in Leaves(current) ==> p in Leaves(out.document)
    ensures p in Leaves(incoming) && p !in Leaves(base) && !StandsIn(Leaves(incoming)[p]) ==> p in Leaves(out.document)
  {
    MergedAt(accepts, base, incoming, current, out, p);
    MergedLeafKeeps(Leaves(base), Leaves(incoming), Leaves(current), p);
  }

  lemma AbsentLeaf(b: Flat, l: Flat, r: Flat, p: FieldPath)
    requires p != FILES && p !in r
    ensures MergedLeaf(b, l, r, p) == if StandsIn(Get(l, p)) || Alike(Get(l, p), Get(b, p)) then None else Some(l[p])
    ensures Contested(p, Get(b, p), Get(l, p), Get(r, p)) ==> StandsIn(Get(l, p))
  {
  }

  /** A leaf current does not have appears exactly if incoming has it and Python tells its
      value from the base's; no conflict is journaled for it unless incoming has none. */
  lemma AbsentStaysAway(accepts: Validator, base: Document, incoming: Document, current: Document,
                        out: Outcome, p: FieldPath)
    requires LeafMerged(accepts, base, incoming, current, out) && p != FILES && p !in Leaves(current)
    ensures var (was, left, right) := Triple(base, incoming, current, p);
            && (p in Leaves(out.document) <==> !StandsIn(left) && !Alike(left, was))
            && (p in Leaves(out.document) ==> Leaves(out.document)[p] == left)
            && (!StandsIn(left) ==> forall k :: k in out.conflicts && k.LeafConflict? ==> k.path != p)
  {
    MergedAt(accepts, base, incoming, current, out, p);
    AbsentLeaf(Leaves(base), Leaves(incoming), Leaves(current), p);
    forall k | k in out.conflicts && k.LeafConflict? && k.path == p ensures StandsIn(Get(Leaves(incoming), p)) {
      ConflictsAreContests(accepts, base, incoming, current, out, k);
    }
  }

  /** A stale writer changes nothing at all. */
  lemma GuardedChangesNothing(accepts: Validator, base: Document, incoming: Document, current: Document)
    requires Guard(base, incoming, current) != {}
    ensures MergeOf(accepts, base, incoming, current) == Accepted(current, Guard(base, incoming, current))
  {
  }

  // ---------------------------------------------------- the exact outcome

  /** A conflict of the guard: its scope does not pass, its states are those of the three
      documents, its reason is the one that holds of them. */
  ghost predicate StateContest(base: Document, incoming: Document, current: Document, k: Conflict) {
    && k.StateConflict? && Because(k.reason, base, incoming, current, k.scope)
    && k.oldState == StateAt(base, k.scope) && k.target == StateAt(incoming, k.scope)
    && k.actual == StateAt(current, k.scope)
  }

  /** A conflict of a leaf: the change is contested, its values are those of the three
      documents, and its reason says whether it rewrites a whiteboard entry, deletes, or
      meets another change. */
  ghost predicate LeafContest(base: Document, incoming: Document, current: Document, k: Conflict) {
    && k.LeafConflict? && Contested(k.path, k.base, k.incoming, k.current)
    && (k.base, k.incoming, k.current) == Triple(base, incoming, current, k.path)
    && k.reason == if k.path.Board? && !StandsIn(k.current) then ImmutableEntryChanged
                   else if StandsIn(k.incoming) then DeletionNotApplied else ConcurrentChange
  }

  /** Leaf by leaf the current value, or incoming's where it gives way; all file references
      of both. */
  ghost predicate MergedFrom(base: Document, incoming: Document, current: Document, d: Document) {
    && Tidy(d)
    && (forall p :: p != FILES ==>
          var (was, left, right) := Triple(base, incoming, current, p);
          At(d, p) == if GivesWay(p, was, left, right) then Some(left) else At(current, p))
    && (At(d, FILES) == None <==> At(base, FILES) == None && At(incoming, FILES) == None && At(current, FILES) == None)
    && (At(d, FILES) != None ==>
          At(d, FILES) ==
            Some(FileSet(FilesIn(Get(Leaves(incoming), FILES)) + FilesIn(Get(Leaves(current), FILES)))))
  }

  lemma LeafFrom(base: Document, incoming: Document, current: Document, p: FieldPath)
    requires p != FILES
    ensures var (was, left, right) := Triple(base, incoming, current, p);
            MergedLeaf(Leaves(base), Leaves(incoming), Leaves(current), p) ==
              if GivesWay(p, was, left, right) then Some(left) else At(current, p)
  {
    assert Lookup(Leaves(current), p) == At(current, p);
  }

  lemma FilesFrom(base: Document, incoming: Document, current: Document)
    ensures var b, l, r := Leaves(base), Leaves(incoming), Leaves(current);
            MergedLeaf(b, l, r, FILES) ==
              if At(base, FILES) == None && At(incoming, FILES) == None && At(current, FILES) == None then None
              else Some(FileSet(FilesIn(Get(l, FILES)) + FilesIn(Get(r, FILES))))
  {
    assert Lookup(Leaves(base), FILES) == At(base, FILES) && Lookup(Leaves(incoming), FILES) == At(incoming, FILES);
    assert Lookup(Leaves(current), FILES) == At(current, FILES);
  }

  lemma MergedFromLeaves(base: Document, incoming: Document, current: Document, d: Document)
    ensures MergedFrom(base, incoming, current, d) <==>
              && Tidy(d)
              && forall p :: At(d, p) == MergedLeaf(Leaves(base), Leaves(incoming), Leaves(current), p)
  {
    hide MergedLeaf;
    hide GivesWay;
    hide Leaves;
    forall p | p != FILES
      ensures var (was, left, right) := Triple(base, incoming, current, p);
              MergedLeaf(Leaves(base), Leaves(incoming), Leaves(current), p) ==
                if GivesWay(p, was, left, right) then Some(left) else At(current, p)
    {
      LeafFrom(base, incoming, current, p);
    }
    FilesFrom(base, incoming, current);
  }

  lemma ContestsAre(base: Document, incoming: Document, current: Document, k: Conflict)
    ensures k in Clashes(Leaves(base), Leaves(incoming), Leaves(current)) <==> LeafContest(base, incoming, current, k)
  {
    var b, l, r := Leaves(base), Leaves(incoming), Leaves(current);
    if k in Clashes(b, l, r) { ClashIsContest(b, l, r, k); }
    if LeafContest(base, incoming, current, k) {
      FlatConservation(b, l, r, k.path);
    }
  }

  lemma AssembledFrom(base: Document, incoming: Document, current: Document, d: Document)
    ensures var b, l, r := Leaves(base), Leaves(incoming), Leaves(current);
            Typed(Merged(b, l, r)) && (MergedFrom(base, incoming, current, d) <==> d == Assembled(Merged(b, l, r)))
  {
    var b, l, r := Leaves(base), Leaves(incoming), Leaves(current);
    LeavesTyped(incoming); LeavesTyped(current); MergedTyped(b, l, r);
    var e := Assembled(Merged(b, l, r));
    AssembledTidy(Merged(b, l, r));
    forall p ensures At(e, p) == MergedLeaf(b, l, r, p) {
      AssembledAt(Merged(b, l, r), p);
      assert Lookup(Merged(b, l, r), p) == MergedLeaf(b, l, r, p);
    }
    MergedFromLeaves(base, incoming, current, d);
    if MergedFrom(base, incoming, current, d) { LeavesDetermine(d, e); }
  }

  /** The whole outcome. If some scope does not pass, nothing changes and the conflicts are
      exactly those scopes'. Else the merged document is the one the leaves say, the
      conflicts are exactly the contested changes, and it is rejected exactly if that
      document is not valid. */
  lemma MergeIsExact(accepts: Validator, base: Document, incoming: Document, current: Document)
    ensures var out := MergeOf(accepts, base, incoming, current);
            if exists x :: !Passes(base, incoming, current, x) then
              && out.Accepted? && out.document == current
              && (forall k :: k in out.conflicts <==> StateContest(base, incoming, current, k))
            else
              && (out.Accepted? <==> exists d :: MergedFrom(base, incoming, current, d) && Checked(accepts, d))
              && (out.Accepted? ==>
                    && MergedFrom(base, incoming, current, out.document) && accepts(out.document)
                    && forall k :: k in out.conflicts <==> LeafContest(base, incoming, current, k))
  {
    hide Because;
    hide Passes;
    hide Contested;
    GuardIsExact(base, incoming, current);
    GuardPasses(base, incoming, current);
    if forall x :: Passes(base, incoming, current, x) {
      var b, l, r := Leaves(base), Leaves(incoming), Leaves(current);
      AssembledFrom(base, incoming, current, Assembled(Merged(b, l, r)));
      forall d ensures MergedFrom(base, incoming, current, d) <==> d == Assembled(Merged(b, l, r)) {
        AssembledFrom(base, incoming, current, d);
      }
      forall k ensures k in Clashes(b, l, r) <==> LeafContest(base, incoming, current, k) {
        ContestsAre(base, incoming, current, k);
      }
    }
  }

  /** No leaf really holds a value Python takes for the one that stands for an absent leaf. */
  predicate Unambiguous(d: Document) { forall p :: p in Leaves(d) ==> !StandsIn(Leaves(d)[p]) }

  /** An incoming change, of spelling or of value, is lost, that is neither in the result
      nor journaled, exactly if the current value is spelled differently while Python
      finds the incoming value equal to it or to the base value. */
  lemma ChangeLost(b: Flat, l: Flat, r: Flat, p: FieldPath)
    requires p != FILES && Get(l, p) != Get(b, p)
    ensures var (was, left, right) := (Get(b, p), Get(l, p), Get(r, p));
            (Get(Merged(b, l, r), p) != left && forall k :: k in Clashes(b, l, r) ==> k.path != p)
            <==> left != right && (Alike(left, was) || Alike(left, right))
  {
    FlatConservation(b, l, r, p);
    forall k | k in Clashes(b, l, r) && k.path == p ensures Contested(p, Get(b, p), Get(l, p), Get(r, p)) {
      ClashIsContest(b, l, r, k);
    }
  }

  /** A present leaf that is not as in the base survives, unless Python finds it equal to
      the base value or to the stand-in; then it survives exactly if incoming did not
      change the leaf, or deleted it, or agrees, or the entry is a whiteboard's. */
  lemma NoSilentOverwrite(accepts: Validator, base: Document, incoming: Document, current: Document,
                          out: Outcome, p: FieldPath)
    requires LeafMerged(accepts, base, incoming, current, out) && p != FILES
    requires p in Leaves(current) && Leaves(current)[p] != Get(Leaves(base), p)
    ensures var (was, left, right) := Triple(base, incoming, current, p);
            var kept := Get(Leaves(out.document), p) == right;
            && (!Alike(right, was) && !StandsIn(right) ==> kept)
            && (Alike(right, was) || StandsIn(right) ==>
                  (kept
                   <==> Alike(left, was) || Alike(left, right) || StandsIn(left) || (p.Board? && !StandsIn(right))))
  {
    LeafConservation(accepts, base, incoming, current, out, p);
  }

  /** What Python takes for the stand-in: the value itself, with its truth value spelled
      in any way that equals 1. */
  lemma StandIns(leaf: Leaf)
    ensures StandsIn(leaf) <==>
              && leaf.Value? && leaf.json.Obj? && leaf.json.fields.Keys == {"$missing"}
              && var j := leaf.json.fields["$missing"]; j == Bool(true) || (j.Num? && j.value == 1.0)
  {
    CanonSingle("$missing", Bool(true));
    var one: map<string, Json> := map["$missing" := Num(1.0, "")];
    assert CanonLeaf(MISSING) == Value(Obj(one)) && one["$missing"] == Num(1.0, "");
    if leaf.Value? && leaf.json.Obj? {
      var f := leaf.json.fields;
      var g: map<string, Json> := map k | k in f :: Canon(f[k]);
      assert Canon(leaf.json) == Obj(g) && g.Keys == f.Keys;
      if f.Keys == {"$missing"} {
        CanonOne(f["$missing"]);
        assert g["$missing"] == Canon(f["$missing"]);
        assert g == one <==> g["$missing"] == one["$missing"];
      } else {
        assert g != one;
      }
    }
  }

  lemma CanonOne(j: Json)
    ensures Canon(j) == Num(1.0, "") <==> j == Bool(true) || (j.Num? && j.value == 1.0)
  {
  }

  lemma CanonSingle(k: string, j: Json)
    ensures Canon(Obj(map[k := j])) == Obj(map[k := Canon(j)])
  {
  }

  function Task(metadata: map<string, Json>): Fields {
    map["kind" := Value(Str("task")), "title" := Value(Str("t")), "status" := Value(Str("idea")),
        "details" := Value(Str("")), "metadata" := Value(Obj(metadata))]
  }

  function OneTask(metadata: map<string, Json>): Document { EMPTY.(nodes := map["n:1" := Task(metadata)]) }

  lemma TaskOk(metadata: map<string, Json>)
    requires forall k :: k in LOCAL_BINDINGS ==> k !in metadata
    ensures NodeOk(Task(metadata)) && OwnerOk(OneTask(metadata).nodes, Task(metadata))
  {
    var item := Task(metadata);
    assert item.Keys == NODE_KEYS;
    assert item["title"].json.s[0] == 't';
  }

  lemma OneTaskValid(d: Document, metadata: map<string, Json>)
    requires d == OneTask(metadata) && forall k :: k in LOCAL_BINDINGS ==> k !in metadata
    ensures Structured(d)
  {
    TaskOk(metadata);
    assert d.nodes.Keys == {"n:1"};
    assert d.nodes["n:1"] == Task(metadata);
    assert PortableOrigin("n:1");
  }

  const METADATA := Item(Nodes, "n:1", "metadata")

  lemma TaskAt(m: map<string, Json>, n: map<string, Json>, q: FieldPath)
    ensures At(OneTask(m), q) == if q == METADATA then Some(Value(Obj(m))) else At(OneTask(n), q)
  {
  }

  lemma TaskLeaf(m: map<string, Json>, n: map<string, Json>, q: FieldPath)
    ensures Lookup(Leaves(OneTask(m)), q) ==
            if q == METADATA then Some(Value(Obj(m))) else Lookup(Leaves(OneTask(n)), q)
  {
    TaskAt(m, n, q);
    assert Lookup(Leaves(OneTask(m)), q) == At(OneTask(m), q) && Lookup(Leaves(OneTask(n)), q) == At(OneTask(n), q);
  }

  lemma TaskUnguarded(m: map<string, Json>, n: map<string, Json>, o: map<string, Json>)
    ensures Guard(OneTask(m), OneTask(n), OneTask(o)) == {}
  {
    assert Scopes(OneTask(n)) == Scopes(OneTask(o)) == {};
  }

  /** One leaf in dispute: the merged leaf is what is decided for it. */
  lemma OneLeaf(b: Flat, l: Flat, r: Flat, x: Leaf, y: Leaf, z: Leaf, q: FieldPath)
    requires FILES !in b && FILES !in l && FILES !in r
    requires Lookup(b, q) == if q == METADATA then Some(x) else Lookup(r, q)
    requires Lookup(l, q) == if q == METADATA then Some(y) else Lookup(r, q)
    requires q == METADATA ==> Lookup(r, q) == Some(z)
    ensures Verdict(b, l, r, q) == if q == METADATA then Decide(METADATA, x, y, z) else Keep
    ensures MergedLeaf(b, l, r, q) == if q == METADATA && Decide(METADATA, x, y, z).Take? then Some(y) else Lookup(r, q)
  {
  }

  /** The merge of three documents that differ in the metadata of one task: current's
      metadata, or incoming's where that is decided, and no conflict unless one is. */
  lemma TaskMerge(m: map<string, Json>, n: map<string, Json>, o: map<string, Json>)
    requires forall k :: k in LOCAL_BINDINGS ==> k !in m && k !in n && k !in o
    ensures var decision := Decide(METADATA, Value(Obj(m)), Value(Obj(n)), Value(Obj(o)));
            !decision.Clash? ==>
              MergeOf(Structured, OneTask(m), OneTask(n), OneTask(o)) ==
                  Accepted(OneTask(if decision.Take? then n else o), {})
  {
    var (x, y, z) := (Value(Obj(m)), Value(Obj(n)), Value(Obj(o)));
    var decision := Decide(METADATA, x, y, z);
    var e := OneTask(if decision.Take? then n else o);
    var (b, l, r) := (Leaves(OneTask(m)), Leaves(OneTask(n)), Leaves(OneTask(o)));
    if !decision.Clash? {
      forall q ensures MergedLeaf(b, l, r, q) == Lookup(Leaves(e), q) && !Verdict(b, l, r, q).Clash? {
        TaskLeaf(m, o, q); TaskLeaf(n, o, q); TaskLeaf(o, o, q);
        TaskLeaf(m, o, FILES); TaskLeaf(n, o, FILES);
        assert Lookup(r, FILES) == At(OneTask(o), FILES);
        OneLeaf(b, l, r, x, y, z, q);
        TaskLeaf(if decision.Take? then n else o, o, q);
      }
      TaskUnguarded(m, n, o);
      OneTaskValid(e, if decision.Take? then n else o);
      MergeYields(Structured, OneTask(m), OneTask(n), OneTask(o), e);
    }
  }

  lemma StandInDecision(j: Json)
    requires j == Bool(true) || (j.Num? && j.value == 1.0)
    ensures var (x, y, z) := (Value(Obj(map["a" := Num(1.0, "1")])), Value(Obj(map["a" := Num(2.0, "2")])),
                              Value(Obj(map["$missing" := j])));
            !Alike(z, x) && !Alike(z, y) && Decide(METADATA, x, y, z) == Take
  {
    CanonSingle("a", Num(1.0, "1")); CanonSingle("a", Num(2.0, "2"));
    CanonSingle("$missing", j); CanonSingle("$missing", Bool(true));
    var (m, n, o: map<string, Json>) := (map["a" := Num(1.0, "")], map["a" := Num(2.0, "")],
                                         map["$missing" := Num(1.0, "")]);
    assert m["a"] == Num(1.0, "") && n["a"] == Num(2.0, "") && "a" !in o;
  }

  lemma NoBindings()
    ensures "a" !in LOCAL_BINDINGS && "x" !in LOCAL_BINDINGS && "$missing" !in LOCAL_BINDINGS
  {
  }

  lemma TaskOverwritten(m: map<string, Json>, n: map<string, Json>, o: map<string, Json>)
    requires forall k :: k in LOCAL_BINDINGS ==> k !in m && k !in n && k !in o
    requires Decide(METADATA, Value(Obj(m)), Value(Obj(n)), Value(Obj(o))) == Take
    ensures Structured(OneTask(m)) && Structured(OneTask(n)) && Structured(OneTask(o))
    ensures MergeOf(Structured, OneTask(m), OneTask(n), OneTask(o)) == Accepted(OneTask(n), {})
  {
    OneTaskValid(OneTask(m), m); OneTaskValid(OneTask(n), n); OneTaskValid(OneTask(o), o);
    TaskMerge(m, n, o);
  }

  /** With a stand-in, however spelled, it happens: node metadata `{"$missing": j}` is a
      valid document, was set on this side, and is overwritten with no conflict. */
  lemma StandInOverwritten(j: Json)
    requires j == Bool(true) || (j.Num? && j.value == 1.0)
    ensures var (m, n, o) := (map["a" := Num(1.0, "1")], map["a" := Num(2.0, "2")], map["$missing" := j]);
            && Structured(OneTask(m)) && Structured(OneTask(n)) && Structured(OneTask(o))
            && !Alike(Value(Obj(o)), Value(Obj(m))) && !Alike(Value(Obj(o)), Value(Obj(n)))
            && MergeOf(Structured, OneTask(m), OneTask(n), OneTask(o)) == Accepted(OneTask(n), {})
  {
    StandInDecision(j);
    NoBindings();
    TaskOverwritten(map["a" := Num(1.0, "1")], map["a" := Num(2.0, "2")], map["$missing" := j]);
  }

  /** A change of `1` to `true` is lost. */
  lemma SpellingLost()
    ensures var (m, n) := (map["x" := Num(1.0, "1")], map["x" := Bool(true)]);
            && Structured(OneTask(m)) && Structured(OneTask(n)) && OneTask(m) != OneTask(n)
            && MergeOf(Structured, OneTask(m), OneTask(n), OneTask(m)) == Accepted(OneTask(m), {})
  {
    var (m, n) := (map["x" := Num(1.0, "1")], map["x" := Bool(true)]);
    CanonSingle("x", m["x"]); CanonSingle("x", n["x"]);
    OneTaskValid(OneTask(m), m); OneTaskValid(OneTask(n), n);
    assert m["x"] != n["x"];
    TaskAt(m, m, METADATA); TaskAt(n, m, METADATA);
    TaskMerge(m, n, m);
  }

  /** A merge that yields the leaves of a valid document yields that document. */
  lemma MergeYields(accepts: Validator, b: Document, l: Document, r: Document, e: Document)
    requires accepts(e) && Structured(e) && Guard(b, l, r) == {}
    requires forall q :: MergedLeaf(Leaves(b), Leaves(l), Leaves(r), q) == Lookup(Leaves(e), q)
    requires forall q :: !Verdict(Leaves(b), Leaves(l), Leaves(r), q).Clash?
    ensures MergeOf(accepts, b, l, r) == Accepted(e, {})
  {
    MergedIs(Leaves(b), Leaves(l), Leaves(r), Leaves(e));
    ValidRoundTrip(e);
  }

  lemma MergedIs(b: Flat, l: Flat, r: Flat, e: Flat)
    requires forall q :: MergedLeaf(b, l, r, q) == Lookup(e, q)
    requires forall q :: !Verdict(b, l, r, q).Clash?
    ensures Merged(b, l, r) == e && Clashes(b, l, r) == {}
  {
    var m := Merged(b, l, r);
    forall q: FieldPath ensures Lookup(m, q) == Lookup(e, q) {
      assert Lookup(m, q) == MergedLeaf(b, l, r, q);
    }
    SameLeaves(m, e);
  }
}
