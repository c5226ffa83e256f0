/** What the merge guarantees over whole rounds and runs: lifecycle generations, and
    when the two sides of a round end up equal. */
module MergeResults {
  import opened Common
  import opened Documents
  import opened LifecycleGuard
  import opened Merge

  // --------------------------------------------------------- lifecycle runs

  lemma SameStates(d: Document, e: Document)
    requires At(d, LifecyclePath) == At(e, LifecyclePath)
    ensures forall x :: StateAt(d, x) == StateAt(e, x)
  {
    assert d.lifecycle.Some? ==> Life(d.lifecycle.value) == Life(e.lifecycle.value);
  }

  lemma LifecycleLeaf(accepts: Validator, base: Document, incoming: Document, current: Document, out: Outcome)
    requires LeafMerged(accepts, base, incoming, current, out)
    ensures At(out.document, LifecyclePath) in {At(incoming, LifecyclePath), At(current, LifecyclePath)}
  {
    MergedAt(accepts, base, incoming, current, out, LifecyclePath);
    assert Lookup(Leaves(incoming), LifecyclePath) == At(incoming, LifecyclePath);
    assert Lookup(Leaves(current), LifecyclePath) == At(current, LifecyclePath);
  }

  /** A merge takes the states of one side as a whole. */
  lemma StatesOfOneSide(accepts: Validator, base: Document, incoming: Document, current: Document)
    requires MergeOf(accepts, base, incoming, current).Accepted?
    ensures var d := MergeOf(accepts, base, incoming, current).document;
            || (forall x :: StateAt(d, x) == StateAt(current, x))
            || (Guard(base, incoming, current) == {} && forall x :: StateAt(d, x) == StateAt(incoming, x))
  {
    var out := MergeOf(accepts, base, incoming, current);
    if Guard(base, incoming, current) == {} {
      LifecycleLeaf(accepts, base, incoming, current, out);
      if At(out.document, LifecyclePath) == At(current, LifecyclePath) {
        SameStates(out.document, current);
      } else {
        SameStates(out.document, incoming);
      }
    }
  }

  /** A merge leaves the state of a scope, or makes one move while the content is still
      what the writer saw. */
  lemma MergeMoves(accepts: Validator, base: Document, incoming: Document, current: Document, x: Scope)
    requires MergeOf(accepts, base, incoming, current).Accepted?
    ensures var now := StateAt(MergeOf(accepts, base, incoming, current).document, x);
            || now == StateAt(current, x)
            || (now == StateAt(incoming, x) && Moves(StateAt(current, x), now) && SameContent(base, current, x))
  {
    StatesOfOneSide(accepts, base, incoming, current);
    if Guard(base, incoming, current) == {} {
      GuardPasses(base, incoming, current);
      assert Passes(base, incoming, current, x);
    }
  }

  /** Somebody's attempt to merge a document made from a base. */
  datatype Writer = Writer(base: Document, incoming: Document)

  function After1(accepts: Validator, d: Document, w: Writer): Document {
    var out := MergeOf(accepts, w.base, w.incoming, d);
    if out.Accepted? then out.document else d
  }

  /** The states one scope goes through in a run. */
  type Life = seq<Option<Entry>>

  predicate Steps(life: Life) {
    forall i :: 0 <= i < |life| - 1 ==> life[i + 1] == life[i] || Moves(life[i], life[i + 1])
  }

  /** The same state, or a later stage with a lexicographically later entry; not out of a
      purge, nor into one. */
  predicate Onward(e: Option<Entry>, f: Option<Entry>) {
    || e == f
    || (Stage(e) < Stage(f) && f.Some? && !f.value.state.Purged?
        && (e.Some? ==> After(e.value, f.value) && !e.value.state.Purged?))
  }

  lemma {:induction false} StepsOnward(life: Life, i: nat, j: nat)
    requires Steps(life) && i <= j < |life|
    ensures Onward(life[i], life[j]) && Stage(life[j]) <= Stage(life[i]) + j - i
    decreases j
  {
    if i < j {
      StepsOnward(life, i, j - 1);
      if life[j] != life[j - 1] { MoveAdvances(life[j - 1], life[j]); }
    }
  }

  lemma {:induction false} StageReached(life: Life, j: nat, s: int)
    requires Steps(life) && j < |life| && Stage(life[0]) <= s <= Stage(life[j])
    ensures exists k :: 0 <= k <= j && Stage(life[k]) == s
    decreases j
  {
    if s < Stage(life[j]) {
      assert life[j] == life[j - 1] || Moves(life[j - 1], life[j]);
      if life[j] != life[j - 1] { MoveAdvances(life[j - 1], life[j]); }
      StageReached(life, j - 1, s);
    }
  }

  /** A run: each document is what the next writer's merge leaves of the one before. */
  predicate MergeRun(accepts: Validator, docs: seq<Document>, writers: seq<Writer>) {
    |docs| == |writers| + 1 && forall i :: 0 <= i < |writers| ==> docs[i + 1] == After1(accepts, docs[i], writers[i])
  }

  function LifeOf(docs: seq<Document>, x: Scope): Life {
    seq(|docs|, i requires 0 <= i < |docs| => StateAt(docs[i], x))
  }

  lemma RunSteps(accepts: Validator, docs: seq<Document>, writers: seq<Writer>, x: Scope)
    requires MergeRun(accepts, docs, writers)
    ensures Steps(LifeOf(docs, x))
  {
    forall i | 0 <= i < |writers|
      ensures StateAt(docs[i + 1], x) == StateAt(docs[i], x) || Moves(StateAt(docs[i], x), StateAt(docs[i + 1], x))
    {
      if MergeOf(accepts, writers[i].base, writers[i].incoming, docs[i]).Accepted? {
        MergeMoves(accepts, writers[i].base, writers[i].incoming, docs[i], x);
      }
    }
  }

  predicate Visits(docs: seq<Document>, x: Scope, s: int) {
    exists k :: 0 <= k < |docs| && Stage(StateAt(docs[k], x)) == s
  }

  /** Along any run of merges the life of an object only goes forward, a purged entry is
      final and none is ever adopted; and every stage on the way has its moment: no
      generation is skipped, and, a stage being left for good, none is used twice. */
  lemma LifeGoesForward(accepts: Validator, docs: seq<Document>, writers: seq<Writer>, x: Scope)
    requires MergeRun(accepts, docs, writers)
    ensures forall i, j :: 0 <= i <= j < |docs| ==> Onward(StateAt(docs[i], x), StateAt(docs[j], x))
    ensures forall i, j :: 0 <= i <= j < |docs| && Stage(StateAt(docs[i], x)) == Stage(StateAt(docs[j], x)) ==>
              StateAt(docs[i], x) == StateAt(docs[j], x)
    ensures forall s :: Stage(StateAt(docs[0], x)) <= s <= Stage(StateAt(docs[|docs| - 1], x)) ==> Visits(docs, x, s)
  {
    var life := LifeOf(docs, x);
    RunSteps(accepts, docs, writers, x);
    forall i, j | 0 <= i <= j < |docs| ensures Onward(StateAt(docs[i], x), StateAt(docs[j], x)) {
      StepsOnward(life, i, j);
    }
    forall s: int | Stage(StateAt(docs[0], x)) <= s <= Stage(StateAt(docs[|docs| - 1], x))
      ensures Visits(docs, x, s)
    {
      StageReached(life, |docs| - 1, s);
      var k :| 0 <= k <= |docs| - 1 && Stage(life[k]) == s;
      assert Stage(StateAt(docs[k], x)) == s;
    }
  }

  // ------------------------------------------------------------- convergence

  /** What only the server changed, the server still has; and no whiteboard entry the
      replica already had is among it. */
  ghost predicate PullsCleanly(base: Document, mine: Document, theirs: Document) {
    forall p :: LeafPulls(Leaves(base), Leaves(mine), Leaves(theirs), p)
  }

  predicate LeafPulls(b: Flat, l: Flat, r: Flat, p: FieldPath) {
    p != FILES && Alike(Get(l, p), Get(b, p)) && !Alike(Get(l, p), Get(r, p)) ==>
      !StandsIn(Get(r, p)) && !(p.Board? && !StandsIn(Get(b, p)))
  }

  /** No leaf is spelled differently at the two sides while Python finds it equal. */
  ghost predicate SpelledAlike(mine: Document, theirs: Document) {
    forall p :: LeafSpelled(Leaves(mine), Leaves(theirs), p)
  }

  predicate LeafSpelled(l: Flat, r: Flat, p: FieldPath) {
    p != FILES && Alike(Get(l, p), Get(r, p)) ==> Get(l, p) == Get(r, p)
  }

  /** The pull of `m` into `l` meets no conflict. */
  ghost predicate Quiet(l: Flat, m: Flat) { forall p :: !Verdict(l, m, l, p).Clash? }

  lemma NoClash(b: Flat, l: Flat, r: Flat, p: FieldPath)
    ensures Verdict(b, l, r, p).Clash? ==> Clashes(b, l, r) != {}
  {
    if Verdict(b, l, r, p).Clash? {
      assert p in b.Keys + l.Keys + r.Keys;
      assert ClashAt(b, l, r, p) in Clashes(b, l, r);
    }
  }

  lemma QuietMeans(l: Flat, m: Flat)
    ensures Quiet(l, m) <==> Clashes(l, m, l) == {}
  {
    forall p ensures Verdict(l, m, l, p).Clash? ==> Clashes(l, m, l) != {} { NoClash(l, m, l, p); }
  }

  /** The server's merge without conflict, seen leaf by leaf: the replica's value where it
      changed something the server does not already have, and the server's elsewhere. */
  lemma PushedLeaf(b: Flat, l: Flat, r: Flat, p: FieldPath)
    requires Clashes(b, l, r) == {} && p != FILES
    ensures Get(Merged(b, l, r), p) ==
              if Alike(Get(l, p), Get(b, p)) || Alike(Get(l, p), Get(r, p)) then Get(r, p) else Get(l, p)
  {
    assert Lookup(Merged(b, l, r), p) == MergedLeaf(b, l, r, p);
    NoClash(b, l, r, p);
  }

  predicate Plain(f: Flat) { forall p :: p in f ==> !StandsIn(f[p]) }

  lemma MergedPlain(b: Flat, l: Flat, r: Flat)
    requires Plain(l) && Plain(r)
    ensures Plain(Merged(b, l, r))
  {
    forall p | p in Merged(b, l, r) ensures !StandsIn(Merged(b, l, r)[p]) {
      assert Lookup(Merged(b, l, r), p) == MergedLeaf(b, l, r, p);
    }
  }

  lemma PlainSame(f: Flat, g: Flat, p: FieldPath)
    requires Plain(f) && Plain(g)
    ensures Get(f, p) == Get(g, p) <==> Lookup(f, p) == Lookup(g, p)
    ensures Alike(Get(f, p), Get(g, p)) ==> (p in f <==> p in g)
  {
  }

  /** Bringing the server's document `m` home to an unedited replica `l`: a leaf clashes
      unless the server did not change it, or has it and may; and then it ends up alike,
      and the very same unless it was alike before. */
  lemma PulledLeaf(l: Flat, m: Flat, p: FieldPath)
    requires Plain(l) && Plain(m) && p != FILES
    ensures !Verdict(l, m, l, p).Clash? <==>
              (!Alike(Get(m, p), Get(l, p)) ==> !StandsIn(Get(m, p)) && !(p.Board? && !StandsIn(Get(l, p))))
    ensures !Verdict(l, m, l, p).Clash? ==>
              MergedLeaf(l, m, l, p) == if Alike(Get(m, p), Get(l, p)) then Lookup(l, p) else Lookup(m, p)
  {
    PlainSame(l, m, p);
  }

  lemma PulledFiles(b: Flat, l: Flat, r: Flat)
    requires FILES in l ==> l[FILES].FileSet?
    ensures MergedLeaf(l, Merged(b, l, r), l, FILES) == Lookup(Merged(b, l, r), FILES)
  {
    assert Lookup(Merged(b, l, r), FILES) == MergedLeaf(b, l, r, FILES);
    var (f, g) := (FilesIn(Get(l, FILES)), FilesIn(Get(r, FILES)));
    assert f + g + f == f + g;
  }

  lemma LeafConvergence(b: Flat, l: Flat, r: Flat, p: FieldPath)
    requires Plain(l) && Plain(r) && Clashes(b, l, r) == {}
    requires FILES in l ==> l[FILES].FileSet?
    ensures var m := Merged(b, l, r);
            && (!Verdict(l, m, l, p).Clash? <==> LeafPulls(b, l, r, p))
            && (!Verdict(l, m, l, p).Clash? ==>
                  && AlikeLeaf(MergedLeaf(l, m, l, p), Lookup(m, p))
                  && (MergedLeaf(l, m, l, p) == Lookup(m, p) <==> LeafSpelled(l, r, p)))
  {
    MergedPlain(b, l, r);
    if p == FILES {
      PulledFiles(b, l, r);
    } else {
      PushedLeaf(b, l, r, p);
      PulledLeaf(l, Merged(b, l, r), p);
      PlainSame(l, Merged(b, l, r), p);
    }
  }

  /** Leaf-level convergence: the pull has no clash exactly if the condition holds; then
      every leaf ends up alike at both sides, and all the same exactly if none was alike
      and spelled differently before. */
  lemma FlatConvergence(b: Flat, l: Flat, r: Flat)
    requires Plain(l) && Plain(r) && Clashes(b, l, r) == {}
    requires FILES in l ==> l[FILES].FileSet?
    ensures var m := Merged(b, l, r);
            && (Clashes(l, m, l) == {} <==> forall p :: LeafPulls(b, l, r, p))
            && (Clashes(l, m, l) == {} ==>
                  && (forall p :: AlikeLeaf(Lookup(Merged(l, m, l), p), Lookup(m, p)))
                  && (Merged(l, m, l) == m <==> forall p :: LeafSpelled(l, r, p)))
  {
    var m := Merged(b, l, r);
    QuietMeans(l, m);
    forall p
      ensures !Verdict(l, m, l, p).Clash? <==> LeafPulls(b, l, r, p)
      ensures !Verdict(l, m, l, p).Clash? ==> AlikeLeaf(Lookup(Merged(l, m, l), p), Lookup(m, p))
      ensures !Verdict(l, m, l, p).Clash? ==> (Lookup(Merged(l, m, l), p) == Lookup(m, p) <==> LeafSpelled(l, r, p))
    {
      LeafConvergence(b, l, r, p);
      assert Lookup(Merged(l, m, l), p) == MergedLeaf(l, m, l, p);
    }
    if Quiet(l, m) && forall p :: LeafSpelled(l, r, p) { SameLeaves(Merged(l, m, l), m); }
  }

  // ------------------------------------------------- the guard of the pull

  /** Without a clash the server's leaf is as the replica's wherever the server's was as the
      replica's or as the base's. */
  lemma KeptLeaf(b: Flat, l: Flat, r: Flat, p: FieldPath)
    requires Plain(l) && Plain(r) && Clashes(b, l, r) == {} && p != FILES
    requires AlikeLeaf(Lookup(l, p), Lookup(r, p)) || AlikeLeaf(Lookup(b, p), Lookup(r, p))
    ensures AlikeLeaf(MergedLeaf(b, l, r, p), Lookup(l, p))
  {
    NoClash(b, l, r, p);
    PlainSame(l, r, p);
  }

  /** What passed the guard of the server and is hidden was there as the replica has it, or
      as the replica's base has it. */
  lemma HiddenLeaf(base: Document, mine: Document, theirs: Document, x: Scope, p: FieldPath)
    requires Passes(base, mine, theirs, x) && Hidden(StateAt(mine, x)) && InScope(x, p)
    ensures AlikeLeaf(At(mine, p), At(theirs, p)) || AlikeLeaf(At(base, p), At(theirs, p))
  {
    if SameContent(mine, theirs, x) {
      ContentLeaf(mine, theirs, x, p);
    } else {
      ContentLeaf(base, theirs, x, p);
    }
  }

  /** The server ends with the replica's states. */
  predicate StatesPull(base: Document, mine: Document, theirs: Document) {
    || !Alike(Get(Leaves(mine), LifecyclePath), Get(Leaves(base), LifecyclePath))
    || forall x :: x in Scopes(mine) + Scopes(theirs) ==> StateAt(mine, x) == StateAt(theirs, x)
  }

  /** If the replica's thread is in the trash, the server has no file reference it lacks. */
  predicate FilesPull(base: Document, mine: Document, theirs: Document) {
    Hidden(StateAt(mine, Whole)) ==>
      (FILES in Leaves(base) || FILES in Leaves(theirs) ==>
         FILES in Leaves(mine) && FilesIn(Get(Leaves(theirs), FILES)) <= FilesIn(Get(Leaves(mine), FILES)))
  }

  lemma ScopesCover(d: Document, e: Document)
    ensures (forall x :: x in Scopes(d) + Scopes(e) ==> StateAt(d, x) == StateAt(e, x))
       <==> forall x :: StateAt(d, x) == StateAt(e, x)
  {
    if forall x :: x in Scopes(d) + Scopes(e) ==> StateAt(d, x) == StateAt(e, x) {
      forall x ensures StateAt(d, x) == StateAt(e, x) {
        assert x !in Scopes(d) ==> StateAt(d, x).None?;
        assert x !in Scopes(e) ==> StateAt(e, x).None?;
      }
    }
  }

  /** One round at the server: accepted without conflict. */
  ghost predicate Pushed(accepts: Validator, base: Document, mine: Document, theirs: Document, server: Document) {
    && Validates(accepts) && accepts(mine) && Unambiguous(mine) && Unambiguous(theirs)
    && MergeOf(accepts, base, mine, theirs) == Accepted(server, {})
  }

  lemma PushedFacts(accepts: Validator, base: Document, mine: Document, theirs: Document, server: Document)
    requires Pushed(accepts, base, mine, theirs, server)
    ensures LeafMerged(accepts, base, mine, theirs, Accepted(server, {}))
    ensures Clashes(Leaves(base), Leaves(mine), Leaves(theirs)) == {} && accepts(server)
    ensures Tidy(mine) && Tidy(server)
    ensures Plain(Leaves(mine)) && Plain(Leaves(theirs))
  {
    ServerLeaves(accepts, base, mine, theirs, server);
    ServerTidy(accepts, mine);
    ServerTidy(accepts, server);
  }

  lemma NoWayBack(a: Option<Entry>, t: Option<Entry>)
    requires Moves(a, t)
    ensures !Moves(t, a) && a != t
  {
  }

  lemma LifeLeaf(b: Flat, l: Flat, r: Flat)
    requires Clashes(b, l, r) == {}
    ensures MergedLeaf(b, l, r, LifecyclePath) ==
              if Alike(Get(l, LifecyclePath), Get(b, LifecyclePath))
                  || Alike(Get(l, LifecyclePath), Get(r, LifecyclePath))
              then Lookup(r, LifecyclePath) else Lookup(l, LifecyclePath)
  {
    NoClash(b, l, r, LifecyclePath);
  }

  /** The whole lifecycle comes from one side. */
  lemma ServerLife(accepts: Validator, base: Document, mine: Document, theirs: Document, server: Document)
    requires Pushed(accepts, base, mine, theirs, server)
    ensures var (b, l) := (Get(Leaves(base), LifecyclePath), Get(Leaves(mine), LifecyclePath));
            At(server, LifecyclePath) == At(if Alike(l, b) then theirs else mine, LifecyclePath)
  {
    PushedFacts(accepts, base, mine, theirs, server);
    MergedAt(accepts, base, mine, theirs, Accepted(server, {}), LifecyclePath);
    LifeLeaf(Leaves(base), Leaves(mine), Leaves(theirs));
    assert Lookup(Leaves(mine), LifecyclePath) == At(mine, LifecyclePath);
    assert Lookup(Leaves(theirs), LifecyclePath) == At(theirs, LifecyclePath);
    if Alike(Get(Leaves(mine), LifecyclePath), Get(Leaves(theirs), LifecyclePath)) { LifeAlike(mine, theirs); }
  }

  /** The states the server ends with are the replica's exactly under `StatesPull`. */
  lemma ServerStates(accepts: Validator, base: Document, mine: Document, theirs: Document, server: Document)
    requires Pushed(accepts, base, mine, theirs, server)
    ensures StatesPull(base, mine, theirs) <==> forall x :: StateAt(server, x) == StateAt(mine, x)
    ensures !StatesPull(base, mine, theirs) ==> forall x :: StateAt(server, x) == StateAt(theirs, x)
  {
    ServerLife(accepts, base, mine, theirs, server);
    ScopesCover(mine, theirs);
    SameStates(server, if Alike(Get(Leaves(mine), LifecyclePath), Get(Leaves(base), LifecyclePath)) then theirs
               else mine);
  }

  lemma LifeAlike(d: Document, e: Document)
    requires Alike(Get(Leaves(d), LifecyclePath), Get(Leaves(e), LifecyclePath))
    ensures At(d, LifecyclePath) == At(e, LifecyclePath)
  {
    assert Lookup(Leaves(d), LifecyclePath) == At(d, LifecyclePath);
    assert Lookup(Leaves(e), LifecyclePath) == At(e, LifecyclePath);
  }

  lemma FilesLeaf(b: Flat, l: Flat, r: Flat)
    requires FILES in l ==> l[FILES].FileSet?
    ensures AlikeLeaf(MergedLeaf(b, l, r, FILES), Lookup(l, FILES)) <==>
              (FILES in b || FILES in r ==> FILES in l && FilesIn(Get(r, FILES)) <= FilesIn(Get(l, FILES)))
  {
    var (f, g) := (FilesIn(Get(l, FILES)), FilesIn(Get(r, FILES)));
    assert f + g == f <==> g <= f;
  }

  lemma ServerFiles(accepts: Validator, base: Document, mine: Document, theirs: Document, server: Document)
    requires Pushed(accepts, base, mine, theirs, server)
    ensures (Hidden(StateAt(mine, Whole)) ==> AlikeLeaf(At(server, FILES), At(mine, FILES)))
       <==> FilesPull(base, mine, theirs)
  {
    PushedFacts(accepts, base, mine, theirs, server);
    MergedAt(accepts, base, mine, theirs, Accepted(server, {}), FILES);
    ValidFiles(accepts, mine);
    FilesLeaf(Leaves(base), Leaves(mine), Leaves(theirs));
    assert Lookup(Leaves(mine), FILES) == At(mine, FILES);
  }

  /** A hidden scope of the replica: the server's content of it is the replica's, file
      references of a hidden thread aside. */
  lemma HiddenContent(accepts: Validator, base: Document, mine: Document, theirs: Document, server: Document, x: Scope)
    requires Pushed(accepts, base, mine, theirs, server) && Hidden(StateAt(mine, x))
    ensures SameContent(server, mine, x) <==> (x.Whole? ==> AlikeLeaf(At(server, FILES), At(mine, FILES)))
  {
    PushedFacts(accepts, base, mine, theirs, server);
    GuardPasses(base, mine, theirs);
    assert Passes(base, mine, theirs, x);
    forall p | InScope(x, p) && p != FILES ensures AlikeLeaf(At(server, p), At(mine, p)) {
      HiddenLeaf(base, mine, theirs, x, p);
      assert Lookup(Leaves(base), p) == At(base, p) && Lookup(Leaves(mine), p) == At(mine, p)
             && Lookup(Leaves(theirs), p) == At(theirs, p);
      KeptLeaf(Leaves(base), Leaves(mine), Leaves(theirs), p);
      MergedAt(accepts, base, mine, theirs, Accepted(server, {}), p);
    }
    ContentLeaves(server, mine, x);
    assert x.Whole? ==> InScope(x, FILES);
  }

  /** The guard of the pull finds nothing exactly if the server ends with the replica's
      states, and with no other file references if the thread is in the trash. */
  lemma PullGuard(accepts: Validator, base: Document, mine: Document, theirs: Document, server: Document)
    requires Pushed(accepts, base, mine, theirs, server)
    ensures Guard(mine, server, mine) == {} <==> StatesPull(base, mine, theirs) && FilesPull(base, mine, theirs)
  {
    GuardPasses(mine, server, mine);
    ServerStates(accepts, base, mine, theirs, server);
    ServerFiles(accepts, base, mine, theirs, server);
    if StatesPull(base, mine, theirs) {
      forall x ensures Passes(mine, server, mine, x) <==> (Hidden(StateAt(mine, x)) ==> SameContent(server, mine, x)) {
        assert StateAt(server, x) == StateAt(mine, x);
      }
      forall x | Hidden(StateAt(mine, x))
        ensures SameContent(server, mine, x) <==> (x.Whole? ==> AlikeLeaf(At(server, FILES), At(mine, FILES)))
      {
        HiddenContent(accepts, base, mine, theirs, server, x);
      }
      assert Guard(mine, server, mine) == {} ==> Passes(mine, server, mine, Whole);
    } else {
      PushedFacts(accepts, base, mine, theirs, server);
      var x :| x in Scopes(mine) + Scopes(theirs) && StateAt(mine, x) != StateAt(theirs, x);
      GuardPasses(base, mine, theirs);
      assert Passes(base, mine, theirs, x);
      NoWayBack(StateAt(theirs, x), StateAt(mine, x));
      assert !Passes(mine, server, mine, x);
    }
  }

  // ---------------------------------------------------------------- one round

  /** What the pull of `server` makes of an unedited replica, and its conflicts. */
  function Pulled(mine: Document, server: Document): Document {
    LeavesTyped(mine); LeavesTyped(server); MergedTyped(Leaves(mine), Leaves(server), Leaves(mine));
    Assembled(Merged(Leaves(mine), Leaves(server), Leaves(mine)))
  }

  function PullConflicts(mine: Document, server: Document): set<Conflict> {
    Clashes(Leaves(mine), Leaves(server), Leaves(mine))
  }

  /** One round: the replica sends `mine`, made from `base`; the server, at `theirs`,
      merges it without conflict; the replica, not edited meanwhile, merges the answer.
      There is no conflict exactly if the pull is clean of leaves, states and, when the
      thread is in the trash, of file references; and then the replica holds, if that is
      valid, a document equal to the server's in Python. */
  lemma Convergence(accepts: Validator, base: Document, mine: Document, theirs: Document, server: Document)
    requires Validates(accepts) && accepts(mine) && Unambiguous(mine) && Unambiguous(theirs)
    requires MergeOf(accepts, base, mine, theirs) == Accepted(server, {})
    ensures MergeOf(accepts, mine, server, mine) ==
              if !StatesPull(base, mine, theirs) || !FilesPull(base, mine, theirs)
              then Accepted(mine, Guard(mine, server, mine))
              else if accepts(Pulled(mine, server)) then Accepted(Pulled(mine, server), PullConflicts(mine, server))
              else Rejected
    ensures Guard(mine, server, mine) == {} <==> StatesPull(base, mine, theirs) && FilesPull(base, mine, theirs)
    ensures PullConflicts(mine, server) == {} <==> PullsCleanly(base, mine, theirs)
    ensures PullsCleanly(base, mine, theirs) ==> AlikeDocuments(Pulled(mine, server), server)
  {
    PullGuard(accepts, base, mine, theirs, server);
    ServerFacts(accepts, base, mine, theirs, server);
    ValidFiles(accepts, mine);
    FlatConvergence(Leaves(base), Leaves(mine), Leaves(theirs));
    if PullsCleanly(base, mine, theirs) {
      ServerTidy(accepts, server);
      PulledAlike(mine, server);
    }
  }

  /** The replica ends with the server's very document, and no conflict, exactly if the
      pull is clean and no leaf was alike and spelled differently. */
  lemma ExactConvergence(accepts: Validator, base: Document, mine: Document, theirs: Document, server: Document)
    requires Validates(accepts) && accepts(mine) && Unambiguous(mine) && Unambiguous(theirs)
    requires MergeOf(accepts, base, mine, theirs) == Accepted(server, {})
    ensures MergeOf(accepts, mine, server, mine) == Accepted(server, {}) <==>
              && StatesPull(base, mine, theirs) && FilesPull(base, mine, theirs)
              && PullsCleanly(base, mine, theirs) && SpelledAlike(mine, theirs)
  {
    Convergence(accepts, base, mine, theirs, server);
    ServerFacts(accepts, base, mine, theirs, server);
    ValidFiles(accepts, mine);
    FlatConvergence(Leaves(base), Leaves(mine), Leaves(theirs));
    ServerTidy(accepts, server);
    PulledExactly(mine, server);
  }

  lemma PulledAlike(mine: Document, server: Document)
    requires Tidy(server)
    requires var (l, m) := (Leaves(mine), Leaves(server));
             forall p :: AlikeLeaf(Lookup(Merged(l, m, l), p), Lookup(m, p))
    ensures AlikeDocuments(Pulled(mine, server), server)
  {
    var (l, m) := (Leaves(mine), Leaves(server));
    LeavesTyped(mine); LeavesTyped(server); MergedTyped(l, m, l);
    AssembledTidy(Merged(l, m, l));
    forall p ensures AlikeLeaf(At(Pulled(mine, server), p), At(server, p)) {
      AssembledAt(Merged(l, m, l), p);
      assert AlikeLeaf(Lookup(Merged(l, m, l), p), Lookup(m, p));
      assert Lookup(m, p) == At(server, p);
    }
    AlikeLeavesAlike(Pulled(mine, server), server);
  }

  lemma PulledExactly(mine: Document, server: Document)
    requires Tidy(server)
    ensures var (l, m) := (Leaves(mine), Leaves(server)); Pulled(mine, server) == server <==> Merged(l, m, l) == m
  {
    LeavesTyped(mine); LeavesTyped(server); MergedTyped(Leaves(mine), Leaves(server), Leaves(mine));
    AssembledIs(Merged(Leaves(mine), Leaves(server), Leaves(mine)), server);
  }

  lemma AssembledIs(f: Flat, d: Document)
    requires Typed(f) && Tidy(d)
    ensures Assembled(f) == d <==> f == Leaves(d)
  {
    LeavesAssemble(f);
    AssembleLeaves(d);
  }

  lemma ServerTidy(accepts: Validator, server: Document)
    requires Validates(accepts) && accepts(server)
    ensures Tidy(server)
  {
    AcceptedIsStructured(accepts, server);
    ValidIsTidy(server);
  }

  lemma ServerFacts(accepts: Validator, base: Document, mine: Document, theirs: Document, server: Document)
    requires MergeOf(accepts, base, mine, theirs) == Accepted(server, {})
    ensures Leaves(server) == Merged(Leaves(base), Leaves(mine), Leaves(theirs))
    ensures Clashes(Leaves(base), Leaves(mine), Leaves(theirs)) == {} && accepts(server)
  {
    ServerLeaves(accepts, base, mine, theirs, server);
  }

  lemma ValidFiles(accepts: Validator, d: Document)
    requires Validates(accepts) && accepts(d)
    ensures FILES in Leaves(d) ==> Leaves(d)[FILES].FileSet?
  {
    AcceptedIsStructured(accepts, d);
    assert Lookup(Leaves(d), FILES) == At(d, FILES);
  }

  lemma ServerLeaves(accepts: Validator, base: Document, mine: Document, theirs: Document, server: Document)
    requires Guard(base, mine, theirs) == {} && MergeOf(accepts, base, mine, theirs) == Accepted(server, {})
    ensures Leaves(server) == Merged(Leaves(base), Leaves(mine), Leaves(theirs))
    ensures Clashes(Leaves(base), Leaves(mine), Leaves(theirs)) == {} && accepts(server)
  {
    LeavesTyped(mine); LeavesTyped(theirs);
    MergedTyped(Leaves(base), Leaves(mine), Leaves(theirs));
    LeavesAssemble(Merged(Leaves(base), Leaves(mine), Leaves(theirs)));
  }

  /** In particular it is clean when the server dropped no leaf of the base and rewrote no
      whiteboard entry of it. */
  lemma KeptBasePulls(base: Document, mine: Document, theirs: Document)
    requires Unambiguous(theirs)
    requires forall p :: p in Leaves(base) ==> p in Leaves(theirs)
    requires forall p :: p in Leaves(base) && p.Board? ==> Alike(Leaves(theirs)[p], Leaves(base)[p])
    ensures PullsCleanly(base, mine, theirs)
  {
  }

  /** Then nothing is lost: the common document has exactly the leaves of both. */
  lemma ConvergedDomain(accepts: Validator, base: Document, mine: Document, theirs: Document, server: Document)
    requires Unambiguous(mine) && Unambiguous(theirs)
    requires MergeOf(accepts, base, mine, theirs) == Accepted(server, {}) && PullsCleanly(base, mine, theirs)
    requires FILES in Leaves(base) ==> FILES in Leaves(mine)
    ensures Leaves(server).Keys == Leaves(mine).Keys + Leaves(theirs).Keys
  {
    ServerFacts(accepts, base, mine, theirs, server);
    FlatDomain(Leaves(base), Leaves(mine), Leaves(theirs));
  }

  lemma FlatDomain(b: Flat, l: Flat, r: Flat)
    requires Plain(l) && Plain(r) && Clashes(b, l, r) == {} && forall p :: LeafPulls(b, l, r, p)
    requires FILES in b ==> FILES in l
    ensures Merged(b, l, r).Keys == l.Keys + r.Keys
  {
    forall p: FieldPath ensures p in Merged(b, l, r) <==> p in l || p in r {
      assert LeafPulls(b, l, r, p);
      PushedPresent(b, l, r, p);
    }
  }

  lemma PushedPresent(b: Flat, l: Flat, r: Flat, p: FieldPath)
    requires Plain(l) && Plain(r) && Clashes(b, l, r) == {} && LeafPulls(b, l, r, p)
    requires FILES in b ==> FILES in l
    ensures p in Merged(b, l, r) <==> p in l || p in r
  {
    assert Lookup(Merged(b, l, r), p) == MergedLeaf(b, l, r, p);
    NoClash(b, l, r, p);
  }
}
