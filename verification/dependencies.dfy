/** The relation graph behind `connect`, with the trash it shares. `connect` searches
    the relations `list_relations` shows; that list hides every relation in the trash and
    every relation with an endpoint that is in the trash itself or belongs to a thread in
    the trash. A restore brings hidden relations back, and an import stores one, without
    a search: under which condition the shown dependencies stay free of cycles is stated
    for one step and for whole histories. */
module DependencyGraph {
  import opened Common

  const DEPENDS_ON := "depends_on"

  const RELATION_KINDS: set<string> := {
    "contains", "depends_on", "assigned_to", "produced", "supports",
    "references", "blocks", "follows", "related_to"
  }

  datatype Relation = Relation(source: Id, target: Id, kind: string)

  // ---------------------------------------------------------------- paths and cycles

  ghost predicate Edge(relations: set<Relation>, a: Id, b: Id) {
    Relation(a, b, DEPENDS_ON) in relations
  }

  ghost predicate IsPath(relations: set<Relation>, path: seq<Id>) {
    && path != []
    && forall i :: 0 <= i < |path| - 1 ==> Edge(relations, path[i], path[i + 1])
  }

  ghost predicate Reaches(relations: set<Relation>, a: Id, b: Id) {
    exists path :: IsPath(relations, path) && path[0] == a && path[|path| - 1] == b
  }

  ghost predicate IsCycle(relations: set<Relation>, path: seq<Id>) {
    IsPath(relations, path) && |path| >= 2 && path[0] == path[|path| - 1]
  }

  ghost predicate Acyclic(relations: set<Relation>) {
    forall path :: !IsCycle(relations, path)
  }

  /** A dependency whose target leads back to its source. */
  ghost predicate Closes(relations: set<Relation>, r: Relation) {
    r.kind == DEPENDS_ON && Reaches(relations, r.target, r.source)
  }

  lemma ReachesTransitive(relations: set<Relation>, a: Id, b: Id, c: Id)
    requires Reaches(relations, a, b) && Reaches(relations, b, c)
    ensures Reaches(relations, a, c)
  {
    var p :| IsPath(relations, p) && p[0] == a && p[|p| - 1] == b;
    var q :| IsPath(relations, q) && q[0] == b && q[|q| - 1] == c;
    var pq := p + q[1..];
    assert IsPath(relations, pq) && pq[0] == a && pq[|pq| - 1] == c;
  }

  lemma EdgeReaches(relations: set<Relation>, a: Id, b: Id)
    requires Edge(relations, a, b)
    ensures Reaches(relations, a, b)
  {
    assert IsPath(relations, [a, b]);
  }

  lemma SelfReaches(relations: set<Relation>, a: Id)
    ensures Reaches(relations, a, a)
  {
    assert IsPath(relations, [a]);
  }

  lemma PartReaches(relations: set<Relation>, path: seq<Id>, i: nat, j: nat)
    requires IsPath(relations, path) && i <= j < |path|
    ensures Reaches(relations, path[i], path[j])
  {
    var part := path[i..j + 1];
    forall k | 0 <= k < |part| - 1 ensures Edge(relations, part[k], part[k + 1]) {
      assert Edge(relations, path[i + k], path[i + k + 1]);
    }
    assert IsPath(relations, part);
  }

  lemma SubgraphAcyclic(relations: set<Relation>, fewer: set<Relation>)
    requires Acyclic(relations) && fewer <= relations
    ensures Acyclic(fewer)
  {
    forall loop ensures IsCycle(fewer, loop) ==> IsCycle(relations, loop) {
      assert forall a, b :: Edge(fewer, a, b) ==> Edge(relations, a, b);
    }
  }

  lemma ClosingEdge(relations: set<Relation>, r: Relation)
    requires r in relations && Closes(relations, r)
    ensures !Acyclic(relations)
  {
    var p :| IsPath(relations, p) && p[0] == r.target && p[|p| - 1] == r.source;
    var loop := [r.source] + p;
    forall i | 0 <= i < |loop| - 1 ensures Edge(relations, loop[i], loop[i + 1]) {
      if i > 0 { assert Edge(relations, p[i - 1], p[i]); }
    }
    assert IsCycle(relations, loop);
  }

  /** What shows several relations at once keeps an acyclic graph acyclic exactly when
      none of the dependencies it brings closes a path over what is then shown. */
  lemma AcyclicChange(before: set<Relation>, after: set<Relation>)
    requires Acyclic(before)
    ensures Acyclic(after) <==> forall r :: r in after - before ==> !Closes(after, r)
  {
    if r :| r in after - before && Closes(after, r) {
      ClosingEdge(after, r);
    } else {
      forall loop ensures !IsCycle(after, loop) {
        if IsCycle(after, loop) {
          assert !IsCycle(before, loop);
          var i :| 0 <= i < |loop| - 1 && !Edge(before, loop[i], loop[i + 1]);
          assert Edge(after, loop[i], loop[i + 1]);
          PartReaches(after, loop, i + 1, |loop| - 1);
          PartReaches(after, loop, 0, i);
          ReachesTransitive(after, loop[i + 1], loop[0], loop[i]);
          assert Closes(after, Relation(loop[i], loop[i + 1], DEPENDS_ON));
        }
      }
    }
  }

  /** A path to the source of the new edge can be cut before its first use of that edge. */
  lemma {:induction false} FirstUse(relations: set<Relation>, r: Relation, path: seq<Id>)
    requires IsPath(relations + {r}, path) && path[|path| - 1] == r.source
    ensures Reaches(relations, path[0], r.source)
  {
    if IsPath(relations, path) {
      return;
    }
    var i :| 0 <= i < |path| - 1 && !Edge(relations, path[i], path[i + 1]);
    assert Edge(relations + {r}, path[i], path[i + 1]);
    assert path[i] == r.source;
    var front := path[..i + 1];
    forall k | 0 <= k < |front| - 1 ensures Edge(relations + {r}, front[k], front[k + 1]) {
      assert Edge(relations + {r}, path[k], path[k + 1]);
    }
    FirstUse(relations, r, front);
  }

  /** For a single relation the search may run before it is stored. */
  lemma ClosesBefore(relations: set<Relation>, r: Relation)
    ensures Closes(relations + {r}, r) <==> Closes(relations, r)
  {
    var more := relations + {r};
    if Closes(relations, r) {
      var p :| IsPath(relations, p) && p[0] == r.target && p[|p| - 1] == r.source;
      forall i | 0 <= i < |p| - 1 ensures Edge(more, p[i], p[i + 1]) {
        assert Edge(relations, p[i], p[i + 1]);
      }
      assert IsPath(more, p);
    }
    if Closes(more, r) {
      var p :| IsPath(more, p) && p[0] == r.target && p[|p| - 1] == r.source;
      FirstUse(relations, r, p);
    }
  }

  lemma AcyclicExtension(relations: set<Relation>, r: Relation)
    requires Acyclic(relations)
    ensures Acyclic(relations + {r}) <==> !Closes(relations, r)
  {
    ClosesBefore(relations, r);
    if Closes(relations, r) {
      ClosingEdge(relations + {r}, r);
    } else {
      AcyclicChange(relations, relations + {r});
    }
  }

  /** A set closed under edges that contains `a` contains everything `a` reaches. */
  lemma {:induction false} ClosedContains(relations: set<Relation>, closed: set<Id>, path: seq<Id>)
    requires IsPath(relations, path) && path[0] in closed
    requires forall a, b :: a in closed && Edge(relations, a, b) ==> b in closed
    ensures path[|path| - 1] in closed
  {
    if |path| >= 2 {
      assert Edge(relations, path[0], path[1]);
      var rest := path[1..];
      forall i | 0 <= i < |rest| - 1 ensures Edge(relations, rest[i], rest[i + 1]) {
        assert Edge(relations, path[i + 1], path[i + 2]);
      }
      ClosedContains(relations, closed, rest);
    }
  }

  lemma OutOfReach(relations: set<Relation>, closed: set<Id>, a: Id, b: Id)
    requires a in closed && b !in closed
    requires forall x, y :: x in closed && Edge(relations, x, y) ==> y in closed
    ensures !Reaches(relations, a, b)
  {
    if Reaches(relations, a, b) {
      var path :| IsPath(relations, path) && path[0] == a && path[|path| - 1] == b;
      ClosedContains(relations, closed, path);
      assert false;
    }
  }

  // ---------------------------------------------------------------- graph and trash

  datatype Object = ThreadObject(id: Id) | NodeObject(id: Id) | RelationObject(id: Id)

  /** Payloads stay in place while their object is in the trash. A node maps to the
      thread that owns it. */
  datatype Graph = Graph(threads: set<Id>, nodes: map<Id, Option<Id>>, relations: map<Id, Relation>,
                         trash: set<Object>)

  const EMPTY := Graph({}, map[], map[], {})

  predicate InTrash(trash: set<Object>, owner: Option<Id>) {
    owner.Some? && ThreadObject(owner.value) in trash
  }

  predicate HiddenNode(nodes: map<Id, Option<Id>>, trash: set<Object>, id: Id) {
    id in nodes && (NodeObject(id) in trash || InTrash(trash, nodes[id]))
  }

  predicate Shown(g: Graph, id: Id) {
    && id in g.relations && RelationObject(id) !in g.trash
    && !HiddenNode(g.nodes, g.trash, g.relations[id].source)
    && !HiddenNode(g.nodes, g.trash, g.relations[id].target)
  }

  /** What `list_relations` returns. */
  function Live(g: Graph): set<Relation> {
    set id | id in g.relations && Shown(g, id) :: g.relations[id]
  }

  predicate Exists(g: Graph, what: Object) {
    match what
    case ThreadObject(id) => id in g.threads
    case NodeObject(id) => id in g.nodes
    case RelationObject(id) => id in g.relations
  }

  /** Writing a relation refuses an endpoint in the trash, but not one that is missing. */
  predicate LiveReference(g: Graph, id: Id) {
    NodeObject(id) !in g.trash && (id in g.nodes ==> !InTrash(g.trash, g.nodes[id]))
  }

  predicate Storable(g: Graph, id: Id, r: Relation) {
    RelationObject(id) !in g.trash && LiveReference(g, r.source) && LiveReference(g, r.target)
  }

  datatype Answer = Done | UnknownKind | MissingOrigin | NodeNotFound | ObjectInTrash | CycleDetected
    | ObjectNotFound | NotCurrent | NotInTrash | NotFresh

  /** The requests. `drawn` is an identifier the caller draws; `current` says whether the
      revision, generation and digest a trash request names are still the recorded ones. */
  datatype Request =
    | AddThread(drawn: Id)
    | AddNode(drawn: Id, owner: Option<Id>)
    | Connect(drawn: Id, source: Id, target: Id, kind: string, origin: string)
    | Trash(what: Object, current: bool)
    | Restore(what: Object, current: bool)
    | Import(id: Id, relation: Relation)

  function WithRelation(g: Graph, id: Id, r: Relation): Graph {
    Graph(g.threads, g.nodes, g.relations[id := r], g.trash)
  }

  function WithTrash(g: Graph, trash: set<Object>): Graph {
    Graph(g.threads, g.nodes, g.relations, trash)
  }

  function NodeAnswer(g: Graph, id: Id): Answer {
    if NodeObject(id) in g.trash then ObjectInTrash
    else if id !in g.nodes then NodeNotFound
    else if InTrash(g.trash, g.nodes[id]) then ObjectInTrash
    else Done
  }

  ghost function ConnectAnswer(g: Graph, drawn: Id, r: Relation, origin: string): Answer {
    if r.kind !in RELATION_KINDS then UnknownKind
    else if origin == "" then MissingOrigin
    else if !NodeAnswer(g, r.source).Done? then NodeAnswer(g, r.source)
    else if !NodeAnswer(g, r.target).Done? then NodeAnswer(g, r.target)
    else if Closes(Live(g), r) then CycleDetected
    else if RelationObject(drawn) in g.trash then ObjectInTrash
    else Done
  }

  function TrashAnswer(g: Graph, what: Object, current: bool): Answer {
    if !Exists(g, what) then ObjectNotFound
    else if what in g.trash then ObjectInTrash
    else if !current then NotCurrent
    else Done
  }

  function RestoreAnswer(g: Graph, what: Object, current: bool): Answer {
    if !current then NotCurrent
    else if what !in g.trash then NotInTrash
    else if !Exists(g, what) then ObjectNotFound
    else Done
  }

  ghost function Respond(g: Graph, q: Request): (Answer, Graph) {
    match q
    case AddThread(id) =>
      if ThreadObject(id) in g.trash then (ObjectInTrash, g)
      else (Done, Graph(g.threads + {id}, g.nodes, g.relations, g.trash))
    case AddNode(id, owner) =>
      if id in g.nodes then (NotFresh, g)
      else if NodeObject(id) in g.trash || InTrash(g.trash, owner) then (ObjectInTrash, g)
      else (Done, Graph(g.threads, g.nodes[id := owner], g.relations, g.trash))
    case Connect(id, a, b, kind, origin) =>
      var r := Relation(a, b, kind);
      var answer := ConnectAnswer(g, id, r, origin);
      (answer, if answer.Done? then WithRelation(g, id, r) else g)
    case Trash(what, current) =>
      var answer := TrashAnswer(g, what, current);
      (answer, if answer.Done? then WithTrash(g, g.trash + {what}) else g)
    case Restore(what, current) =>
      var answer := RestoreAnswer(g, what, current);
      (answer, if answer.Done? then WithTrash(g, g.trash - {what}) else g)
    case Import(id, r) =>
      if Storable(g, id, r) then (Done, WithRelation(g, id, r)) else (ObjectInTrash, g)
  }

  ghost function Apply(g: Graph, q: Request): Graph { Respond(g, q).1 }

  ghost function Run(g: Graph, requests: seq<Request>): Graph
    decreases |requests|
  {
    if requests == [] then g
    else Apply(Run(g, requests[..|requests| - 1]), requests[|requests| - 1])
  }

  // ------------------------------------------------------- the exact answers

  /** A known node, itself and its thread out of the trash. */
  ghost predicate Usable(g: Graph, id: Id) {
    id in g.nodes && NodeObject(id) !in g.trash && forall t :: g.nodes[id] == Some(t) ==> ThreadObject(t) !in g.trash
  }

  /** A relation is listed exactly if it is out of the trash and so is each of its ends that
      is known. */
  lemma ListedIs(g: Graph, r: Relation)
    ensures r in Live(g) <==>
              exists id :: id in g.relations && g.relations[id] == r && RelationObject(id) !in g.trash
                           && (r.source in g.nodes ==> Usable(g, r.source))
                           && (r.target in g.nodes ==> Usable(g, r.target))
  {
    forall id | id in g.relations
      ensures Shown(g, id) <==>
                && RelationObject(id) !in g.trash
                && (g.relations[id].source in g.nodes ==> Usable(g, g.relations[id].source))
                && (g.relations[id].target in g.nodes ==> Usable(g, g.relations[id].target))
    {
    }
  }

  /** A relation is stored exactly if its kind is one of the nine, it has an origin, both
      nodes are usable, its identifier is not in the trash, and, being a dependency of an
      acyclic graph, it leaves the graph acyclic. What it is refused for is the first of
      these that fails. */
  lemma ConnectIsExact(g: Graph, drawn: Id, a: Id, b: Id, kind: string, origin: string)
    requires Acyclic(Live(g))
    ensures var (answer, after) := Respond(g, Connect(drawn, a, b, kind, origin));
            var r := Relation(a, b, kind);
            var known := kind in {"contains", "depends_on", "assigned_to", "produced", "supports", "references",
                                  "blocks",
                                  "follows", "related_to"};
            var nodes := Usable(g, a) && Usable(g, b);
            && (answer == Done <==>
                  known && origin != "" && nodes && RelationObject(drawn) !in g.trash && Acyclic(Live(g) + {r}))
            && (answer == UnknownKind <==> !known)
            && (answer == MissingOrigin <==> known && origin == "")
            && (answer == CycleDetected <==> known && origin != "" && nodes && !Acyclic(Live(g) + {r}))
            && (answer == NodeNotFound ==> a !in g.nodes || b !in g.nodes)
            && (answer in {Done, UnknownKind, MissingOrigin, CycleDetected, NodeNotFound, ObjectInTrash})
            && after == if answer == Done then Graph(g.threads, g.nodes, g.relations[drawn := r], g.trash) else g
  {
    AcyclicExtension(Live(g), Relation(a, b, kind));
  }

  /** A new thread or node is stored, with its owner, exactly if neither it nor the owner is
      in the trash and a node's identifier is new. */
  lemma AddIsExact(g: Graph, id: Id, owner: Option<Id>)
    ensures var (threaded, more) := Respond(g, AddThread(id));
            && (threaded == Done <==> ThreadObject(id) !in g.trash)
            && more == if threaded == Done then Graph(g.threads + {id}, g.nodes, g.relations, g.trash) else g
    ensures var (added, after) := Respond(g, AddNode(id, owner));
            && (added == Done <==>
                  id !in g.nodes && NodeObject(id) !in g.trash
                  && forall t :: owner == Some(t) ==> ThreadObject(t) !in g.trash)
            && after == if added == Done then Graph(g.threads, g.nodes[id := owner], g.relations, g.trash) else g
  {
  }

  /** The trash gains and loses exactly the object, and only when that is there, recorded as
      the request names it, and on the other side. An import stores its relation exactly if
      it and its ends are out of the trash, an unknown end being no obstacle. */
  lemma TrashIsExact(g: Graph, what: Object, current: bool, id: Id, r: Relation)
    ensures var there := match what
                         case ThreadObject(t) => t in g.threads
                         case NodeObject(n) => n in g.nodes
                         case RelationObject(e) => e in g.relations;
            var (moved, trashed) := Respond(g, Trash(what, current));
            var (restored, shown) := Respond(g, Restore(what, current));
            && (moved == Done <==> there && what !in g.trash && current)
            && (restored == Done <==> there && what in g.trash && current)
            && trashed == (if moved == Done then Graph(g.threads, g.nodes, g.relations, g.trash + {what}) else g)
            && shown == (if restored == Done then Graph(g.threads, g.nodes, g.relations, g.trash - {what}) else g)
            && (moved != Done ==> moved in {ObjectNotFound, ObjectInTrash, NotCurrent})
            && (restored != Done ==> restored in {ObjectNotFound, NotInTrash, NotCurrent})
    ensures var (stored, after) := Respond(g, Import(id, r));
            && (stored == Done <==>
                  RelationObject(id) !in g.trash
                  && forall n :: n in {r.source, r.target} ==>
                      NodeObject(n) !in g.trash && (n in g.nodes ==> Usable(g, n)))
            && after == if stored == Done then Graph(g.threads, g.nodes, g.relations[id := r], g.trash) else g
  {
  }

  // ---------------------------------------------------------------- one step

  /** Writing a relation, new or over an old one, shows at most that relation more. */
  lemma WrittenIsShown(g: Graph, id: Id, r: Relation)
    requires Storable(g, id, r)
    ensures Live(WithRelation(g, id, r)) <= Live(g) + {r}
    ensures r in Live(WithRelation(g, id, r))
  {
    var h := WithRelation(g, id, r);
    assert Shown(h, id) && h.relations[id] == r;
    forall x | x in Live(h) ensures x in Live(g) + {r} {
      var i :| i in h.relations && Shown(h, i) && h.relations[i] == x;
      if i != id { assert Shown(g, i); }
    }
  }

  /** More in the trash shows less. */
  lemma TrashHides(g: Graph, trash: set<Object>)
    requires g.trash <= trash
    ensures Live(WithTrash(g, trash)) <= Live(g)
  {
    var h := WithTrash(g, trash);
    forall x | x in Live(h) ensures x in Live(g) {
      var i :| i in h.relations && Shown(h, i) && h.relations[i] == x;
      assert Shown(g, i);
    }
  }

  /** A new node shows no relation that was hidden. */
  lemma NodesDoNotShow(g: Graph, id: Id, owner: Option<Id>)
    requires id !in g.nodes
    ensures Live(Graph(g.threads, g.nodes[id := owner], g.relations, g.trash)) <= Live(g)
  {
    var h := Graph(g.threads, g.nodes[id := owner], g.relations, g.trash);
    forall x | x in Live(h) ensures x in Live(g) {
      var i :| i in h.relations && Shown(h, i) && h.relations[i] == x;
      assert Shown(g, i);
    }
  }

  /** Only a restore and an import can show a dependency that closes a path. */
  lemma OnlyUnsearched(g: Graph, q: Request)
    requires Acyclic(Live(g)) && !q.Restore? && !q.Import?
    ensures Acyclic(Live(Apply(g, q)))
  {
    var h := Apply(g, q);
    match q
    case AddThread(id) =>
      assert forall i :: i in g.relations ==> (Shown(h, i) <==> Shown(g, i));
      assert Live(h) <= Live(g);
      SubgraphAcyclic(Live(g), Live(h));
    case AddNode(id, owner) =>
      if id !in g.nodes { NodesDoNotShow(g, id, owner); }
      SubgraphAcyclic(Live(g), Live(h));
    case Connect(id, a, b, kind, origin) =>
      var r := Relation(a, b, kind);
      if ConnectAnswer(g, id, r, origin).Done? {
        WrittenIsShown(g, id, r);
        AcyclicExtension(Live(g), r);
        SubgraphAcyclic(Live(g) + {r}, Live(h));
      }
    case Trash(what, current) =>
      if h != g { TrashHides(g, g.trash + {what}); }
      SubgraphAcyclic(Live(g), Live(h));
  }

  /** The dependencies a request brings into view, and whether one of them closes a path
      over everything then in view: the search the request would need and does not run. */
  ghost predicate ShowsCycle(g: Graph, q: Request) {
    exists r :: r in Live(Apply(g, q)) - Live(g) && Closes(Live(Apply(g, q)), r)
  }

  /** One request, exactly: a graph without cycles keeps none if and only if no dependency
      it brings into view leads back to its own source. For a restore these are all the
      relations that were hidden by the restored object alone. */
  lemma StepKeepsAcyclic(g: Graph, q: Request)
    requires Acyclic(Live(g))
    ensures Acyclic(Live(Apply(g, q))) <==> !ShowsCycle(g, q)
    ensures !q.Restore? && !q.Import? ==> !ShowsCycle(g, q)
  {
    AcyclicChange(Live(g), Live(Apply(g, q)));
    if !q.Restore? && !q.Import? { OnlyUnsearched(g, q); }
  }

  /** What a restore can bring into view: the relation itself, those of the node, or those
      of the nodes the thread owns. */
  lemma RestoreBrings(g: Graph, what: Object, id: Id)
    requires !Shown(g, id) && Shown(WithTrash(g, g.trash - {what}), id)
    ensures match what
            case RelationObject(r) => id == r
            case NodeObject(n) => n in {g.relations[id].source, g.relations[id].target}
            case ThreadObject(t) =>
              exists n :: n in {g.relations[id].source, g.relations[id].target} && n in g.nodes && g.nodes[n] == Some(t)
  {
    var r := g.relations[id];
    assert what.ThreadObject? && HiddenNode(g.nodes, g.trash, r.source) ==> g.nodes[r.source] == Some(what.id);
    assert what.ThreadObject? && HiddenNode(g.nodes, g.trash, r.target) ==> g.nodes[r.target] == Some(what.id);
  }

  // ---------------------------------------------------------------- histories

  ghost predicate AlwaysAcyclic(g: Graph, requests: seq<Request>) {
    forall k :: 0 <= k <= |requests| ==> Acyclic(Live(Run(g, requests[..k])))
  }

  ghost predicate Searched(g: Graph, requests: seq<Request>) {
    forall k :: 0 <= k < |requests| && (requests[k].Restore? || requests[k].Import?)
      ==> !ShowsCycle(Run(g, requests[..k]), requests[k])
  }

  lemma RunStep(g: Graph, requests: seq<Request>, k: nat)
    requires k < |requests|
    ensures Run(g, requests[..k + 1]) == Apply(Run(g, requests[..k]), requests[k])
  {
    assert requests[..k + 1][..k] == requests[..k];
  }

  lemma {:induction false} SearchedPrefix(g: Graph, requests: seq<Request>, k: nat)
    requires Acyclic(Live(g)) && Searched(g, requests) && k <= |requests|
    ensures Acyclic(Live(Run(g, requests[..k])))
  {
    if k > 0 {
      SearchedPrefix(g, requests, k - 1);
      RunStep(g, requests, k - 1);
      StepKeepsAcyclic(Run(g, requests[..k - 1]), requests[k - 1]);
    }
  }

  /** Over every history: no cycle is ever in view exactly if every restore and every
      import found no dependency closing a path at its time. */
  lemma RunAcyclic(g: Graph, requests: seq<Request>)
    requires Acyclic(Live(g))
    ensures AlwaysAcyclic(g, requests) <==> Searched(g, requests)
  {
    if AlwaysAcyclic(g, requests) {
      forall k | 0 <= k < |requests|
        ensures !ShowsCycle(Run(g, requests[..k]), requests[k])
      {
        RunStep(g, requests, k);
        StepKeepsAcyclic(Run(g, requests[..k]), requests[k]);
      }
    }
    if Searched(g, requests) {
      forall k | 0 <= k <= |requests| ensures Acyclic(Live(Run(g, requests[..k]))) {
        SearchedPrefix(g, requests, k);
      }
    }
  }

  lemma EmptyAcyclic()
    ensures Live(EMPTY) == {} && Acyclic({})
  {
    forall loop: seq<Id> ensures !IsCycle({}, loop) {
      assert |loop| >= 2 ==> !Edge({}, loop[0], loop[1]);
    }
  }

  /** Without restores and imports no history ever shows a cycle. */
  lemma ConnectingIsAcyclic(requests: seq<Request>)
    requires forall k :: 0 <= k < |requests| ==> !requests[k].Restore? && !requests[k].Import?
    ensures AlwaysAcyclic(EMPTY, requests)
  {
    EmptyAcyclic();
    RunAcyclic(EMPTY, requests);
  }

  // ---------------------------------------------------------------- histories that fail

  function Dependency(a: Id, b: Id): Relation { Relation(a, b, DEPENDS_ON) }

  function Depend(drawn: Id, a: Id, b: Id): Request { Connect(drawn, a, b, DEPENDS_ON, "local") }

  function AddNodes(a: Id, b: Id, c: Id): seq<Request> { [AddNode(a, None), AddNode(b, None), AddNode(c, None)] }

  function Nodes(a: Id, b: Id, c: Id): map<Id, Option<Id>> { map[a := None, b := None, c := None] }

  ghost predicate Leads(requests: seq<Request>, g: Graph) { Run(EMPTY, requests) == g }

  lemma LeadsOn(requests: seq<Request>, g: Graph, q: Request)
    requires Leads(requests, g)
    ensures Leads(requests + [q], Apply(g, q))
  {
    assert (requests + [q])[..|requests|] == requests;
  }

  lemma RestoreShows(requests: seq<Request>, g: Graph, what: Object)
    requires Leads(requests, g) && g.trash == {what} && Exists(g, what)
    ensures Leads(requests + [Restore(what, true)], WithTrash(g, {}))
  {
    LeadsOn(requests, g, Restore(what, true));
    assert g.trash - {what} == {};
  }

  lemma NodesAdded(a: Id, b: Id, c: Id)
    requires a != b && b != c && c != a
    ensures Leads(AddNodes(a, b, c), Graph({}, Nodes(a, b, c), map[], {}))
  {
    var x, y, z := AddNode(a, None), AddNode(b, None), AddNode(c, None);
    LeadsOn([], EMPTY, x);
    LeadsOn([] + [x], Graph({}, map[a := None], map[], {}), y);
    LeadsOn([] + [x] + [y], Graph({}, map[a := None, b := None], map[], {}), z);
    assert [] + [x] + [y] + [z] == AddNodes(a, b, c);
  }

  /** A dependency between two nodes is stored when what is shown leads nowhere from its
      target. */
  lemma Connects(g: Graph, drawn: Id, a: Id, b: Id)
    requires NodeAnswer(g, a).Done? && NodeAnswer(g, b).Done? && RelationObject(drawn) !in g.trash && a != b
    requires forall y :: !Edge(Live(g), b, y)
    ensures Apply(g, Depend(drawn, a, b)) == WithRelation(g, drawn, Dependency(a, b))
  {
    OutOfReach(Live(g), {b}, b, a);
  }

  function TrashedRelation(a: Id, b: Id, r: Id, s: Id): seq<Request> {
    [Depend(r, a, b), Trash(RelationObject(r), true), Depend(s, b, a)]
  }

  lemma RelationHistory(a: Id, b: Id, c: Id, r: Id, s: Id)
    requires a != b && b != c && c != a && r != s
    ensures Leads(AddNodes(a, b, c) + TrashedRelation(a, b, r, s),
      Graph({}, Nodes(a, b, c), map[r := Dependency(a, b), s := Dependency(b, a)], {RelationObject(r)}))
  {
    var run0, q1, q2, q3 := AddNodes(a, b, c), Depend(r, a, b), Trash(RelationObject(r), true), Depend(s, b, a);
    NodesAdded(a, b, c);
    var g0 := Graph({}, Nodes(a, b, c), map[], {});
    Connects(g0, r, a, b);
    var g1 := WithRelation(g0, r, Dependency(a, b));
    LeadsOn(run0, g0, q1);
    var g2 := WithTrash(g1, {RelationObject(r)});
    LeadsOn(run0 + [q1], g1, q2);
    assert Live(g2) == {};
    Connects(g2, s, b, a);
    LeadsOn(run0 + [q1] + [q2], g2, q3);
    assert run0 + [q1] + [q2] + [q3] == run0 + TrashedRelation(a, b, r, s);
  }

  /** A relation in the trash is not searched: connect a to b, trash the relation, connect
      b to a, restore it. */
  lemma RestoredRelation(a: Id, b: Id, c: Id, r: Id, s: Id)
    requires a != b && b != c && c != a && r != s
    ensures !Acyclic(Live(Run(EMPTY, AddNodes(a, b, c) + TrashedRelation(a, b, r, s)
      + [Restore(RelationObject(r), true)])))
  {
    var run := AddNodes(a, b, c) + TrashedRelation(a, b, r, s);
    var relations := map[r := Dependency(a, b), s := Dependency(b, a)];
    RelationHistory(a, b, c, r, s);
    RestoreShows(run, Graph({}, Nodes(a, b, c), relations, {RelationObject(r)}), RelationObject(r));
    TwoWays(Graph({}, Nodes(a, b, c), relations, {}), a, b, r, s);
  }

  lemma TwoWays(g: Graph, a: Id, b: Id, r: Id, s: Id)
    requires r in g.relations && s in g.relations && Shown(g, r) && Shown(g, s)
    requires g.relations[r] == Dependency(a, b) && g.relations[s] == Dependency(b, a)
    ensures !Acyclic(Live(g))
  {
    assert Edge(Live(g), a, b) && Edge(Live(g), b, a);
    assert IsCycle(Live(g), [a, b, a]);
  }

  function TrashedNode(a: Id, b: Id, c: Id, r: Id, s: Id, t: Id): seq<Request> {
    [Depend(r, a, b), Depend(s, b, c), Trash(NodeObject(b), true), Depend(t, c, a)]
  }

  lemma ThreeWays(g: Graph, a: Id, b: Id, c: Id, r: Id, s: Id, t: Id)
    requires forall i :: i in {r, s, t} ==> i in g.relations && Shown(g, i)
    requires g.relations[r] == Dependency(a, b) && g.relations[s] == Dependency(b, c)
    requires g.relations[t] == Dependency(c, a)
    ensures !Acyclic(Live(g))
  {
    assert Edge(Live(g), a, b) && Edge(Live(g), b, c) && Edge(Live(g), c, a);
    assert IsCycle(Live(g), [a, b, c, a]);
  }

  lemma NodeHistory(a: Id, b: Id, c: Id, r: Id, s: Id, t: Id)
    requires a != b && b != c && c != a && r != s && s != t && t != r
    ensures Leads(AddNodes(a, b, c) + TrashedNode(a, b, c, r, s, t), Graph({}, Nodes(a, b, c),
      map[r := Dependency(a, b), s := Dependency(b, c), t := Dependency(c, a)], {NodeObject(b)}))
  {
    var run0, q1, q2 := AddNodes(a, b, c), Depend(r, a, b), Depend(s, b, c);
    var q3, q4 := Trash(NodeObject(b), true), Depend(t, c, a);
    NodesAdded(a, b, c);
    var g0 := Graph({}, Nodes(a, b, c), map[], {});
    Connects(g0, r, a, b);
    var g1 := WithRelation(g0, r, Dependency(a, b));
    LeadsOn(run0, g0, q1);
    Connects(g1, s, b, c);
    var g2 := WithRelation(g1, s, Dependency(b, c));
    LeadsOn(run0 + [q1], g1, q2);
    var g3 := WithTrash(g2, {NodeObject(b)});
    LeadsOn(run0 + [q1] + [q2], g2, q3);
    assert !Shown(g3, r) && !Shown(g3, s);
    Connects(g3, t, c, a);
    LeadsOn(run0 + [q1] + [q2] + [q3], g3, q4);
    assert run0 + [q1] + [q2] + [q3] + [q4] == run0 + TrashedNode(a, b, c, r, s, t);
  }

  /** The relations of a node in the trash are not searched either, though no relation
      was ever trashed: connect a to b and b to c, trash b, connect c to a, restore b. */
  lemma RestoredNode(a: Id, b: Id, c: Id, r: Id, s: Id, t: Id)
    requires a != b && b != c && c != a && r != s && s != t && t != r
    ensures !Acyclic(Live(Run(EMPTY, AddNodes(a, b, c) + TrashedNode(a, b, c, r, s, t)
      + [Restore(NodeObject(b), true)])))
  {
    var run := AddNodes(a, b, c) + TrashedNode(a, b, c, r, s, t);
    var relations := map[r := Dependency(a, b), s := Dependency(b, c), t := Dependency(c, a)];
    NodeHistory(a, b, c, r, s, t);
    RestoreShows(run, Graph({}, Nodes(a, b, c), relations, {NodeObject(b)}), NodeObject(b));
    ThreeWays(Graph({}, Nodes(a, b, c), relations, {}), a, b, c, r, s, t);
  }

  lemma ImportHistory(a: Id, b: Id, c: Id, r: Id)
    requires a != b && b != c && c != a
    ensures Leads(AddNodes(a, b, c) + [Depend(r, a, b)],
      Graph({}, Nodes(a, b, c), map[r := Dependency(a, b)], {}))
  {
    NodesAdded(a, b, c);
    var g0 := Graph({}, Nodes(a, b, c), map[], {});
    Connects(g0, r, a, b);
    LeadsOn(AddNodes(a, b, c), g0, Depend(r, a, b));
  }

  /** An import is stored without a search: nothing was ever in the trash. */
  lemma ImportedRelation(a: Id, b: Id, c: Id, r: Id, s: Id)
    requires a != b && b != c && c != a && r != s
    ensures !Acyclic(Live(Run(EMPTY, AddNodes(a, b, c) + [Depend(r, a, b)] + [Import(s, Dependency(b, a))])))
  {
    var run, g := AddNodes(a, b, c) + [Depend(r, a, b)], Graph({}, Nodes(a, b, c), map[r := Dependency(a, b)], {});
    ImportHistory(a, b, c, r);
    LeadsOn(run, g, Import(s, Dependency(b, a)));
    TwoWays(WithRelation(g, s, Dependency(b, a)), a, b, r, s);
  }

  // ---------------------------------------------------------------- the service

  /** Some enumeration of a finite set: Python's set iteration order. */
  method Listed(items: set<Id>) returns (list: seq<Id>)
    ensures forall x :: x in list <==> x in items
  {
    list := [];
    var rest := items;
    while rest != {}
      invariant rest <= items
      invariant forall x :: x in list <==> x in items - rest
      decreases rest
    {
      var x :| x in rest;
      list, rest := list + [x], rest - {x};
    }
  }

  class KnowledgeGraph {
    var threads: set<Id>
    var nodes: map<Id, Option<Id>>
    var relations: map<Id, Relation>
    var trash: set<Object>

    constructor ()
      ensures Value() == EMPTY
    {
      threads, nodes, relations, trash := {}, map[], map[], {};
    }

    function Value(): Graph
      reads this
    {
      Graph(threads, nodes, relations, trash)
    }

    /** The nodes whose relations are not listed. */
    method HiddenNodeIds() returns (hidden: set<Id>)
      ensures forall id :: id in hidden <==> HiddenNode(nodes, trash, id)
    {
      hidden := {};
      var rest := nodes.Keys;
      while rest != {}
        invariant rest <= nodes.Keys
        invariant forall id :: id in hidden <==> id in nodes.Keys - rest && HiddenNode(nodes, trash, id)
        decreases rest
      {
        var id :| id in rest;
        rest := rest - {id};
        if NodeObject(id) in trash || (nodes[id].Some? && ThreadObject(nodes[id].value) in trash) {
          hidden := hidden + {id};
        }
      }
    }

    /** Every relation whose own entry and endpoints are live, and no other. */
    method ListRelations() returns (listed: seq<Relation>)
      ensures forall r :: r in listed <==> r in Live(Value())
    {
      var hidden := HiddenNodeIds();
      listed := [];
      var rest := relations.Keys;
      while rest != {}
        invariant rest <= relations.Keys
        invariant forall r :: r in listed <==>
          exists id :: id in relations.Keys - rest && Shown(Value(), id) && relations[id] == r
        decreases rest
      {
        var id :| id in rest;
        rest := rest - {id};
        var r := relations[id];
        if RelationObject(id) !in trash && r.source !in hidden && r.target !in hidden {
          listed := listed + [r];
        }
      }
    }

    method OutgoingDependencies() returns (outgoing: map<Id, set<Id>>)
      ensures forall a, b :: Edge(Live(Value()), a, b) <==> a in outgoing && b in outgoing[a]
    {
      var listed := ListRelations();
      outgoing := map[];
      for i := 0 to |listed|
        invariant forall a, b :: Relation(a, b, DEPENDS_ON) in listed[..i] <==> a in outgoing && b in outgoing[a]
      {
        var r := listed[i];
        assert listed[..i + 1] == listed[..i] + [r];
        if r.kind == DEPENDS_ON {
          var known := if r.source in outgoing then outgoing[r.source] else {};
          outgoing := outgoing[r.source := known + {r.target}];
        }
      }
      assert listed[..|listed|] == listed;
    }

    /** The worklist search: it ends on every finite relation set and is true exactly
        when what is shown leads from the target to the source. */
    method CreatesDependencyCycle(source: Id, target: Id) returns (found: bool)
      ensures found <==> Reaches(Live(Value()), target, source)
    {
      ghost var live := Live(Value());
      SelfReaches(live, target);
      if source == target {
        return true;
      }
      var outgoing := OutgoingDependencies();
      ghost var universe := {target} + set r | r in live :: r.target;
      var pending := [target];
      var visited: set<Id> := {};
      while pending != []
        invariant target in visited || target in pending
        invariant visited <= universe && source !in visited
        invariant forall x :: x in pending ==> x in universe && Reaches(live, target, x)
        invariant forall a, b :: a in visited && Edge(live, a, b) ==> b in visited || b in pending
        decreases universe - visited, |pending|
      {
        var last := |pending| - 1;
        var current := pending[last];
        ghost var before := pending;
        pending := pending[..last];
        assert before == pending + [current];
        if current == source {
          return true;
        }
        if current !in visited {
          visited := visited + {current};
          var next := Listed(if current in outgoing then outgoing[current] else {});
          forall x | x in next ensures x in universe && Reaches(live, target, x) {
            assert Edge(live, current, x);
            assert Relation(current, x, DEPENDS_ON) in live;
            EdgeReaches(live, current, x);
            ReachesTransitive(live, target, current, x);
          }
          forall b | Edge(live, current, b) ensures b in next {
            assert Edge(Live(Value()), current, b);
          }
          pending := pending + next;
        }
      }
      OutOfReach(live, visited, target, source);
      found := false;
    }

    method GetNode(id: Id) returns (answer: Answer)
      ensures answer == NodeAnswer(Value(), id)
    {
      if NodeObject(id) in trash { return ObjectInTrash; }
      if id !in nodes { return NodeNotFound; }
      if nodes[id].Some? && ThreadObject(nodes[id].value) in trash { return ObjectInTrash; }
      return Done;
    }

    method SaveRelation(id: Id, r: Relation) returns (answer: Answer)
      modifies this`relations
      ensures answer == if Storable(old(Value()), id, r) then Done else ObjectInTrash
      ensures Value() == if answer.Done? then WithRelation(old(Value()), id, r) else old(Value())
    {
      if RelationObject(id) in trash { return ObjectInTrash; }
      var source := GetNode(r.source);
      if source.ObjectInTrash? { return ObjectInTrash; }
      var target := GetNode(r.target);
      if target.ObjectInTrash? { return ObjectInTrash; }
      relations := relations[id := r];
      return Done;
    }

    method CreateNode(drawn: Id, owner: Option<Id>) returns (answer: Answer)
      modifies this`nodes
      ensures (answer, Value()) == Respond(old(Value()), AddNode(drawn, owner))
    {
      if drawn in nodes { return NotFresh; }
      if NodeObject(drawn) in trash || (owner.Some? && ThreadObject(owner.value) in trash) {
        return ObjectInTrash;
      }
      nodes := nodes[drawn := owner];
      return Done;
    }

    /** A dependency is stored exactly when kind, origin and nodes are in order and what
        is shown does not lead back from its target; then no cycle arises, and a refusal
        for a cycle means that one would have arisen. */
    method Connect(drawn: Id, sourceId: Id, targetId: Id, kind: string, origin: string) returns (answer: Answer)
      modifies this`relations
      ensures (answer, Value()) == Respond(old(Value()), Request.Connect(drawn, sourceId, targetId, kind, origin))
      ensures old(Acyclic(Live(Value()))) ==> Acyclic(Live(Value()))
      ensures answer.CycleDetected? ==> !Acyclic(old(Live(Value())) + {Relation(sourceId, targetId, kind)})
    {
      ghost var g := Value();
      ghost var q := Request.Connect(drawn, sourceId, targetId, kind, origin);
      if Acyclic(Live(g)) { OnlyUnsearched(g, q); }
      if kind !in RELATION_KINDS { return UnknownKind; }
      if origin == "" { return MissingOrigin; }
      answer := GetNode(sourceId);
      if !answer.Done? { return; }
      answer := GetNode(targetId);
      if !answer.Done? { return; }
      if kind == DEPENDS_ON {
        var cycle := CreatesDependencyCycle(sourceId, targetId);
        if cycle {
          ghost var r := Relation(sourceId, targetId, kind);
          ClosesBefore(Live(g), r);
          ClosingEdge(Live(g) + {r}, r);
          return CycleDetected;
        }
      }
      answer := SaveRelation(drawn, Relation(sourceId, targetId, kind));
    }

    /** An imported relation is stored without the search. */
    method ImportRelation(id: Id, r: Relation) returns (answer: Answer)
      modifies this`relations
      ensures (answer, Value()) == Respond(old(Value()), Import(id, r))
      ensures old(Acyclic(Live(Value()))) ==> (Acyclic(Live(Value())) <==> !ShowsCycle(old(Value()), Import(id, r)))
    {
      ghost var g := Value();
      if Acyclic(Live(g)) { StepKeepsAcyclic(g, Import(id, r)); }
      answer := SaveRelation(id, r);
    }

    method MoveToTrash(what: Object, current: bool) returns (answer: Answer)
      modifies this`trash
      ensures (answer, Value()) == Respond(old(Value()), Trash(what, current))
      ensures old(Acyclic(Live(Value()))) ==> Acyclic(Live(Value()))
    {
      ghost var g := Value();
      if Acyclic(Live(g)) { OnlyUnsearched(g, Trash(what, current)); }
      if !Exists(Value(), what) { return ObjectNotFound; }
      if what in trash { return ObjectInTrash; }
      if !current { return NotCurrent; }
      trash := trash + {what};
      return Done;
    }

    /** Restoring runs no search either, and may show many relations at once. */
    method RestoreObject(what: Object, current: bool) returns (answer: Answer)
      modifies this`trash
      ensures (answer, Value()) == Respond(old(Value()), Restore(what, current))
      ensures old(Acyclic(Live(Value()))) ==>
                (Acyclic(Live(Value())) <==> !ShowsCycle(old(Value()), Restore(what, current)))
    {
      ghost var g := Value();
      if Acyclic(Live(g)) { StepKeepsAcyclic(g, Restore(what, current)); }
      if !current { return NotCurrent; }
      if what !in trash { return NotInTrash; }
      if !Exists(Value(), what) { return ObjectNotFound; }
      trash := trash - {what};
      return Done;
    }
  }
}
