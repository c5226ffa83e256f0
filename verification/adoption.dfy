/** Keeping what a later adoption of refused history will need, and using it. */
module Adoption {
  import opened Common
  import opened Documents
  import opened LifecycleGuard

  /** An object of the project graph. */
  datatype Ref = Ref(section: Section, origin: Origin)

  /** A retained object; the local identifiers that go with it are derived from origins. */
  datatype Payload = Payload(item: Fields, lifecycle: Option<Entry>)
  type Payloads = map<Ref, Payload>

  const RESTORED_ONCE := Entry(1, 2, Restored)

  predicate Present(d: Document, r: Ref) { r.origin in Items(d, r.section) }

  function Named(item: Fields, key: string): set<Ref> {
    if key in item && Text(item[key]) then {Ref(Nodes, item[key].json.s)} else {}
  }

  /** The owner of a node, the endpoints of a relation. */
  function Needs(s: Section, item: Fields): set<Ref> {
    if s.Nodes? then Named(item, "project_origin") else Named(item, "source") + Named(item, "target")
  }

  function PayloadOf(d: Document, r: Ref): Payload requires Present(d, r) {
    Payload(Items(d, r.section)[r.origin], StateAt(d, One(r.section, r.origin)))
  }

  function Refs(d: Document): (refs: set<Ref>)
    ensures forall r :: r in refs <==> Present(d, r)
  {
    (set o | o in d.nodes :: Ref(Nodes, o)) + (set o | o in d.relations :: Ref(Relations, o))
  }

  // ------------------------------------------------------------- retention

  predicate StatesPresent(d: Document) {
    d.lifecycle.Some? ==>
      d.lifecycle.value.nodes.Keys <= d.nodes.Keys && d.lifecycle.value.relations.Keys <= d.relations.Keys
  }

  /** The objects whose restored history a merge refused and which are missing here. */
  function Seeds(current: Document, conflicts: set<Conflict>): set<Ref> {
    set k | k in conflicts && k.StateConflict? && k.scope.One? && k.target == Some(RESTORED_ONCE)
            && !Present(current, Ref(k.scope.section, k.scope.origin)) :: Ref(k.scope.section, k.scope.origin)
  }

  /** `set` contains what its missing objects need. */
  predicate Closed(current: Document, incoming: Document, refs: set<Ref>) {
    forall r :: r in refs && !Present(current, r) && Present(incoming, r) ==>
      Needs(r.section, Items(incoming, r.section)[r.origin]) <= refs
  }

  /** The missing part of the least closed set around the seeds, with its content. */
  ghost predicate Retains(current: Document, incoming: Document, seeds: set<Ref>, payloads: Payloads) {
    && (forall r :: r in payloads ==>
         !Present(current, r) && Present(incoming, r) && payloads[r] == PayloadOf(incoming, r))
    && (forall r :: r in seeds ==> Present(current, r) || r in payloads)
    && (forall r, s :: r in payloads && s in Needs(r.section, payloads[r].item) ==>
         Present(current, s) || s in payloads)
    && (forall refs: set<Ref> :: seeds <= refs && Closed(current, incoming, refs) ==> payloads.Keys <= refs)
  }

  /** A document whose relations and owners stay inside it. */
  ghost predicate Linked(d: Document) {
    forall r, s :: Present(d, r) && s in Needs(r.section, Items(d, r.section)[r.origin]) ==> Present(d, s)
  }

  lemma OwnerNeeds(d: Document, item: Fields, s: Ref)
    requires OwnerOk(d.nodes, item) && s in Needs(Nodes, item)
    ensures Present(d, s)
  {
  }

  lemma EndpointNeeds(d: Document, item: Fields, s: Ref)
    requires RelationOk(d.nodes, item) && s in Needs(Relations, item)
    ensures Present(d, s)
  {
  }

  lemma PartsLinked(d: Document)
    requires forall o :: o in d.nodes ==> OwnerOk(d.nodes, d.nodes[o])
    requires forall o :: o in d.relations ==> RelationOk(d.nodes, d.relations[o])
    ensures Linked(d)
  {
    forall r, s | Present(d, r) && s in Needs(r.section, Items(d, r.section)[r.origin]) ensures Present(d, s) {
      if r.section.Nodes? {
        OwnerNeeds(d, d.nodes[r.origin], s);
      } else {
        EndpointNeeds(d, d.relations[r.origin], s);
      }
    }
  }

  lemma ValidLinked(d: Document)
    requires Structured(d)
    ensures Linked(d)
  {
    PartsLinked(d);
  }

  lemma SeedsIncoming(base: Document, incoming: Document, current: Document)
    requires Structured(incoming)
    ensures forall r :: r in Seeds(current, Guard(base, incoming, current)) ==> Present(incoming, r)
  {
    ValidStates(incoming);
    forall r | r in Seeds(current, Guard(base, incoming, current)) ensures Present(incoming, r) {
      SeedState(base, incoming, current, r);
    }
  }

  method SeedList(current: Document, conflicts: set<Conflict>) returns (pending: seq<Ref>)
    ensures forall r :: r in pending <==> r in Seeds(current, conflicts)
  {
    pending := [];
    var todo := Seeds(current, conflicts);
    while todo != {}
      invariant todo <= Seeds(current, conflicts)
      invariant forall r :: r in pending <==> r in Seeds(current, conflicts) - todo
      decreases |todo|
    {
      var r :| r in todo;
      pending := pending + [r];
      todo := todo - {r};
    }
  }

  predicate Settled(current: Document, payloads: Payloads, r: Ref) { Present(current, r) || r in payloads }

  /** Everything seen so far is settled or waiting. */
  predicate Awaited(current: Document, payloads: Payloads, pending: seq<Ref>, refs: set<Ref>) {
    forall r :: r in refs ==> Settled(current, payloads, r) || r in pending
  }

  /** What is retained or waiting belongs to every closed set around the seeds. */
  ghost predicate Forced(current: Document, incoming: Document, seeds: set<Ref>, payloads: Payloads,
                         pending: seq<Ref>) {
    forall refs: set<Ref> :: seeds <= refs && Closed(current, incoming, refs) ==>
      payloads.Keys <= refs && forall r :: r in pending ==> r in refs
  }

  predicate Copied(current: Document, incoming: Document, payloads: Payloads) {
    forall r :: r in payloads ==> !Present(current, r) && Present(incoming, r) && payloads[r] == PayloadOf(incoming, r)
  }

  predicate NeedsAwaited(current: Document, payloads: Payloads, pending: seq<Ref>) {
    forall r :: r in payloads ==> Awaited(current, payloads, pending, Needs(r.section, payloads[r].item))
  }

  method Pushed(pending: seq<Ref>, refs: set<Ref>) returns (more: seq<Ref>)
    ensures forall r :: r in more <==> r in pending || r in refs
  {
    more := pending;
    var todo := refs;
    while todo != {}
      invariant todo <= refs
      invariant forall r :: r in more <==> r in pending || r in refs - todo
      decreases |todo|
    {
      var r :| r in todo;
      more := more + [r];
      todo := todo - {r};
    }
  }

  /** `_restored_history_payloads`: a worklist that terminates on every linked document
      and retains exactly what a later adoption can need. */
  method RestoredHistoryPayloads(current: Document, incoming: Document, conflicts: set<Conflict>)
    returns (payloads: Payloads)
    requires Linked(incoming) && forall r :: r in Seeds(current, conflicts) ==> Present(incoming, r)
    ensures Retains(current, incoming, Seeds(current, conflicts), payloads)
  {
    payloads := map[];
    ghost var seeds := Seeds(current, conflicts);
    var pending := SeedList(current, conflicts);
    while pending != []
      invariant forall r :: r in pending ==> Present(incoming, r)
      invariant Copied(current, incoming, payloads)
      invariant Awaited(current, payloads, pending, seeds)
      invariant NeedsAwaited(current, payloads, pending)
      invariant Forced(current, incoming, seeds, payloads, pending)
      decreases Refs(incoming) - payloads.Keys, |pending|
    {
      var r := pending[|pending| - 1];
      var rest := pending[..|pending| - 1];
      assert forall x :: x in pending <==> x in rest || x == r;
      if Present(current, r) || r in payloads {
        pending := rest;
        continue;
      }
      var payload := PayloadOf(incoming, r);
      ghost var before := pending;
      pending := Pushed(rest, Needs(r.section, payload.item));
      RetainedAwaits(current, payloads, before, r, payload, pending, seeds);
      RetainedForced(current, incoming, seeds, payloads, before, r, payload, pending);
      payloads := payloads[r := payload];
    }
  }

  ghost predicate Replaced(before: seq<Ref>, r: Ref, payload: Payload, after: seq<Ref>) {
    && r in before && (forall x :: x in before ==> x == r || x in after)
    && (forall x :: x in Needs(r.section, payload.item) ==> x in after)
    && (forall x :: x in after ==> x in before || x in Needs(r.section, payload.item))
  }

  /** One more payload, its needs waiting: still nothing is forgotten, */
  lemma RetainedAwaits(current: Document, payloads: Payloads, before: seq<Ref>, r: Ref, payload: Payload,
                       after: seq<Ref>, seeds: set<Ref>)
    requires Replaced(before, r, payload, after)
    requires Awaited(current, payloads, before, seeds) && NeedsAwaited(current, payloads, before)
    ensures Awaited(current, payloads[r := payload], after, seeds)
    ensures r !in payloads ==> NeedsAwaited(current, payloads[r := payload], after)
  {
  }

  /** and still everything is forced. */
  lemma RetainedForced(current: Document, incoming: Document, seeds: set<Ref>, payloads: Payloads, before: seq<Ref>,
                       r: Ref, payload: Payload, after: seq<Ref>)
    requires Replaced(before, r, payload, after) && Forced(current, incoming, seeds, payloads, before)
    requires Present(incoming, r) && !Present(current, r) && payload == PayloadOf(incoming, r)
    ensures Forced(current, incoming, seeds, payloads[r := payload], after)
  {
    forall refs: set<Ref> | seeds <= refs && Closed(current, incoming, refs)
      ensures payloads[r := payload].Keys <= refs && forall x :: x in after ==> x in refs
    {
      assert r in refs;
    }
  }

  // --------------------------------------------------------------- filling in

  datatype Filling = Filled(document: Document) | Unavailable | WrongGeneration

  /** The keys a retained object must and may have. */
  predicate Intact(s: Section, payload: Payload) {
    if s.Nodes? then NODE_KEYS <= payload.item.Keys <= NODE_KEYS + {"project_origin"}
    else payload.item.Keys == RELATION_KEYS
  }

  function InSection(payloads: Payloads, s: Section): set<Ref> { set r | r in payloads && r.section == s }

  /** `target[section][origin] = ...`. */
  function Place(d: Document, r: Ref, item: Fields): Document {
    if r.section.Nodes? then d.(nodes := d.nodes[r.origin := item]) else d.(relations := d.relations[r.origin := item])
  }

  function SetState(d: Document, r: Ref, e: Entry): Document
    requires d.lifecycle.Some?
  {
    var l := d.lifecycle.value;
    d.(lifecycle := Some(if r.section.Nodes? then l.(nodes := l.nodes[r.origin := e])
                         else l.(relations := l.relations[r.origin := e])))
  }

  function StateOf(d: Document, r: Ref): Option<Entry> { StateAt(d, One(r.section, r.origin)) }

  /** One payload put in its place. */
  function Filled1(d: Document, r: Ref, payload: Payload): Document
    requires d.lifecycle.Some?
  {
    var e := Place(d, r, payload.item);
    if payload.lifecycle.Some? then SetState(e, r, payload.lifecycle.value) else e
  }

  /** How a document may have been filled: only missing objects were added, each from
      its payload; nothing present was touched. */
  ghost predicate FilledFrom(d: Document, e: Document, payloads: Payloads) {
    && e.format == d.format && e.thread == d.thread && e.whiteboard == d.whiteboard
    && e.lifecycle.Some? && d.lifecycle.Some? && e.lifecycle.value.thread == d.lifecycle.value.thread
    && (forall r :: Present(d, r) ==> Present(e, r) && Items(e, r.section)[r.origin] == Items(d, r.section)[r.origin])
    && (forall r :: Present(e, r) && !Present(d, r) ==>
         r in payloads && Items(e, r.section)[r.origin] == payloads[r].item)
    && (forall r :: StateOf(e, r) == if Present(e, r) && !Present(d, r) && payloads[r].lifecycle.Some?
                                     then payloads[r].lifecycle else StateOf(d, r))
  }

  /** The payloads hold what is missing of a reference and of everything it needs. */
  predicate Sufficient(d: Document, payloads: Payloads, r: Ref) {
    && |InSection(payloads, Nodes)| <= MAX_ITEMS && |InSection(payloads, Relations)| <= MAX_ITEMS
    && Settled(d, payloads, r)
    && (forall x :: x in payloads ==> Intact(x.section, payloads[x]))
    && (forall x, y :: x in payloads && y in Needs(x.section, payloads[x].item) ==> Settled(d, payloads, y))
  }

  /** A missing object whose recorded state differs from one the document already has. */
  predicate Disagrees(d: Document, payloads: Payloads, r: Ref) {
    && r in payloads && !Present(d, r)
    && payloads[r].lifecycle.Some? && StateOf(d, r).Some? && StateOf(d, r) != payloads[r].lifecycle
  }

  lemma PlaceAt(e: Document, r: Ref, item: Fields, x: Ref)
    ensures var f := Place(e, r, item);
            && (Present(f, x) <==> Present(e, x) || x == r)
            && (Present(f, x) ==>
                 Items(f, x.section)[x.origin] == if x == r then item else Items(e, x.section)[x.origin])
            && StateOf(f, x) == StateOf(e, x)
  {
  }

  lemma SetStateAt(e: Document, r: Ref, entry: Entry, x: Ref)
    requires e.lifecycle.Some?
    ensures Items(SetState(e, r, entry), x.section) == Items(e, x.section)
    ensures StateOf(SetState(e, r, entry), x) == if x == r then Some(entry) else StateOf(e, x)
  {
  }

  lemma Filled1At(e: Document, r: Ref, payload: Payload, x: Ref)
    requires e.lifecycle.Some?
    ensures var f := Filled1(e, r, payload);
            && (Present(f, x) <==> Present(e, x) || x == r)
            && (Present(f, x) ==>
                 Items(f, x.section)[x.origin] == if x == r then payload.item else Items(e, x.section)[x.origin])
            && (StateOf(f, x) == if x == r && payload.lifecycle.Some? then payload.lifecycle else StateOf(e, x))
  {
    PlaceAt(e, r, payload.item, x);
    if payload.lifecycle.Some? { SetStateAt(Place(e, r, payload.item), r, payload.lifecycle.value, x); }
  }

  lemma Placed(d: Document, e: Document, payloads: Payloads, r: Ref)
    requires FilledFrom(d, e, payloads) && r in payloads && !Present(e, r)
    ensures FilledFrom(d, Filled1(e, r, payloads[r]), payloads)
    ensures forall x :: Present(Filled1(e, r, payloads[r]), x) <==> Present(e, x) || x == r
  {
    var f := Filled1(e, r, payloads[r]);
    forall x
      ensures Present(f, x) <==> Present(e, x) || x == r
      ensures Present(d, x) ==> Present(f, x) && Items(f, x.section)[x.origin] == Items(d, x.section)[x.origin]
      ensures Present(f, x) && !Present(d, x) ==> x in payloads && Items(f, x.section)[x.origin] == payloads[x].item
      ensures StateOf(f, x) == if Present(f, x) && !Present(d, x) && payloads[x].lifecycle.Some?
                               then payloads[x].lifecycle else StateOf(d, x)
    {
      Filled1At(e, r, payloads[r], x);
    }
  }

  /** What is in the document now has its needs in the document or waiting. */
  ghost predicate FilledAwaits(d: Document, e: Document, payloads: Payloads, pending: seq<Ref>) {
    forall x, y :: Present(e, x) && !Present(d, x) && x in payloads && y in Needs(x.section, payloads[x].item) ==>
      Present(e, y) || y in pending
  }

  /** `refs` contains what the payloads say its missing members need. */
  predicate ClosedIn(d: Document, payloads: Payloads, refs: set<Ref>) {
    forall x :: x in refs && !Present(d, x) && x in payloads ==> Needs(x.section, payloads[x].item) <= refs
  }

  /** `x` is in the least such set around `r`: adopting `r` leads to `x`. */
  ghost predicate Drawn(d: Document, payloads: Payloads, r: Ref, x: Ref) {
    forall refs: set<Ref> :: r in refs && ClosedIn(d, payloads, refs) ==> x in refs
  }

  predicate Fits(payloads: Payloads) {
    |InSection(payloads, Nodes)| <= MAX_ITEMS && |InSection(payloads, Relations)| <= MAX_ITEMS
  }

  predicate Usable(d: Document, payloads: Payloads, x: Ref) {
    x in payloads && Intact(x.section, payloads[x]) && !Disagrees(d, payloads, x)
  }

  /** Every missing object adopting `r` leads to has a usable payload. */
  ghost predicate Available(d: Document, payloads: Payloads, r: Ref) {
    Fits(payloads) && forall x :: Drawn(d, payloads, r, x) && !Present(d, x) ==> Usable(d, payloads, x)
  }

  lemma DrawnNeeds(d: Document, payloads: Payloads, r: Ref, x: Ref)
    requires Drawn(d, payloads, r, x) && !Present(d, x) && x in payloads
    ensures forall y :: y in Needs(x.section, payloads[x].item) ==> Drawn(d, payloads, r, y)
  {
  }

  lemma FilledClosed(d: Document, e: Document, payloads: Payloads)
    requires FilledFrom(d, e, payloads) && FilledAwaits(d, e, payloads, [])
    ensures ClosedIn(d, payloads, Refs(e))
  {
    hide Needs, StateOf, FilledFrom, StateAt;
    forall x, y | x in Refs(e) && !Present(d, x) && x in payloads && y in Needs(x.section, payloads[x].item)
      ensures y in Refs(e)
    {
      assert Present(e, x);
      assert Present(e, y);
    }
  }

  /** What has been filled in completely is everything that was drawn in. */
  lemma FilledIsDrawn(d: Document, e: Document, payloads: Payloads, r: Ref)
    requires FilledFrom(d, e, payloads) && FilledAwaits(d, e, payloads, []) && Present(e, r)
    ensures forall x :: Drawn(d, payloads, r, x) ==> Present(e, x)
  {
    FilledClosed(d, e, payloads);
    assert r in Refs(e);
  }

  ghost predicate AllDrawn(d: Document, e: Document, payloads: Payloads, r: Ref, pending: seq<Ref>) {
    && (forall x :: x in pending ==> Drawn(d, payloads, r, x))
    && (forall x :: Present(e, x) && !Present(d, x) ==> Drawn(d, payloads, r, x) && Usable(d, payloads, x))
  }

  ghost predicate Midway(d: Document, e: Document, payloads: Payloads, r: Ref, pending: seq<Ref>) {
    && FilledFrom(d, e, payloads) && FilledAwaits(d, e, payloads, pending) && AllDrawn(d, e, payloads, r, pending)
    && (Present(e, r) || r in pending)
  }

  lemma MidwayStart(d: Document, payloads: Payloads, r: Ref)
    requires d.lifecycle.Some?
    ensures Midway(d, d, payloads, r, [r])
  {
  }

  /** What waits and is there already need not wait. */
  lemma MidwayDrop(d: Document, e: Document, payloads: Payloads, r: Ref, pending: seq<Ref>, x: Ref, rest: seq<Ref>)
    requires Midway(d, e, payloads, r, pending) && Present(e, x)
    requires forall y :: y in pending <==> y in rest || y == x
    ensures Midway(d, e, payloads, r, rest)
  {
  }

  lemma MidwayNext(d: Document, e: Document, payloads: Payloads, r: Ref, pending: seq<Ref>, x: Ref)
    requires Midway(d, e, payloads, r, pending) && x in pending && !Present(e, x)
    ensures Drawn(d, payloads, r, x) && !Present(d, x) && StateOf(e, x) == StateOf(d, x) && e.lifecycle.Some?
  {
  }

  /** One more object filled in, its needs waiting. */
  lemma MidwayPlace(d: Document, e: Document, payloads: Payloads, r: Ref, before: seq<Ref>, x: Ref, after: seq<Ref>)
    requires Midway(d, e, payloads, r, before) && e.lifecycle.Some?
    requires !Present(e, x) && Usable(d, payloads, x) && Replaced(before, x, payloads[x], after)
    ensures Midway(d, Filled1(e, x, payloads[x]), payloads, r, after)
    ensures Refs(Filled1(e, x, payloads[x])) == Refs(e) + {x}
  {
    Placed(d, e, payloads, x);
    DrawnNeeds(d, payloads, r, x);
  }

  lemma MidwayDone(d: Document, e: Document, payloads: Payloads, r: Ref)
    requires Midway(d, e, payloads, r, []) && Fits(payloads)
    ensures Available(d, payloads, r) && FilledFrom(d, e, payloads) && FilledAwaits(d, e, payloads, [])
    ensures forall x :: Present(e, x) <==> Present(d, x) || Drawn(d, payloads, r, x)
  {
    FilledIsDrawn(d, e, payloads, r);
  }

  /** `_missing_payloads`: fills in the missing object at `r` and what it transitively
      needs, nothing else. It succeeds exactly if each of these has a usable payload. */
  method MissingPayloads(d: Document, r: Ref, payloads: Payloads) returns (out: Filling)
    requires d.lifecycle.Some?
    ensures out.Filled? <==> Available(d, payloads, r)
    ensures out.Filled? ==> FilledFrom(d, out.document, payloads) && FilledAwaits(d, out.document, payloads, [])
    ensures out.Filled? ==> forall x :: Present(out.document, x) <==> Present(d, x) || Drawn(d, payloads, r, x)
    ensures out.WrongGeneration? ==> exists x :: Drawn(d, payloads, r, x) && Disagrees(d, payloads, x)
  {
    if |InSection(payloads, Nodes)| > MAX_ITEMS || |InSection(payloads, Relations)| > MAX_ITEMS { return Unavailable; }
    var target, pending := d, [r];
    MidwayStart(d, payloads, r);
    while pending != []
      invariant Midway(d, target, payloads, r, pending)
      decreases payloads.Keys - Refs(target), |pending|
    {
      var x := pending[|pending| - 1];
      var rest := pending[..|pending| - 1];
      assert x in pending && forall y :: y in pending <==> y in rest || y == x;
      if Present(target, x) {
        MidwayDrop(d, target, payloads, r, pending, x, rest);
        pending := rest;
        continue;
      }
      MidwayNext(d, target, payloads, r, pending, x);
      if x !in payloads || !Intact(x.section, payloads[x]) { return Unavailable; }
      var payload := payloads[x];
      if payload.lifecycle.Some? && StateOf(target, x).Some? && StateOf(target, x) != payload.lifecycle {
        return WrongGeneration;
      }
      ghost var before := pending;
      pending := Pushed(rest, Needs(x.section, payload.item));
      MidwayPlace(d, target, payloads, r, before, x, pending);
      target := Filled1(target, x, payload);
    }
    MidwayDone(d, target, payloads, r);
    out := Filled(target);
  }

  // ------------------------------------------------ retention serves adoption

  lemma OriginsBound(payloads: Payloads, s: Section, items: map<Origin, Fields>)
    requires forall r :: r in InSection(payloads, s) ==> r.origin in items
    ensures |InSection(payloads, s)| <= |items|
  {
    var refs := InSection(payloads, s);
    var origins := set r | r in refs :: r.origin;
    SameSize(refs, origins, s);
    Smaller(origins, items.Keys);
  }

  lemma {:induction false} Smaller<T>(a: set<T>, b: set<T>)
    requires a <= b
    ensures |a| <= |b|
    decreases a
  {
    if a != {} {
      var x :| x in a;
      Smaller(a - {x}, b - {x});
    }
  }

  lemma {:induction false} SameSize(refs: set<Ref>, origins: set<Origin>, s: Section)
    requires forall r :: r in refs ==> r.section == s
    requires origins == set r | r in refs :: r.origin
    ensures |refs| == |origins|
    decreases refs
  {
    if refs != {} {
      var r :| r in refs;
      var rest := refs - {r};
      assert forall x :: x in rest ==> x.origin != r.origin;
      SameSize(rest, set x | x in rest :: x.origin, s);
      assert origins == (set x | x in rest :: x.origin) + {r.origin};
    }
  }

  lemma CopiesIntact(incoming: Document, payloads: Payloads)
    requires forall r :: r in payloads ==> Present(incoming, r) && payloads[r] == PayloadOf(incoming, r)
    requires forall o :: o in incoming.nodes ==> NodeOk(incoming.nodes[o])
    requires forall o :: o in incoming.relations ==> RelationOk(incoming.nodes, incoming.relations[o])
    ensures forall r :: r in payloads ==> Intact(r.section, payloads[r])
  {
    forall r | r in payloads ensures Intact(r.section, payloads[r]) {
      if r.section.Nodes? {
        assert NodeOk(incoming.nodes[r.origin]);
      } else {
        assert RelationOk(incoming.nodes, incoming.relations[r.origin]);
      }
    }
  }

  lemma CopiesSettled(before: Document, incoming: Document, seeds: set<Ref>, payloads: Payloads, later: Document,
                      r: Ref)
    requires Retains(before, incoming, seeds, payloads) && r in seeds
    requires forall x :: Present(before, x) ==> Present(later, x)
    ensures Settled(later, payloads, r)
    ensures forall x, y :: x in payloads && y in Needs(x.section, payloads[x].item) ==> Settled(later, payloads, y)
  {
  }

  lemma ValidParts(d: Document)
    requires Structured(d)
    ensures |d.nodes| <= MAX_ITEMS && |d.relations| <= MAX_ITEMS
    ensures forall o :: o in d.nodes ==> NodeOk(d.nodes[o])
    ensures forall o :: o in d.relations ==> RelationOk(d.nodes, d.relations[o])
    ensures forall r :: StateOf(d, r).Some? ==> Present(d, r)
  {
  }

  /** What was retained when a merge refused an object suffices for adopting it into any
      later document that still has the objects present then. */
  lemma RetentionSuffices(before: Document, incoming: Document, seeds: set<Ref>,
                          payloads: Payloads, later: Document, r: Ref)
    requires Structured(incoming) && Retains(before, incoming, seeds, payloads) && r in seeds
    requires forall x :: Present(before, x) ==> Present(later, x)
    ensures Sufficient(later, payloads, r)
  {
    ValidParts(incoming);
    CopiesIntact(incoming, payloads);
    OriginsBound(payloads, Nodes, incoming.nodes);
    OriginsBound(payloads, Relations, incoming.relations);
    CopiesSettled(before, incoming, seeds, payloads, later, r);
  }

  // -------------------------------------------------------------- resolution

  datatype Resolution = Resolved(document: Document) | Refused

  /** Adopting a whole generation at once, tombstone and restore: the one change a
      resolution may make that a merge may not. */
  predicate Adopts(actual: Option<Entry>, chosen: Option<Entry>) {
    && (actual.None? || actual.value.state.Restored?)
    && chosen == Some(Entry(if actual.None? then 1 else actual.value.generation + 1, 2, Restored))
  }

  predicate MovesOrAdopts(actual: Option<Entry>, chosen: Option<Entry>) {
    Moves(actual, chosen) || Adopts(actual, chosen)
  }

  /** `target.setdefault("lifecycle", ...)`. */
  function WithLifecycle(d: Document): Document {
    d.(format := V2, lifecycle := if d.lifecycle.Some? then d.lifecycle else Some(Lifecycle(None, map[], map[])))
  }

  function Chosen(d: Document, scope: Scope, entry: Entry): Document {
    var e := WithLifecycle(d);
    if scope.Whole? then e.(lifecycle := Some(e.lifecycle.value.(thread := Some(entry))))
    else SetState(e, Ref(scope.section, scope.origin), entry)
  }

  lemma ChosenAt(d: Document, scope: Scope, entry: Entry, x: Scope)
    ensures StateAt(Chosen(d, scope, entry), x) == if x == scope then Some(entry) else StateAt(d, x)
    ensures ContentAt(Chosen(d, scope, entry), x) == ContentAt(d, x)
  {
  }

  /** Objects, fields and entries present before are as before, and what was added has
      all it needs. */
  ghost predicate OnlyAdded(d: Document, e: Document) {
    && e.thread == d.thread && e.whiteboard == d.whiteboard
    && (forall r :: Present(d, r) ==> Present(e, r) && Items(e, r.section)[r.origin] == Items(d, r.section)[r.origin])
    && (forall r, s :: Present(e, r) && !Present(d, r) && s in Needs(r.section, Items(e, r.section)[r.origin]) ==>
         Present(e, s))
  }

  /** The company of an adopted object may come with a first tombstone, but with no other
      history. */
  predicate Plain(payload: Payload) { payload.lifecycle.None? || Moves(None, payload.lifecycle) }

  /** When `r` can be adopted: the thread is not in the trash, and every missing object it
      leads to has an intact payload, that of `r` with no other state than the one adopted,
      those of its company plain. */
  ghost predicate Adoptable(d: Document, payloads: Payloads, r: Ref) {
    && Fits(payloads) && !Hidden(StateAt(d, Whole))
    && forall x :: Drawn(d, payloads, r, x) && !Present(d, x) ==>
         && x in payloads && Intact(x.section, payloads[x])
         && if x == r then payloads[r].lifecycle in {None, Some(RESTORED_ONCE)} else Plain(payloads[x])
  }

  /** A conflict the resolution may not override. */
  predicate Blocks(k: Conflict, adopting: bool, scope: Scope) {
    !(adopting && k.StateConflict? && k.scope == scope)
  }

  ghost predicate Unhindered(d: Document, target: Document, adopting: bool, scope: Scope) {
    forall k :: k in Guard(d, target, d) ==> !Blocks(k, adopting, scope)
  }

  lemma GuardLists(base: Document, incoming: Document, current: Document, x: Scope)
    ensures Passes(base, incoming, current, x)
            || ConflictAt(base, incoming, current, x) in Guard(base, incoming, current)
  {
    ScopePasses(base, incoming, current, x);
    if ReasonFor(base, incoming, current, x).Some? { assert x in Scopes(incoming) + Scopes(current); }
  }

  lemma Unblocked(d: Document, target: Document, adopting: bool, scope: Scope, x: Scope)
    requires Unhindered(d, target, adopting, scope)
    requires x != scope || !adopting
    ensures Passes(d, target, d, x)
    ensures StateAt(target, x) == StateAt(d, x) || Moves(StateAt(d, x), StateAt(target, x))
  {
    GuardLists(d, target, d, x);
  }

  lemma AllUnblocked(d: Document, target: Document, adopting: bool, scope: Scope)
    requires Unhindered(d, target, adopting, scope)
    ensures forall x :: x != scope ==> StateAt(target, x) == StateAt(d, x) || Moves(StateAt(d, x), StateAt(target, x))
    ensures !adopting ==>
              StateAt(target, scope) == StateAt(d, scope) || Moves(StateAt(d, scope), StateAt(target, scope))
  {
    forall x | x != scope ensures StateAt(target, x) == StateAt(d, x) || Moves(StateAt(d, x), StateAt(target, x)) {
      Unblocked(d, target, adopting, scope, x);
    }
    if !adopting { Unblocked(d, target, adopting, scope, scope); }
  }

  lemma NotBlocked(d: Document, target: Document, adopting: bool, scope: Scope)
    requires forall x :: x != scope || !adopting ==> Passes(d, target, d, x)
    ensures Unhindered(d, target, adopting, scope)
  {
    forall x | x != scope || !adopting ensures ReasonFor(d, target, d, x).None? { ScopePasses(d, target, d, x); }
  }

  function Adopting(d: Document, r: Ref): Document { Chosen(d, One(r.section, r.origin), RESTORED_ONCE) }

  lemma AdoptingAt(d: Document, r: Ref, x: Ref)
    ensures Present(Adopting(d, r), x) <==> Present(d, x)
    ensures StateOf(Adopting(d, r), x) == if x == r then Some(RESTORED_ONCE) else StateOf(d, x)
  {
    ChosenAt(d, One(r.section, r.origin), RESTORED_ONCE, One(x.section, x.origin));
  }

  /** Recording the adopted state leads to the same objects. */
  lemma DrawnAdopting(d: Document, payloads: Payloads, r: Ref, x: Ref)
    ensures Drawn(Adopting(d, r), payloads, r, x) <==> Drawn(d, payloads, r, x)
  {
    forall refs: set<Ref> ensures ClosedIn(Adopting(d, r), payloads, refs) <==> ClosedIn(d, payloads, refs) {
      forall y ensures Present(Adopting(d, r), y) <==> Present(d, y) { AdoptingAt(d, r, y); }
    }
  }

  lemma AvailableWhen(d: Document, payloads: Payloads, r: Ref)
    requires !Present(d, r) && StatesPresent(d)
    ensures Available(Adopting(d, r), payloads, r) <==>
            && Fits(payloads)
            && forall x :: Drawn(d, payloads, r, x) && !Present(d, x) ==>
                 && x in payloads && Intact(x.section, payloads[x])
                 && (x == r ==> payloads[r].lifecycle in {None, Some(RESTORED_ONCE)})
  {
    var t := Adopting(d, r);
    forall x
      ensures Drawn(t, payloads, r, x) <==> Drawn(d, payloads, r, x)
      ensures Present(t, x) <==> Present(d, x)
      ensures StateOf(t, x) == if x == r then Some(RESTORED_ONCE) else StateOf(d, x)
      ensures !Present(d, x) ==> StateOf(d, x).None?
    {
      DrawnAdopting(d, payloads, r, x);
      AdoptingAt(d, r, x);
    }
  }

  lemma CanonKeys(items: map<Origin, Fields>)
    ensures CanonItems(items).Keys == items.Keys
  {
  }

  /** A document with one more object differs for the whole project. */
  lemma AddedDiffers(d: Document, e: Document, r: Ref)
    requires Present(e, r) && !Present(d, r)
    ensures !SameContent(d, e, Whole) && !SameContent(e, d, Whole)
  {
    CanonKeys(d.nodes);
    CanonKeys(e.nodes);
    CanonKeys(d.relations);
    CanonKeys(e.relations);
  }

  /** What the adopted document looks like at another object: present as before, or added
      with the state of its payload. */
  lemma CompanyState(d: Document, filled: Document, payloads: Payloads, r: Ref, x: Ref)
    requires !Present(d, r) && StatesPresent(d) && x != r
    requires FilledFrom(Adopting(d, r), filled, payloads)
    ensures Present(d, x) ==> Present(filled, x) && Items(filled, x.section)[x.origin] == Items(d, x.section)[x.origin]
    ensures StateOf(filled, x) == if Present(filled, x) && !Present(d, x) && payloads[x].lifecycle.Some?
                                  then payloads[x].lifecycle else StateOf(d, x)
  {
    AdoptingAt(d, r, x);
  }

  /** Everywhere but at the adopted object the guard passes exactly if the thread is not in
      the trash and the added company is plain. */
  lemma CompanyPasses(d: Document, filled: Document, payloads: Payloads, r: Ref, x: Ref)
    requires !Present(d, r) && StatesPresent(d) && x != r
    requires FilledFrom(Adopting(d, r), filled, payloads)
    ensures Passes(d, filled, d, One(x.section, x.origin))
       <==> (Present(filled, x) && !Present(d, x) ==> Plain(payloads[x]))
  {
    CompanyState(d, filled, payloads, r, x);
  }

  lemma WholePasses(d: Document, filled: Document, payloads: Payloads, r: Ref)
    requires !Present(d, r) && Present(filled, r) && FilledFrom(Adopting(d, r), filled, payloads)
    ensures Passes(d, filled, d, Whole) <==> !Hidden(StateAt(d, Whole))
  {
    ChosenAt(d, One(r.section, r.origin), RESTORED_ONCE, Whole);
    AddedDiffers(d, filled, r);
  }

  /** The guard's verdict on a filled adoption. */
  lemma AdoptionVerdict(d: Document, filled: Document, payloads: Payloads, r: Ref)
    requires !Present(d, r) && StatesPresent(d) && Present(filled, r)
    requires FilledFrom(Adopting(d, r), filled, payloads)
    ensures Unhindered(d, filled, true, One(r.section, r.origin))
       <==> && !Hidden(StateAt(d, Whole))
            && forall x :: x != r && Present(filled, x) && !Present(d, x) ==> Plain(payloads[x])
  {
    var scope := One(r.section, r.origin);
    WholePasses(d, filled, payloads, r);
    forall x: Ref | x != r
      ensures Passes(d, filled, d, One(x.section, x.origin))
         <==> (Present(filled, x) && !Present(d, x) ==> Plain(payloads[x]))
    {
      CompanyPasses(d, filled, payloads, r, x);
    }
    if Unhindered(d, filled, true, scope) {
      Unblocked(d, filled, true, scope, Whole);
      forall x: Ref | x != r ensures Passes(d, filled, d, One(x.section, x.origin)) {
        Unblocked(d, filled, true, scope, One(x.section, x.origin));
      }
    }
    if !Hidden(StateAt(d, Whole)) && forall x :: x != r && Present(filled, x) && !Present(d, x) ==> Plain(payloads[x]) {
      forall y | y != scope ensures Passes(d, filled, d, y) {
        if y.One? {
          var z := Ref(y.section, y.origin);
          assert Passes(d, filled, d, One(z.section, z.origin));
        }
      }
      NotBlocked(d, filled, true, scope);
    }
  }

  /** For an object that is there, or the thread: only the chosen state can be in the way. */
  lemma ChosenVerdict(d: Document, scope: Scope, entry: Entry, adopting: bool)
    requires Some(entry) != StateAt(d, scope)
    ensures Unhindered(d, Chosen(d, scope, entry), adopting, scope)
       <==> adopting || Moves(StateAt(d, scope), Some(entry))
  {
    var e := Chosen(d, scope, entry);
    forall x ensures x != scope ==> Passes(d, e, d, x) { ChosenAt(d, scope, entry, x); }
    ChosenAt(d, scope, entry, scope);
    if adopting || Moves(StateAt(d, scope), Some(entry)) {
      NotBlocked(d, e, adopting, scope);
    } else if Unhindered(d, e, adopting, scope) {
      Unblocked(d, e, adopting, scope, scope);
    }
  }

  lemma FilledOnlyAdds(d: Document, scope: Scope, entry: Entry, filled: Document, payloads: Payloads)
    requires FilledFrom(Chosen(d, scope, entry), filled, payloads)
    requires FilledAwaits(Chosen(d, scope, entry), filled, payloads, [])
    ensures OnlyAdded(d, filled)
  {
    var target := Chosen(d, scope, entry);
    forall x ensures Present(target, x) <==> Present(d, x) {}
    forall x, y | Present(filled, x) && !Present(d, x) && y in Needs(x.section, Items(filled, x.section)[x.origin])
      ensures Present(filled, y)
    {
      assert x in payloads && !Present(target, x);
    }
  }

  lemma StatesAreOfObjects(d: Document)
    ensures StatesPresent(d) <==> forall r: Ref :: StateOf(d, r).Some? ==> Present(d, r)
  {
    if d.lifecycle.Some? && forall r: Ref :: StateOf(d, r).Some? ==> Present(d, r) {
      forall o | o in d.lifecycle.value.nodes ensures o in d.nodes {
        assert StateOf(d, Ref(Nodes, o)).Some? && (Present(d, Ref(Nodes, o)) <==> o in d.nodes);
      }
      forall o | o in d.lifecycle.value.relations ensures o in d.relations {
        assert StateOf(d, Ref(Relations, o)).Some? && (Present(d, Ref(Relations, o)) <==> o in d.relations);
      }
    }
  }

  /** States stay with objects that are there, and the thread's stays as it is. */
  predicate Kept(d: Document, e: Document, scope: Scope) {
    && (StatesPresent(d) ==> StatesPresent(e))
    && (scope.One? ==> StateAt(e, Whole) == StateAt(d, Whole))
  }

  lemma FilledKeeps(d: Document, scope: Scope, entry: Entry, filled: Document, payloads: Payloads)
    requires scope.One? && Present(filled, Ref(scope.section, scope.origin))
    requires FilledFrom(Chosen(d, scope, entry), filled, payloads)
    ensures Kept(d, filled, scope)
  {
    StatesAreOfObjects(d);
    StatesAreOfObjects(filled);
    forall r: Ref ensures StatesPresent(d) && StateOf(filled, r).Some? ==> Present(filled, r) {
      ChosenAt(d, scope, entry, One(r.section, r.origin));
    }
  }

  lemma ChosenKeeps(d: Document, scope: Scope, entry: Entry)
    requires !Missing(d, scope)
    ensures Kept(d, Chosen(d, scope, entry), scope)
  {
  }

  lemma ChosenAddsNothing(d: Document, scope: Scope, entry: Entry)
    ensures StateAt(Chosen(d, scope, entry), scope) == Some(entry) && OnlyAdded(d, Chosen(d, scope, entry))
  {
    ChosenAt(d, scope, entry, scope);
  }

  /** A missing object's first adoption is of its first restored generation. */
  lemma FirstAdoption(d: Document, scope: Scope, entry: Entry)
    requires Missing(d, scope) && StatesPresent(d)
    ensures Adopts(StateAt(d, scope), Some(entry)) <==> entry == RESTORED_ONCE
  {
    assert StateOf(d, Ref(scope.section, scope.origin)).None?;
  }

  /** Exactly what an adoption adds. */
  ghost predicate Added(d: Document, e: Document, payloads: Payloads, r: Ref) {
    forall x :: Present(e, x) <==> Present(d, x) || Drawn(d, payloads, r, x)
  }

  lemma AdoptingAdds(d: Document, e: Document, payloads: Payloads, r: Ref)
    requires forall x :: Present(e, x) <==> Present(Adopting(d, r), x) || Drawn(Adopting(d, r), payloads, r, x)
    ensures Added(d, e, payloads, r)
  {
    forall x ensures Present(e, x) <==> Present(d, x) || Drawn(d, payloads, r, x) {
      AdoptingAt(d, r, x);
      DrawnAdopting(d, payloads, r, x);
    }
  }

  /** With what contents and states: those of the payloads, the adopted object with the
      chosen state; what was present keeps both. */
  ghost predicate Brings(d: Document, e: Document, payloads: Payloads, r: Ref) {
    && (forall x :: Present(e, x) && !Present(d, x) ==>
          && x in payloads && Items(e, x.section)[x.origin] == payloads[x].item
          && StateOf(e, x) == if x == r then Some(RESTORED_ONCE) else payloads[x].lifecycle)
    && (forall x :: Present(d, x) ==> StateOf(e, x) == StateOf(d, x))
  }

  lemma AdoptingBrings(d: Document, e: Document, payloads: Payloads, r: Ref)
    requires StatesPresent(d) && !Present(d, r) && FilledFrom(Adopting(d, r), e, payloads)
    requires StateOf(e, r) == Some(RESTORED_ONCE)
    ensures Brings(d, e, payloads, r)
  {
    StatesAreOfObjects(d);
    forall x ensures Present(Adopting(d, r), x) <==> Present(d, x) { AdoptingAt(d, r, x); }
    forall x: Ref ensures StateOf(Adopting(d, r), x) == if x == r then Some(RESTORED_ONCE) else StateOf(d, x) {
      ChosenAt(d, One(r.section, r.origin), RESTORED_ONCE, One(x.section, x.origin));
    }
  }

  /** Nothing but the one state differs. */
  ghost predicate OnlyState(d: Document, e: Document, scope: Scope, chosen: Option<Entry>) {
    && e.format == V2 && e.thread == d.thread && e.nodes == d.nodes && e.relations == d.relations
    && e.whiteboard == d.whiteboard
    && forall x :: StateAt(e, x) == if x == scope then chosen else StateAt(d, x)
  }

  lemma ChosenOnly(d: Document, scope: Scope, entry: Entry)
    ensures OnlyState(d, Chosen(d, scope, entry), scope, Some(entry))
  {
    forall x ensures StateAt(Chosen(d, scope, entry), x) == if x == scope then Some(entry) else StateAt(d, x) {
      ChosenAt(d, scope, entry, x);
    }
  }

  predicate Missing(d: Document, scope: Scope) { scope.One? && !Present(d, Ref(scope.section, scope.origin)) }

  /** The filling of one adopted object, and when the guard lets it through. */
  method Adopted(d: Document, scope: Scope, entry: Entry, payloads: Payloads) returns (fill: Filling)
    requires Missing(d, scope)
    ensures fill.Filled? ==> StateAt(fill.document, scope) == Some(entry) && OnlyAdded(d, fill.document)
    ensures fill.Filled? ==> Kept(d, fill.document, scope)
    ensures StatesPresent(d) && entry == RESTORED_ONCE ==>
              (fill.Filled? && Unhindered(d, fill.document, true, scope)
               <==> Adoptable(d, payloads, Ref(scope.section, scope.origin)))
    ensures StatesPresent(d) && entry == RESTORED_ONCE && fill.Filled? ==>
              Added(d, fill.document, payloads, Ref(scope.section, scope.origin))
              && Brings(d, fill.document, payloads, Ref(scope.section, scope.origin))
  {
    var r := Ref(scope.section, scope.origin);
    var target := Chosen(d, scope, entry);
    ChosenAt(d, scope, entry, scope);
    fill := MissingPayloads(target, r, payloads);
    if fill.Filled? {
      FilledOnlyAdds(d, scope, entry, fill.document, payloads);
      FilledKeeps(d, scope, entry, fill.document, payloads);
      assert StateOf(fill.document, r) == StateAt(fill.document, scope);
    }
    if StatesPresent(d) && entry == RESTORED_ONCE {
      AvailableWhen(d, payloads, r);
      if fill.Filled? {
        AdoptingAdds(d, fill.document, payloads, r);
        AdoptingBrings(d, fill.document, payloads, r);
        AdoptionVerdict(d, fill.document, payloads, r);
      }
    }
  }

  /** The document with the chosen state, filled if its object is missing. */
  method Candidate(d: Document, scope: Scope, entry: Entry, adopting: bool, payloads: Payloads) returns (fill: Filling)
    requires Some(entry) != StateAt(d, scope) && (adopting <==> Adopts(StateAt(d, scope), Some(entry)))
    ensures fill.Filled? ==> StateAt(fill.document, scope) == Some(entry) && OnlyAdded(d, fill.document)
    ensures fill.Filled? ==> Kept(d, fill.document, scope)
    ensures !Missing(d, scope) ==>
              fill.Filled? && (Unhindered(d, fill.document, adopting, scope)
                               <==> adopting || Moves(StateAt(d, scope), Some(entry)))
    ensures Missing(d, scope) && StatesPresent(d) ==>
              (fill.Filled? && Unhindered(d, fill.document, adopting, scope)
               <==> entry == RESTORED_ONCE && Adoptable(d, payloads, Ref(scope.section, scope.origin)))
    ensures !Missing(d, scope) ==> fill.Filled? && OnlyState(d, fill.document, scope, Some(entry))
    ensures Missing(d, scope) && StatesPresent(d) && fill.Filled? ==>
              Added(d, fill.document, payloads, Ref(scope.section, scope.origin))
              && Brings(d, fill.document, payloads, Ref(scope.section, scope.origin))
  {
    if scope.One? && !Present(d, Ref(scope.section, scope.origin)) {
      if StatesPresent(d) { FirstAdoption(d, scope, entry); }
      if !adopting { return Unavailable; }
      fill := Adopted(d, scope, entry, payloads);
    } else {
      ChosenAddsNothing(d, scope, entry);
      ChosenVerdict(d, scope, entry, adopting);
      ChosenKeeps(d, scope, entry);
      ChosenOnly(d, scope, entry);
      fill := Filled(Chosen(d, scope, entry));
    }
  }

  lemma MissingStateless(d: Document, scope: Scope)
    requires Missing(d, scope) && StatesPresent(d)
    ensures StateAt(d, scope) == None
  {
    StatesAreOfObjects(d);
    assert StateOf(d, Ref(scope.section, scope.origin)) == StateAt(d, scope);
  }

  lemma KeptItself(d: Document, scope: Scope)
    ensures OnlyAdded(d, d) && Kept(d, d, scope)
  {
  }

  /** When a choice can be taken: it is the state there is; or its object is missing and its
      first restored generation can be adopted; or it is a move or an adoption. */
  ghost predicate Takes(d: Document, scope: Scope, choice: Option<Entry>, payloads: Payloads) {
    || choice == StateAt(d, scope)
    || if Missing(d, scope) then
         choice == Some(RESTORED_ONCE) && Adoptable(d, payloads, Ref(scope.section, scope.origin))
       else MovesOrAdopts(StateAt(d, scope), choice)
  }

  /** What taking it makes of the document. */
  ghost predicate TakenAs(d: Document, e: Document, scope: Scope, choice: Option<Entry>, payloads: Payloads) {
    if choice == StateAt(d, scope) then e == d
    else if Missing(d, scope) then
      var r := Ref(scope.section, scope.origin);
      OnlyAdded(d, e) && Added(d, e, payloads, r) && Brings(d, e, payloads, r) && StateAt(e, Whole) == StateAt(d, Whole)
    else OnlyState(d, e, scope, choice)
  }

  /** `resolve_document`: the chosen state is taken only as a move a merge could make or as
      the adoption of one whole generation; nothing but missing objects is added and no
      other state changes except by a move. For a missing object only the adoption of its
      first restored generation is possible, and exactly if it is adoptable; it then
      brings exactly what it leads to. For anything else a state is taken exactly if it is
      a move or an adoption. */
  method ResolveDocument(d: Document, scope: Scope, chosen: Option<Entry>, payloads: Payloads) returns (out: Resolution)
    ensures StatesPresent(d) ==>
              && (out.Resolved? <==> Takes(d, scope, chosen, payloads))
              && (out.Resolved? ==> TakenAs(d, out.document, scope, chosen, payloads))
    ensures chosen == StateAt(d, scope) ==> out == Resolved(d)
    ensures out.Resolved? ==> StateAt(out.document, scope) == chosen && OnlyAdded(d, out.document)
    ensures out.Resolved? ==> Kept(d, out.document, scope)
    ensures out.Resolved? ==> forall x :: x != scope ==>
              StateAt(out.document, x) == StateAt(d, x) || Moves(StateAt(d, x), StateAt(out.document, x))
    ensures !Missing(d, scope) ==>
              (out.Resolved? <==> chosen == StateAt(d, scope) || MovesOrAdopts(StateAt(d, scope), chosen))
    ensures out.Resolved? && chosen != StateAt(d, scope) ==> MovesOrAdopts(StateAt(d, scope), chosen)
    ensures Missing(d, scope) && StatesPresent(d) && chosen.Some? ==>
              (out.Resolved?
               <==> chosen.value == RESTORED_ONCE && Adoptable(d, payloads, Ref(scope.section, scope.origin)))
    ensures !Missing(d, scope) && out.Resolved? && chosen != StateAt(d, scope) ==>
              OnlyState(d, out.document, scope, chosen)
    ensures Missing(d, scope) && StatesPresent(d) && chosen.Some? && out.Resolved? ==>
              Added(d, out.document, payloads, Ref(scope.section, scope.origin))
              && Brings(d, out.document, payloads, Ref(scope.section, scope.origin))
  {
    hide StateAt, Adoptable, Added, Brings, OnlyAdded, OnlyState, Kept, StatesPresent, Guard;
    var actual := StateAt(d, scope);
    if Missing(d, scope) && StatesPresent(d) { MissingStateless(d, scope); }
    if chosen == actual {
      assert OnlyAdded(d, d) && Kept(d, d, scope) by { KeptItself(d, scope); }
      return Resolved(d);
    }
    if chosen.None? || chosen.value.state.Purged? { return Refused; }
    var adopting :=
      && chosen.value.state.Restored? && chosen.value.revision == 2
      && chosen.value.generation == (if actual.Some? then actual.value.generation else 0) + 1
      && (actual.None? || actual.value.state.Restored?);
    assert adopting <==> Adopts(actual, chosen) by {
      assert chosen.value == Entry(chosen.value.generation, chosen.value.revision, chosen.value.state);
    }
    var fill := Candidate(d, scope, chosen.value, adopting, payloads);
    if !fill.Filled? { return Refused; }
    var conflicts := GuardMerge(d, fill.document, d);
    if exists k :: k in conflicts && Blocks(k, adopting, scope) { return Refused; }
    AllUnblocked(d, fill.document, adopting, scope);
    out := Resolved(fill.document);
  }

  lemma SeedState(base: Document, incoming: Document, before: Document, r: Ref)
    requires r in Seeds(before, Guard(base, incoming, before))
    ensures StateOf(incoming, r) == Some(RESTORED_ONCE) && !Present(before, r)
  {
  }

  lemma ValidStates(d: Document)
    requires Structured(d)
    ensures StatesPresent(d)
  {
  }

  /** Everything drawn in is settled when the payloads suffice. */
  lemma DrawnIsSettled(d: Document, payloads: Payloads, r: Ref)
    requires Sufficient(d, payloads, r)
    ensures forall x :: Drawn(d, payloads, r, x) ==> Settled(d, payloads, x)
  {
    var refs := Refs(d) + payloads.Keys;
    assert ClosedIn(d, payloads, refs) by {
      forall x | x in refs && !Present(d, x) && x in payloads ensures Needs(x.section, payloads[x].item) <= refs {
        forall y | y in Needs(x.section, payloads[x].item) ensures Settled(d, payloads, y) {}
      }
    }
    assert r in refs;
  }

  lemma SufficientAdoptable(incoming: Document, later: Document, payloads: Payloads, r: Ref)
    requires Sufficient(later, payloads, r) && !Present(later, r) && StateOf(incoming, r) == Some(RESTORED_ONCE)
    requires forall x :: x in payloads ==> payloads[x].lifecycle == StateOf(incoming, x)
    ensures Adoptable(later, payloads, r)
       <==> !Hidden(StateAt(later, Whole)) && PlainCompany(incoming, later, payloads, r)
  {
    DrawnIsSettled(later, payloads, r);
  }

  /** What adopting `r` leads to has no history but first tombstones. */
  ghost predicate PlainCompany(incoming: Document, later: Document, payloads: Payloads, r: Ref) {
    forall x :: x != r && Drawn(later, payloads, r, x) && !Present(later, x) && StateOf(incoming, x).Some? ==>
      Moves(None, StateOf(incoming, x))
  }

  /** From refusal to adoption, exactly: an object whose restored history a merge refused
      can be adopted into a later valid document that still has the objects present at
      the refusal if and only if the thread is not in the trash and what it still leads
      to has no history but first tombstones. */
  lemma RetainedAdoptable(base: Document, incoming: Document, before: Document,
                          payloads: Payloads, later: Document, r: Ref)
    requires Structured(incoming)
    requires var seeds := Seeds(before, Guard(base, incoming, before));
             r in seeds && Retains(before, incoming, seeds, payloads)
    requires (forall x :: Present(before, x) ==> Present(later, x)) && !Present(later, r)
    ensures Adoptable(later, payloads, r)
       <==> !Hidden(StateAt(later, Whole)) && PlainCompany(incoming, later, payloads, r)
  {
    RetentionSuffices(before, incoming, Seeds(before, Guard(base, incoming, before)), payloads, later, r);
    SeedState(base, incoming, before, r);
    SufficientAdoptable(incoming, later, payloads, r);
  }

  lemma ClosedFewer(d: Document, e: Document, payloads: Payloads, refs: set<Ref>)
    requires (forall x :: Present(d, x) ==> Present(e, x)) && ClosedIn(d, payloads, refs)
    ensures ClosedIn(e, payloads, refs)
  {
  }

  lemma DrawnEarlier(d: Document, e: Document, payloads: Payloads, r: Ref, x: Ref)
    requires (forall y :: Present(d, y) ==> Present(e, y)) && Drawn(e, payloads, r, x)
    ensures Drawn(d, payloads, r, x)
  {
    forall refs: set<Ref> | r in refs && ClosedIn(d, payloads, refs) ensures x in refs {
      ClosedFewer(d, e, payloads, refs);
    }
  }

  lemma DrawnLater(d: Document, e: Document, payloads: Payloads, company: Ref, r: Ref, x: Ref)
    requires Added(d, e, payloads, company) && Drawn(d, payloads, r, x) && !Present(e, x)
    ensures Drawn(e, payloads, r, x)
  {
    forall refs: set<Ref> | r in refs && ClosedIn(e, payloads, refs) ensures x in refs {
      var more := refs + Refs(e);
      forall y | y in more && !Present(d, y) && y in payloads ensures Needs(y.section, payloads[y].item) <= more {
        if Present(e, y) { DrawnNeeds(d, payloads, company, y); }
      }
      assert ClosedIn(d, payloads, more);
    }
  }

  /** After the company was adopted, an object leads to what it led to before, without what
      the company brought. So company with restored history of its own stands in the way until it is adopted
      itself; adopting it first brings it and all it leads to, and then the object can
      be adopted exactly if the rest it leads to is usable and plain. */
  lemma CompanyFirst(d: Document, e: Document, payloads: Payloads, company: Ref, r: Ref)
    requires company != r && Drawn(d, payloads, r, company) && !Present(d, company) && !Present(d, r)
    requires company in payloads && payloads[company].lifecycle == Some(RESTORED_ONCE)
    requires Added(d, e, payloads, company) && StateAt(e, Whole) == StateAt(d, Whole) && !Present(e, r)
    ensures !Adoptable(d, payloads, r)
    ensures Adoptable(e, payloads, r) <==>
            && Fits(payloads) && !Hidden(StateAt(d, Whole))
            && forall x :: Drawn(d, payloads, r, x) && !Present(d, x) && !Drawn(d, payloads, company, x) ==>
                 && x in payloads && Intact(x.section, payloads[x])
                 && if x == r then payloads[r].lifecycle in {None, Some(RESTORED_ONCE)} else Plain(payloads[x])
  {
    forall x | !Present(e, x) ensures Drawn(e, payloads, r, x) <==> Drawn(d, payloads, r, x) {
      if Drawn(e, payloads, r, x) { DrawnEarlier(d, e, payloads, r, x); }
      if Drawn(d, payloads, r, x) { DrawnLater(d, e, payloads, company, r, x); }
    }
  }

  /** A node and a relation at it, both with restored history, were retained together. */
  predicate NodeAndRelation(payloads: Payloads, n: Ref, r: Ref) {
    && n.section.Nodes? && r.section.Relations? && payloads.Keys == {n, r}
    && Intact(Nodes, payloads[n]) && Intact(Relations, payloads[r])
    && payloads[n].lifecycle == payloads[r].lifecycle == Some(RESTORED_ONCE)
    && Needs(Nodes, payloads[n].item) == {} && Needs(Relations, payloads[r].item) == {n}
  }

  lemma NodeAdoptable(d: Document, payloads: Payloads, n: Ref, r: Ref)
    requires NodeAndRelation(payloads, n, r) && !Hidden(StateAt(d, Whole))
    ensures Adoptable(d, payloads, n) && Fits(payloads)
    ensures forall x :: Drawn(d, payloads, n, x) <==> x == n
  {
    assert InSection(payloads, Nodes) == {n} && InSection(payloads, Relations) == {r};
    assert ClosedIn(d, payloads, {n});
  }

  lemma RelationDraws(d: Document, payloads: Payloads, n: Ref, r: Ref)
    requires NodeAndRelation(payloads, n, r) && !Present(d, r)
    ensures forall x :: Drawn(d, payloads, r, x) <==> x in {n, r}
  {
    assert ClosedIn(d, payloads, {n, r});
  }

  /** The relation cannot be adopted first, though everything it needs was retained; the
      node can, and then the relation too. */
  method CompanyFirstRun(d: Document, payloads: Payloads, n: Ref, r: Ref)
    returns (relation: Resolution, node: Resolution, both: Resolution)
    requires NodeAndRelation(payloads, n, r) && StatesPresent(d) && !Hidden(StateAt(d, Whole))
    requires !Present(d, n) && !Present(d, r)
    ensures relation.Refused? && node.Resolved? && both.Resolved?
    ensures Present(both.document, n) && Present(both.document, r)
  {
    NodeAdoptable(d, payloads, n, r);
    RelationDraws(d, payloads, n, r);
    relation := ResolveDocument(d, One(r.section, r.origin), Some(RESTORED_ONCE), payloads);
    node := ResolveDocument(d, One(n.section, n.origin), Some(RESTORED_ONCE), payloads);
    CompanyFirst(d, node.document, payloads, n, r);
    both := ResolveDocument(node.document, One(r.section, r.origin), Some(RESTORED_ONCE), payloads);
  }
}
